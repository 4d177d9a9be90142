# desqueeze-daemon in Dafny

A model of the `Daemon` class of desqueeze-daemon. The daemon scans an
import directory for Sony raw files (`.ARW`) shot through an anamorphic
adapter. It converts each one to a DNG in the export directory and tags the
DNG with a 1.33 horizontal scale. It then embeds a 1024-wide preview and a
full-size desqueezed JPEG into the DNG, and finally deletes the raw file.

The model has five layers, one module each:

- `Classifier` (`classifier.dfy`) models `is_anamorphic`. The focal-length
  match `(\d+)\.\d+ mm` is a recursive-descent parser over ASCII digits. A
  declarative reading of the regular expression, `FocalPattern`, is proved
  equivalent to it. `Classify` returns the decision, or the `KeyError` or
  `TypeError` the Python code would raise.
- `Geometry` (`geometry.dfy`) models `calculate_desqueezed_size`,
  `get_scaled_size` and the centring offset of the thumbnail padding. The
  factor 1.33 is the exact fraction 133/100. Python's `round` is modelled by
  `RoundHalfEven`, which rounds an exact rational to the nearest integer and
  sends a half to the even neighbour.
- `Transform` (`transform.dfy`) models a wand image by its attributes
  (size, depth, colour space, format, quality, background) plus a history of
  operations. The class `Image` is the mutable object. `ResizeSrgb`,
  `GenerateJpegFromRaw` and `RenderThumbnail` change it step by step, and
  each is proved equal to a list of operations whose result is stated by a
  lemma.
- `Pipeline` (`pipeline.dfy`) treats every call to something outside the
  daemon as an `Event` that either succeeds or raises. These calls are
  exiftool, dnglab, wand reading or saving a file, and unlinking a file.
  `Exec` performs a plan of events until the first one raises. The plans of
  `add_thumbnails`, `desqueeze_file` and the scan loop are functions, and the
  ordering and clean-up properties are lemmas about them.
- `Orchestrator` (`orchestrator.dfy`) holds the class `Daemon`. Its state is
  the set of files present and the log of events performed. Each method
  mirrors one Python method and is proved to do exactly what `Exec` of its
  plan does. This covers both the state it leaves and the event it raised.

The outside world is the `Env` value. It gives the metadata exiftool reports
for each file, the image wand decodes from each DNG, and the set of external
calls that raise.

Three behaviours of the code are worth stating plainly, since a reader
might expect otherwise:

- The regular expression admits no letter before " mm", so the daemon's own
  `DEFAULT_FOCAL_LENGTH`, `"35.0A mm"`, does not parse
  (`Classifier.DefaultFocalLengthUnparsed`).
- Python's `round` sends a half to the even neighbour: a width of 50 becomes
  66, not 67 (`Geometry.DesqueezedSizeExamples`).
- Nothing is caught, so the first exception ends the scan and the remaining
  files are not looked at (`Orchestrator.Daemon.Desqueeze`).

## Model

| member | source | states |
|---|---|---|
| Classifier.ParseFocalLength | desqueeze_daemon/daemon.py:30-34 | the match of `(\d+)\.\d+ mm` and `int` of its group; an accepted string has at least six characters and starts with a digit (its exact shape is stated by the three lemmas below) |
| Classifier.ParseFocalLengthSound | desqueeze_daemon/daemon.py:30-34 | every accepted focal length has the shape digits, ".", digits, " mm", then anything; the value returned is the integer read from the first digit group |
| Classifier.ParseFocalLengthComplete | desqueeze_daemon/daemon.py:30-34 | every string of that shape is accepted, whatever text follows " mm", and yields the value of its leading digit group |
| Classifier.ParseFocalLengthMatchesPattern | desqueeze_daemon/daemon.py:30-32 | the parser succeeds if and only if the string has the regular expression's shape |
| Classifier.Classify | desqueeze_daemon/daemon.py:29-36 | the classifier raises exactly when FocalLength is missing or not a string, or when it parses to 0, 24 or 50 and FNumber is missing |
| Classifier.ClassifyFailsOpen | desqueeze_daemon/daemon.py:30-32 | a string focal length without the expected shape gives "not anamorphic" without raising |
| Classifier.ClassifyAnamorphicIff | desqueeze_daemon/daemon.py:29-36 | a file is anamorphic if and only if its focal length has the shape, its integer part is 0, 24 or 50, and its FNumber is "undef" or 0 |
| Classifier.DefaultFocalLengthUnparsed | desqueeze_daemon/daemon.py:20 | the default focal length "35.0A mm" does not parse |
| Classifier.GarbageUnparsed | desqueeze_daemon/daemon.py:30-32 | "garbage" does not parse |
| Classifier.Parses24 | desqueeze_daemon/daemon.py:30-34 | "24.0 mm" parses to 24 |
| Classifier.Parses0 | desqueeze_daemon/daemon.py:30-34 | "0.0 mm" parses to 0 |
| Classifier.Parses35 | desqueeze_daemon/daemon.py:30-34 | "35.0 mm" parses to 35 |
| Classifier.ParsesWithTrailingText | desqueeze_daemon/daemon.py:30-34 | text after " mm" is ignored: "50.0 mm ND" parses to 50 |
| Classifier.ParsesWithoutWordBoundary | desqueeze_daemon/daemon.py:30-34 | no word boundary is needed after "mm": "50.0 mmm" parses to 50 |
| Classifier.ParsesLeadingZero | desqueeze_daemon/daemon.py:30-34 | leading zeros are read as `int` reads them: "024.5 mm" parses to 24 |
| Classifier.ClassifiesUndefApertureAnamorphic | desqueeze_daemon/daemon.py:34-36 | "24.0 mm" with FNumber "undef" is anamorphic |
| Classifier.ClassifiesZeroApertureAnamorphic | desqueeze_daemon/daemon.py:34-36 | "0.0 mm" with FNumber 0 is anamorphic |
| Classifier.ClassifiesRecordedApertureNotAnamorphic | desqueeze_daemon/daemon.py:34-36 | "24.0 mm" with FNumber 2.8 is not anamorphic |
| Classifier.ClassifiesNonCandidateNotAnamorphic | desqueeze_daemon/daemon.py:34-36 | "35.0 mm" is not anamorphic, whatever the FNumber, and FNumber is never looked up |
| Classifier.ClassifyUnparsedExamples | desqueeze_daemon/daemon.py:30-32 | "garbage" and "35.0A mm" are not anamorphic, whatever the FNumber |
| Geometry.RoundHalfEven | desqueeze_daemon/daemon.py:144-146 | the result is the integer nearest to n/d, and an exact half goes to the even neighbour (Python's `round`) |
| Geometry.NearestEvenUnique | desqueeze_daemon/daemon.py:144-146 | exactly one integer meets that rounding rule |
| Geometry.RoundHalfEvenOfInteger | desqueeze_daemon/daemon.py:144-146 | rounding an integer returns that integer |
| Geometry.RoundHalfEvenMonotone | desqueeze_daemon/daemon.py:144-146 | rounding is monotone |
| Geometry.DesqueezedSize | desqueeze_daemon/daemon.py:139-149 | `calculate_desqueezed_size`: a portrait image keeps its width, a landscape or square one its height |
| Geometry.DesqueezedSizeStretchesOneAxis | desqueeze_daemon/daemon.py:139-149 | a portrait image keeps its width and gets height round(1.33 height); a landscape or square image keeps its height and gets width round(1.33 width) |
| Geometry.DesqueezedSizeGrowsAndKeepsOrientation | desqueeze_daemon/daemon.py:139-149 | neither axis shrinks; the result is portrait if and only if the input is; a non-empty image stays non-empty |
| Geometry.DesqueezedSizeExamples | desqueeze_daemon/daemon.py:139-149 | 1920x1080 gives 2554x1080, 1080x1920 gives 1080x2554, 50x50 gives 66x50 (tie to even), 150x40 gives 200x40 |
| Geometry.ScaledSize | desqueeze_daemon/daemon.py:129-130 | `get_scaled_size`: the width is the one requested and the height is `round(new_width * height / width)`, a half going to even |
| Geometry.ScaledSizeKeepsAspect | desqueeze_daemon/daemon.py:129-130 | the width is exactly the one requested and the height is within half a pixel of new_width * height / width, a tie going to even |
| Geometry.ScaledSizeOfSquare | desqueeze_daemon/daemon.py:129-130 | a square image scales to a square |
| Geometry.ScaledSizeExample | desqueeze_daemon/daemon.py:129-130 | 4000x3000 scaled to width 1024 is 1024x768 |
| Geometry.PadOffset | desqueeze_daemon/daemon.py:123 | minus the offset is `round((height - thumbnail_height) / 2)`, a half going to even |
| Geometry.PadOffsetCentres | desqueeze_daemon/daemon.py:122-125 | on a taller canvas the offset is never positive and keeps the thumbnail inside the canvas; the two bars differ by at most one row; for an odd difference the top bar is the even half, for an even one the bars are equal |
| Geometry.PadOffsetExamples | desqueeze_daemon/daemon.py:123 | differences of 3, 5 and 1 rows put 2, 2 and 0 rows above the thumbnail |
| Transform.ResizeProtocolResult | desqueeze_daemon/daemon.py:132-137 | after the resize the image has the requested size, depth 8 and sRGB; format, quality and background are unchanged; exactly the five steps were recorded, in order |
| Transform.ResizeRunsInLinearLight | desqueeze_daemon/daemon.py:133-135 | the resize step runs on a 16-bit image in linear RGB |
| Transform.JpegFromRawResult | desqueeze_daemon/daemon.py:79-85 | the full-size JPEG has quality 95 and the source's desqueezed size, in 8-bit sRGB |
| Transform.ThumbnailResult | desqueeze_daemon/daemon.py:115-125 | the thumbnail is a quality-95 JPEG of the requested width; it is padded to the requested height on black with the centring offset exactly when that height exceeds the scaled height; otherwise it has the scaled height and no background or extent step |
| Transform.Image.Do | desqueeze_daemon/daemon.py:133-137 | one attribute assignment or wand call changes the image as `Apply` says and is recorded in its history |
| Transform.ResizeSrgb | desqueeze_daemon/daemon.py:132-137 | the image ends in the state the five-step protocol gives |
| Transform.GenerateJpegFromRaw | desqueeze_daemon/daemon.py:79-85 | returns a new image in the full-size JPEG state; the source image is unchanged |
| Transform.RenderThumbnail | desqueeze_daemon/daemon.py:115-125 | returns a new image in the thumbnail state; the source image is unchanged |
| Pipeline.DngPath | desqueeze_daemon/daemon.py:152 | the DNG lies in the export directory, its name starts with the source's stem and ends in ".dng" |
| Pipeline.PreviewPath | desqueeze_daemon/daemon.py:66 | the temporary preview lies beside the DNG, its name extends the DNG's, and it is a different file |
| Pipeline.PipelinePathsDistinct | desqueeze_daemon/daemon.py:66 | the source, its DNG and the temporary preview are three different files |
| Pipeline.ScaleTagArgs | desqueeze_daemon/daemon.py:46-55 | the exiftool command is the fixed prefix, then "-FocalLength=<configured>" only when the recorded focal length is the number 0, then the DNG path last |
| Pipeline.FocalLengthNeverOverridden | desqueeze_daemon/daemon.py:52-53 | a file the classifier accepts has a string focal length, so the focal length is never overwritten for it |
| Pipeline.Exec | desqueeze_daemon/daemon.py:181-188 | running a plan only appends to the log, at most one entry per planned call, and the call that raised is one of the plan's |
| Pipeline.ExecPerformsPrefix | desqueeze_daemon/daemon.py:181-188 | a run stops at the first call that raises: it performs and logs exactly a prefix of its plan, and the next call raised |
| Pipeline.AddThumbnailsPlan | desqueeze_daemon/daemon.py:63-77 | `add_thumbnails` makes six calls, converts nothing, and the only file it unlinks is the temporary preview, which it does unlink |
| Pipeline.DesqueezeFilePlan | desqueeze_daemon/daemon.py:38-44 | `desqueeze_file` makes ten calls: the conversion of the source to its DNG first, the unlink of the source last |
| Pipeline.DesqueezeFileOrder | desqueeze_daemon/daemon.py:38-44 | `desqueeze_file` converts first and unlinks the source last, exactly once; each saved JPEG is embedded by the next step and unlinked by the one after; the preview is embedded before the full-size JPEG; the scale-tag command names the DNG last, and both embeds target the DNG |
| Pipeline.AddThumbnailsImages | desqueeze_daemon/daemon.py:63-77 | the preview is a 1024-wide quality-95 JPEG that keeps the desqueezed aspect ratio; the full-size JPEG has the desqueezed size in 8-bit sRGB |
| Pipeline.DesqueezeFileReplay | desqueeze_daemon/daemon.py:38-44 | after the full plan the files are the old ones plus the DNG, without the preview and without the source |
| Pipeline.DesqueezeFileOutcome | desqueeze_daemon/daemon.py:38-44 | the source is gone if and only if nothing raised; then the DNG exists, no preview remains, and both embeds are logged |
| Pipeline.FilePlan | desqueeze_daemon/daemon.py:182-190 | one iteration of the loop starts by reading the file's metadata |
| Pipeline.ScanPlan | desqueeze_daemon/daemon.py:178-190 | the loop plans at least one call per listed file |
| Pipeline.ScanReadsEveryFile | desqueeze_daemon/daemon.py:181-182 | the scan plans a metadata read (`get_metadata`) for every listed file |
| Pipeline.DngPathNotInjective | desqueeze_daemon/daemon.py:152 | two sources whose names differ only in the suffix, such as `DSC1.ARW` and `DSC1.arw`, get the same DNG path |
| Pipeline.FilePlanConversions | desqueeze_daemon/daemon.py:182-187 | one iteration converts its file exactly when the file is a selected ARW file, and converts nothing else |
| Pipeline.FilePlanUnlinks | desqueeze_daemon/daemon.py:182-187 | the only import-directory file one iteration may unlink is its own source, and only when that source is selected |
| Pipeline.FilePlanUnlinksSourceLast | desqueeze_daemon/daemon.py:182-187 | within one iteration the source is unlinked as the eleventh step, after its conversion, its scale tagging and both embeds |
| Pipeline.ScanConvertsSelected | desqueeze_daemon/daemon.py:181-187 | the scan plan converts exactly the ARW files the classifier accepts, once each, in listing order |
| Pipeline.ScanUnlinksOnlySelected | desqueeze_daemon/daemon.py:181-187 | an import-directory file the scan plan unlinks is one of the listed files and was selected |
| Pipeline.ScanLeavesUnselectedFiles | desqueeze_daemon/daemon.py:178-190 | wherever the scan stops, an import-directory file that is not listed, or is listed but not selected, is still there |
| Pipeline.ScanUnlinksSourceLast | desqueeze_daemon/daemon.py:181-187 | in the scan plan, each unlink of an import-directory file comes after its conversion, its scale tagging and both embeds, at fixed distances |
| Pipeline.ScanRunUnlinksSourceLast | desqueeze_daemon/daemon.py:181-187 | in the log of any run of the scan, a source is unlinked only after its conversion, its scale tagging and both embeds have returned |
| Orchestrator.Daemon.constructor | desqueeze_daemon/daemon.py:23-27 | the daemon starts with the default focal length, distinct import and export directories, and an empty log |
| Orchestrator.Daemon.Perform | desqueeze_daemon/daemon.py:153-166 | one external call (`check=True`) either takes effect and is logged, or raises and changes nothing |
| Orchestrator.Daemon.GetMetadata | desqueeze_daemon/daemon.py:169-176 | returns exiftool's record for the file, or raises with nothing changed |
| Orchestrator.Daemon.ConvertToDng | desqueeze_daemon/daemon.py:151-167 | the DNG path is the export directory plus the source's stem plus ".dng"; the conversion is performed or raises |
| Orchestrator.Daemon.SetDngAnamorphicRatio | desqueeze_daemon/daemon.py:46-61 | the command built by appending is `ScaleTagArgs`, and it runs once |
| Orchestrator.Daemon.SetAndDeleteJpegThumbnail | desqueeze_daemon/daemon.py:87-105 | embeds, then unlinks the temporary file; the unlink is not attempted if the embed raised |
| Orchestrator.Daemon.GenerateJpegThumbnail | desqueeze_daemon/daemon.py:107-127 | saves the thumbnail state of the image to the given path |
| Orchestrator.Daemon.AddThumbnails | desqueeze_daemon/daemon.py:63-77 | the files and log end as running the `add_thumbnails` plan leaves them, stopping at the first call that raises |
| Orchestrator.Daemon.DesqueezeFile | desqueeze_daemon/daemon.py:38-44 | the files and log end as running the `desqueeze_file` plan leaves them, stopping at the first call that raises |
| Orchestrator.Daemon.Desqueeze | desqueeze_daemon/daemon.py:178-190 | the loop leaves the files and log as running the scan plan does; the first exception ends the scan |

## Left out

- desqueeze_daemon/scheduler.py (the periodic `schedule` loop and the logger set-up) is not part of this model: it is timing and process plumbing.
- The subprocesses are abstract events. The dnglab command line, exiftool's JSON output and its decoding, and the exit codes are not modelled. Which calls raise is a parameter (`Env.failing`).
- Pixel work is not modelled: Lanczos filtering, colour conversion, JPEG encoding and what `thumbnail` and `extent` draw. Images are their attributes only.
- Closing the image at the end of the `with` block has no visible effect in the model and is left out.
- Logging is left out. So are `iterdir` and its `is_file` filter: `Desqueeze` takes the list of files, in the order given.
- Geometry.RoundHalfEven: rounds the exact rational. Python rounds the double nearest to `width * 1.33`. The two agree for pixel sizes a camera produces; the model assumes this and does not prove it.
- Classifier.ParseFocalLength: `\d` is read as the ASCII digits 0-9. Python's `\d` also matches other Unicode decimal digits.
- Base.TagValue: an exiftool value is a string or a number. JSON lists, booleans and null are not modelled.
- Pipeline.Decodable: decoded DNGs are assumed to have a positive width and height. The `ZeroDivisionError` that `get_scaled_size` would raise for a zero width is therefore not modelled.
- Pipeline.World: the world records which files exist, not their contents, and `Env.decoded` is keyed by the DNG path. Two sources with the same stem share one DNG (`Pipeline.DngPathNotInjective`), so when `dnglab convert -f` overwrites the first file's finished DNG after its raw was unlinked, the model cannot see the loss, and both files decode to the same image.
- Orchestrator.Daemon.SetAndDeleteJpegThumbnail: the embed is the event `Embed(dng, slot, thumbnail)`. Its exiftool argument list is not spelled out as a list of strings.
- Orchestrator.Daemon.Desqueeze: the faults are the ones the daemon's own code raises, `KeyError` for a missing key and `TypeError` for a non-string focal length. Other exception types and messages are not distinguished; a raise records only which call raised.
