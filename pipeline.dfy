/** The per-file pipeline and the scan, as sequences of external events.

    Every call the daemon makes to something outside itself (exiftool,
    dnglab, wand reading or saving a file, unlinking a file) is an `Event`
    that either succeeds or raises.  The daemon has no `try`/`except`
    anywhere, so an exception ends the whole scan: `Exec` performs a planned
    sequence of events until the first one that raises.  The plans below are
    what `desqueeze_file`, `add_thumbnails`, `set_and_delete_jpeg_thumbnail`
    and `desqueeze` would do if nothing raised. */
module Pipeline {
  import opened Base
  import opened Classifier
  import opened Geometry
  import opened Transform

  datatype Path = Path(dir: string, name: string)

  function Posix(p: Path): string {
    p.dir + "/" + p.name
  }

  /** The daemon's configuration: the import and export directories and the
      focal length written over a recorded 0. */
  datatype Config = Config(importDir: string, exportDir: string, focalLength: string)

  predicate ValidConfig(cfg: Config) {
    cfg.importDir != cfg.exportDir
  }

  /** What the outside world answers: the record exiftool reports for a file,
      the image wand decodes from a DNG, and the external calls that raise. */
  datatype Env = Env(exif: Path -> Metadata, decoded: Path -> ImageState, failing: set<Event>)

  /** wand never decodes an empty image. */
  ghost predicate Decodable(env: Env) {
    forall p :: env.decoded(p).width > 0 && env.decoded(p).height > 0
  }

  /** The index of the last '.' in `name`, or -1. */
  function LastDot(name: string): (i: int)
    ensures -1 <= i < |name|
    ensures i >= 0 ==> name[i] == '.'
    ensures forall j :: i < j < |name| ==> name[j] != '.'
  {
    if name == [] then -1
    else if name[|name| - 1] == '.' then |name| - 1
    else LastDot(name[..|name| - 1])
  }

  /** pathlib's stem: the name without its suffix, where a suffix is a last
      '.' that is neither the first nor the last character. */
  function Stem(name: string): string {
    var i := LastDot(name);
    if 0 < i < |name| - 1 then name[..i] else name
  }

  /** `(export_path / filepath.name).with_suffix(".dng")`. */
  function DngPath(cfg: Config, source: Path): (dng: Path)
    ensures dng.dir == cfg.exportDir && Stem(source.name) <= dng.name
    ensures |dng.name| >= 4 && dng.name[|dng.name| - 4..] == ".dng"
  {
    Path(cfg.exportDir, Stem(source.name) + ".dng")
  }

  /** `image_path.parent / (image_path.name + "_preview.jpg")`. */
  function PreviewPath(dng: Path): (tmp: Path)
    ensures tmp.dir == dng.dir && dng.name <= tmp.name && tmp != dng
  {
    Path(dng.dir, dng.name + "_preview.jpg")
  }

  /** The source, its DNG and the temporary preview are three different files. */
  lemma PipelinePathsDistinct(cfg: Config, source: Path)
    requires ValidConfig(cfg) && source.dir == cfg.importDir
    ensures var dng := DngPath(cfg, source);
      source != dng && source != PreviewPath(dng) && dng != PreviewPath(dng)
      && Stem(source.name) <= source.name
  {
    var dng := DngPath(cfg, source);
    assert |PreviewPath(dng).name| == |dng.name| + 12;
  }

  datatype Event =
    | ReadMetadata(path: Path)                      // exiftool -j
    | Convert(source: Path, dng: Path)              // dnglab convert -f --crop none
    | Open(path: Path)                              // wand reads the DNG
    | WriteTags(path: Path, args: seq<string>)      // exiftool writing the scale tag
    | SaveJpeg(path: Path, image: ImageState)       // wand saves a JPEG
    | Embed(path: Path, slot: string, thumbnail: Path) // exiftool embedding a JPEG
    | Unlink(path: Path)                            // pathlib unlink
    | Raise(path: Path, fault: Fault)               // the daemon's own KeyError or TypeError

  const Exiftool: string := "/usr/bin/exiftool"
  const OverwriteInPlace: string := "-overwrite_original_in_place"
  const DefaultScaleArg: string := "-DefaultScale=1.33 1"
  const PreviewSlot: string := "PreviewImage"
  const FullSizeSlot: string := "JpgFromRaw"
  const PreviewWidth: int := 1024

  /** `image_metadata["FocalLength"] == 0`: true only for the number 0, never
      for a string such as "0.0 mm". */
  predicate OverridesFocalLength(m: Metadata)
    requires "FocalLength" in m
  {
    m["FocalLength"] == Number(0.0)
  }

  /** The command line of `set_dng_anamorphic_ratio`: the scale tag, the
      configured focal length when the recorded one is the number 0, and the
      DNG path last. */
  function ScaleTagArgs(cfg: Config, m: Metadata, dng: Path): (args: seq<string>)
    requires "FocalLength" in m
    ensures |args| == (if OverridesFocalLength(m) then 5 else 4)
    ensures args[..3] == [Exiftool, OverwriteInPlace, DefaultScaleArg]
    ensures OverridesFocalLength(m) ==> args[3] == "-FocalLength=" + cfg.focalLength
    ensures args[|args| - 1] == Posix(dng)
  {
    [Exiftool, OverwriteInPlace, DefaultScaleArg]
    + (if OverridesFocalLength(m) then ["-FocalLength=" + cfg.focalLength] else [])
    + [Posix(dng)]
  }

  /** A file the daemon desqueezes had a string focal length (the regular
      expression needs one), so the `== 0` test of `set_dng_anamorphic_ratio`
      never holds for it and the configured focal length is never written. */
  lemma FocalLengthNeverOverridden(cfg: Config, m: Metadata, dng: Path)
    requires Classify(m) == Ok(true)
    ensures "FocalLength" in m && !OverridesFocalLength(m)
    ensures ScaleTagArgs(cfg, m, dng) == [Exiftool, OverwriteInPlace, DefaultScaleArg, Posix(dng)]
  {
  }

  // ---------------------------------------------------------------------
  // Performing events

  datatype World = World(files: set<Path>, log: seq<Event>)

  datatype Run = Run(world: World, raised: Option<Event>)

  /** An event succeeds unless the outside world makes it raise; unlinking a
      missing file raises, and the daemon's own faults always do. */
  predicate Succeeds(failing: set<Event>, files: set<Path>, e: Event) {
    !e.Raise? && e !in failing && (e.Unlink? ==> e.path in files)
  }

  /** The files present after a successful event. */
  function Effect(files: set<Path>, e: Event): set<Path> {
    match e
    case Convert(_, dng) => files + {dng}
    case SaveJpeg(p, _) => files + {p}
    case Unlink(p) => files - {p}
    case _ => files
  }

  /** The files present after a sequence of successful events. */
  function Replay(files: set<Path>, es: seq<Event>): set<Path>
    decreases |es|
  {
    if es == [] then files else Replay(Effect(files, es[0]), es[1..])
  }

  /** Perform `es` in order until one raises; the log records the events
      that succeeded, and `raised` the one that did not. */
  function Exec(failing: set<Event>, w: World, es: seq<Event>): (r: Run)
    ensures w.log <= r.world.log && |r.world.log| <= |w.log| + |es|
    ensures r.raised.Some? ==> r.raised.value in es
    decreases |es|
  {
    if es == [] then Run(w, None)
    else if Succeeds(failing, w.files, es[0]) then
      Exec(failing, World(Effect(w.files, es[0]), w.log + [es[0]]), es[1..])
    else Run(w, Some(es[0]))
  }

  /** How many events of `es` succeed, one after the other, before the
      first that raises. */
  function Completed(failing: set<Event>, files: set<Path>, es: seq<Event>): (k: nat)
    ensures k <= |es|
    decreases |es|
  {
    if es == [] || !Succeeds(failing, files, es[0]) then 0
    else 1 + Completed(failing, Effect(files, es[0]), es[1..])
  }

  /** Concatenation regroups freely. */
  lemma AppendAssoc<T>(x: seq<T>, y: seq<T>, z: seq<T>)
    ensures (x + y) + z == x + (y + z)
  {
  }

  /** A non-empty sequence is its front followed by its last element. */
  lemma SplitLast<T>(b: seq<T>)
    requires b != []
    ensures b == b[..|b| - 1] + [b[|b| - 1]]
  {
  }

  /** Running is stopped by the first event that raises: what has happened is
      a prefix of the plan, the log records exactly that prefix, and the
      files are those that prefix leaves. */
  lemma {:induction false} ExecPerformsPrefix(failing: set<Event>, w: World, es: seq<Event>)
    ensures var r := Exec(failing, w, es);
      var k := Completed(failing, w.files, es);
      r.world == World(Replay(w.files, es[..k]), w.log + es[..k])
      && r.raised == (if k == |es| then None else Some(es[k]))
      && (k < |es| ==> !Succeeds(failing, Replay(w.files, es[..k]), es[k]))
    decreases |es|
  {
    if es != [] && Succeeds(failing, w.files, es[0]) {
      var w' := World(Effect(w.files, es[0]), w.log + [es[0]]);
      ExecPerformsPrefix(failing, w', es[1..]);
      var k' := Completed(failing, w'.files, es[1..]);
      var k := k' + 1;
      var done := es[1..][..k'];
      assert es[..k] == [es[0]] + done;
      assert es[..k][1..] == done;
      assert Replay(w.files, es[..k]) == Replay(w'.files, done);
      AppendAssoc(w.log, [es[0]], done);
      if k < |es| {
        assert es[k] == es[1..][k'];
      }
    } else {
      assert es[..0] == [];
    }
  }

  /** Running two plans one after the other is running their concatenation:
      the second starts only if the first raised nothing. */
  lemma {:induction false} ExecAppend(failing: set<Event>, w: World, a: seq<Event>, b: seq<Event>)
    ensures Exec(failing, w, a + b) ==
      (var r := Exec(failing, w, a); if r.raised.Some? then r else Exec(failing, r.world, b))
    decreases |a|
  {
    if a == [] {
      assert a + b == b;
    } else {
      assert (a + b)[0] == a[0];
      assert (a + b)[1..] == a[1..] + b;
      if Succeeds(failing, w.files, a[0]) {
        ExecAppend(failing, World(Effect(w.files, a[0]), w.log + [a[0]]), a[1..], b);
      }
    }
  }

  /** When the first plan completes, the second runs from where it left off. */
  lemma ExecThen(failing: set<Event>, w: World, a: seq<Event>, b: seq<Event>, w1: World)
    requires Exec(failing, w, a) == Run(w1, None)
    ensures Exec(failing, w, a + b) == Exec(failing, w1, b)
  {
    ExecAppend(failing, w, a, b);
  }

  /** When the first plan raises, the second never starts. */
  lemma ExecStops(failing: set<Event>, w: World, a: seq<Event>, b: seq<Event>)
    requires Exec(failing, w, a).raised.Some?
    ensures Exec(failing, w, a + b) == Exec(failing, w, a)
  {
    ExecAppend(failing, w, a, b);
  }

  lemma {:induction false} ReplayAppend(files: set<Path>, a: seq<Event>, b: seq<Event>)
    ensures Replay(files, a + b) == Replay(Replay(files, a), b)
    decreases |a|
  {
    if a == [] {
      assert a + b == b;
    } else {
      assert (a + b)[1..] == a[1..] + b;
      ReplayAppend(Effect(files, a[0]), a[1..], b);
    }
  }

  /** The files after the first `k + 1` events of a sequence. */
  lemma ReplayStep(files: set<Path>, es: seq<Event>, k: nat)
    requires k < |es|
    ensures Replay(files, es[..k + 1]) == Effect(Replay(files, es[..k]), es[k])
  {
    assert es[..k + 1] == es[..k] + [es[k]];
    ReplayAppend(files, es[..k], [es[k]]);
    assert [es[k]][1..] == [];
  }

  /** A file disappears only through an unlink of it. */
  lemma {:induction false} ReplayKeeps(files: set<Path>, es: seq<Event>, p: Path)
    requires p in files && Unlink(p) !in es
    ensures p in Replay(files, es)
    decreases |es|
  {
    if es != [] {
      assert es[0] != Unlink(p);
      assert forall e :: e in es[1..] ==> e in es;
      ReplayKeeps(Effect(files, es[0]), es[1..], p);
    }
  }

  // ---------------------------------------------------------------------
  // The plans

  /** `add_thumbnails`: the 1024-wide thumbnail is saved to the temporary
      path and embedded as `PreviewImage`, the temporary file is removed, then
      the full desqueezed JPEG is saved to the same path, embedded as
      `JpgFromRaw`, and removed.  Nothing is converted, and the only file
      unlinked is the temporary one. */
  function AddThumbnailsPlan(dng: Path, image: ImageState): (plan: seq<Event>)
    requires image.width > 0 && image.height > 0
    ensures |plan| == 6 && Unlink(PreviewPath(dng)) in plan
    ensures forall e :: e in plan ==> !e.Convert? && (e.Unlink? ==> e.path == PreviewPath(dng))
  {
    var jpeg := JpegFromRawState(image);
    JpegFromRawResult(image);
    DesqueezedSizeGrowsAndKeepsOrientation(image.width, image.height);
    var tmp := PreviewPath(dng);
    [SaveJpeg(tmp, ThumbnailState(jpeg, PreviewWidth, None)), Embed(dng, PreviewSlot, tmp), Unlink(tmp),
     SaveJpeg(tmp, jpeg), Embed(dng, FullSizeSlot, tmp), Unlink(tmp)]
  }

  /** `desqueeze_file`: convert, open, tag the scale, add both thumbnails,
      and only then remove the source. */
  function DesqueezeFilePlan(cfg: Config, source: Path, m: Metadata, image: ImageState): (plan: seq<Event>)
    requires "FocalLength" in m
    requires image.width > 0 && image.height > 0
    ensures |plan| == 10 && plan[0] == Convert(source, DngPath(cfg, source)) && plan[9] == Unlink(source)
  {
    var dng := DngPath(cfg, source);
    [Convert(source, dng), Open(dng), WriteTags(dng, ScaleTagArgs(cfg, m, dng))]
    + AddThumbnailsPlan(dng, image)
    + [Unlink(source)]
  }

  /** The files `desqueeze` hands to `desqueeze_file`: raw Sony files that
      the classifier calls anamorphic. */
  predicate Selected(m: Metadata) {
    "FileType" in m && m["FileType"] == Text("ARW") && Classify(m) == Ok(true)
  }

  /** One iteration of the loop in `desqueeze`. */
  function FilePlan(cfg: Config, env: Env, p: Path): (file: seq<Event>)
    requires Decodable(env)
    ensures |file| >= 1 && file[0] == ReadMetadata(p)
  {
    var m := env.exif(p);
    [ReadMetadata(p)]
    + if "FileType" !in m then [Raise(p, MissingKey("FileType"))]
      else if m["FileType"] != Text("ARW") then []
      else match Classify(m)
        case Err(fault) => [Raise(p, fault)]
        case Ok(anamorphic) =>
          if anamorphic then DesqueezeFilePlan(cfg, p, m, env.decoded(DngPath(cfg, p))) else []
  }

  /** The loop of `desqueeze` over the files, in the order given. */
  function ScanPlan(cfg: Config, env: Env, paths: seq<Path>): (plan: seq<Event>)
    requires Decodable(env)
    ensures |plan| >= |paths|
    decreases |paths|
  {
    if paths == [] then []
    else ScanPlan(cfg, env, paths[..|paths| - 1]) + FilePlan(cfg, env, paths[|paths| - 1])
  }

  // ---------------------------------------------------------------------
  // Properties of one file

  /** The ten steps of `desqueeze_file`, written out. */
  lemma DesqueezeFileSteps(cfg: Config, source: Path, m: Metadata, image: ImageState)
    requires "FocalLength" in m && image.width > 0 && image.height > 0
    ensures var plan := DesqueezeFilePlan(cfg, source, m, image);
      var dng := DngPath(cfg, source);
      var tmp := PreviewPath(dng);
      |plan| == 10
      && plan[0] == Convert(source, dng) && plan[1] == Open(dng) && plan[2] == WriteTags(dng, ScaleTagArgs(cfg, m, dng))
      && plan[3] == SaveJpeg(tmp, plan[3].image) && plan[4] == Embed(dng, PreviewSlot, tmp) && plan[5] == Unlink(tmp)
      && plan[6] == SaveJpeg(tmp, JpegFromRawState(image)) && plan[7] == Embed(dng, FullSizeSlot, tmp)
      && plan[8] == Unlink(tmp) && plan[9] == Unlink(source)
  {
  }

  /** Within `desqueeze_file` the source is unlinked once, as the very last
      step; every JPEG saved to the temporary path is embedded into the DNG
      by the next step and unlinked by the one after; the preview is
      embedded before the full-size JPEG; the scale-tag command names the
      DNG last, and both embeds target the DNG. */
  lemma DesqueezeFileOrder(cfg: Config, source: Path, m: Metadata, image: ImageState)
    requires ValidConfig(cfg) && source.dir == cfg.importDir
    requires "FocalLength" in m && image.width > 0 && image.height > 0
    ensures var plan := DesqueezeFilePlan(cfg, source, m, image);
      var dng := DngPath(cfg, source);
      |plan| == 10 && plan[0] == Convert(source, dng) && plan[9] == Unlink(source)
      && (forall i :: 0 <= i < 9 ==> plan[i] != Unlink(source))
      && (forall i :: 0 <= i < |plan| && plan[i].SaveJpeg? ==>
            i + 2 < |plan| && plan[i + 1].Embed? && plan[i + 1].path == dng
            && plan[i + 1].thumbnail == plan[i].path && plan[i + 2] == Unlink(plan[i].path))
      && (forall i, j ::
            (0 <= i < |plan| && 0 <= j < |plan| && plan[i] == Embed(dng, PreviewSlot, PreviewPath(dng))
             && plan[j] == Embed(dng, FullSizeSlot, PreviewPath(dng))) ==> i < j)
      && (forall i :: 0 <= i < |plan| && plan[i].WriteTags? ==>
            |plan[i].args| > 0 && plan[i].args[|plan[i].args| - 1] == Posix(dng))
  {
    PipelinePathsDistinct(cfg, source);
    DesqueezeFileSteps(cfg, source, m, image);
    var dng := DngPath(cfg, source);
    StepsOrdered(DesqueezeFilePlan(cfg, source, m, image), source, dng, PreviewPath(dng));
  }

  /** The ordering facts of `DesqueezeFileOrder`, read off the ten steps. */
  lemma StepsOrdered(plan: seq<Event>, source: Path, dng: Path, tmp: Path)
    requires source != dng && source != tmp && dng != tmp
    requires |plan| == 10
      && plan[0] == Convert(source, dng) && plan[1] == Open(dng)
      && plan[2].WriteTags? && plan[2].path == dng && |plan[2].args| > 0 && plan[2].args[|plan[2].args| - 1] == Posix(dng)
      && plan[3].SaveJpeg? && plan[3].path == tmp && plan[4] == Embed(dng, PreviewSlot, tmp) && plan[5] == Unlink(tmp)
      && plan[6].SaveJpeg? && plan[6].path == tmp && plan[7] == Embed(dng, FullSizeSlot, tmp)
      && plan[8] == Unlink(tmp) && plan[9] == Unlink(source)
    ensures (forall i :: 0 <= i < 9 ==> plan[i] != Unlink(source))
      && (forall i :: 0 <= i < |plan| && plan[i].SaveJpeg? ==>
            i + 2 < |plan| && plan[i + 1].Embed? && plan[i + 1].path == dng
            && plan[i + 1].thumbnail == plan[i].path && plan[i + 2] == Unlink(plan[i].path))
      && (forall i, j ::
            (0 <= i < |plan| && 0 <= j < |plan| && plan[i] == Embed(dng, PreviewSlot, tmp)
             && plan[j] == Embed(dng, FullSizeSlot, tmp)) ==> i < j)
      && (forall i :: 0 <= i < |plan| && plan[i].WriteTags? ==>
            |plan[i].args| > 0 && plan[i].args[|plan[i].args| - 1] == Posix(dng))
  {
    forall i | 0 <= i < |plan| && plan[i].SaveJpeg?
      ensures i == 3 || i == 6
    {
    }
    forall i | 0 <= i < |plan| && plan[i] == Embed(dng, PreviewSlot, tmp)
      ensures i == 4
    {
    }
    forall j | 0 <= j < |plan| && plan[j] == Embed(dng, FullSizeSlot, tmp)
      ensures j == 7
    {
    }
  }

  /** The two JPEGs embedded into the DNG: a 1024-wide preview that keeps the
      desqueezed aspect ratio without padding, and the full desqueezed JPEG. */
  lemma AddThumbnailsImages(dng: Path, image: ImageState)
    requires image.width > 0 && image.height > 0
    ensures var plan := AddThumbnailsPlan(dng, image);
      var full := DesqueezedSize(image.width, image.height);
      plan[0].SaveJpeg? && plan[3].SaveJpeg?
      && plan[0].image.width == PreviewWidth
      && plan[0].image.height == ScaledSize(full.width, full.height, PreviewWidth).height
      && plan[0].image.format == JpegFormat && plan[0].image.quality == JpegQuality
      && Size(plan[3].image.width, plan[3].image.height) == full
      && plan[3].image.format == JpegFormat && plan[3].image.quality == JpegQuality
      && plan[3].image.depth == 8 && plan[3].image.space == Srgb
  {
    JpegFromRawResult(image);
    DesqueezedSizeGrowsAndKeepsOrientation(image.width, image.height);
    ThumbnailResult(JpegFromRawState(image), PreviewWidth, None);
  }

  /** The files after every step of `desqueeze_file`: the DNG is added, and
      neither the temporary preview nor the source is left. */
  lemma DesqueezeFileReplay(cfg: Config, source: Path, m: Metadata, image: ImageState, files: set<Path>)
    requires "FocalLength" in m && image.width > 0 && image.height > 0
    ensures var plan := DesqueezeFilePlan(cfg, source, m, image);
      var dng := DngPath(cfg, source);
      var tmp := PreviewPath(dng);
      Replay(files, plan) == files + {dng} - {tmp, source}
  {
    var plan := DesqueezeFilePlan(cfg, source, m, image);
    var dng := DngPath(cfg, source);
    var tmp := PreviewPath(dng);
    var head := [Convert(source, dng), Open(dng), WriteTags(dng, ScaleTagArgs(cfg, m, dng))];
    var thumbs := AddThumbnailsPlan(dng, image);
    ReplayAppend(files, head + thumbs, [Unlink(source)]);
    ReplayAppend(files, head, thumbs);
    ReplayStep(files, head, 0);
    ReplayStep(files, head, 1);
    ReplayStep(files, head, 2);
    assert head[..3] == head;
    assert Replay(files, head) == files + {dng};
    ReplayStep(files + {dng}, thumbs, 0);
    ReplayStep(files + {dng}, thumbs, 1);
    ReplayStep(files + {dng}, thumbs, 2);
    ReplayStep(files + {dng}, thumbs, 3);
    ReplayStep(files + {dng}, thumbs, 4);
    ReplayStep(files + {dng}, thumbs, 5);
    assert thumbs[..6] == thumbs;
    ReplayStep(Replay(files, head + thumbs), [Unlink(source)], 0);
    assert [Unlink(source)][..1] == [Unlink(source)];
  }

  /** `desqueeze_file` either completes, leaving the DNG in the export
      directory, no temporary preview, and the source removed, or raises at
      some step and leaves the source where it was: the source is removed
      exactly when every step, both embeds included, succeeded. */
  lemma DesqueezeFileOutcome(cfg: Config, env: Env, w: World, source: Path, m: Metadata, image: ImageState)
    requires ValidConfig(cfg) && source.dir == cfg.importDir && source in w.files
    requires "FocalLength" in m && image.width > 0 && image.height > 0
    ensures var plan := DesqueezeFilePlan(cfg, source, m, image);
      var r := Exec(env.failing, w, plan);
      var dng := DngPath(cfg, source);
      (source in r.world.files <==> r.raised.Some?)
      && (r.raised.None? ==>
            r.world.files == w.files + {dng} - {source, PreviewPath(dng)}
            && r.world.log == w.log + plan
            && Embed(dng, PreviewSlot, PreviewPath(dng)) in r.world.log
            && Embed(dng, FullSizeSlot, PreviewPath(dng)) in r.world.log)
  {
    var plan := DesqueezeFilePlan(cfg, source, m, image);
    var r := Exec(env.failing, w, plan);
    var dng := DngPath(cfg, source);
    DesqueezeFileOrder(cfg, source, m, image);
    PipelinePathsDistinct(cfg, source);
    ExecPerformsPrefix(env.failing, w, plan);
    var k := Completed(env.failing, w.files, plan);
    if k < |plan| {
      assert Unlink(source) !in plan[..k];
      ReplayKeeps(w.files, plan[..k], source);
    } else {
      assert plan[..k] == plan;
      DesqueezeFileReplay(cfg, source, m, image, w.files);
      assert plan[4] == Embed(dng, PreviewSlot, PreviewPath(dng));
      assert plan[7] == Embed(dng, FullSizeSlot, PreviewPath(dng));
    }
  }

  // ---------------------------------------------------------------------
  // Properties of the scan

  /** The plan of a listing with one more file is the old plan followed by
      that file's iteration. */
  lemma ScanPlanSnoc(cfg: Config, env: Env, init: seq<Path>, last: Path)
    requires Decodable(env)
    ensures ScanPlan(cfg, env, init + [last]) == ScanPlan(cfg, env, init) + FilePlan(cfg, env, last)
  {
    var b := init + [last];
    assert b[..|b| - 1] == init;
  }

  lemma {:induction false} ScanPlanAppend(cfg: Config, env: Env, a: seq<Path>, b: seq<Path>)
    requires Decodable(env)
    ensures ScanPlan(cfg, env, a + b) == ScanPlan(cfg, env, a) + ScanPlan(cfg, env, b)
    decreases |b|
  {
    if b == [] {
      assert a + b == a;
    } else {
      var init, last := b[..|b| - 1], b[|b| - 1];
      SplitLast(b);
      AppendAssoc(a, init, [last]);
      ScanPlanSnoc(cfg, env, a + init, last);
      ScanPlanSnoc(cfg, env, init, last);
      ScanPlanAppend(cfg, env, a, init);
      AppendAssoc(ScanPlan(cfg, env, a), ScanPlan(cfg, env, init), FilePlan(cfg, env, last));
    }
  }

  /** The sources of the conversions in a plan, in order. */
  function Conversions(es: seq<Event>): seq<Path>
    decreases |es|
  {
    if es == [] then []
    else (if es[0].Convert? then [es[0].source] else []) + Conversions(es[1..])
  }

  lemma {:induction false} ConversionsAppend(a: seq<Event>, b: seq<Event>)
    ensures Conversions(a + b) == Conversions(a) + Conversions(b)
    decreases |a|
  {
    if a == [] {
      assert a + b == b;
    } else {
      var head := if a[0].Convert? then [a[0].source] else [];
      assert (a + b)[0] == a[0];
      assert (a + b)[1..] == a[1..] + b;
      assert Conversions(a + b) == head + Conversions(a[1..] + b);
      ConversionsAppend(a[1..], b);
      assert Conversions(a) == head + Conversions(a[1..]);
    }
  }

  /** The files of `paths` that are selected, in order. */
  function SelectedPaths(env: Env, paths: seq<Path>): seq<Path>
    decreases |paths|
  {
    if paths == [] then []
    else SelectedPaths(env, paths[..|paths| - 1])
         + if Selected(env.exif(paths[|paths| - 1])) then [paths[|paths| - 1]] else []
  }

  /** One iteration reads the metadata, then either desqueezes a selected
      file or at most raises. */
  lemma FilePlanShape(cfg: Config, env: Env, p: Path)
    requires Decodable(env)
    ensures var file := FilePlan(cfg, env, p);
      var m := env.exif(p);
      var dng := DngPath(cfg, p);
      if Selected(m) then
        "FocalLength" in m
        && file == [ReadMetadata(p), Convert(p, dng)]
                   + ([Open(dng), WriteTags(dng, ScaleTagArgs(cfg, m, dng))]
                      + AddThumbnailsPlan(dng, env.decoded(dng)) + [Unlink(p)])
      else
        1 <= |file| <= 2 && file[0] == ReadMetadata(p) && (|file| == 2 ==> file[1].Raise?)
  {
    var m := env.exif(p);
    if Selected(m) {
      var dng := DngPath(cfg, p);
      var thumbs := AddThumbnailsPlan(dng, env.decoded(dng));
      var tag := WriteTags(dng, ScaleTagArgs(cfg, m, dng));
      var rest := [Open(dng), tag] + thumbs + [Unlink(p)];
      assert FilePlan(cfg, env, p) == [ReadMetadata(p)] + ([Convert(p, dng), Open(dng), tag] + thumbs + [Unlink(p)]);
      assert [Convert(p, dng), Open(dng), tag] == [Convert(p, dng)] + [Open(dng), tag];
      AppendAssoc([Convert(p, dng)], [Open(dng), tag], thumbs);
      AppendAssoc([Convert(p, dng)], [Open(dng), tag] + thumbs, [Unlink(p)]);
      AppendAssoc([ReadMetadata(p)], [Convert(p, dng)], rest);
      assert [ReadMetadata(p)] + [Convert(p, dng)] == [ReadMetadata(p), Convert(p, dng)];
    }
  }

  lemma FilePlanConversions(cfg: Config, env: Env, p: Path)
    requires Decodable(env)
    ensures Conversions(FilePlan(cfg, env, p)) == if Selected(env.exif(p)) then [p] else []
  {
    var file := FilePlan(cfg, env, p);
    var m := env.exif(p);
    var dng := DngPath(cfg, p);
    FilePlanShape(cfg, env, p);
    if Selected(m) {
      var rest := [Open(dng), WriteTags(dng, ScaleTagArgs(cfg, m, dng))] + AddThumbnailsPlan(dng, env.decoded(dng)) + [Unlink(p)];
      ConvertsOnce(p, dng, rest);
    } else {
      assert Conversions(file) == Conversions(file[1..]);
      if |file| == 2 {
        assert Conversions(file[1..]) == Conversions(file[2..]);
      }
    }
  }

  /** A metadata read and one conversion, followed by steps that convert nothing. */
  lemma ConvertsOnce(p: Path, dng: Path, rest: seq<Event>)
    requires forall e :: e in rest ==> !e.Convert?
    ensures Conversions([ReadMetadata(p), Convert(p, dng)] + rest) == [p]
  {
    var head := [ReadMetadata(p), Convert(p, dng)];
    ConversionsAppend(head, rest);
    NoConversions(rest);
    assert head[1..] == [Convert(p, dng)];
    assert [Convert(p, dng)][1..] == [];
  }

  lemma {:induction false} NoConversions(es: seq<Event>)
    requires forall e :: e in es ==> !e.Convert?
    ensures Conversions(es) == []
    decreases |es|
  {
    if es != [] {
      assert es[0] in es;
      assert forall e :: e in es[1..] ==> e in es;
      NoConversions(es[1..]);
    }
  }

  /** `desqueeze` converts exactly the selected files (raw Sony files the
      classifier calls anamorphic), each once, in the order of the listing;
      no other file is converted. */
  lemma {:induction false} ScanConvertsSelected(cfg: Config, env: Env, paths: seq<Path>)
    requires Decodable(env)
    ensures Conversions(ScanPlan(cfg, env, paths)) == SelectedPaths(env, paths)
    decreases |paths|
  {
    if paths != [] {
      var init, last := paths[..|paths| - 1], paths[|paths| - 1];
      ScanConvertsSelected(cfg, env, init);
      ConversionsAppend(ScanPlan(cfg, env, init), FilePlan(cfg, env, last));
      FilePlanConversions(cfg, env, last);
    }
  }

  /** The only file in the import directory that one iteration may unlink is
      its own source, and only when that source is selected. */
  lemma FilePlanUnlinks(cfg: Config, env: Env, p: Path, q: Path)
    requires Decodable(env) && ValidConfig(cfg) && q.dir == cfg.importDir
    requires Unlink(q) in FilePlan(cfg, env, p)
    ensures q == p && Selected(env.exif(p))
  {
    var m := env.exif(p);
    var dng := DngPath(cfg, p);
    FilePlanShape(cfg, env, p);
    if Selected(m) {
      assert Unlink(q) !in AddThumbnailsPlan(dng, env.decoded(dng));
    }
  }

  /** The scan plans a metadata read for every listed file. */
  lemma {:induction false} ScanReadsEveryFile(cfg: Config, env: Env, paths: seq<Path>, p: Path)
    requires Decodable(env) && p in paths
    ensures ReadMetadata(p) in ScanPlan(cfg, env, paths)
    decreases |paths|
  {
    var init, last := paths[..|paths| - 1], paths[|paths| - 1];
    assert paths == init + [last];
    if p == last {
      assert FilePlan(cfg, env, last)[0] == ReadMetadata(p);
    } else {
      ScanReadsEveryFile(cfg, env, init, p);
    }
  }

  /** Two sources whose names differ only in the suffix share one DNG path:
      `DSC1.ARW` and `DSC1.arw` both become `DSC1.dng`. */
  lemma DngPathNotInjective(cfg: Config)
    ensures DngPath(cfg, Path(cfg.importDir, "DSC1.ARW")) == DngPath(cfg, Path(cfg.importDir, "DSC1.arw"))
  {
    assert LastDot("DSC1.ARW") == 4 by {
      assert "DSC1.ARW"[4] == '.';
    }
    assert LastDot("DSC1.arw") == 4 by {
      assert "DSC1.arw"[4] == '.';
    }
    assert "DSC1.ARW"[..4] == "DSC1.arw"[..4];
  }

  /** An import-directory file that the scan's plan unlinks is one of the
      listed files, and a selected one. */
  lemma {:induction false} ScanUnlinksOnlySelected(cfg: Config, env: Env, paths: seq<Path>, q: Path)
    requires Decodable(env) && ValidConfig(cfg) && q.dir == cfg.importDir
    requires Unlink(q) in ScanPlan(cfg, env, paths)
    ensures q in paths && Selected(env.exif(q))
    decreases |paths|
  {
    var init, last := paths[..|paths| - 1], paths[|paths| - 1];
    assert paths == init + [last];
    if Unlink(q) in ScanPlan(cfg, env, init) {
      ScanUnlinksOnlySelected(cfg, env, init, q);
    } else {
      FilePlanUnlinks(cfg, env, last, q);
    }
  }

  /** Wherever the scan stops, a file of the import directory that is not
      listed, or is listed but not selected, is still there. */
  lemma ScanLeavesUnselectedFiles(cfg: Config, env: Env, w: World, paths: seq<Path>, q: Path)
    requires Decodable(env) && ValidConfig(cfg) && q.dir == cfg.importDir && q in w.files
    requires q !in paths || !Selected(env.exif(q))
    ensures q in Exec(env.failing, w, ScanPlan(cfg, env, paths)).world.files
  {
    var plan := ScanPlan(cfg, env, paths);
    ExecPerformsPrefix(env.failing, w, plan);
    var k := Completed(env.failing, w.files, plan);
    if Unlink(q) in plan[..k] {
      ScanUnlinksOnlySelected(cfg, env, paths, q);
    }
    ReplayKeeps(w.files, plan[..k], q);
  }

  /** Within one iteration, an unlink of a file of the import directory is
      the eleventh step, and the steps before it convert that file, tag its
      DNG and embed both JPEGs. */
  lemma FilePlanUnlinksSourceLast(cfg: Config, env: Env, p: Path, j: int)
    requires Decodable(env) && ValidConfig(cfg)
    requires 0 <= j < |FilePlan(cfg, env, p)|
    requires FilePlan(cfg, env, p)[j].Unlink? && FilePlan(cfg, env, p)[j].path.dir == cfg.importDir
    ensures var file := FilePlan(cfg, env, p);
      var dng := DngPath(cfg, p);
      j == 10 && file[j] == Unlink(p) && Selected(env.exif(p))
      && file[1] == Convert(p, dng)
      && file[3].WriteTags? && file[3].path == dng
      && file[5] == Embed(dng, PreviewSlot, PreviewPath(dng))
      && file[8] == Embed(dng, FullSizeSlot, PreviewPath(dng))
  {
    var m := env.exif(p);
    FilePlanShape(cfg, env, p);
    if Selected(m) {
      var image := env.decoded(DngPath(cfg, p));
      DesqueezeFileSteps(cfg, p, m, image);
      PipelinePathsDistinct(cfg, p);
      assert FilePlan(cfg, env, p) == [ReadMetadata(p)] + DesqueezeFilePlan(cfg, p, m, image);
    }
  }

  /** In the scan's plan, an unlink of a file of the import directory comes
      nine steps after that file's conversion, with the scale tagging of the
      DNG, the preview embed and the full-size embed in between, and only for
      a selected file. */
  lemma {:induction false} ScanUnlinksSourceLast(cfg: Config, env: Env, paths: seq<Path>, i: int)
    requires Decodable(env) && ValidConfig(cfg)
    requires 0 <= i < |ScanPlan(cfg, env, paths)|
    requires ScanPlan(cfg, env, paths)[i].Unlink? && ScanPlan(cfg, env, paths)[i].path.dir == cfg.importDir
    ensures var plan := ScanPlan(cfg, env, paths);
      var q := plan[i].path;
      var dng := DngPath(cfg, q);
      i >= 9 && Selected(env.exif(q))
      && plan[i - 9] == Convert(q, dng)
      && plan[i - 7].WriteTags? && plan[i - 7].path == dng
      && plan[i - 5] == Embed(dng, PreviewSlot, PreviewPath(dng))
      && plan[i - 2] == Embed(dng, FullSizeSlot, PreviewPath(dng))
    decreases |paths|
  {
    var plan := ScanPlan(cfg, env, paths);
    var init, last := paths[..|paths| - 1], paths[|paths| - 1];
    var head, file := ScanPlan(cfg, env, init), FilePlan(cfg, env, last);
    assert plan == head + file;
    if i < |head| {
      assert head[i] == plan[i];
      ScanUnlinksSourceLast(cfg, env, init, i);
    } else {
      var j := i - |head|;
      assert file[j] == plan[i];
      FilePlanUnlinksSourceLast(cfg, env, last, j);
      assert plan[i - 9] == file[1] && plan[i - 7] == file[3] && plan[i - 5] == file[5] && plan[i - 2] == file[8];
    }
  }

  /** Whatever raises and wherever the scan stops, every file of the import
      directory that it unlinked was converted, its DNG tagged and both JPEGs
      embedded before, all of them calls that returned (they are logged). */
  lemma ScanRunUnlinksSourceLast(cfg: Config, env: Env, w: World, paths: seq<Path>, i: int)
    requires Decodable(env) && ValidConfig(cfg)
    requires var log := Exec(env.failing, w, ScanPlan(cfg, env, paths)).world.log;
      |w.log| <= i < |log| && log[i].Unlink? && log[i].path.dir == cfg.importDir
    ensures var log := Exec(env.failing, w, ScanPlan(cfg, env, paths)).world.log;
      var q := log[i].path;
      var dng := DngPath(cfg, q);
      i - 9 >= |w.log| && Selected(env.exif(q))
      && log[i - 9] == Convert(q, dng)
      && log[i - 7].WriteTags? && log[i - 7].path == dng
      && log[i - 5] == Embed(dng, PreviewSlot, PreviewPath(dng))
      && log[i - 2] == Embed(dng, FullSizeSlot, PreviewPath(dng))
  {
    var plan := ScanPlan(cfg, env, paths);
    ExecPerformsPrefix(env.failing, w, plan);
    var k := Completed(env.failing, w.files, plan);
    LoggedPrefix(w.log, plan, k, i);
    ScanUnlinksSourceLast(cfg, env, paths, i - |w.log|);
  }

  /** Entry `t` of a log extended by the first `k` steps of a plan, and the
      entries up to nine before it, are the plan's steps at the same offsets. */
  lemma LoggedPrefix(pre: seq<Event>, plan: seq<Event>, k: nat, t: int)
    requires k <= |plan| && |pre| <= t < |pre| + k
    ensures var log := pre + plan[..k];
      var u := t - |pre|;
      log[t] == plan[u]
      && (u >= 9 ==> log[t - 9] == plan[u - 9] && log[t - 7] == plan[u - 7]
                     && log[t - 5] == plan[u - 5] && log[t - 2] == plan[u - 2])
  {
  }
}
