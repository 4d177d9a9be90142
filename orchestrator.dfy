/** The daemon itself: `Daemon.desqueeze` and the methods it calls, as a
    class whose state is the set of files present and the log of external
    events performed.  Each method returns the exception it raised, if any,
    and is proved to do exactly what running its plan from the `Pipeline`
    module does. */
module Orchestrator {
  import opened Base
  import opened Classifier
  import opened Transform
  import opened Pipeline

  class Daemon {
    const cfg: Config
    /** The outside world the daemon talks to. */
    const env: Env
    /** The files present, in both directories. */
    var files: set<Path>
    /** The external events performed so far, in order. */
    var log: seq<Event>

    function State(): World
      reads this
    {
      World(files, log)
    }

    /** `Daemon(import_path=..., export_path=...)` with the default focal length. */
    constructor (importDir: string, exportDir: string, env: Env, files: set<Path>)
      requires importDir != exportDir && Decodable(env)
      ensures cfg == Config(importDir, exportDir, DefaultFocalLength) && this.env == env
      ensures ValidConfig(cfg) && Decodable(this.env)
      ensures State() == World(files, [])
    {
      cfg := Config(importDir, exportDir, DefaultFocalLength);
      this.env := env;
      this.files := files;
      log := [];
    }

    /** One external call: it either takes effect and is logged, or raises. */
    method Perform(e: Event) returns (raised: Option<Event>)
      modifies this
      ensures Run(State(), raised) == Exec(env.failing, old(State()), [e])
    {
      if Succeeds(env.failing, files, e) {
        files := Effect(files, e);
        log := log + [e];
        raised := None;
      } else {
        raised := Some(e);
      }
      assert [e][1..] == [];
    }

    /** `get_metadata`: exiftool's record for the file. */
    method GetMetadata(path: Path) returns (m: Metadata, raised: Option<Event>)
      modifies this
      ensures m == env.exif(path)
      ensures Run(State(), raised) == Exec(env.failing, old(State()), [ReadMetadata(path)])
    {
      raised := Perform(ReadMetadata(path));
      m := env.exif(path);
    }

    /** `convert_to_dng`: the DNG is written to the export directory. */
    method ConvertToDng(source: Path) returns (dng: Path, raised: Option<Event>)
      modifies this
      ensures dng == DngPath(cfg, source)
      ensures Run(State(), raised) == Exec(env.failing, old(State()), [Convert(source, dng)])
    {
      dng := DngPath(cfg, source);
      raised := Perform(Convert(source, dng));
    }

    /** `set_dng_anamorphic_ratio` builds the exiftool command line by
        appending to a list; it is built the same way here, and run once. */
    method SetDngAnamorphicRatio(dng: Path, m: Metadata) returns (raised: Option<Event>)
      requires "FocalLength" in m
      modifies this
      ensures Run(State(), raised) == Exec(env.failing, old(State()), [WriteTags(dng, ScaleTagArgs(cfg, m, dng))])
    {
      var args := [Exiftool, OverwriteInPlace, DefaultScaleArg];
      if m["FocalLength"] == Number(0.0) {
        args := args + ["-FocalLength=" + cfg.focalLength];
      }
      args := args + [Posix(dng)];
      raised := Perform(WriteTags(dng, args));
    }

    /** `set_and_delete_jpeg_thumbnail`: embed, then unlink the temporary file. */
    method SetAndDeleteJpegThumbnail(dng: Path, thumbnail: Path, slot: string) returns (raised: Option<Event>)
      modifies this
      ensures Run(State(), raised) == Exec(env.failing, old(State()), [Embed(dng, slot, thumbnail), Unlink(thumbnail)])
    {
      ghost var w0 := State();
      raised := Perform(Embed(dng, slot, thumbnail));
      if raised.Some? {
        ExecStops(env.failing, w0, [Embed(dng, slot, thumbnail)], [Unlink(thumbnail)]);
        return;
      }
      ghost var w1 := State();
      raised := Perform(Unlink(thumbnail));
      ExecThen(env.failing, w0, [Embed(dng, slot, thumbnail)], [Unlink(thumbnail)], w1);
    }

    /** `generate_jpeg_thumbnail`: render the thumbnail of a clone and save it. */
    method GenerateJpegThumbnail(image: Image, path: Path, width: int, height: Option<int>)
      returns (raised: Option<Event>)
      requires image.width > 0
      modifies this
      ensures Run(State(), raised)
        == Exec(env.failing, old(State()), [SaveJpeg(path, ThumbnailState(image.Snapshot(), width, height))])
    {
      var thumbnail := RenderThumbnail(image, width, height);
      raised := Perform(SaveJpeg(path, thumbnail.Snapshot()));
    }

    /** `add_thumbnails`: the preview first, then the full-size JPEG, each
        saved to the same temporary path, embedded and unlinked. */
    method AddThumbnails(image: Image, dng: Path) returns (raised: Option<Event>)
      requires image.width > 0 && image.height > 0
      modifies this
      ensures Run(State(), raised) == Exec(env.failing, old(State()), AddThumbnailsPlan(dng, image.Snapshot()))
    {
      ghost var w0, s0 := State(), image.Snapshot();
      var jpeg := GenerateJpegFromRaw(image);
      JpegFromRawResult(s0);
      Geometry.DesqueezedSizeGrowsAndKeepsOrientation(image.width, image.height);
      var tmp := PreviewPath(dng);
      ghost var full := [Embed(dng, FullSizeSlot, tmp), Unlink(tmp)];
      ghost var rest3 := [SaveJpeg(tmp, jpeg.Snapshot())] + full;
      ghost var rest1 := [Embed(dng, PreviewSlot, tmp), Unlink(tmp)] + rest3;
      ghost var first := [SaveJpeg(tmp, ThumbnailState(jpeg.Snapshot(), PreviewWidth, None))];
      assert AddThumbnailsPlan(dng, s0) == first + rest1;

      raised := GenerateJpegThumbnail(jpeg, tmp, PreviewWidth, None);
      if raised.Some? {
        ExecStops(env.failing, w0, first, rest1);
        return;
      }
      ExecThen(env.failing, w0, first, rest1, State());
      ghost var w1 := State();
      raised := SetAndDeleteJpegThumbnail(dng, tmp, PreviewSlot);
      if raised.Some? {
        ExecStops(env.failing, w1, [Embed(dng, PreviewSlot, tmp), Unlink(tmp)], rest3);
        return;
      }
      ExecThen(env.failing, w1, [Embed(dng, PreviewSlot, tmp), Unlink(tmp)], rest3, State());
      ghost var w2 := State();
      raised := Perform(SaveJpeg(tmp, jpeg.Snapshot()));
      if raised.Some? {
        ExecStops(env.failing, w2, [SaveJpeg(tmp, jpeg.Snapshot())], full);
        return;
      }
      ExecThen(env.failing, w2, [SaveJpeg(tmp, jpeg.Snapshot())], full, State());
      raised := SetAndDeleteJpegThumbnail(dng, tmp, FullSizeSlot);
    }

    /** `desqueeze_file`: convert, open, tag, add the thumbnails, and only
        then unlink the source. */
    method DesqueezeFile(source: Path, m: Metadata) returns (raised: Option<Event>)
      requires "FocalLength" in m && Decodable(env)
      modifies this
      ensures Run(State(), raised)
        == Exec(env.failing, old(State()), DesqueezeFilePlan(cfg, source, m, env.decoded(DngPath(cfg, source))))
    {
      ghost var w0 := State();
      var dngPath := DngPath(cfg, source);
      ghost var decoded := env.decoded(dngPath);
      ghost var rest3 := AddThumbnailsPlan(dngPath, decoded) + [Unlink(source)];
      ghost var rest2 := [WriteTags(dngPath, ScaleTagArgs(cfg, m, dngPath))] + rest3;
      ghost var rest1 := [Open(dngPath)] + rest2;
      assert DesqueezeFilePlan(cfg, source, m, decoded) == [Convert(source, dngPath)] + rest1;

      var dng;
      dng, raised := ConvertToDng(source);
      if raised.Some? {
        ExecStops(env.failing, w0, [Convert(source, dngPath)], rest1);
        return;
      }
      ExecThen(env.failing, w0, [Convert(source, dngPath)], rest1, State());
      ghost var w1 := State();
      raised := Perform(Open(dng));
      if raised.Some? {
        ExecStops(env.failing, w1, [Open(dngPath)], rest2);
        return;
      }
      ExecThen(env.failing, w1, [Open(dngPath)], rest2, State());
      var image := new Image.Open(env.decoded(dng));
      ghost var w2 := State();
      raised := SetDngAnamorphicRatio(dng, m);
      if raised.Some? {
        ExecStops(env.failing, w2, [WriteTags(dngPath, ScaleTagArgs(cfg, m, dngPath))], rest3);
        return;
      }
      ExecThen(env.failing, w2, [WriteTags(dngPath, ScaleTagArgs(cfg, m, dngPath))], rest3, State());
      ghost var w3 := State();
      raised := AddThumbnails(image, dng);
      if raised.Some? {
        ExecStops(env.failing, w3, AddThumbnailsPlan(dngPath, decoded), [Unlink(source)]);
        return;
      }
      ExecThen(env.failing, w3, AddThumbnailsPlan(dngPath, decoded), [Unlink(source)], State());
      raised := Perform(Unlink(source));
    }

    /** `desqueeze`: for each file, in the order given, read its metadata,
        and desqueeze it when it is a raw Sony file that the classifier calls
        anamorphic.  Nothing is caught: the first exception ends the scan. */
    method Desqueeze(paths: seq<Path>) returns (raised: Option<Event>)
      requires Decodable(env)
      modifies this
      ensures Run(State(), raised) == Exec(env.failing, old(State()), ScanPlan(cfg, env, paths))
    {
      ghost var w0 := State();
      raised := None;
      var i := 0;
      while i < |paths|
        invariant 0 <= i <= |paths| && raised == None
        invariant Exec(env.failing, w0, ScanPlan(cfg, env, paths[..i])) == Run(State(), None)
      {
        var path := paths[i];
        ghost var wi := State();
        ghost var plan := FilePlan(cfg, env, path);
        assert paths[..i + 1][..i] == paths[..i];
        assert ScanPlan(cfg, env, paths[..i + 1]) == ScanPlan(cfg, env, paths[..i]) + plan;
        assert paths == paths[..i + 1] + paths[i + 1..];
        ScanPlanAppend(cfg, env, paths[..i + 1], paths[i + 1..]);
        ExecThen(env.failing, w0, ScanPlan(cfg, env, paths[..i]), plan, wi);
        var m;
        m, raised := GetMetadata(path);
        assert plan == plan[..1] + plan[1..];
        if raised.Some? {
          ExecStops(env.failing, wi, plan[..1], plan[1..]);
          ExecStops(env.failing, w0, ScanPlan(cfg, env, paths[..i + 1]), ScanPlan(cfg, env, paths[i + 1..]));
          return;
        }
        ExecThen(env.failing, wi, plan[..1], plan[1..], State());
        ghost var wm := State();
        if "FileType" !in m {
          raised := Perform(Raise(path, MissingKey("FileType")));
        } else if m["FileType"] == Text("ARW") {
          match Classify(m) {
            case Err(fault) =>
              raised := Perform(Raise(path, fault));
            case Ok(anamorphic) =>
              if anamorphic {
                raised := DesqueezeFile(path, m);
              }
          }
        }
        if raised.Some? {
          ExecStops(env.failing, w0, ScanPlan(cfg, env, paths[..i + 1]), ScanPlan(cfg, env, paths[i + 1..]));
          return;
        }
        i := i + 1;
      }
      assert paths[..i] == paths;
    }
  }
}
