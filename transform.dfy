/** The image transformer: `resize_srgb`, `generate_jpeg_from_raw` and the
    image work of `generate_jpeg_thumbnail`.

    A wand image is modelled by its abstract attributes only (size, bit
    depth, colour space, output format, JPEG quality, background colour) and
    by the history of operations applied to it; pixels are not modelled.
    `Apply` gives the meaning of one operation, and the class `Image` is the
    mutable object the daemon changes step by step. */
module Transform {
  import opened Base
  import opened Geometry

  /** `"rgb"` is ImageMagick's linear RGB; `"srgb"` the gamma-encoded display space. */
  datatype Colorspace = Srgb | LinearRgb | OtherSpace(name: string)

  datatype Filter = Lanczos2

  datatype Color = Black | DefaultBackground

  /** One change to a wand image, as the daemon makes it. */
  datatype Op =
    | SetFormat(format: string)
    | SetQuality(quality: nat)
    | SetBackground(color: Color)
    | SetDepth(depth: nat)
    | TransformColorspace(space: Colorspace)
    | Resize(width: int, height: int, filter: Filter)
    | Thumbnail(width: int, height: int)
    | Extent(width: int, height: int, x: int, y: int)

  /** The abstract state of a wand image; `history` lists every operation
      applied since it was read from disk, clones included. */
  datatype ImageState = ImageState(
    width: int, height: int, depth: nat, space: Colorspace,
    format: string, quality: nat, background: Color, history: seq<Op>)

  const JpegFormat: string := "jpeg"
  const JpegQuality: nat := 95

  /** The effect of one operation. */
  function Apply(s: ImageState, op: Op): ImageState {
    var t := match op
      case SetFormat(f) => s.(format := f)
      case SetQuality(q) => s.(quality := q)
      case SetBackground(c) => s.(background := c)
      case SetDepth(d) => s.(depth := d)
      case TransformColorspace(c) => s.(space := c)
      case Resize(w, h, _) => s.(width := w, height := h)
      case Thumbnail(w, h) => s.(width := w, height := h)
      case Extent(w, h, _, _) => s.(width := w, height := h);
    t.(history := s.history + [op])
  }

  /** The effect of a sequence of operations, applied left to right. */
  function ApplyAll(s: ImageState, ops: seq<Op>): ImageState
    decreases |ops|
  {
    if ops == [] then s else Apply(ApplyAll(s, ops[..|ops| - 1]), ops[|ops| - 1])
  }

  lemma {:induction false} ApplyAllAppend(s: ImageState, a: seq<Op>, b: seq<Op>)
    ensures ApplyAll(s, a + b) == ApplyAll(ApplyAll(s, a), b)
    decreases |b|
  {
    if b != [] {
      assert (a + b)[..|a + b| - 1] == a + b[..|b| - 1];
      ApplyAllAppend(s, a, b[..|b| - 1]);
    } else {
      assert a + b == a;
    }
  }

  /** Every operation is recorded, in the order applied. */
  lemma {:induction false} ApplyAllHistory(s: ImageState, ops: seq<Op>)
    ensures ApplyAll(s, ops).history == s.history + ops
    decreases |ops|
  {
    if ops != [] {
      ApplyAllHistory(s, ops[..|ops| - 1]);
      assert ops[..|ops| - 1] + [ops[|ops| - 1]] == ops;
    }
  }

  /** Applying one more operation after a sequence. */
  lemma ApplyAllSnoc(s: ImageState, ops: seq<Op>, op: Op)
    ensures ApplyAll(s, ops + [op]) == Apply(ApplyAll(s, ops), op)
  {
    assert (ops + [op])[..|ops|] == ops;
  }

  /** The state after the first `k + 1` operations of a sequence. */
  lemma ApplyAllStep(s: ImageState, ops: seq<Op>, k: nat)
    requires k < |ops|
    ensures ApplyAll(s, ops[..k + 1]) == Apply(ApplyAll(s, ops[..k]), ops[k])
  {
    assert ops[..k + 1][..k] == ops[..k];
  }

  /** The colour-correct resize of `resize_srgb`: raise to 16 bits, go to
      linear RGB, resize with the two-lobe Lanczos filter, return to sRGB,
      drop to 8 bits. */
  function ResizeProtocol(width: int, height: int): seq<Op> {
    [SetDepth(16), TransformColorspace(LinearRgb), Resize(width, height, Lanczos2),
     TransformColorspace(Srgb), SetDepth(8)]
  }

  /** After `resize_srgb` the image has the requested size, 8 bits per
      channel and the sRGB colour space; its format, quality and background
      are those it had before. */
  lemma ResizeProtocolResult(s: ImageState, width: int, height: int)
    ensures var r := ApplyAll(s, ResizeProtocol(width, height));
      r.width == width && r.height == height && r.depth == 8 && r.space == Srgb
      && r.format == s.format && r.quality == s.quality && r.background == s.background
      && r.history == s.history + ResizeProtocol(width, height)
  {
    var ops := ResizeProtocol(width, height);
    ApplyAllHistory(s, ops);
    var s1 := ApplyAll(s, ops[..1]);
    var s2 := ApplyAll(s, ops[..2]);
    var s3 := ApplyAll(s, ops[..3]);
    var s4 := ApplyAll(s, ops[..4]);
    ApplyAllStep(s, ops, 0);
    assert s1.depth == 16 && s1.format == s.format && s1.quality == s.quality && s1.background == s.background;
    ApplyAllStep(s, ops, 1);
    assert s2.format == s.format && s2.quality == s.quality && s2.background == s.background;
    ApplyAllStep(s, ops, 2);
    assert s3.width == width && s3.height == height && s3.format == s.format && s3.quality == s.quality
      && s3.background == s.background;
    ApplyAllStep(s, ops, 3);
    assert s4.space == Srgb && s4.width == width && s4.height == height && s4.format == s.format
      && s4.quality == s.quality && s4.background == s.background;
    ApplyAllStep(s, ops, 4);
    assert ops[..5] == ops;
  }

  /** The resize step of the protocol runs on 16-bit linear RGB data: every
      `Resize` of the protocol is preceded by steps that leave the image at
      depth 16 in linear RGB. */
  lemma ResizeRunsInLinearLight(s: ImageState, width: int, height: int, k: nat)
    requires k < |ResizeProtocol(width, height)| && ResizeProtocol(width, height)[k].Resize?
    ensures var before := ApplyAll(s, ResizeProtocol(width, height)[..k]);
      before.depth == 16 && before.space == LinearRgb
  {
    var ops := ResizeProtocol(width, height);
    assert k == 2;
    ApplyAllStep(s, ops, 0);
    ApplyAllStep(s, ops, 1);
  }

  /** The operations of `generate_jpeg_from_raw` on its clone. */
  function JpegFromRawOps(s: ImageState): seq<Op> {
    var size := DesqueezedSize(s.width, s.height);
    [SetFormat(JpegFormat), SetQuality(JpegQuality)] + ResizeProtocol(size.width, size.height)
  }

  /** The full-size preview written as `JpgFromRaw`. */
  function JpegFromRawState(s: ImageState): ImageState {
    ApplyAll(s, JpegFromRawOps(s))
  }

  /** The full-size preview is a quality-95 JPEG at the desqueezed size of the
      source, resized by the colour-correct protocol, 8-bit sRGB. */
  lemma JpegFromRawResult(s: ImageState)
    ensures var r := JpegFromRawState(s);
      Size(r.width, r.height) == DesqueezedSize(s.width, s.height)
      && r.format == JpegFormat && r.quality == JpegQuality
      && r.depth == 8 && r.space == Srgb && r.background == s.background
      && r.history == s.history + JpegFromRawOps(s)
  {
    var size := DesqueezedSize(s.width, s.height);
    var head := [SetFormat(JpegFormat), SetQuality(JpegQuality)];
    ApplyAllAppend(s, head, ResizeProtocol(size.width, size.height));
    var mid := ApplyAll(s, head);
    ApplyAllStep(s, head, 0);
    ApplyAllStep(s, head, 1);
    assert head[..2] == head;
    ResizeProtocolResult(mid, size.width, size.height);
  }

  /** `height is not None and height > thumbnail_height`. */
  predicate Pads(s: ImageState, width: int, height: Option<int>)
    requires s.width > 0
  {
    height.Some? && height.value > ScaledSize(s.width, s.height, width).height
  }

  /** The operations of `generate_jpeg_thumbnail` on its clone: JPEG at
      quality 95, scaled to `width` keeping the aspect ratio, and, only when
      a taller canvas is asked for, centred on a black canvas of that height. */
  function ThumbnailOps(s: ImageState, width: int, height: Option<int>): seq<Op>
    requires s.width > 0
  {
    var size := ScaledSize(s.width, s.height, width);
    [SetFormat(JpegFormat), SetQuality(JpegQuality), Thumbnail(size.width, size.height)]
    + if Pads(s, width, height) then
        [SetBackground(Black), Extent(width, height.value, 0, PadOffset(height.value, size.height))]
      else []
  }

  function ThumbnailState(s: ImageState, width: int, height: Option<int>): ImageState
    requires s.width > 0
  {
    ApplyAll(s, ThumbnailOps(s, width, height))
  }

  /** The thumbnail is `width` wide.  When it is padded it is as tall as the
      canvas asked for, has a black background and is shifted down by the
      centring offset; otherwise it has exactly the scaled height, and no
      background change and no extent is applied. */
  lemma ThumbnailResult(s: ImageState, width: int, height: Option<int>)
    requires s.width > 0
    ensures var r := ThumbnailState(s, width, height);
      var scaled := ScaledSize(s.width, s.height, width);
      r.width == width && r.format == JpegFormat && r.quality == JpegQuality
      && r.depth == s.depth && r.space == s.space
      && (Pads(s, width, height) ==>
            r.height == height.value && r.background == Black
            && r.history == s.history + [SetFormat(JpegFormat), SetQuality(JpegQuality), Thumbnail(width, scaled.height),
                                         SetBackground(Black), Extent(width, height.value, 0, PadOffset(height.value, scaled.height))])
      && (!Pads(s, width, height) ==>
            r.height == scaled.height && r.background == s.background
            && r.history == s.history + [SetFormat(JpegFormat), SetQuality(JpegQuality), Thumbnail(width, scaled.height)])
  {
    var scaled := ScaledSize(s.width, s.height, width);
    var head := [SetFormat(JpegFormat), SetQuality(JpegQuality), Thumbnail(scaled.width, scaled.height)];
    var tail := if Pads(s, width, height) then
        [SetBackground(Black), Extent(width, height.value, 0, PadOffset(height.value, scaled.height))]
      else [];
    assert ThumbnailOps(s, width, height) == head + tail;
    ApplyAllAppend(s, head, tail);
    ApplyAllHistory(s, head + tail);
    ApplyThree(s, head[0], head[1], head[2]);
    if tail != [] {
      ApplyTwo(ApplyAll(s, head), tail[0], tail[1]);
    }
  }

  /** Two operations in a row. */
  lemma ApplyTwo(s: ImageState, a: Op, b: Op)
    ensures ApplyAll(s, [a, b]) == Apply(Apply(s, a), b)
  {
    ApplyAllSnoc(s, [], a);
    assert [] + [a] == [a];
    ApplyAllSnoc(s, [a], b);
    assert [a] + [b] == [a, b];
  }

  /** Three operations in a row. */
  lemma ApplyThree(s: ImageState, a: Op, b: Op, c: Op)
    ensures ApplyAll(s, [a, b, c]) == Apply(Apply(Apply(s, a), b), c)
  {
    ApplyTwo(s, a, b);
    ApplyAllSnoc(s, [a, b], c);
    assert [a, b] + [c] == [a, b, c];
  }

  /** A mutable wand image. */
  class Image {
    var width: int
    var height: int
    var depth: nat
    var space: Colorspace
    var format: string
    var quality: nat
    var background: Color
    var history: seq<Op>

    function Snapshot(): ImageState
      reads this
    {
      ImageState(width, height, depth, space, format, quality, background, history)
    }

    /** `wand.image.Image(filename=...)`: the image as read from disk. */
    constructor Open(s: ImageState)
      ensures Snapshot() == s
    {
      width, height, depth, space := s.width, s.height, s.depth, s.space;
      format, quality, background, history := s.format, s.quality, s.background, s.history;
    }

    /** `image.clone()`: a new image in the same state; the original is untouched. */
    constructor Clone(source: Image)
      ensures Snapshot() == source.Snapshot()
    {
      width, height, depth, space := source.width, source.height, source.depth, source.space;
      format, quality, background, history := source.format, source.quality, source.background, source.history;
    }

    /** One operation: an attribute assignment or a wand method call. */
    method Do(op: Op)
      modifies this
      ensures Snapshot() == Apply(old(Snapshot()), op)
    {
      match op {
        case SetFormat(f) => format := f;
        case SetQuality(q) => quality := q;
        case SetBackground(c) => background := c;
        case SetDepth(d) => depth := d;
        case TransformColorspace(c) => space := c;
        case Resize(w, h, _) => width, height := w, h;
        case Thumbnail(w, h) => width, height := w, h;
        case Extent(w, h, _, _) => width, height := w, h;
      }
      history := history + [op];
    }
  }

  /** `resize_srgb`: the five steps of the colour-correct resize, in order. */
  method ResizeSrgb(image: Image, newWidth: int, newHeight: int)
    modifies image
    ensures image.Snapshot() == ApplyAll(old(image.Snapshot()), ResizeProtocol(newWidth, newHeight))
  {
    ghost var s0, done := image.Snapshot(), [];
    image.Do(SetDepth(16));
    ApplyAllSnoc(s0, done, SetDepth(16));
    done := done + [SetDepth(16)];
    image.Do(TransformColorspace(LinearRgb));
    ApplyAllSnoc(s0, done, TransformColorspace(LinearRgb));
    done := done + [TransformColorspace(LinearRgb)];
    image.Do(Resize(newWidth, newHeight, Lanczos2));
    ApplyAllSnoc(s0, done, Resize(newWidth, newHeight, Lanczos2));
    done := done + [Resize(newWidth, newHeight, Lanczos2)];
    image.Do(TransformColorspace(Srgb));
    ApplyAllSnoc(s0, done, TransformColorspace(Srgb));
    done := done + [TransformColorspace(Srgb)];
    image.Do(SetDepth(8));
    ApplyAllSnoc(s0, done, SetDepth(8));
    done := done + [SetDepth(8)];
    assert done == ResizeProtocol(newWidth, newHeight);
  }

  /** `generate_jpeg_from_raw`: a clone of the source, set to JPEG at quality
      95 and resized to the source's desqueezed size.  The source image is
      left as it was. */
  method GenerateJpegFromRaw(image: Image) returns (jpeg: Image)
    ensures fresh(jpeg) && image.Snapshot() == old(image.Snapshot())
    ensures jpeg.Snapshot() == JpegFromRawState(image.Snapshot())
  {
    ghost var s0, done := image.Snapshot(), [];
    jpeg := new Image.Clone(image);
    jpeg.Do(SetFormat(JpegFormat));
    ApplyAllSnoc(s0, done, SetFormat(JpegFormat));
    done := done + [SetFormat(JpegFormat)];
    jpeg.Do(SetQuality(JpegQuality));
    ApplyAllSnoc(s0, done, SetQuality(JpegQuality));
    done := done + [SetQuality(JpegQuality)];
    var size := DesqueezedSize(image.width, image.height);
    ResizeSrgb(jpeg, size.width, size.height);
    ApplyAllAppend(s0, done, ResizeProtocol(size.width, size.height));
    assert done + ResizeProtocol(size.width, size.height) == JpegFromRawOps(s0);
  }

  /** The image work of `generate_jpeg_thumbnail`: a clone of `image`, set to
      JPEG at quality 95, thumbnailed to `width` keeping the aspect ratio,
      and padded onto a black canvas when `height` asks for a taller one.
      The source image is left as it was. */
  method RenderThumbnail(image: Image, width: int, height: Option<int>) returns (thumbnail: Image)
    requires image.width > 0
    ensures fresh(thumbnail) && image.Snapshot() == old(image.Snapshot())
    ensures thumbnail.Snapshot() == ThumbnailState(image.Snapshot(), width, height)
  {
    ghost var s0, done := image.Snapshot(), [];
    thumbnail := new Image.Clone(image);
    thumbnail.Do(SetFormat(JpegFormat));
    ApplyAllSnoc(s0, done, SetFormat(JpegFormat));
    done := done + [SetFormat(JpegFormat)];
    thumbnail.Do(SetQuality(JpegQuality));
    ApplyAllSnoc(s0, done, SetQuality(JpegQuality));
    done := done + [SetQuality(JpegQuality)];
    var size := ScaledSize(thumbnail.width, thumbnail.height, width);
    thumbnail.Do(Thumbnail(size.width, size.height));
    ApplyAllSnoc(s0, done, Thumbnail(size.width, size.height));
    done := done + [Thumbnail(size.width, size.height)];
    if height.Some? && height.value > size.height {
      var offset := PadOffset(height.value, size.height);
      thumbnail.Do(SetBackground(Black));
      ApplyAllSnoc(s0, done, SetBackground(Black));
      done := done + [SetBackground(Black)];
      thumbnail.Do(Extent(width, height.value, 0, offset));
      ApplyAllSnoc(s0, done, Extent(width, height.value, 0, offset));
      done := done + [Extent(width, height.value, 0, offset)];
    }
    assert done == ThumbnailOps(s0, width, height);
  }
}
