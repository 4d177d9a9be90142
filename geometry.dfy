/** The geometry of the desqueeze: `calculate_desqueezed_size`,
    `get_scaled_size` and the vertical offset that pads a thumbnail.

    Python computes these with floating point (`width * 1.33`,
    `new_width * height / width`, `(height - h) / 2`) and rounds with the
    built-in `round`, which sends a half to the even neighbour.  Here every
    quotient is an exact rational `n / d` and `RoundHalfEven` rounds it by the
    same rule.  For pixel sizes a camera produces the double-precision product
    lands on the same rational value, so the two agree; that is an assumption
    of the model, not something it proves. */
module Geometry {

  /** The stretch of the adapter, 1.33, as the exact fraction 133/100. */
  const ScaleNumerator: int := 133
  const ScaleDenominator: int := 100

  datatype Size = Size(width: int, height: int)

  /** `r` is the integer nearest to `n / d`, and an exact half goes to the
      even one of its two neighbours: the contract of Python's `round`.
      `err` is twice the distance `n - d * r`, so `|err| <= d` says that
      `n / d` is at most one half away from `r`, and `|err| == d` is a tie. */
  ghost predicate NearestEven(n: int, d: int, r: int) {
    var err := 2 * n - 2 * (d * r);
    -d <= err <= d && ((err == d || err == -d) ==> r % 2 == 0)
  }

  /** `round(n / d)` for a positive denominator, half to even. */
  function RoundHalfEven(n: int, d: int): (r: int)
    requires d > 0
    ensures NearestEven(n, d, r)
  {
    var q, m := n / d, n % d;
    assert d * (q + 1) == d * q + d;
    if 2 * m < d then q
    else if 2 * m > d then q + 1
    else if q % 2 == 0 then q
    else q + 1
  }

  /** A multiple of a positive `d` that lies within `[-d, d]` is `-d`, `0`
      or `d`. */
  lemma SmallMultiple(d: int, k: int)
    requires d > 0 && -d <= d * k <= d
    ensures -1 <= k <= 1
  {
  }

  /** `NearestEven` pins down one integer: `RoundHalfEven` is the only
      rounding that meets Python's contract. */
  lemma NearestEvenUnique(n: int, d: int, r1: int, r2: int)
    requires d > 0 && NearestEven(n, d, r1) && NearestEven(n, d, r2)
    ensures r1 == r2
  {
    var e1, e2 := 2 * n - 2 * (d * r1), 2 * n - 2 * (d * r2);
    assert e1 - e2 == 2 * (d * (r2 - r1));
    SmallMultiple(d, r2 - r1);
  }

  /** Rounding an integer gives it back. */
  lemma RoundHalfEvenOfInteger(k: int, d: int)
    requires d > 0
    ensures RoundHalfEven(k * d, d) == k
  {
    assert NearestEven(k * d, d, k);
    NearestEvenUnique(k * d, d, RoundHalfEven(k * d, d), k);
  }

  /** A multiple of a positive `d` that is at most `d` is at most one `d`. */
  lemma MultipleAtMost(d: int, k: int)
    requires d > 0 && d * k <= d
    ensures k <= 1 && (k == 1 ==> d * k == d)
  {
  }

  /** Rounding is monotone: a larger quotient never rounds lower. */
  lemma RoundHalfEvenMonotone(n1: int, n2: int, d: int)
    requires d > 0 && n1 <= n2
    ensures RoundHalfEven(n1, d) <= RoundHalfEven(n2, d)
  {
    var r1, r2 := RoundHalfEven(n1, d), RoundHalfEven(n2, d);
    var k := r1 - r2;
    // 2 d k = 2 (n1 - n2) - e1 + e2 <= 2 d, where e1 and e2 are the rounding
    // errors; so k is at most 1, and k == 1 would make both ties, both even
    assert d * k == d * r1 - d * r2;
    MultipleAtMost(d, k);
  }

  /** The desqueezed size of a `width` x `height` image: the longer axis of a
      portrait image, and the width of a landscape or square one, is
      stretched by 1.33; the other axis is kept. */
  function DesqueezedSize(width: int, height: int): (r: Size)
    ensures if width < height then r.width == width else r.height == height
  {
    if width < height then Size(width, RoundHalfEven(height * ScaleNumerator, ScaleDenominator))
    else Size(RoundHalfEven(width * ScaleNumerator, ScaleDenominator), height)
  }

  /** The axis that is stretched is the height exactly when the image is
      portrait; it becomes the nearest integer to 1.33 times its old length,
      a half going to the even neighbour, and the other axis is unchanged. */
  lemma DesqueezedSizeStretchesOneAxis(width: int, height: int)
    ensures var r := DesqueezedSize(width, height);
      if width < height then
        r.width == width && NearestEven(height * 133, 100, r.height)
      else
        r.height == height && NearestEven(width * 133, 100, r.width)
  {
  }

  /** For non-negative sizes the stretched axis never shrinks, and a portrait
      image stays portrait while a landscape or square one becomes strictly
      landscape unless it is empty. */
  lemma DesqueezedSizeGrowsAndKeepsOrientation(width: nat, height: nat)
    ensures var r := DesqueezedSize(width, height);
      r.width >= width && r.height >= height
      && (r.width < r.height <==> width < height)
      && (width > 0 && height > 0 ==> r.width > 0 && r.height > 0)
  {
    if width < height {
      RoundHalfEvenOfInteger(height, 100);
      RoundHalfEvenMonotone(height * 100, height * 133, 100);
    } else {
      RoundHalfEvenOfInteger(width, 100);
      RoundHalfEvenMonotone(width * 100, width * 133, 100);
    }
  }

  /** 1920 x 1080 becomes 2554 x 1080 (2553.6 rounds up), 1080 x 1920 becomes
      1080 x 2554, and a width of 50 gives 66.5, which rounds to the even 66. */
  lemma DesqueezedSizeExamples()
    ensures DesqueezedSize(1920, 1080) == Size(2554, 1080)
    ensures DesqueezedSize(1080, 1920) == Size(1080, 2554)
    ensures DesqueezedSize(50, 50) == Size(66, 50)
    ensures DesqueezedSize(150, 40) == Size(200, 40)
  {
  }

  /** `get_scaled_size`: the thumbnail keeps the aspect ratio at the
      requested width.  Python divides by the width, so it must not be 0. */
  function ScaledSize(width: int, height: int, newWidth: int): (r: Size)
    requires width > 0
    ensures r.width == newWidth && NearestEven(newWidth * height, width, r.height)
  {
    Size(newWidth, RoundHalfEven(newWidth * height, width))
  }

  /** The scaled width is exactly the one asked for, and the height is the
      nearest integer to `newWidth * height / width` (half to even), so the
      aspect ratio is kept up to rounding. */
  lemma ScaledSizeKeepsAspect(width: int, height: int, newWidth: int)
    requires width > 0
    ensures var r := ScaledSize(width, height, newWidth);
      r.width == newWidth && NearestEven(newWidth * height, width, r.height)
      && 2 * (newWidth * height) - width <= 2 * width * r.height <= 2 * (newWidth * height) + width
  {
    var r := ScaledSize(width, height, newWidth);
    assert width * (2 * r.height - 1) == 2 * width * r.height - width;
    assert width * (2 * r.height + 1) == 2 * width * r.height + width;
  }

  /** A square image scales to a square. */
  lemma ScaledSizeOfSquare(side: int, newWidth: int)
    requires side > 0
    ensures ScaledSize(side, side, newWidth) == Size(newWidth, newWidth)
  {
    assert newWidth * side == side * newWidth;
    RoundHalfEvenOfInteger(newWidth, side);
  }

  /** 4000 x 3000 scaled to a width of 1024 is 1024 x 768. */
  lemma ScaledSizeExample()
    ensures ScaledSize(4000, 3000, 1024) == Size(1024, 768)
  {
  }

  /** The vertical offset of `extent` that centres a thumbnail of height
      `thumbnailHeight` on a canvas of height `height`:
      `round((height - thumbnail_height) / 2) * -1`. */
  function PadOffset(height: int, thumbnailHeight: int): (offset: int)
    ensures NearestEven(height - thumbnailHeight, 2, -offset)
  {
    -RoundHalfEven(height - thumbnailHeight, 2)
  }

  /** When the canvas is taller than the thumbnail the offset moves it down
      (it is never positive), keeps it inside the canvas, and leaves bars
      above and below that differ by at most one row; for an odd difference
      the top bar is the even one of the two halves. */
  lemma PadOffsetCentres(height: int, thumbnailHeight: int)
    requires height > thumbnailHeight
    ensures var top := -PadOffset(height, thumbnailHeight);
      var bottom := height - thumbnailHeight - top;
      PadOffset(height, thumbnailHeight) <= 0
      && 0 <= top <= height - thumbnailHeight
      && -1 <= top - bottom <= 1
      && ((height - thumbnailHeight) % 2 == 1 ==> top % 2 == 0)
      && ((height - thumbnailHeight) % 2 == 0 ==> top == bottom)
  {
  }

  /** A difference of 3 rows puts 2 above and 1 below (1.5 rounds to 2); a
      difference of 5 puts 2 above and 3 below (2.5 rounds to 2); a
      difference of 1 puts the spare row below. */
  lemma PadOffsetExamples()
    ensures PadOffset(5, 2) == -2
    ensures PadOffset(6, 1) == -2
    ensures PadOffset(2, 1) == 0
  {
  }
}
