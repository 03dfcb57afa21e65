/** `ScaleImage`: the uniform ratio that fits an image into a square of side
    `maxSide`, and the scaled pixel dimensions. */
module Scaling {
  import opened Numeric

  datatype Option<T> = None | Some(value: T)

  /** A side of a decoded bitmap, which is always positive. */
  type Dim = n: int | n > 0 witness 1

  /** The outcome of scaling one image: the ratio applied to both axes and the
      dimensions of the new bitmap. */
  datatype Scaled = Scaled(ratio: real, width: int, height: int)

  /** The ratio `min(maxSide / width, maxSide / height)`. */
  function Ratio(width: int, height: int, maxSide: int): real
    requires width > 0 && height > 0
  {
    Min(maxSide as real / width as real, maxSide as real / height as real)
  }

  /** The ratio scales both sides into `maxSide`, and one of them exactly to
      `maxSide`. */
  lemma RatioFits(width: int, height: int, maxSide: int)
    requires width > 0 && height > 0
    ensures var r := Ratio(width, height, maxSide);
      r * width as real <= maxSide as real && r * height as real <= maxSide as real &&
      (r * width as real == maxSide as real || r * height as real == maxSide as real)
  {
    var m, w, h := maxSide as real, width as real, height as real;
    assert m / w * w == m && m / h * h == m;
    if m / w <= m / h {
      assert m / w * h <= m / h * h;
    } else {
      assert m / h * w <= m / w * w;
    }
  }

  /** A side length that is not positive scales both sides to at most 0. */
  lemma RatioSign(width: int, height: int, maxSide: int)
    requires width > 0 && height > 0
    ensures maxSide <= 0 ==> width as real * Ratio(width, height, maxSide) <= 0.0
  {
    RatioFits(width, height, maxSide);
  }

  /** Scales an image of `width` x `height` pixels (a decoded bitmap always has
      positive dimensions). The new bitmap is `(int)(width * ratio)` by
      `(int)(height * ratio)`; a bitmap with a side that is not positive cannot
      be created, which is reported as `None`. */
  function ScaleImage(width: int, height: int, maxSide: int): (s: Option<Scaled>)
    requires width > 0 && height > 0
    ensures s.Some? ==> s.value.width > 0 && s.value.height > 0
    ensures s.Some? ==> s.value.ratio == Min(maxSide as real / width as real, maxSide as real / height as real)
    ensures s.Some? ==> TruncOf(width as real * s.value.ratio, s.value.width)
    ensures s.Some? ==> TruncOf(height as real * s.value.ratio, s.value.height)
  {
    var ratio := Ratio(width, height, maxSide);
    var w := Trunc(width as real * ratio);
    var h := Trunc(height as real * ratio);
    if w > 0 && h > 0 then Some(Scaled(ratio, w, h)) else None
  }

  /** Scaling succeeds exactly when both scaled sides are at least one pixel
      before truncation, and never for a side length that is not positive. */
  lemma ScaleSucceeds(width: int, height: int, maxSide: int)
    requires width > 0 && height > 0
    ensures var r := Ratio(width, height, maxSide);
      ScaleImage(width, height, maxSide).Some? <==> 1.0 <= width as real * r && 1.0 <= height as real * r
    ensures maxSide <= 0 ==> ScaleImage(width, height, maxSide).None?
  {
    var r := Ratio(width, height, maxSide);
    TruncPositive(width as real * r);
    TruncPositive(height as real * r);
    RatioSign(width, height, maxSide);
  }

  /** An image that already fits into the square is scaled up or kept, and
      always succeeds. */
  lemma ScaleWithinSide(width: int, height: int, maxSide: int)
    requires 0 < width <= maxSide && 0 < height <= maxSide
    ensures ScaleImage(width, height, maxSide).Some?
  {
    var m, w, h := maxSide as real, width as real, height as real;
    AtLeastOne(m, w);
    AtLeastOne(m, h);
    var r := Ratio(width, height, maxSide);
    AtLeastItself(w, r);
    AtLeastItself(h, r);
    ScaleSucceeds(width, height, maxSide);
  }

  /** A quotient of a value by a positive value no larger than it is at least 1. */
  lemma AtLeastOne(m: real, w: real)
    requires 0.0 < w <= m
    ensures m / w >= 1.0
  {
  }

  /** Multiplying by a factor of at least 1 does not make a positive value
      smaller. */
  lemma AtLeastItself(w: real, r: real)
    requires w > 0.0 && r >= 1.0
    ensures w * r >= w
  {
  }

  /** Both scaled sides stay within `maxSide`, and the longer side of the
      original maps to exactly `maxSide`. */
  lemma ScaleFits(width: int, height: int, maxSide: int)
    requires width > 0 && height > 0
    requires ScaleImage(width, height, maxSide).Some?
    ensures var s := ScaleImage(width, height, maxSide).value;
      s.width <= maxSide && s.height <= maxSide &&
      (width >= height ==> s.width == maxSide) &&
      (height >= width ==> s.height == maxSide)
  {
    var s := ScaleImage(width, height, maxSide).value;
    var m := maxSide as real;
    var w := width as real;
    var h := height as real;
    RatioFits(width, height, maxSide);
    assert s.ratio == Ratio(width, height, maxSide);
    if width >= height {
      assert s.ratio * w == m by {
        if s.ratio * h == m {
          assert s.ratio >= 0.0;
          assert s.ratio * w >= s.ratio * h;
        }
      }
    }
    if height >= width {
      assert s.ratio * h == m by {
        if s.ratio * w == m {
          assert s.ratio >= 0.0;
          assert s.ratio * h >= s.ratio * w;
        }
      }
    }
  }
}
