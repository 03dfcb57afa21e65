/** The per-line bounding-box transforms: KITTI corners, DARKNET centre/size
    with its edge clamps, and the truncation-candidate test. */
module Boxes {
  import opened Numeric

  /** One annotation line `x y width height`, in pixels of the original image. */
  datatype RawBox = RawBox(x: real, y: real, w: real, h: real)

  /** KITTI corners in pixels of the scaled image. */
  datatype Corners = Corners(x1: int, y1: int, x2: int, y2: int)

  /** DARKNET centre and size in pixels of the scaled image, after clamping. */
  datatype CenterSize = CenterSize(cx: int, cy: int, w: int, h: int)

  /** The four corners scaled by `ratio` and truncated toward zero; for a box
      with non-negative extent and a non-negative ratio they are ordered. */
  function KittiBox(b: RawBox, ratio: real): (c: Corners)
    ensures TruncOf(b.x * ratio, c.x1) && TruncOf(b.y * ratio, c.y1)
    ensures TruncOf((b.x + b.w) * ratio, c.x2) && TruncOf((b.y + b.h) * ratio, c.y2)
    ensures b.w >= 0.0 && b.h >= 0.0 && ratio >= 0.0 ==> c.x1 <= c.x2 && c.y1 <= c.y2
  {
    TruncSpread(b.x, b.w, ratio);
    TruncSpread(b.y, b.h, ratio);
    Corners(Trunc(b.x * ratio), Trunc(b.y * ratio),
            Trunc((b.x + b.w) * ratio), Trunc((b.y + b.h) * ratio))
  }

  /** The example `(10, 10, 20, 30)` at ratio 0.5 gives `5 5 15 20`. */
  lemma KittiExample()
    ensures KittiBox(RawBox(10.0, 10.0, 20.0, 30.0), 0.5) == Corners(5, 5, 15, 20)
  {
  }

  /** The box centre and size scaled by `ratio` and truncated, before any clamp. */
  function CenterX(b: RawBox, ratio: real): int { Trunc((b.x + 0.5 * b.w) * ratio) }
  function CenterY(b: RawBox, ratio: real): int { Trunc((b.y + 0.5 * b.h) * ratio) }
  function SizeW(b: RawBox, ratio: real): int { Trunc(b.w * ratio) }
  function SizeH(b: RawBox, ratio: real): int { Trunc(b.h * ratio) }

  /** The DARKNET box: a centre of 0 is moved to 1, and a size whose sum with
      the (clamped) centre exceeds the scaled image side is lowered by one. */
  function DarknetBox(b: RawBox, ratio: real, width: int, height: int): (p: CenterSize)
    ensures p.cx != 0 && p.cy != 0
    ensures CenterX(b, ratio) == 0 ==> p.cx == 1
    ensures CenterY(b, ratio) == 0 ==> p.cy == 1
    ensures CenterX(b, ratio) != 0 ==> p.cx == CenterX(b, ratio)
    ensures CenterY(b, ratio) != 0 ==> p.cy == CenterY(b, ratio)
    ensures p.w == SizeW(b, ratio) - 1 <==> p.cx + SizeW(b, ratio) > width
    ensures p.w == SizeW(b, ratio) <==> p.cx + SizeW(b, ratio) <= width
    ensures p.h == SizeH(b, ratio) - 1 <==> p.cy + SizeH(b, ratio) > height
    ensures p.h == SizeH(b, ratio) <==> p.cy + SizeH(b, ratio) <= height
  {
    var cx := if CenterX(b, ratio) == 0 then 1 else CenterX(b, ratio);
    var cy := if CenterY(b, ratio) == 0 then 1 else CenterY(b, ratio);
    var w := if cx + SizeW(b, ratio) > width then SizeW(b, ratio) - 1 else SizeW(b, ratio);
    var h := if cy + SizeH(b, ratio) > height then SizeH(b, ratio) - 1 else SizeH(b, ratio);
    CenterSize(cx, cy, w, h)
  }

  /** The DARKNET branch as written: locals assigned from the truncated
      expressions and then corrected in place by the clamps. */
  method DarknetPixels(b: RawBox, ratio: real, width: int, height: int) returns (p: CenterSize)
    ensures p == DarknetBox(b, ratio, width, height)
  {
    var x1 := CenterX(b, ratio);
    var y1 := CenterY(b, ratio);
    var x2 := SizeW(b, ratio);
    var y2 := SizeH(b, ratio);
    if x1 == 0 {
      x1 := 1;
    }
    if y1 == 0 {
      y1 := 1;
    }
    if x1 + x2 > width {
      x2 := x2 - 1;
    }
    if y1 + y2 > height {
      y2 := y2 - 1;
    }
    p := CenterSize(x1, y1, x2, y2);
  }

  /** A box at the top-left corner with a one-pixel extent has a truncated
      centre of 0 on both axes, which the clamps move to 1. */
  lemma DarknetZeroCenterClamped()
    ensures DarknetBox(RawBox(0.0, 0.0, 1.0, 1.0), 1.0, 100, 100) == CenterSize(1, 1, 1, 1)
  {
  }

  /** The clamp lowers the size by one only; it does not keep the box inside
      the image: in a 10-pixel-wide image, centre 10 with size 4 is lowered to
      size 3, and centre plus size is still 13. */
  lemma DarknetMayStillOverflow()
    ensures var p := DarknetBox(RawBox(8.0, 0.0, 4.0, 2.0), 1.0, 10, 10);
      p == CenterSize(10, 1, 3, 2) && p.cx + p.w == 13 > 10
  {
  }

  /** The normalised DARKNET values: centre and size divided by the scaled
      image dimensions. */
  datatype Normalized = Normalized(cx: real, cy: real, w: real, h: real)

  function Normalize(p: CenterSize, width: int, height: int): (n: Normalized)
    requires width > 0 && height > 0
    ensures n.cx * width as real == p.cx as real && n.w * width as real == p.w as real
    ensures n.cy * height as real == p.cy as real && n.h * height as real == p.h as real
  {
    Normalized(p.cx as real / width as real, p.cy as real / height as real,
               p.w as real / width as real, p.h as real / height as real)
  }

  /** A box that touches the left or the top edge of the original image
      (raw `x` or `y` exactly 0) is reported as possibly truncated. */
  predicate IsTruncCandidate(b: RawBox)
  {
    b.x == 0.0 || b.y == 0.0
  }

  /** A candidate's KITTI box starts on the left or the top edge of the scaled
      image. Only the left and top edges are tested. */
  lemma CandidateOnEdge(b: RawBox, ratio: real)
    requires IsTruncCandidate(b)
    ensures KittiBox(b, ratio).x1 == 0 || KittiBox(b, ratio).y1 == 0
  {
  }
}
