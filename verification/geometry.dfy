/**
 * Axis-aligned boxes (`CollisionBox` / `Rectangle`) with strict-overlap
 * intersection: boxes that only share an edge do not intersect.
 */
module Geometry {

  /** x grows rightward, y grows upward; (x, y) is the bottom-left corner. */
  datatype Box = Box(x: int, y: int, width: int, height: int)

  function Right(b: Box): int { b.x + b.width }
  function Top(b: Box): int { b.y + b.height }

  function Min(a: int, b: int): int { if a <= b then a else b }
  function Max(a: int, b: int): int { if a >= b then a else b }

  /** Length of the overlap of the x projections (not positive when they do not overlap). */
  function OverlapWidth(a: Box, b: Box): int { Min(Right(a), Right(b)) - Max(a.x, b.x) }

  /** Length of the overlap of the y projections (not positive when they do not overlap). */
  function OverlapHeight(a: Box, b: Box): int { Min(Top(a), Top(b)) - Max(a.y, b.y) }

  /** `intersects`: the projections overlap with positive length on both axes. */
  predicate Intersects(a: Box, b: Box) {
    OverlapWidth(a, b) > 0 && OverlapHeight(a, b) > 0
  }

  /** `c` lies within `b`. */
  predicate Inside(c: Box, b: Box) {
    b.x <= c.x && Right(c) <= Right(b) && b.y <= c.y && Top(c) <= Top(b)
  }

  /** `intersection`: the overlap rectangle of two intersecting boxes, the largest box inside both. */
  function Intersection(a: Box, b: Box): (r: Box)
    requires Intersects(a, b)
    ensures r.width > 0 && r.height > 0
    ensures Inside(r, a) && Inside(r, b)
    ensures forall c :: Inside(c, a) && Inside(c, b) ==> Inside(c, r)
  {
    Box(Max(a.x, b.x), Max(a.y, b.y), OverlapWidth(a, b), OverlapHeight(a, b))
  }

  /** `Rectangle.area`. */
  function Area(b: Box): int { b.width * b.height }

  /** The area one box covers of another: the intersection's area, or 0 when they do not intersect. */
  function OverlapArea(a: Box, b: Box): (r: int)
    ensures r >= 0
    ensures r > 0 <==> Intersects(a, b)
  {
    if Intersects(a, b) then
      var i := Intersection(a, b);
      PositiveProduct(i.width, i.height);
      Area(i)
    else 0
  }

  /** For intersecting boxes, the covered area is the product of the overlap lengths. */
  lemma OverlapAreaOfSides(a: Box, b: Box, w: int, h: int)
    requires OverlapWidth(a, b) == w > 0 && OverlapHeight(a, b) == h > 0
    ensures OverlapArea(a, b) == w * h
  {
  }

  lemma PositiveProduct(w: int, h: int)
    requires w > 0 && h > 0
    ensures w * h > 0
  {
  }

  lemma ProductMonotone(w: int, h: int, bw: int, bh: int)
    requires 0 < w <= bw && 0 < h <= bh
    ensures w * h <= bw * bh
  {
    MultiplyRight(w, bw, h);
    MultiplyLeft(bw, h, bh);
  }

  lemma MultiplyRight(w: int, bw: int, h: int)
    requires w <= bw && h > 0
    ensures w * h <= bw * h
  {
    assert bw * h - w * h == (bw - w) * h;
  }

  lemma MultiplyLeft(bw: int, h: int, bh: int)
    requires h <= bh && bw > 0
    ensures bw * h <= bw * bh
  {
    assert bw * bh - bw * h == bw * (bh - h);
  }

  /** Overlap is symmetric, and so is the area it covers. */
  lemma IntersectsSymmetric(a: Box, b: Box)
    ensures Intersects(a, b) == Intersects(b, a)
    ensures OverlapArea(a, b) == OverlapArea(b, a)
  {
    if Intersects(a, b) {
      assert Intersection(a, b) == Intersection(b, a);
    }
  }

  /** The intersection never covers more than either box. */
  lemma OverlapAreaBounded(a: Box, b: Box)
    ensures OverlapArea(a, b) <= Area(a) || !Intersects(a, b)
    ensures OverlapArea(a, b) <= Area(b) || !Intersects(a, b)
  {
    if Intersects(a, b) {
      var i := Intersection(a, b);
      ProductMonotone(i.width, i.height, a.width, a.height);
      ProductMonotone(i.width, i.height, b.width, b.height);
    }
  }
}
