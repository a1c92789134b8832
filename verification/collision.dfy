/**
 * The older box-intersection test: a box is given by two opposite corners in
 * either order, and two boxes intersect when, on both axes, the lower-starting
 * interval strictly contains the other interval's start.
 */
module Collision {
  import Sat

  datatype Point = Point(x: real, y: real)

  /** A box by two opposite corners, in no particular order. */
  datatype Box = Box(a: Point, b: Point)

  /** The pair (min, max) of two coordinates, taking the second when they are not strictly ordered. */
  function Ordered(p: real, q: real): (r: (real, real))
    ensures r.0 <= r.1
    ensures (r.0 == p && r.1 == q) || (r.0 == q && r.1 == p)
  {
    if p < q then (p, q) else (q, p)
  }

  /** One axis of the test, on already ordered intervals [sMin, sMax] and [oMin, oMax]. */
  predicate AxisCrosses(sMin: real, sMax: real, oMin: real, oMax: real) {
    (sMin < oMin && oMin < sMax) || (oMin < sMin && sMin < oMax)
  }

  /** `Aabb::intersects`: normalise the corners per axis, then both axes must cross. */
  predicate Intersects(s: Box, o: Box) {
    var (sMinX, sMaxX) := Ordered(s.a.x, s.b.x);
    var (oMinX, oMaxX) := Ordered(o.a.x, o.b.x);
    var (sMinY, sMaxY) := Ordered(s.a.y, s.b.y);
    var (oMinY, oMaxY) := Ordered(o.a.y, o.b.y);
    AxisCrosses(sMinX, sMaxX, oMinX, oMaxX) && AxisCrosses(sMinY, sMaxY, oMinY, oMaxY)
  }

  /**
   * What one axis of the test means: the two starts differ, and the interval
   * that starts first has not ended by the time the other one starts.
   */
  lemma AxisCrossesMeaning(sMin: real, sMax: real, oMin: real, oMax: real)
    ensures AxisCrosses(sMin, sMax, oMin, oMax) <==>
      sMin != oMin && (if sMin < oMin then oMin < sMax else sMin < oMax)
  {
  }

  /** The corners may be given in either order: all four choices agree. */
  lemma CornerOrderIrrelevant(s: Box, o: Box)
    ensures Intersects(Box(s.b, s.a), o) == Intersects(s, o)
    ensures Intersects(s, Box(o.b, o.a)) == Intersects(s, o)
    ensures Intersects(Box(Point(s.a.x, s.b.y), Point(s.b.x, s.a.y)), o) == Intersects(s, o)
  {
  }

  lemma Symmetric(s: Box, o: Box)
    ensures Intersects(s, o) == Intersects(o, s)
  {
  }

  /**
   * Boxes that only touch, where one ends on an axis exactly where the other
   * starts, do not intersect, whichever axis it is and in whatever order the
   * corners are given.
   */
  lemma TouchingDoesNotIntersect(s: Box, o: Box)
    requires Ordered(s.a.x, s.b.x).1 == Ordered(o.a.x, o.b.x).0 || Ordered(s.a.y, s.b.y).1 == Ordered(o.a.y, o.b.y).0
    ensures !Intersects(s, o) && !Intersects(o, s)
  {
  }

  /** Boxes that start at the same coordinate on some axis never intersect; nor does a box with itself. */
  lemma EqualStartsDoNotIntersect(s: Box, o: Box)
    requires Ordered(s.a.x, s.b.x).0 == Ordered(o.a.x, o.b.x).0 || Ordered(s.a.y, s.b.y).0 == Ordered(o.a.y, o.b.y).0
    ensures !Intersects(s, o)
  {
  }

  lemma NotWithItself(s: Box)
    ensures !Intersects(s, s)
  {
    EqualStartsDoNotIntersect(s, s);
  }

  /** The same box as the contact test sees it: minimum and maximum corner. */
  function ToAabb(s: Box): Sat.Aabb {
    var (minX, maxX) := Ordered(s.a.x, s.b.x);
    var (minY, maxY) := Ordered(s.a.y, s.b.y);
    Sat.Aabb(Sat.Vec2(minX, minY), Sat.Vec2(maxX, maxY))
  }

  /**
   * For boxes of positive width and height, this test agrees with the
   * separating-axis contact test, except that boxes starting at the same
   * coordinate on an axis are never reported here.
   */
  lemma AgreesWithContactTest(s: Box, o: Box)
    requires s.a.x != s.b.x && s.a.y != s.b.y && o.a.x != o.b.x && o.a.y != o.b.y
    ensures var c := Sat.CheckContact(ToAabb(s), ToAabb(o));
      && (Intersects(s, o) ==> c.intersects)
      && (c.intersects && ToAabb(s).min.x != ToAabb(o).min.x && ToAabb(s).min.y != ToAabb(o).min.y ==> Intersects(s, o))
  {
  }

  function Corners(x0: real, y0: real, x1: real, y1: real): Box {
    Box(Point(x0, y0), Point(x1, y1))
  }

  /** The cases the game's tests check, in both argument orders. */
  lemma TestCases()
    ensures Intersects(Corners(2.5, 2.5, 12.5, 12.5), Corners(7.5, 7.5, 17.5, 17.5))
    ensures Intersects(Corners(7.5, 7.5, 17.5, 17.5), Corners(2.5, 2.5, 12.5, 12.5))
    ensures Intersects(Corners(2.5, 2.5, 22.5, 12.5), Corners(7.5, 7.5, 17.5, 17.5))
    ensures Intersects(Corners(7.5, 7.5, 17.5, 17.5), Corners(2.5, 2.5, 22.5, 12.5))
    ensures Intersects(Corners(2.5, 2.5, 12.5, 12.5), Corners(7.5, 7.5, 10.5, 17.5))
    ensures Intersects(Corners(7.5, 7.5, 10.5, 17.5), Corners(2.5, 2.5, 12.5, 12.5))
    ensures !Intersects(Corners(2.5, 2.5, 12.5, 12.5), Corners(7.5, 13.5, 17.5, 17.5))
    ensures !Intersects(Corners(7.5, 13.5, 17.5, 17.5), Corners(2.5, 2.5, 12.5, 12.5))
    ensures !Intersects(Corners(2.5, 2.5, 22.5, 12.5), Corners(7.5, 13.5, 17.5, 17.5))
    ensures !Intersects(Corners(7.5, 13.5, 17.5, 17.5), Corners(2.5, 2.5, 22.5, 12.5))
    ensures !Intersects(Corners(2.5, 2.5, 12.5, 12.5), Corners(7.5, 13.5, 10.5, 17.5))
    ensures !Intersects(Corners(7.5, 13.5, 10.5, 17.5), Corners(2.5, 2.5, 12.5, 12.5))
  {
  }
}
