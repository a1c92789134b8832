/**
 * Separating-axis contact between two axis-aligned boxes, with the minimum
 * translation vector that pushes the first box out of the second.
 *
 * The game carries two copies of this test, one over f32 (geometry.rs) and
 * one over f64 (aabb.rs); both are modelled here once, over `real`. The only
 * axes the test ever examines are the unit x and y axes, so the separation vector of
 * the winning axis is axis-aligned: its squared length is `overlap²`, its
 * square root is `|overlap|`, and normalising it gives `±axis`.
 */
module Sat {
  import opened Directions

  datatype Vec2 = Vec2(x: real, y: real)

  function Dot(a: Vec2, b: Vec2): real {
    a.x * b.x + a.y * b.y
  }

  function Scale(a: Vec2, k: real): Vec2 {
    Vec2(a.x * k, a.y * k)
  }

  function Add(a: Vec2, b: Vec2): Vec2 {
    Vec2(a.x + b.x, a.y + b.y)
  }

  function Neg(a: Vec2): Vec2 {
    Vec2(-a.x, -a.y)
  }

  function Abs(r: real): real {
    if r < 0.0 then -r else r
  }

  function Min(a: real, b: real): real {
    if a <= b then a else b
  }

  const UnitX: Vec2 := Vec2(1.0, 0.0)
  const UnitY: Vec2 := Vec2(0.0, 1.0)

  /** Axes shorter than this (squared) are ignored as degenerate. */
  const DegenerateAxisLenSq: real := 0.00000001

  /** The factor by which the penetration is lengthened so that resolving it really separates. */
  const PenetrationSlack: real := 1.001

  datatype Aabb = Aabb(min: Vec2, max: Vec2)

  datatype Contact = Contact(intersects: bool, penetration: real, minTrans: Vec2)

  /** `AabbContact::empty`: no intersection, zero penetration, zero vector. */
  function EmptyContact(): Contact {
    Contact(false, 0.0, Vec2(0.0, 0.0))
  }

  /** `AabbContact::new`: an intersection with the given penetration and normal. */
  function NewContact(penetration: real, normal: Vec2): Contact {
    Contact(true, penetration, normal)
  }

  /**
   * The best separation found so far. The source starts from the float
   * type's largest value; `NoAxisYet` stands for it, as a distance every
   * candidate beats.
   */
  datatype Mtv = NoAxisYet | Best(sep: Vec2, dist: real)

  /** What `check_sat_axis` returns together with its updated minimum. */
  datatype AxisResult = AxisResult(overlaps: bool, mtv: Mtv)

  // ---------------------------------------------------------------------
  // Independent description of the contact
  // ---------------------------------------------------------------------

  /** The projections [minA, maxA] and [minB, maxB] share interior points. */
  predicate OverlapsOn(minA: real, maxA: real, minB: real, maxB: real) {
    maxB - minA > 0.0 && maxA - minB > 0.0
  }

  /** How far A must move along the axis, either way, to stop overlapping B. */
  function Depth(minA: real, maxA: real, minB: real, maxB: real): real {
    Min(maxB - minA, maxA - minB)
  }

  /** +1 when A leaves B most cheaply towards +axis, -1 otherwise (ties go to -axis). */
  function Side(minA: real, maxA: real, minB: real, maxB: real): real {
    if maxB - minA < maxA - minB then 1.0 else -1.0
  }

  function DepthX(a: Aabb, b: Aabb): real { Depth(a.min.x, a.max.x, b.min.x, b.max.x) }
  function DepthY(a: Aabb, b: Aabb): real { Depth(a.min.y, a.max.y, b.min.y, b.max.y) }

  predicate Overlapping(a: Aabb, b: Aabb) {
    OverlapsOn(a.min.x, a.max.x, b.min.x, b.max.x) && OverlapsOn(a.min.y, a.max.y, b.min.y, b.max.y)
  }

  /** The x axis is kept unless the y axis is strictly shallower. */
  predicate ChoosesX(a: Aabb, b: Aabb) {
    DepthX(a, b) <= DepthY(a, b)
  }

  /** The unit normal the contact should report, on the chosen axis. */
  function ExpectedNormal(a: Aabb, b: Aabb): Vec2 {
    if ChoosesX(a, b) then Vec2(Side(a.min.x, a.max.x, b.min.x, b.max.x), 0.0)
    else Vec2(0.0, Side(a.min.y, a.max.y, b.min.y, b.max.y))
  }

  // ---------------------------------------------------------------------
  // Axis-aligned vectors: square root and normalisation
  // ---------------------------------------------------------------------

  /** A non-zero vector along one of the coordinate axes. */
  predicate AxisAligned(v: Vec2) {
    (v.x == 0.0 || v.y == 0.0) && v != Vec2(0.0, 0.0)
  }

  function Sign(r: real): real {
    if r > 0.0 then 1.0 else if r < 0.0 then -1.0 else 0.0
  }

  lemma AbsSquare(r: real)
    ensures Abs(r) * Abs(r) == r * r
  {
    if r < 0.0 {
      assert Abs(r) == -r;
    }
  }

  /** The length of an axis-aligned vector: the non-negative square root of `Dot(v, v)`. */
  function AxisLength(v: Vec2): (len: real)
    requires AxisAligned(v)
    ensures len > 0.0 && len * len == Dot(v, v)
  {
    if v.x == 0.0 then
      AbsSquare(v.y);
      Abs(v.y)
    else
      AbsSquare(v.x);
      Abs(v.x)
  }

  lemma DivideByAbs(r: real)
    requires r != 0.0
    ensures r * (1.0 / Abs(r)) == Sign(r)
  {
    if r < 0.0 {
      assert r * (1.0 / -r) == -1.0;
    } else {
      assert r * (1.0 / r) == 1.0;
    }
  }

  /** `normalize` of an axis-aligned vector: the unit vector pointing the same way. */
  function Normalize(v: Vec2): (u: Vec2)
    requires AxisAligned(v)
    ensures u == Vec2(Sign(v.x), Sign(v.y))
  {
    var k := 1.0 / AxisLength(v);
    if v.x == 0.0 then
      DivideByAbs(v.y);
      assert v.x * k == 0.0;
      Scale(v, k)
    else
      DivideByAbs(v.x);
      assert v.y * k == 0.0;
      Scale(v, k)
  }

  // ---------------------------------------------------------------------
  // The SAT test
  // ---------------------------------------------------------------------

  /** The signed overlap: positive when A leaves B towards +axis. */
  function SignedOverlap(minA: real, maxA: real, minB: real, maxB: real): real {
    var d0 := maxB - minA;
    var d1 := maxA - minB;
    if d0 < d1 then d0 else -d1
  }

  /**
   * `check_sat_axis`: do the projections on `axis` overlap, and is this
   * axis's separation shorter than the best one so far?
   */
  function CheckSatAxis(axis: Vec2, minA: real, maxA: real, minB: real, maxB: real, mtv: Mtv): (r: AxisResult)
    ensures Dot(axis, axis) < DegenerateAxisLenSq ==> r == AxisResult(true, mtv)
    ensures Dot(axis, axis) >= DegenerateAxisLenSq ==> (r.overlaps <==> OverlapsOn(minA, maxA, minB, maxB))
    ensures !r.overlaps ==> r.mtv == mtv
    ensures mtv.Best? ==> r.mtv.Best? && r.mtv.dist <= mtv.dist
    ensures Dot(axis, axis) >= DegenerateAxisLenSq && r.overlaps ==> r.mtv.Best?
    ensures Dot(axis, axis) >= DegenerateAxisLenSq && r.overlaps && r.mtv != mtv ==>
      r.mtv.sep == Scale(axis, SignedOverlap(minA, maxA, minB, maxB) / Dot(axis, axis))
  {
    var axisLenSq := Dot(axis, axis);
    if axisLenSq < DegenerateAxisLenSq then AxisResult(true, mtv)
    else
      var d0 := maxB - minA;
      var d1 := maxA - minB;
      if d0 <= 0.0 || d1 <= 0.0 then AxisResult(false, mtv)
      else
        var overlap := if d0 < d1 then d0 else -d1;
        var sep := Scale(axis, overlap / axisLenSq);
        var sepLenSq := Dot(sep, sep);
        if mtv.NoAxisYet? || sepLenSq < mtv.dist then AxisResult(true, Best(sep, sepLenSq))
        else AxisResult(true, mtv)
  }

  /** The signed overlap of overlapping projections is the depth, signed by the side. */
  lemma SignedOverlapIsDepth(minA: real, maxA: real, minB: real, maxB: real)
    requires OverlapsOn(minA, maxA, minB, maxB)
    ensures var o := SignedOverlap(minA, maxA, minB, maxB);
      && o != 0.0
      && Abs(o) == Depth(minA, maxA, minB, maxB)
      && Sign(o) == Side(minA, maxA, minB, maxB)
  {
  }

  /** On the x axis the candidate separation is `(o, 0)`, of squared length `o²`. */
  lemma UnitXStep(o: real, mtv: Mtv, r: AxisResult, minA: real, maxA: real, minB: real, maxB: real)
    requires OverlapsOn(minA, maxA, minB, maxB)
    requires o == SignedOverlap(minA, maxA, minB, maxB)
    requires r == CheckSatAxis(UnitX, minA, maxA, minB, maxB, mtv)
    ensures r.overlaps
    ensures mtv.NoAxisYet? || o * o < mtv.dist ==> r.mtv == Best(Vec2(o, 0.0), o * o)
    ensures mtv.Best? && !(o * o < mtv.dist) ==> r.mtv == mtv
  {
    assert Dot(UnitX, UnitX) == 1.0;
    assert o / 1.0 == o;
    var sep := Scale(UnitX, o);
    assert sep == Vec2(o, 0.0);
    assert Dot(sep, sep) == o * o;
  }

  /** On the y axis the candidate separation is `(0, o)`, of squared length `o²`. */
  lemma UnitYStep(o: real, mtv: Mtv, r: AxisResult, minA: real, maxA: real, minB: real, maxB: real)
    requires OverlapsOn(minA, maxA, minB, maxB)
    requires o == SignedOverlap(minA, maxA, minB, maxB)
    requires r == CheckSatAxis(UnitY, minA, maxA, minB, maxB, mtv)
    ensures r.overlaps
    ensures mtv.NoAxisYet? || o * o < mtv.dist ==> r.mtv == Best(Vec2(0.0, o), o * o)
    ensures mtv.Best? && !(o * o < mtv.dist) ==> r.mtv == mtv
  {
    assert Dot(UnitY, UnitY) == 1.0;
    assert o / 1.0 == o;
    var sep := Scale(UnitY, o);
    assert sep == Vec2(0.0, o);
    assert Dot(sep, sep) == o * o;
  }

  lemma MulLess(p: real, q: real)
    requires 0.0 <= p < q
    ensures p * p < q * q
  {
    var x, y, z := p * p, p * q, q * q;
    assert x <= y;
    assert y < z;
  }

  /** Squares order like absolute values. */
  lemma SquareLess(a: real, b: real)
    ensures a * a < b * b <==> Abs(a) < Abs(b)
  {
    AbsSquare(a);
    AbsSquare(b);
    if Abs(a) < Abs(b) {
      MulLess(Abs(a), Abs(b));
    } else if Abs(b) < Abs(a) {
      MulLess(Abs(b), Abs(a));
    }
  }

  /**
   * `Aabb::check_contact`: test the x axis and then the y axis; if either
   * separates, no contact; otherwise report the shorter separation, its
   * direction as the normal and its length times 1.001 as the penetration.
   */
  function CheckContact(a: Aabb, b: Aabb): (c: Contact)
    ensures c.intersects <==> Overlapping(a, b)
    ensures !c.intersects ==> c == EmptyContact()
    ensures c.intersects ==> c.penetration == PenetrationSlack * Min(DepthX(a, b), DepthY(a, b))
    ensures c.intersects ==> c.penetration > 0.0
    ensures c.intersects ==> c.minTrans == ExpectedNormal(a, b)
  {
    var rx := CheckSatAxis(UnitX, a.min.x, a.max.x, b.min.x, b.max.x, NoAxisYet);
    if !rx.overlaps then EmptyContact()
    else
      var ry := CheckSatAxis(UnitY, a.min.y, a.max.y, b.min.y, b.max.y, rx.mtv);
      if !ry.overlaps then EmptyContact()
      else
        ContactOf(a, b, rx, ry)
  }

  /** The last step of `check_contact`, once both axes overlap. */
  function ContactOf(a: Aabb, b: Aabb, rx: AxisResult, ry: AxisResult): (c: Contact)
    requires Overlapping(a, b)
    requires rx == CheckSatAxis(UnitX, a.min.x, a.max.x, b.min.x, b.max.x, NoAxisYet)
    requires ry == CheckSatAxis(UnitY, a.min.y, a.max.y, b.min.y, b.max.y, rx.mtv)
    ensures c.intersects
    ensures c.penetration == PenetrationSlack * Min(DepthX(a, b), DepthY(a, b))
    ensures c.penetration > 0.0
    ensures c.minTrans == ExpectedNormal(a, b)
  {
    var ox := SignedOverlap(a.min.x, a.max.x, b.min.x, b.max.x);
    var oy := SignedOverlap(a.min.y, a.max.y, b.min.y, b.max.y);
    SignedOverlapIsDepth(a.min.x, a.max.x, b.min.x, b.max.x);
    SignedOverlapIsDepth(a.min.y, a.max.y, b.min.y, b.max.y);
    UnitXStep(ox, NoAxisYet, rx, a.min.x, a.max.x, b.min.x, b.max.x);
    UnitYStep(oy, rx.mtv, ry, a.min.y, a.max.y, b.min.y, b.max.y);
    SquareLess(oy, ox);
    var sep := if ChoosesX(a, b) then Vec2(ox, 0.0) else Vec2(0.0, oy);
    assert ry.mtv.sep == sep;
    NewContact(PenetrationSlack * AxisLength(sep), Normalize(sep))
  }

  // ---------------------------------------------------------------------
  // Properties
  // ---------------------------------------------------------------------

  function Translate(a: Aabb, v: Vec2): Aabb {
    Aabb(Add(a.min, v), Add(a.max, v))
  }

  /** Moving the first box by `normal × penetration` leaves the two boxes apart. */
  lemma ResolvingSeparates(a: Aabb, b: Aabb)
    requires CheckContact(a, b).intersects
    ensures var c := CheckContact(a, b);
      !CheckContact(Translate(a, Scale(c.minTrans, c.penetration)), b).intersects
  {
  }

  /**
   * Swapping the boxes keeps whether they intersect and how deep; the normal
   * flips unless the two overlaps on the chosen axis are equal, in which case
   * both calls report the -axis direction.
   */
  lemma SwapArguments(a: Aabb, b: Aabb)
    ensures CheckContact(b, a).intersects == CheckContact(a, b).intersects
    ensures CheckContact(b, a).penetration == CheckContact(a, b).penetration
    ensures var c := CheckContact(a, b);
      c.intersects ==>
        if ChoosesX(a, b) then
          (a.max.x - b.min.x == b.max.x - a.min.x ==> CheckContact(b, a).minTrans == c.minTrans) &&
          (a.max.x - b.min.x != b.max.x - a.min.x ==> CheckContact(b, a).minTrans == Neg(c.minTrans))
        else
          (a.max.y - b.min.y == b.max.y - a.min.y ==> CheckContact(b, a).minTrans == c.minTrans) &&
          (a.max.y - b.min.y != b.max.y - a.min.y ==> CheckContact(b, a).minTrans == Neg(c.minTrans))
  {
  }

  /** Boxes that only share an edge do not intersect. */
  lemma TouchingDoesNotIntersect(a: Aabb, b: Aabb)
    requires a.max.x == b.min.x || a.max.y == b.min.y || b.max.x == a.min.x || b.max.y == a.min.y
    ensures CheckContact(a, b) == EmptyContact()
  {
  }

  // ---------------------------------------------------------------------
  // The cases the game's tests check (identical in both copies)
  // ---------------------------------------------------------------------

  function Box(x0: real, y0: real, x1: real, y1: real): Aabb {
    Aabb(Vec2(x0, y0), Vec2(x1, y1))
  }

  lemma NoIntersectionCases()
    ensures CheckContact(Box(10.0, 10.0, 20.0, 20.0), Box(20.0, 20.0, 30.0, 30.0)) == EmptyContact()
    ensures CheckContact(Box(20.0, 20.0, 30.0, 30.0), Box(10.0, 10.0, 20.0, 20.0)) == EmptyContact()
    ensures CheckContact(Box(10.0, 10.0, 20.0, 20.0), Box(11.0, 20.0, 19.0, 30.0)) == EmptyContact()
    ensures CheckContact(Box(11.0, 20.0, 19.0, 30.0), Box(10.0, 10.0, 20.0, 20.0)) == EmptyContact()
    ensures CheckContact(Box(10.0, 10.0, 20.0, 20.0), Box(20.0, 11.0, 30.0, 19.0)) == EmptyContact()
    ensures CheckContact(Box(20.0, 11.0, 30.0, 19.0), Box(10.0, 10.0, 20.0, 20.0)) == EmptyContact()
  {
  }

  lemma IntersectionCase1()
    ensures CheckContact(Box(10.0, 10.0, 20.0, 20.0), Box(15.0, 15.0, 30.0, 30.0)) == NewContact(5.005, Vec2(-1.0, 0.0))
    ensures CheckContact(Box(15.0, 15.0, 30.0, 30.0), Box(10.0, 10.0, 20.0, 20.0)) == NewContact(5.005, Vec2(1.0, 0.0))
  {
  }

  lemma IntersectionCase2()
    ensures CheckContact(Box(10.0, 10.0, 20.0, 20.0), Box(11.0, 18.5, 19.0, 30.0)) == NewContact(1.5015, Vec2(0.0, -1.0))
    ensures CheckContact(Box(11.0, 18.5, 19.0, 30.0), Box(10.0, 10.0, 20.0, 20.0)) == NewContact(1.5015, Vec2(0.0, 1.0))
  {
    var a, b := Box(10.0, 10.0, 20.0, 20.0), Box(11.0, 18.5, 19.0, 30.0);
    assert DepthX(a, b) == 9.0 && DepthY(a, b) == 1.5;
    assert DepthX(b, a) == 9.0 && DepthY(b, a) == 1.5;
    assert ExpectedNormal(a, b) == Vec2(0.0, -1.0);
    assert ExpectedNormal(b, a) == Vec2(0.0, 1.0);
  }

  lemma IntersectionCase3()
    ensures CheckContact(Box(10.0, 10.0, 20.0, 20.0), Box(17.5, 11.0, 30.0, 19.0)) == NewContact(2.5025, Vec2(-1.0, 0.0))
    ensures CheckContact(Box(17.5, 11.0, 30.0, 19.0), Box(10.0, 10.0, 20.0, 20.0)) == NewContact(2.5025, Vec2(1.0, 0.0))
  {
  }

  // ---------------------------------------------------------------------
  // Direction of a velocity
  // ---------------------------------------------------------------------

  /** Speeds at or below this, per component, do not count as moving. */
  const VelThreshold: real := 0.0001

  /**
   * `Direction::from_velocity`: horizontal when x is fast enough and
   * dominates, otherwise up when y points up fast enough, otherwise down.
   */
  function FromVelocity(v: Vec2): (d: Direction)
    ensures d == Left <==> v.x < -VelThreshold && Abs(v.x) > Abs(v.y)
    ensures d == Right <==> v.x > VelThreshold && Abs(v.x) > Abs(v.y)
    ensures d == Up <==> v.y < -VelThreshold && !(Abs(v.x) > Abs(v.y) && Abs(v.x) > VelThreshold)
    ensures Abs(v.x) <= VelThreshold && Abs(v.y) <= VelThreshold ==> d == Down
  {
    if v.x < -VelThreshold && Abs(v.x) > Abs(v.y) then Left
    else if v.x > VelThreshold && Abs(v.x) > Abs(v.y) then Right
    else if v.y < -VelThreshold then Up
    else Down
  }

  /** Mirroring the velocity left-to-right swaps Left and Right and keeps Up and Down. */
  lemma FromVelocityMirror(v: Vec2)
    ensures var d := FromVelocity(v);
      FromVelocity(Vec2(-v.x, v.y)) == (if d == Left then Right else if d == Right then Left else d)
  {
  }
}
