/**
 * The axis-aligned bounding box `Bound`: a low corner `a` and a high corner
 * `g`, with in-place growth (set, include, grow), the two-bound union
 * constructor, the inclusion test, extents, centre, largest axis, volume and
 * the slab test `cross` (Smits' method). Floats are modelled as reals.
 */
module Geometry {

  datatype Point3 = Point3(x: real, y: real, z: real)

  /** A ray: origin and direction. */
  datatype Ray = Ray(from: Point3, dir: Point3)

  /** Result of the slab test: `crossed_ == false`, or the entry and exit distances. */
  datatype Cross = Missed | Crossed(enter: real, leave: real)

  /** A parameter interval [lo, hi] along a ray. */
  datatype Interval = Interval(lo: real, hi: real)

  /** The "infinity" that cross starts from. */
  const Far: real := 100000000000000000000000000000000000000.0

  function Min(u: real, v: real): real { if u <= v then u else v }
  function Max(u: real, v: real): real { if u >= v then u else v }

  /** Value of a bound: its two corners. */
  datatype Box = Box(a: Point3, g: Point3)
  {
    /** The corners are ordered on every axis. */
    predicate Ordered() { a.x <= g.x && a.y <= g.y && a.z <= g.z }

    function LongX(): real { g.x - a.x }
    function LongY(): real { g.y - a.y }
    function LongZ(): real { g.z - a.z }
  }

  /** includes: closed on every face. */
  predicate Includes(b: Box, p: Point3)
  {
    b.a.x <= p.x <= b.g.x && b.a.y <= p.y <= b.g.y && b.a.z <= p.z <= b.g.z
  }

  /** center: the midpoint of the two corners. */
  function Center(b: Box): (c: Point3)
    ensures c.x - b.a.x == b.g.x - c.x
    ensures c.y - b.a.y == b.g.y - c.y
    ensures c.z - b.a.z == b.g.z - c.z
    ensures b.Ordered() ==> Includes(b, c)
  {
    Point3((b.g.x + b.a.x) * 0.5, (b.g.y + b.a.y) * 0.5, (b.g.z + b.a.z) * 0.5)
  }

  /** largestAxis: 0, 1 or 2, naming an axis whose extent is not smaller than the other two. */
  function LargestAxis(b: Box): (r: int)
    ensures 0 <= r < 3
    ensures r == 0 ==> b.LongX() >= b.LongY() && b.LongX() >= b.LongZ()
    ensures r == 1 ==> b.LongY() >= b.LongX() && b.LongY() >= b.LongZ()
    ensures r == 2 ==> b.LongZ() >= b.LongX() && b.LongZ() >= b.LongY()
  {
    var dx, dy, dz := b.g.x - b.a.x, b.g.y - b.a.y, b.g.z - b.a.z;
    if dx > dy then (if dx > dz then 0 else 2) else (if dy > dz then 1 else 2)
  }

  /** vol: the product of the three extents, never negative on an ordered box. */
  function Vol(b: Box): (v: real)
    ensures v == b.LongX() * b.LongY() * b.LongZ()
    ensures b.Ordered() ==> v >= 0.0
  {
    var dx, dy, dz := b.g.x - b.a.x, b.g.y - b.a.y, b.g.z - b.a.z;
    assert dy * dx * dz == dx * dy * dz;
    assert dx >= 0.0 && dy >= 0.0 ==> dx * dy >= 0.0;
    dy * dx * dz
  }

  /** The two-bound constructor: componentwise min of the low corners, max of the high ones. */
  function Union(r: Box, l: Box): Box
  {
    Box(Point3(Min(r.a.x, l.a.x), Min(r.a.y, l.a.y), Min(r.a.z, l.a.z)),
        Point3(Max(r.g.x, l.g.x), Max(r.g.y, l.g.y), Max(r.g.z, l.g.z)))
  }

  /** include(p): widen each corner just enough to contain p. */
  function Extend(b: Box, p: Point3): Box
  {
    Box(Point3(Min(b.a.x, p.x), Min(b.a.y, p.y), Min(b.a.z, p.z)),
        Point3(Max(b.g.x, p.x), Max(b.g.y, p.y), Max(b.g.z, p.z)))
  }

  /** grow(d): move every face outwards by d. */
  function Grown(b: Box, d: real): Box
  {
    Box(Point3(b.a.x - d, b.a.y - d, b.a.z - d), Point3(b.g.x + d, b.g.y + d, b.g.z + d))
  }

  lemma ExtendIncludes(b: Box, p: Point3, q: Point3)
    ensures Includes(Extend(b, p), p)
    ensures Includes(b, q) ==> Includes(Extend(b, p), q)
  {
  }

  lemma GrowKeepsIncluded(b: Box, d: real, q: Point3)
    requires d >= 0.0
    ensures Includes(b, q) ==> Includes(Grown(b, d), q)
  {
  }

  /** The union contains every point of either input, and each of its six faces is a face of one of them. */
  lemma UnionIncludes(r: Box, l: Box, q: Point3)
    ensures Includes(r, q) || Includes(l, q) ==> Includes(Union(r, l), q)
    ensures Union(r, l).a.x == r.a.x || Union(r, l).a.x == l.a.x
    ensures Union(r, l).a.y == r.a.y || Union(r, l).a.y == l.a.y
    ensures Union(r, l).a.z == r.a.z || Union(r, l).a.z == l.a.z
    ensures Union(r, l).g.x == r.g.x || Union(r, l).g.x == l.g.x
    ensures Union(r, l).g.y == r.g.y || Union(r, l).g.y == l.g.y
    ensures Union(r, l).g.z == r.g.z || Union(r, l).g.z == l.g.z
  {
  }

  /** Every corner of `inner` lies within `outer` face by face. */
  predicate Within(inner: Box, outer: Box) {
    outer.a.x <= inner.a.x && outer.a.y <= inner.a.y && outer.a.z <= inner.a.z &&
    inner.g.x <= outer.g.x && inner.g.y <= outer.g.y && inner.g.z <= outer.g.z
  }

  /** The union lies around both inputs, and within every box that lies around both: it is the smallest such box. */
  lemma UnionSmallest(r: Box, l: Box, c: Box)
    ensures Within(r, Union(r, l)) && Within(l, Union(r, l))
    ensures Within(r, c) && Within(l, c) <==> Within(Union(r, l), c)
  {
  }

  lemma UnionCommutative(r: Box, l: Box)
    ensures Union(r, l) == Union(l, r)
  {
  }

  lemma UnionIdempotent(b: Box)
    ensures Union(b, b) == b
  {
  }

  // ---------------------------------------------------------------------
  // The slab test
  // ---------------------------------------------------------------------

  /** The parameter interval in which the ray is within one slab [lo, hi], for a non-zero direction d. */
  function Slab(lo: real, hi: real, o: real, d: real): (s: Interval)
    requires d != 0.0
  {
    var p := o - lo;
    var inv := 1.0 / d;
    if inv > 0.0 then Interval(-p * inv, ((hi - lo) - p) * inv)
    else Interval(((hi - lo) - p) * inv, -p * inv)
  }

  /** Narrow the running interval by one more axis; an axis with zero direction is skipped. */
  function Narrow(cur: Interval, lo: real, hi: real, o: real, d: real): Interval
  {
    if d == 0.0 then cur
    else
      var s := Slab(lo, hi, o, d);
      Interval(Max(s.lo, cur.lo), Min(s.hi, cur.hi))
  }

  /** The interval after the x axis: its slab, or (-Far, Far) when the direction has no x part. */
  function StageX(b: Box, ray: Ray): Interval
  {
    if ray.dir.x != 0.0 then Slab(b.a.x, b.g.x, ray.from.x, ray.dir.x) else Interval(-Far, Far)
  }

  function StageY(b: Box, ray: Ray): Interval
  {
    Narrow(StageX(b, ray), b.a.y, b.g.y, ray.from.y, ray.dir.y)
  }

  function StageZ(b: Box, ray: Ray): Interval
  {
    Narrow(StageY(b, ray), b.a.z, b.g.z, ray.from.z, ray.dir.z)
  }

  /**
   * cross as written: the x axis sets the interval (or leaves (-Far, Far) when its
   * direction is zero), y and z narrow it; the ray crosses when the final
   * interval is non-empty, ends at or after 0 and starts no later than tMax.
   */
  function CrossOf(b: Box, ray: Ray, tMax: real): (c: Cross)
    ensures c.Crossed? ==> c.enter <= c.leave && c.leave >= 0.0 && c.enter <= tMax
  {
    var i := StageZ(b, ray);
    if i.lo <= i.hi && i.hi >= 0.0 && i.lo <= tMax then Crossed(i.lo, i.hi) else Missed
  }

  /** Narrowing never widens the interval, and stays within the slab of the axis it looks at. */
  lemma NarrowWithin(cur: Interval, lo: real, hi: real, o: real, d: real)
    ensures cur.lo <= Narrow(cur, lo, hi, o, d).lo
    ensures Narrow(cur, lo, hi, o, d).hi <= cur.hi
    ensures d != 0.0 ==> Slab(lo, hi, o, d).lo <= Narrow(cur, lo, hi, o, d).lo
    ensures d != 0.0 ==> Narrow(cur, lo, hi, o, d).hi <= Slab(lo, hi, o, d).hi
  {
  }

  function PointAt(ray: Ray, t: real): Point3
  {
    Point3(ray.from.x + t * ray.dir.x, ray.from.y + t * ray.dir.y, ray.from.z + t * ray.dir.z)
  }

  /** Inside one slab's interval the ray's coordinate lies between the slab's faces. */
  lemma SlabInside(lo: real, hi: real, o: real, d: real, t: real)
    requires d != 0.0
    requires Slab(lo, hi, o, d).lo <= t <= Slab(lo, hi, o, d).hi
    ensures lo <= o + t * d <= hi
  {
    var p := o - lo;
    var inv := 1.0 / d;
    assert inv * d == 1.0;
    if d > 0.0 {
      assert inv > 0.0;
      assert -p * inv <= t <= ((hi - lo) - p) * inv;
      assert (-p * inv) * d <= t * d by {
        assert t - (-p * inv) >= 0.0;
        assert (t - (-p * inv)) * d >= 0.0;
      }
      assert t * d <= (((hi - lo) - p) * inv) * d by {
        assert (((hi - lo) - p) * inv - t) * d >= 0.0;
      }
    } else {
      assert inv < 0.0;
      assert ((hi - lo) - p) * inv <= t <= -p * inv;
      assert (-p * inv) * d <= t * d by {
        assert (-p * inv - t) * (-d) >= 0.0;
      }
      assert t * d <= (((hi - lo) - p) * inv) * d by {
        assert (t - ((hi - lo) - p) * inv) * (-d) >= 0.0;
      }
    }
  }

  /**
   * Soundness of the as-written test on the axes it looks at: for every
   * parameter between enter and leave, the ray's coordinate on each axis with
   * a non-zero direction lies within the box.
   */
  lemma CrossInsideOnMovingAxes(b: Box, ray: Ray, tMax: real, t: real)
    requires CrossOf(b, ray, tMax).Crossed?
    requires CrossOf(b, ray, tMax).enter <= t <= CrossOf(b, ray, tMax).leave
    ensures ray.dir.x != 0.0 ==> b.a.x <= PointAt(ray, t).x <= b.g.x
    ensures ray.dir.y != 0.0 ==> b.a.y <= PointAt(ray, t).y <= b.g.y
    ensures ray.dir.z != 0.0 ==> b.a.z <= PointAt(ray, t).z <= b.g.z
  {
    var ix, iy, iz := StageX(b, ray), StageY(b, ray), StageZ(b, ray);
    NarrowWithin(ix, b.a.y, b.g.y, ray.from.y, ray.dir.y);
    NarrowWithin(iy, b.a.z, b.g.z, ray.from.z, ray.dir.z);
    if ray.dir.x != 0.0 { InSlabX(b, ray, t); }
    if ray.dir.y != 0.0 { InSlabY(b, ray, t); }
    if ray.dir.z != 0.0 { InSlabZ(b, ray, t); }
  }

  lemma InSlabX(b: Box, ray: Ray, t: real)
    requires ray.dir.x != 0.0
    requires StageX(b, ray).lo <= t <= StageX(b, ray).hi
    ensures b.a.x <= PointAt(ray, t).x <= b.g.x
  {
    SlabInside(b.a.x, b.g.x, ray.from.x, ray.dir.x, t);
  }

  lemma InSlabY(b: Box, ray: Ray, t: real)
    requires ray.dir.y != 0.0
    requires Slab(b.a.y, b.g.y, ray.from.y, ray.dir.y).lo <= t <= Slab(b.a.y, b.g.y, ray.from.y, ray.dir.y).hi
    ensures b.a.y <= PointAt(ray, t).y <= b.g.y
  {
    SlabInside(b.a.y, b.g.y, ray.from.y, ray.dir.y, t);
  }

  lemma InSlabZ(b: Box, ray: Ray, t: real)
    requires ray.dir.z != 0.0
    requires Slab(b.a.z, b.g.z, ray.from.z, ray.dir.z).lo <= t <= Slab(b.a.z, b.g.z, ray.from.z, ray.dir.z).hi
    ensures b.a.z <= PointAt(ray, t).z <= b.g.z
  {
    SlabInside(b.a.z, b.g.z, ray.from.z, ray.dir.z, t);
  }

  /** An axis with zero direction: the ray never leaves the plane of its origin there. */
  predicate ParallelOutside(lo: real, hi: real, o: real, d: real)
  {
    d == 0.0 && !(lo <= o <= hi)
  }

  /** On some axis the ray does not move and starts outside the slab. */
  predicate AnyParallelOutside(b: Box, ray: Ray)
  {
    ParallelOutside(b.a.x, b.g.x, ray.from.x, ray.dir.x) ||
    ParallelOutside(b.a.y, b.g.y, ray.from.y, ray.dir.y) ||
    ParallelOutside(b.a.z, b.g.z, ray.from.z, ray.dir.z)
  }

  /**
   * The slab test with the check the as-written test lacks: a ray parallel to
   * a slab whose origin lies outside that slab misses the box.
   */
  function CrossChecked(b: Box, ray: Ray, tMax: real): (c: Cross)
    ensures c.Crossed? ==> c.enter <= c.leave && c.leave >= 0.0 && c.enter <= tMax
    ensures c.Crossed? ==> c == CrossOf(b, ray, tMax)
    ensures AnyParallelOutside(b, ray) ==> c == Missed
    ensures !AnyParallelOutside(b, ray) ==> c == CrossOf(b, ray, tMax)
  {
    if AnyParallelOutside(b, ray) then Missed else CrossOf(b, ray, tMax)
  }

  /** The corrected test is sound: every point of the ray between enter and leave is in the box. */
  lemma CrossCheckedInside(b: Box, ray: Ray, tMax: real, t: real)
    requires CrossChecked(b, ray, tMax).Crossed?
    requires CrossChecked(b, ray, tMax).enter <= t <= CrossChecked(b, ray, tMax).leave
    ensures Includes(b, PointAt(ray, t))
  {
    CrossInsideOnMovingAxes(b, ray, tMax, t);
  }

  /** The miss is right: a ray parallel to a slab it starts outside has no point in the box. */
  lemma ParallelOutsideNeverInside(b: Box, ray: Ray, t: real)
    requires AnyParallelOutside(b, ray)
    ensures !Includes(b, PointAt(ray, t))
  {
  }

  const UnitBox := Box(Point3(0.0, 0.0, 0.0), Point3(1.0, 1.0, 1.0))

  /** A ray along +x through the middle of the unit box enters at 1 and leaves at 2. */
  lemma CrossAlongX()
    ensures CrossOf(UnitBox, Ray(Point3(-1.0, 0.5, 0.5), Point3(1.0, 0.0, 0.0)), 10.0) == Crossed(1.0, 2.0)
  {
  }

  /**
   * The as-written test reports a crossing for a ray parallel to the y slab
   * direction whose origin is outside the x slab, although the point of the
   * ray at t = 0, inside the reported interval, is outside the box; the
   * corrected test reports a miss.
   */
  lemma CrossParallelOutside()
    ensures CrossOf(UnitBox, Ray(Point3(-1.0, 0.5, 0.5), Point3(0.0, 1.0, 0.0)), 10.0) == Crossed(-0.5, 0.5)
    ensures !Includes(UnitBox, PointAt(Ray(Point3(-1.0, 0.5, 0.5), Point3(0.0, 1.0, 0.0)), 0.0))
    ensures CrossChecked(UnitBox, Ray(Point3(-1.0, 0.5, 0.5), Point3(0.0, 1.0, 0.0)), 10.0) == Missed
  {
  }

  // ---------------------------------------------------------------------
  // The in-place object
  // ---------------------------------------------------------------------

  class Bound {
    var a: Point3
    var g: Point3

    function Value(): Box
      reads this
    {
      Box(a, g)
    }

    constructor (a0: Point3, g0: Point3)
      ensures Value() == Box(a0, g0)
    {
      a := a0;
      g := g0;
    }

    /** The two-child constructor used when building a bounding tree. */
    constructor Join(r: Bound, l: Bound)
      ensures Value() == Union(r.Value(), l.Value())
      ensures forall q :: Includes(r.Value(), q) || Includes(l.Value(), q) ==> Includes(Value(), q)
    {
      a := Point3(Min(r.a.x, l.a.x), Min(r.a.y, l.a.y), Min(r.a.z, l.a.z));
      g := Point3(Max(r.g.x, l.g.x), Max(r.g.y, l.g.y), Max(r.g.z, l.g.z));
    }

    method Set(a0: Point3, g0: Point3)
      modifies this
      ensures Value() == Box(a0, g0)
    {
      a := a0;
      g := g0;
    }

    method Include(p: Point3)
      modifies this
      ensures Value() == Extend(old(Value()), p)
      ensures Includes(Value(), p)
      ensures forall q :: Includes(old(Value()), q) ==> Includes(Value(), q)
    {
      a := Point3(Min(a.x, p.x), Min(a.y, p.y), Min(a.z, p.z));
      g := Point3(Max(g.x, p.x), Max(g.y, p.y), Max(g.z, p.z));
    }

    method Grow(d: real)
      modifies this
      ensures Value() == Grown(old(Value()), d)
      ensures d >= 0.0 ==> forall q :: Includes(old(Value()), q) ==> Includes(Value(), q)
    {
      a := Point3(a.x - d, a.y - d, a.z - d);
      g := Point3(g.x + d, g.y + d, g.z + d);
    }

    /**
     * cross: refine [lmin, lmax] axis by axis, giving up as soon as it ends
     * before 0 or starts after tMax. Each axis's interval is the same slab
     * formula, taken from `Slab`.
     */
    method Cross(ray: Ray, tMax: real) returns (c: Cross)
      ensures c == CrossOf(Value(), ray, tMax)
    {
      var lmin, lmax := -Far, Far;
      if ray.dir.x != 0.0 {
        var s := Slab(a.x, g.x, ray.from.x, ray.dir.x);
        lmin, lmax := s.lo, s.hi;
        if lmax < 0.0 || lmin > tMax {
          GiveUpEarly(Value(), ray, tMax, StageX(Value(), ray));
          return Missed;
        }
      }
      if ray.dir.y != 0.0 {
        var s := Slab(a.y, g.y, ray.from.y, ray.dir.y);
        lmin, lmax := Max(s.lo, lmin), Min(s.hi, lmax);
        if lmax < 0.0 || lmin > tMax {
          GiveUpEarly(Value(), ray, tMax, StageY(Value(), ray));
          return Missed;
        }
      }
      assert Interval(lmin, lmax) == StageY(Value(), ray);
      if ray.dir.z != 0.0 {
        var s := Slab(a.z, g.z, ray.from.z, ray.dir.z);
        lmin, lmax := Max(s.lo, lmin), Min(s.hi, lmax);
        if lmax < 0.0 || lmin > tMax {
          GiveUpEarly(Value(), ray, tMax, StageZ(Value(), ray));
          return Missed;
        }
      }
      assert Interval(lmin, lmax) == StageZ(Value(), ray);
      if lmin <= lmax && lmax >= 0.0 && lmin <= tMax {
        c := Crossed(lmin, lmax);
      } else {
        c := Missed;
      }
    }
  }

  /** Once some stage ends before 0 or starts after tMax, the later stages cannot recover. */
  lemma GiveUpEarly(b: Box, ray: Ray, tMax: real, stage: Interval)
    requires stage == StageX(b, ray) || stage == StageY(b, ray) || stage == StageZ(b, ray)
    requires stage.hi < 0.0 || stage.lo > tMax
    ensures CrossOf(b, ray, tMax) == Missed
  {
    NarrowWithin(StageX(b, ray), b.a.y, b.g.y, ray.from.y, ray.dir.y);
    NarrowWithin(StageY(b, ray), b.a.z, b.g.z, ray.from.z, ray.dir.z);
  }
}
