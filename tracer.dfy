/**
 * The intersection and reflection kernel (src/render/tracer.rs).
 *
 * `Projections` is the value of a `RaysProjections` object: the current
 * ray batch, the running minimum time of intersection per lane, the
 * winning obstacle's reflectance, colour and normal per lane, the
 * accumulated colour, the accumulated attenuation and the remaining
 * bounce budget.  `PlaneStep`, `SphereStep`, `ReflectStep` and `Finished`
 * are the specifications of the object's methods; `Trace` is the
 * specification of `trace_rays`.
 *
 * The lane kernels (`PlaneTois`, `HitMask`, `Checkered`, the sphere
 * discriminant and roots) are shared with the older tracers of
 * src/render/scene.rs and src/simd/scene.rs.
 */
module Tracer {
  import opened Math
  import opened SceneApi

  /** Smallest time of intersection a candidate must exceed. */
  const MIN_TOI: real := 0.001

  /** `f32::MAX`, the "no hit yet" sentinel of `min_toi`. */
  const F32_MAX: real := 340282346638528859811704183484516925440.0

  const ZEROS: Reals := SplatReals(0.0)

  // ---------------------------------------------------------------------
  // Lane predicates shared by the specifications
  // ---------------------------------------------------------------------

  /** Lane i of `p` holds the point `q`. */
  ghost predicate LaneIs(p: Points, i: nat, q: Point)
    requires i < LANES
  {
    p.xs[i] == q.x && p.ys[i] == q.y && p.zs[i] == q.z
  }

  /** Lanes i of `p` and `q` agree. */
  ghost predicate SameLane(p: Points, q: Points, i: nat)
    requires i < LANES
  {
    p.xs[i] == q.xs[i] && p.ys[i] == q.ys[i] && p.zs[i] == q.zs[i]
  }

  // ---------------------------------------------------------------------
  // Plane kernel
  // ---------------------------------------------------------------------

  /**
   * `(offset - origins) / dirs` per lane.  A lane whose direction has no
   * component along the axis would divide by zero (inf or NaN in IEEE, which
   * fails both comparisons of the hit test); it gets 0 here and is excluded
   * by `PlaneCandidates`.
   */
  function PlaneTois(origins: Reals, dirs: Reals, offset: real): (t: Reals)
    ensures forall i :: 0 <= i < LANES && dirs[i] != 0.0 ==> t[i] == (offset - origins[i]) / dirs[i]
  {
    seq(LANES, i requires 0 <= i < LANES => if dirs[i] == 0.0 then 0.0 else (offset - origins[i]) / dirs[i])
  }

  /** The lanes not parallel to the plane. */
  function PlaneCandidates(dirs: Reals): (m: Mask)
    ensures forall i :: 0 <= i < LANES ==> (m[i] <==> dirs[i] != 0.0)
  {
    seq(LANES, i requires 0 <= i < LANES => dirs[i] != 0.0)
  }

  /** The closest-hit rule: a candidate lane wins iff `MIN_TOI < toi < min_toi`. */
  function HitMask(candidates: Mask, toi: Reals, minToi: Reals): (m: Mask)
    ensures forall i :: 0 <= i < LANES ==> (m[i] <==> candidates[i] && MIN_TOI < toi[i] && toi[i] < minToi[i])
  {
    And(candidates, And(Gt(toi, SplatReals(MIN_TOI)), Lt(toi, minToi)))
  }

  /** The coordinate the checkerboard test truncates: 1.5 (o + d·toi + 1000). */
  function CheckerCoord(o: real, d: real, toi: real): real
  {
    ((o + d * toi) + 1000.0) * 1.5
  }

  const TWO_POW_32: int := 0x1_0000_0000

  /** Wrapping `i32` arithmetic: reduce into [I32_MIN, I32_MAX]. */
  function WrapI32(x: int): (r: int)
    ensures I32_MIN <= r <= I32_MAX
  {
    (x - I32_MIN) % TWO_POW_32 + I32_MIN
  }

  /** `x % 2` on `i32`: the remainder takes the sign of the dividend. */
  function RemI32By2(x: int): (r: int)
    ensures -1 <= r <= 1
  {
    if 0 <= x then x % 2 else -((-x) % 2)
  }

  /**
   * The source's checker test: the three coordinates are cast to `i32`,
   * added with wrap-around, and the sum's truncated remainder by 2 is
   * compared with 0.
   */
  function CheckerEven(px: real, py: real, pz: real): bool
  {
    RemI32By2(WrapI32(WrapI32(AsI32(px) + AsI32(py)) + AsI32(pz))) == 0
  }

  lemma {:induction false} WrapI32Parity(x: int)
    ensures WrapI32(x) % 2 == x % 2
  {
    var m := x - I32_MIN;
    var q := m / TWO_POW_32;
    assert m == TWO_POW_32 * q + m % TWO_POW_32;
    assert x == WrapI32(x) + 2 * (0x8000_0000 * q);
    AddEvenParity(WrapI32(x), 0x8000_0000 * q);
  }

  lemma AddEvenParity(a: int, k: int)
    ensures (a + 2 * k) % 2 == a % 2
  {
  }

  /** Two wrapped additions keep the parity of the plain sum. */
  lemma WrapSumParity(a: int, b: int, c: int)
    ensures WrapI32(WrapI32(a + b) + c) % 2 == (a + b + c) % 2
  {
    WrapI32Parity(a + b);
    WrapI32Parity(WrapI32(a + b) + c);
    SameParitySum(WrapI32(a + b), a + b, c);
  }

  lemma SameParitySum(x: int, y: int, c: int)
    requires x % 2 == y % 2
    ensures (x + c) % 2 == (y + c) % 2
  {
  }

  /** The truncated remainder by 2 is 0 exactly on even numbers, negative ones included. */
  lemma RemI32By2Zero(w: int)
    ensures RemI32By2(w) == 0 <==> w % 2 == 0
  {
    if w < 0 {
      AddEvenParity(-w, w);
    }
  }

  /**
   * Wrap-around and the truncated remainder do not change parity: the test
   * is exactly "the sum of the three truncated coordinates is even".
   */
  lemma CheckerParity(px: real, py: real, pz: real)
    ensures CheckerEven(px, py, pz) <==> (AsI32(px) + AsI32(py) + AsI32(pz)) % 2 == 0
  {
    var a, b, c := AsI32(px), AsI32(py), AsI32(pz);
    WrapSumParity(a, b, c);
    RemI32By2Zero(WrapI32(WrapI32(a + b) + c));
  }

  /** Lane i lands on a square whose reflectance the checker pattern zeroes. */
  predicate OnZeroSquare(rays: Rays, toi: Reals, i: nat)
    requires i < LANES
  {
    CheckerEven(CheckerCoord(rays.origins.xs[i], rays.dirs.xs[i], toi[i]),
                CheckerCoord(rays.origins.ys[i], rays.dirs.ys[i], toi[i]),
                CheckerCoord(rays.origins.zs[i], rays.dirs.zs[i], toi[i]))
  }

  /**
   * The checkerboard mask: only lanes of `mask` can be in it, and such a
   * lane is in it iff its offset, scaled point of intersection is on an
   * even square.
   */
  function Checkered(mask: Mask, rays: Rays, toi: Reals): (m: Mask)
    ensures forall i :: 0 <= i < LANES ==> (m[i] <==> mask[i] && OnZeroSquare(rays, toi, i))
  {
    seq(LANES, i requires 0 <= i < LANES => mask[i] && OnZeroSquare(rays, toi, i))
  }

  // ---------------------------------------------------------------------
  // Sphere kernel
  // ---------------------------------------------------------------------

  /** The three stages of the discriminant of lane i (a, b, c subtracted in turn). */
  function Stage1(dx: real, dy: real, dz: real, ex: real, ey: real, radius: real): real
  {
    (radius * radius) * ((dx * dx + dy * dy) + dz * dz) - (dx * ey - dy * ex) * (dx * ey - dy * ex)
  }

  function Stage2(dx: real, dy: real, dz: real, ex: real, ey: real, ez: real, radius: real): real
  {
    Stage1(dx, dy, dz, ex, ey, radius) - (dx * ez - dz * ex) * (dx * ez - dz * ex)
  }

  /**
   * The discriminant r²|d|² − (a² + b² + c²), where (a, b, c) are the
   * components of d × e up to sign and e = origin − centre.
   */
  function Disc(dx: real, dy: real, dz: real, ex: real, ey: real, ez: real, radius: real): real
  {
    Stage2(dx, dy, dz, ex, ey, ez, radius) - (dy * ez - dz * ey) * (dy * ez - dz * ey)
  }

  /** Each stage only subtracts a square, so the discriminant never exceeds an earlier stage. */
  lemma {:induction false} DiscBelowStages(dx: real, dy: real, dz: real, ex: real, ey: real, ez: real, radius: real)
    ensures Disc(dx, dy, dz, ex, ey, ez, radius) <= Stage2(dx, dy, dz, ex, ey, ez, radius)
    ensures Stage2(dx, dy, dz, ex, ey, ez, radius) <= Stage1(dx, dy, dz, ex, ey, radius)
  {
    Square(dx * ez - dz * ex);
    Square(dy * ez - dz * ey);
  }

  lemma Square(x: real)
    ensures x * x >= 0.0
  {
  }

  /** `(num / dss).simd_max(0)`; with dss = 0 the source's 0/0 is NaN and `simd_max` yields 0. */
  function Root(num: real, dss: real): (t: real)
    ensures 0.0 <= t
    ensures dss != 0.0 && num / dss >= 0.0 ==> t == num / dss
  {
    if dss == 0.0 then 0.0 else if num / dss < 0.0 then 0.0 else num / dss
  }

  /** e = origin − centre, lane i. */
  function DeltaX(rays: Rays, c: Point, i: nat): real requires i < LANES { rays.origins.xs[i] - c.x }
  function DeltaY(rays: Rays, c: Point, i: nat): real requires i < LANES { rays.origins.ys[i] - c.y }
  function DeltaZ(rays: Rays, c: Point, i: nat): real requires i < LANES { rays.origins.zs[i] - c.z }

  /** The sphere discriminant of lane i. */
  function DiscAt(rays: Rays, c: Point, radius: real, i: nat): real
    requires i < LANES
  {
    Disc(rays.dirs.xs[i], rays.dirs.ys[i], rays.dirs.zs[i],
         DeltaX(rays, c, i), DeltaY(rays, c, i), DeltaZ(rays, c, i), radius)
  }

  /** −(e · d) of lane i, in the source's order of operations. */
  function TtsAt(rays: Rays, c: Point, i: nat): real
    requires i < LANES
  {
    ((0.0 - DeltaX(rays, c, i) * rays.dirs.xs[i]) - DeltaY(rays, c, i) * rays.dirs.ys[i]) - DeltaZ(rays, c, i) * rays.dirs.zs[i]
  }

  function DssAt(rays: Rays, i: nat): real
    requires i < LANES
  {
    (rays.dirs.xs[i] * rays.dirs.xs[i] + rays.dirs.ys[i] * rays.dirs.ys[i]) + rays.dirs.zs[i] * rays.dirs.zs[i]
  }

  /**
   * The candidate time of intersection of a lane with discriminant `disc`:
   * the smaller of the two roots, each clamped below at 0.
   */
  function LaneToi(rays: Rays, c: Point, disc: real, i: nat, lib: Libm): (t: real)
    requires i < LANES
    ensures 0.0 <= t
  {
    var s := lib.sqrt(if disc < 0.0 then 0.0 else disc);
    var t1 := Root(TtsAt(rays, c, i) + s, DssAt(rays, i));
    var t2 := Root(TtsAt(rays, c, i) - s, DssAt(rays, i));
    if t1 < t2 then t1 else t2
  }

  /** The candidate time of intersection of lane i with the sphere at `c`. */
  function SphereToiAt(rays: Rays, c: Point, radius: real, i: nat, lib: Libm): (t: real)
    requires i < LANES
    ensures 0.0 <= t
  {
    LaneToi(rays, c, DiscAt(rays, c, radius, i), i, lib)
  }

  /**
   * When a root is positive it is one of the unclamped roots, and when
   * the direction is not zero both clamped roots are the parameters of
   * points where the ray meets the sphere (see `RootsOnSphere`).
   */
  lemma LaneToiIsRoot(rays: Rays, c: Point, radius: real, i: nat, lib: Libm)
    requires i < LANES && IsSqrt(lib) && DiscAt(rays, c, radius, i) >= 0.0 && DssAt(rays, i) != 0.0
    requires SphereToiAt(rays, c, radius, i, lib) > 0.0
    ensures var t := SphereToiAt(rays, c, radius, i, lib);
            var ex := DeltaX(rays, c, i);
            var ey := DeltaY(rays, c, i);
            var ez := DeltaZ(rays, c, i);
            (ex + t * rays.dirs.xs[i]) * (ex + t * rays.dirs.xs[i]) + (ey + t * rays.dirs.ys[i]) * (ey + t * rays.dirs.ys[i])
              + (ez + t * rays.dirs.zs[i]) * (ez + t * rays.dirs.zs[i]) == radius * radius
  {
    var disc := DiscAt(rays, c, radius, i);
    var s := lib.sqrt(disc);
    var D := DssAt(rays, i);
    var t := SphereToiAt(rays, c, radius, i, lib);
    var num := if Root(TtsAt(rays, c, i) + s, D) < Root(TtsAt(rays, c, i) - s, D) then TtsAt(rays, c, i) + s else TtsAt(rays, c, i) - s;
    assert t == Root(num, D);
    assert t == num / D;
    RootsOnSphere(rays.dirs.xs[i], rays.dirs.ys[i], rays.dirs.zs[i], DeltaX(rays, c, i), DeltaY(rays, c, i), DeltaZ(rays, c, i), radius, s, t);
  }

  /**
   * When the discriminant is non-negative and the direction is not zero,
   * the two unclamped roots (−(e·d) ± √disc) / |d|² solve
   * |e + t·d|² = r², i.e. they are the ray parameters where the ray meets
   * the sphere (the discriminant is r²|d|² − |d × e|², Lagrange's identity).
   */
  lemma {:induction false} RootsOnSphere(dx: real, dy: real, dz: real, ex: real, ey: real, ez: real, radius: real, s: real, t: real)
    requires (dx * dx + dy * dy) + dz * dz != 0.0
    requires s * s == Disc(dx, dy, dz, ex, ey, ez, radius)
    requires t * ((dx * dx + dy * dy) + dz * dz) == ((0.0 - ex * dx) - ey * dy) - ez * dz + s
          || t * ((dx * dx + dy * dy) + dz * dz) == ((0.0 - ex * dx) - ey * dy) - ez * dz - s
    ensures (ex + t * dx) * (ex + t * dx) + (ey + t * dy) * (ey + t * dy) + (ez + t * dz) * (ez + t * dz) == radius * radius
  {
    var D := (dx * dx + dy * dy) + dz * dz;
    var p := ex * dx + ey * dy + ez * dz;
    var E := ex * ex + ey * ey + ez * ez;
    Lagrange(dx, dy, dz, ex, ey, ez);
    assert s * s == radius * radius * D - D * E + p * p;
    QuadraticRoot(D, E, p, s, t, radius * radius);
    Expand(dx, dy, dz, ex, ey, ez, t);
  }

  /** Lagrange's identity |d × e|² = |d|²|e|² − (d · e)². */
  lemma Lagrange(dx: real, dy: real, dz: real, ex: real, ey: real, ez: real)
    ensures (dx * ey - dy * ex) * (dx * ey - dy * ex) + (dx * ez - dz * ex) * (dx * ez - dz * ex) + (dy * ez - dz * ey) * (dy * ez - dz * ey)
         == ((dx * dx + dy * dy) + dz * dz) * (ex * ex + ey * ey + ez * ez) - (ex * dx + ey * dy + ez * dz) * (ex * dx + ey * dy + ez * dz)
  {
  }

  /** |e + t·d|² expanded in powers of t. */
  lemma Expand(dx: real, dy: real, dz: real, ex: real, ey: real, ez: real, t: real)
    ensures (ex + t * dx) * (ex + t * dx) + (ey + t * dy) * (ey + t * dy) + (ez + t * dz) * (ez + t * dz)
         == (ex * ex + ey * ey + ez * ez) + 2.0 * t * (ex * dx + ey * dy + ez * dz) + t * t * ((dx * dx + dy * dy) + dz * dz)
  {
  }

  /** t·D = −p ± s with s² = r²D − DE + p² solves E + 2tp + t²D = r². */
  lemma QuadraticRoot(D: real, E: real, p: real, s: real, t: real, r2: real)
    requires D != 0.0
    requires s * s == r2 * D - D * E + p * p
    requires t * D == -p + s || t * D == -p - s
    ensures E + 2.0 * t * p + t * t * D == r2
  {
    var u := t * D;
    assert (u + p) * (u + p) == s * s;
    assert D * (E + 2.0 * t * p + t * t * D) == D * E + 2.0 * p * u + u * u;
    assert D * (E + 2.0 * t * p + t * t * D) == D * r2;
  }

  /** Lane i of the batch `rays` is won by the sphere at `c` against `minToi`. */
  ghost predicate SphereWins(rays: Rays, minToi: Reals, c: Point, radius: real, i: nat, lib: Libm)
    requires i < LANES
  {
    DiscAt(rays, c, radius, i) >= 0.0 && MIN_TOI < SphereToiAt(rays, c, radius, i, lib) < minToi[i]
  }

  // ---------------------------------------------------------------------
  // The tracer state and its steps
  // ---------------------------------------------------------------------

  datatype Projections = Projections(
    rays: Rays,
    minToi: Reals,
    reflectances: Reals,
    colors: Points,
    normals: Points,
    offsetColors: Points,
    coefColors: Points,
    depthLeft: nat)

  /** `RaysProjections::new`. */
  function Init(rays: Rays, maxDepth: nat): (st: Projections)
    ensures st.rays == rays && st.depthLeft == maxDepth
    ensures forall i :: 0 <= i < LANES ==> st.minToi[i] == F32_MAX && st.reflectances[i] == F32_MAX
    ensures st.colors == Splat(0.0, 0.0, 0.0) && st.normals == Splat(0.0, 0.0, 0.0)
    ensures st.offsetColors == Splat(0.0, 0.0, 0.0) && st.coefColors == Splat(1.0, 1.0, 1.0)
  {
    Projections(rays, SplatReals(F32_MAX), SplatReals(F32_MAX), Splat(0.0, 0.0, 0.0),
                Splat(0.0, 0.0, 0.0), Splat(0.0, 0.0, 0.0), Splat(1.0, 1.0, 1.0), maxDepth)
  }

  /** Lane i keeps its time of intersection, reflectance, colour and normal. */
  ghost predicate LaneKept(st: Projections, r: Projections, i: nat)
    requires i < LANES
  {
    r.minToi[i] == st.minToi[i] && r.reflectances[i] == st.reflectances[i]
    && SameLane(r.colors, st.colors, i) && SameLane(r.normals, st.normals, i)
  }

  /** Only the four per-hit fields differ between `st` and `r`. */
  ghost predicate OnlyHitFieldsChange(st: Projections, r: Projections)
  {
    r.rays == st.rays && r.offsetColors == st.offsetColors && r.coefColors == st.coefColors
    && r.depthLeft == st.depthLeft
  }

  /** toi of lane i against the plane `axis = offset` (meaningful when not parallel). */
  function PlaneToiAt(rays: Rays, axis: Axis, offset: real, i: nat): real
    requires i < LANES
  {
    PlaneTois(GetAxis(rays.origins, axis), GetAxis(rays.dirs, axis), offset)[i]
  }

  /** Lane i is won by the plane `axis = offset` against `minToi`. */
  ghost predicate PlaneWins(rays: Rays, minToi: Reals, axis: Axis, offset: real, i: nat)
    requires i < LANES
  {
    GetAxis(rays.dirs, axis)[i] != 0.0
    && MIN_TOI < (offset - GetAxis(rays.origins, axis)[i]) / GetAxis(rays.dirs, axis)[i] < minToi[i]
  }

  /** The hit mask of the plane `axis = offset` holds exactly the lanes the plane wins. */
  lemma PlaneMaskIsWins(rays: Rays, minToi: Reals, axis: Axis, offset: real)
    ensures var toi := PlaneTois(GetAxis(rays.origins, axis), GetAxis(rays.dirs, axis), offset);
            var mask := HitMask(PlaneCandidates(GetAxis(rays.dirs, axis)), toi, minToi);
            forall i :: 0 <= i < LANES ==> (mask[i] <==> PlaneWins(rays, minToi, axis, offset, i))
  {
    var toi := PlaneTois(GetAxis(rays.origins, axis), GetAxis(rays.dirs, axis), offset);
    var mask := HitMask(PlaneCandidates(GetAxis(rays.dirs, axis)), toi, minToi);
    forall i | 0 <= i < LANES ensures mask[i] <==> PlaneWins(rays, minToi, axis, offset, i) {
      assert GetAxis(rays.dirs, axis)[i] != 0.0 ==> toi[i] == (offset - GetAxis(rays.origins, axis)[i]) / GetAxis(rays.dirs, axis)[i];
    }
  }

  /**
   * `with_axis_aligned_plane`.  A lane is updated iff its toi
   * (offset − origin[axis]) / dir[axis] satisfies MIN_TOI < toi < min_toi;
   * an updated lane gets the toi, the plane's colour and normal, and the
   * plane's reflectance, or 0 on an even checker square.  Every other lane
   * keeps all four.
   */
  function PlaneStep(st: Projections, axis: Axis, offset: real, normal: Point, color: Point, reflectance: real): (r: Projections)
    ensures OnlyHitFieldsChange(st, r)
    ensures forall i :: 0 <= i < LANES && PlaneWins(st.rays, st.minToi, axis, offset, i) ==>
      r.minToi[i] == PlaneToiAt(st.rays, axis, offset, i)
      && LaneIs(r.colors, i, color) && LaneIs(r.normals, i, normal)
      && r.reflectances[i] == (if OnZeroSquare(st.rays, PlaneTois(GetAxis(st.rays.origins, axis), GetAxis(st.rays.dirs, axis), offset), i)
                               then 0.0 else reflectance)
    ensures forall i :: 0 <= i < LANES && !PlaneWins(st.rays, st.minToi, axis, offset, i) ==> LaneKept(st, r, i)
  {
    var toi := PlaneTois(GetAxis(st.rays.origins, axis), GetAxis(st.rays.dirs, axis), offset);
    var mask := HitMask(PlaneCandidates(GetAxis(st.rays.dirs, axis)), toi, st.minToi);
    PlaneMaskIsWins(st.rays, st.minToi, axis, offset);
    if !Any(mask) then st
    else
      var reflectances := UpdateRealsIf(st.reflectances, mask, SplatReals(reflectance));
      st.(minToi := UpdateRealsIf(st.minToi, mask, toi),
          colors := UpdateIf(st.colors, mask, FromSingle(color)),
          reflectances := UpdateRealsIf(reflectances, Checkered(mask, st.rays, toi), ZEROS),
          normals := UpdateIf(st.normals, mask, FromSingle(normal)))
  }

  /** The three stages of the discriminant, for every lane. */
  function SphereDiscs(rays: Rays, c: Point, radius: real): (d: (Reals, Reals, Reals))
    ensures forall i :: 0 <= i < LANES ==>
      d.0[i] == Stage1(rays.dirs.xs[i], rays.dirs.ys[i], rays.dirs.zs[i], DeltaX(rays, c, i), DeltaY(rays, c, i), radius)
      && d.1[i] == Stage2(rays.dirs.xs[i], rays.dirs.ys[i], rays.dirs.zs[i], DeltaX(rays, c, i), DeltaY(rays, c, i), DeltaZ(rays, c, i), radius)
      && d.2[i] == DiscAt(rays, c, radius, i)
  {
    (seq(LANES, i requires 0 <= i < LANES =>
       Stage1(rays.dirs.xs[i], rays.dirs.ys[i], rays.dirs.zs[i], DeltaX(rays, c, i), DeltaY(rays, c, i), radius)),
     seq(LANES, i requires 0 <= i < LANES =>
       Stage2(rays.dirs.xs[i], rays.dirs.ys[i], rays.dirs.zs[i], DeltaX(rays, c, i), DeltaY(rays, c, i), DeltaZ(rays, c, i), radius)),
     seq(LANES, i requires 0 <= i < LANES => DiscAt(rays, c, radius, i)))
  }

  /** The candidate times of intersection of every lane, from its discriminant. */
  function SphereTois(rays: Rays, c: Point, discs: Reals, lib: Libm): (t: Reals)
    ensures forall i :: 0 <= i < LANES ==> t[i] == LaneToi(rays, c, discs[i], i, lib)
  {
    seq(LANES, i requires 0 <= i < LANES => LaneToi(rays, c, discs[i], i, lib))
  }

  /** One component of the outward normal at the point o + d·t: (o + d·t − centre) / radius. */
  function NormalComponent(o: real, d: real, t: real, centre: real, radius: real): real
    requires radius != 0.0
  {
    (o + d * t - centre) / radius
  }

  /** The outward normals at the points of intersection given by `toi`. */
  function SphereNormals(rays: Rays, c: Point, radius: real, toi: Reals): (n: Points)
    requires radius != 0.0
    ensures forall i :: 0 <= i < LANES ==>
      n.xs[i] == NormalComponent(rays.origins.xs[i], rays.dirs.xs[i], toi[i], c.x, radius)
      && n.ys[i] == NormalComponent(rays.origins.ys[i], rays.dirs.ys[i], toi[i], c.y, radius)
      && n.zs[i] == NormalComponent(rays.origins.zs[i], rays.dirs.zs[i], toi[i], c.z, radius)
  {
    Points(seq(LANES, i requires 0 <= i < LANES => NormalComponent(rays.origins.xs[i], rays.dirs.xs[i], toi[i], c.x, radius)),
           seq(LANES, i requires 0 <= i < LANES => NormalComponent(rays.origins.ys[i], rays.dirs.ys[i], toi[i], c.y, radius)),
           seq(LANES, i requires 0 <= i < LANES => NormalComponent(rays.origins.zs[i], rays.dirs.zs[i], toi[i], c.z, radius)))
  }

  /** A negative stage leaves a negative discriminant. */
  lemma StageNegative(rays: Rays, c: Point, radius: real, stage: Reals, k: nat)
    requires k == 0 || k == 1
    requires !Any(Ge(stage, ZEROS))
    requires k == 0 ==> stage == SphereDiscs(rays, c, radius).0
    requires k == 1 ==> stage == SphereDiscs(rays, c, radius).1
    ensures forall i :: 0 <= i < LANES ==> DiscAt(rays, c, radius, i) < 0.0
  {
    forall i | 0 <= i < LANES
      ensures DiscAt(rays, c, radius, i) < 0.0
    {
      assert !Ge(stage, ZEROS)[i];
      DiscBelowStages(rays.dirs.xs[i], rays.dirs.ys[i], rays.dirs.zs[i], DeltaX(rays, c, i), DeltaY(rays, c, i), DeltaZ(rays, c, i), radius);
    }
  }

  /**
   * The lane rule of `with_sphere`: a lane the sphere wins gets the toi,
   * the sphere's colour and reflectance and the normal
   * (origin + dir·toi − centre) / radius; any other lane keeps all four.
   */
  ghost predicate SphereLane(st: Projections, r: Projections, c: Point, radius: real, color: Point, reflectance: real, lib: Libm, i: nat)
    requires i < LANES && radius != 0.0
  {
    if SphereWins(st.rays, st.minToi, c, radius, i, lib) then
      var t := SphereToiAt(st.rays, c, radius, i, lib);
      r.minToi[i] == t && LaneIs(r.colors, i, color) && r.reflectances[i] == reflectance
      && r.normals.xs[i] == NormalComponent(st.rays.origins.xs[i], st.rays.dirs.xs[i], t, c.x, radius)
      && r.normals.ys[i] == NormalComponent(st.rays.origins.ys[i], st.rays.dirs.ys[i], t, c.y, radius)
      && r.normals.zs[i] == NormalComponent(st.rays.origins.zs[i], st.rays.dirs.zs[i], t, c.z, radius)
    else LaneKept(st, r, i)
  }

  /**
   * `with_sphere`.  Lane i is updated iff its discriminant is ≥ 0 and its
   * candidate toi satisfies MIN_TOI < toi < min_toi (`SphereLane`).  The
   * early returns after the a² and b² stages drop no lane the full test
   * would keep.
   */
  function SphereStep(st: Projections, c: Point, radius: real, color: Point, reflectance: real, lib: Libm): (r: Projections)
    requires radius != 0.0
    ensures OnlyHitFieldsChange(st, r)
    ensures forall i :: 0 <= i < LANES ==> SphereLane(st, r, c, radius, color, reflectance, lib, i)
  {
    var ds := SphereDiscs(st.rays, c, radius);
    if !Any(Ge(ds.0, ZEROS)) then
      StageNegative(st.rays, c, radius, ds.0, 0);
      st
    else if !Any(Ge(ds.1, ZEROS)) then
      StageNegative(st.rays, c, radius, ds.1, 1);
      st
    else if !Any(Ge(ds.2, ZEROS)) then
      assert forall i :: 0 <= i < LANES ==> !Ge(ds.2, ZEROS)[i];
      st
    else SphereHit(st, c, radius, color, reflectance, lib)
  }

  /** The updates of `with_sphere` once some lane has a non-negative discriminant. */
  function SphereHit(st: Projections, c: Point, radius: real, color: Point, reflectance: real, lib: Libm): (r: Projections)
    requires radius != 0.0
    ensures OnlyHitFieldsChange(st, r)
    ensures forall i :: 0 <= i < LANES ==> SphereLane(st, r, c, radius, color, reflectance, lib, i)
  {
    var discs := SphereDiscs(st.rays, c, radius).2;
    var toi := SphereTois(st.rays, c, discs, lib);
    var won := HitMask(Ge(discs, ZEROS), toi, st.minToi);
    var minToi := UpdateRealsIf(st.minToi, won, toi);
    var r := st.(minToi := minToi,
                 colors := UpdateIf(st.colors, won, FromSingle(color)),
                 normals := UpdateIf(st.normals, won, SphereNormals(st.rays, c, radius, minToi)),
                 reflectances := UpdateRealsIf(st.reflectances, won, SplatReals(reflectance)));
    assert forall i | 0 <= i < LANES :: SphereLane(st, r, c, radius, color, reflectance, lib, i) by {
      forall i | 0 <= i < LANES
        ensures SphereLane(st, r, c, radius, color, reflectance, lib, i)
      {
        assert won[i] <==> SphereWins(st.rays, st.minToi, c, radius, i, lib);
        if won[i] {
          assert minToi[i] == SphereToiAt(st.rays, c, radius, i, lib);
        }
      }
    }
    r
  }

  /**
   * `reflect`: accumulates offset += coef·colour and coef *= reflectance,
   * spends one bounce, and reports termination iff no bounce is left or
   * every lane's reflectance is 0.  Only when it continues are the rays
   * replaced by their mirror reflections at the points of intersection and
   * `min_toi` reset to the sentinel.
   */
  function ReflectStep(st: Projections): (r: (Projections, bool))
    requires st.depthLeft >= 1
    ensures r.0.depthLeft == st.depthLeft - 1
    ensures r.0.offsetColors == Add(st.offsetColors, Hadamard(st.coefColors, st.colors))
    ensures r.0.coefColors == Scale(st.coefColors, st.reflectances)
    ensures r.0.reflectances == st.reflectances && r.0.colors == st.colors && r.0.normals == st.normals
    ensures r.1 <==> st.depthLeft == 1 || forall i :: 0 <= i < LANES ==> st.reflectances[i] == 0.0
    ensures r.1 ==> r.0.rays == st.rays && r.0.minToi == st.minToi
    ensures !r.1 ==> r.0.minToi == SplatReals(F32_MAX)
    ensures !r.1 ==> r.0.rays == Rays(Add(st.rays.origins, Scale(st.rays.dirs, st.minToi)),
                                      Sub(st.rays.dirs, Scale(Scale(st.normals, Dot(st.rays.dirs, st.normals)), SplatReals(2.0))))
  {
    var st1 := st.(offsetColors := Add(st.offsetColors, Hadamard(st.coefColors, st.colors)),
                   coefColors := Scale(st.coefColors, st.reflectances),
                   depthLeft := st.depthLeft - 1);
    if st1.depthLeft == 0 || All(Eq(st.reflectances, ZEROS)) then (st1, true)
    else
      var pois := Add(st.rays.origins, Scale(st.rays.dirs, st.minToi));
      var dirs := Sub(st.rays.dirs, Scale(Scale(st.normals, Dot(st.rays.dirs, st.normals)), SplatReals(2.0)));
      (st1.(rays := Rays(pois, dirs), minToi := SplatReals(F32_MAX)), false)
  }

  /** `finish`: coef *= base, then the result is offset + coef. */
  function Finished(st: Projections, base: Points): (c: Points)
    ensures c == Add(st.offsetColors, Hadamard(st.coefColors, base))
  {
    Add(st.offsetColors, Hadamard(st.coefColors, base))
  }

  /** Finishing against white adds the accumulated attenuation itself. */
  lemma FinishedWhite(st: Projections)
    ensures Finished(st, Splat(1.0, 1.0, 1.0)) == Add(st.offsetColors, st.coefColors)
  {
    var h := Hadamard(st.coefColors, Splat(1.0, 1.0, 1.0));
    assert h.xs == st.coefColors.xs && h.ys == st.coefColors.ys && h.zs == st.coefColors.zs;
  }

  /** The sphere tests of one bounce, in the scene's order (a left fold). */
  function SpheresPass(scene: Scene, st: Projections, ss: seq<Sphere>, lib: Libm): (r: Projections)
    requires ValidLayout(scene.layout)
    ensures OnlyHitFieldsChange(st, r)
    decreases |ss|
  {
    if ss == [] then st
    else
      var s := ss[|ss| - 1];
      SphereStep(SpheresPass(scene, st, ss[..|ss| - 1], lib), SpherePos(scene, s), scene.layout.radius(s),
                 scene.layout.color(Obstacle.Sphere(s)), scene.layout.reflectance(Obstacle.Sphere(s)), lib)
  }

  /** The plane tests of one bounce, in the scene's order (a left fold). */
  function PlanesPass(scene: Scene, st: Projections, ps: seq<Plane>): (r: Projections)
    ensures OnlyHitFieldsChange(st, r)
    decreases |ps|
  {
    if ps == [] then st
    else
      var p := ps[|ps| - 1];
      PlaneStep(PlanesPass(scene, st, ps[..|ps| - 1]), scene.layout.axis(p), scene.layout.offset(p),
                scene.layout.normal(p), scene.layout.color(Obstacle.Plane(p)), scene.layout.reflectance(Obstacle.Plane(p)))
  }

  /** One closest-hit search: every sphere, then every plane. */
  function Search(scene: Scene, st: Projections, lib: Libm): (r: Projections)
    requires ValidLayout(scene.layout)
    ensures OnlyHitFieldsChange(st, r)
  {
    PlanesPass(scene, SpheresPass(scene, st, scene.layout.spheres, lib), scene.layout.planes)
  }

  /** The `loop` of `trace_rays`: search, reflect, and stop when `reflect` says so. */
  function Run(scene: Scene, st: Projections, lib: Libm): (r: Projections)
    requires ValidLayout(scene.layout) && st.depthLeft >= 1
    decreases st.depthLeft
  {
    var next := ReflectStep(Search(scene, st, lib));
    if next.1 then next.0 else Run(scene, next.0, lib)
  }

  /** How many times the loop of `trace_rays` calls `reflect`. */
  function Reflections(scene: Scene, st: Projections, lib: Libm): nat
    requires ValidLayout(scene.layout) && st.depthLeft >= 1
    decreases st.depthLeft
  {
    var next := ReflectStep(Search(scene, st, lib));
    if next.1 then 1 else 1 + Reflections(scene, next.0, lib)
  }

  /** `reflect` runs at least once and at most `depth_left` times. */
  lemma {:induction false} ReflectionsBounded(scene: Scene, st: Projections, lib: Libm)
    requires ValidLayout(scene.layout) && st.depthLeft >= 1
    ensures 1 <= Reflections(scene, st, lib) <= st.depthLeft
    decreases st.depthLeft
  {
    var next := ReflectStep(Search(scene, st, lib));
    if !next.1 {
      ReflectionsBounded(scene, next.0, lib);
    }
  }

  /**
   * `trace_rays`: the final colour is the accumulated colour plus the
   * accumulated attenuation of the state the loop stops in.  The source
   * needs `max_depth ≥ 1`: `depth_left -= 1` on a `usize` underflows at 0.
   */
  function Trace(scene: Scene, rays: Rays, maxDepth: nat, lib: Libm): Points
    requires ValidLayout(scene.layout) && maxDepth >= 1
  {
    Finished(Run(scene, Init(rays, maxDepth), lib), Splat(1.0, 1.0, 1.0))
  }

  lemma TraceIsOffsetPlusCoef(scene: Scene, rays: Rays, maxDepth: nat, lib: Libm)
    requires ValidLayout(scene.layout) && maxDepth >= 1
    ensures var st := Run(scene, Init(rays, maxDepth), lib);
            Trace(scene, rays, maxDepth, lib) == Add(st.offsetColors, st.coefColors)
  {
    FinishedWhite(Run(scene, Init(rays, maxDepth), lib));
  }

  // ---------------------------------------------------------------------
  // Invariants of the closest-hit search
  // ---------------------------------------------------------------------

  /** Every lane holds the sentinel or a time of intersection above MIN_TOI (and below the sentinel). */
  ghost predicate SentinelOrHit(minToi: Reals)
  {
    forall i :: 0 <= i < LANES ==> minToi[i] == F32_MAX || (MIN_TOI < minToi[i] < F32_MAX)
  }

  /** `minToi` is lane-wise at most `before`. */
  ghost predicate NotAbove(minToi: Reals, before: Reals)
  {
    forall i :: 0 <= i < LANES ==> minToi[i] <= before[i]
  }

  /** A plane test never raises `min_toi` and keeps every lane a sentinel or a hit. */
  lemma PlaneStepKeepsMinToi(st: Projections, axis: Axis, offset: real, normal: Point, color: Point, reflectance: real)
    requires SentinelOrHit(st.minToi)
    ensures var r := PlaneStep(st, axis, offset, normal, color, reflectance);
            NotAbove(r.minToi, st.minToi) && SentinelOrHit(r.minToi)
  {
    var r := PlaneStep(st, axis, offset, normal, color, reflectance);
    forall i | 0 <= i < LANES ensures r.minToi[i] <= st.minToi[i] && (r.minToi[i] == F32_MAX || (MIN_TOI < r.minToi[i] < F32_MAX)) {
      if PlaneWins(st.rays, st.minToi, axis, offset, i) {
        assert r.minToi[i] == PlaneToiAt(st.rays, axis, offset, i);
      }
    }
  }

  /** A sphere test never raises `min_toi` and keeps every lane a sentinel or a hit. */
  lemma SphereStepKeepsMinToi(st: Projections, c: Point, radius: real, color: Point, reflectance: real, lib: Libm)
    requires radius != 0.0 && SentinelOrHit(st.minToi)
    ensures var r := SphereStep(st, c, radius, color, reflectance, lib);
            NotAbove(r.minToi, st.minToi) && SentinelOrHit(r.minToi)
  {
    var r := SphereStep(st, c, radius, color, reflectance, lib);
    forall i | 0 <= i < LANES ensures r.minToi[i] <= st.minToi[i] && (r.minToi[i] == F32_MAX || (MIN_TOI < r.minToi[i] < F32_MAX)) {
      assert SphereLane(st, r, c, radius, color, reflectance, lib, i);
    }
  }

  /** The whole search of one bounce never raises `min_toi` in any lane. */
  lemma {:induction false} SearchKeepsMinToi(scene: Scene, st: Projections, lib: Libm)
    requires ValidLayout(scene.layout) && SentinelOrHit(st.minToi)
    ensures NotAbove(Search(scene, st, lib).minToi, st.minToi) && SentinelOrHit(Search(scene, st, lib).minToi)
  {
    SpheresKeepMinToi(scene, st, scene.layout.spheres, lib);
    var s := SpheresPass(scene, st, scene.layout.spheres, lib);
    PlanesKeepMinToi(scene, s, scene.layout.planes);
  }

  lemma {:induction false} SpheresKeepMinToi(scene: Scene, st: Projections, ss: seq<Sphere>, lib: Libm)
    requires ValidLayout(scene.layout) && SentinelOrHit(st.minToi)
    ensures NotAbove(SpheresPass(scene, st, ss, lib).minToi, st.minToi) && SentinelOrHit(SpheresPass(scene, st, ss, lib).minToi)
    decreases |ss|
  {
    if ss != [] {
      var s := ss[|ss| - 1];
      SpheresKeepMinToi(scene, st, ss[..|ss| - 1], lib);
      SphereStepKeepsMinToi(SpheresPass(scene, st, ss[..|ss| - 1], lib), SpherePos(scene, s), scene.layout.radius(s),
                            scene.layout.color(Obstacle.Sphere(s)), scene.layout.reflectance(Obstacle.Sphere(s)), lib);
    }
  }

  lemma {:induction false} PlanesKeepMinToi(scene: Scene, st: Projections, ps: seq<Plane>)
    requires SentinelOrHit(st.minToi)
    ensures NotAbove(PlanesPass(scene, st, ps).minToi, st.minToi) && SentinelOrHit(PlanesPass(scene, st, ps).minToi)
    decreases |ps|
  {
    if ps != [] {
      var p := ps[|ps| - 1];
      PlanesKeepMinToi(scene, st, ps[..|ps| - 1]);
      PlaneStepKeepsMinToi(PlanesPass(scene, st, ps[..|ps| - 1]), scene.layout.axis(p), scene.layout.offset(p),
                           scene.layout.normal(p), scene.layout.color(Obstacle.Plane(p)), scene.layout.reflectance(Obstacle.Plane(p)));
    }
  }

  /**
   * A lane that no test of the first bounce wins keeps the initial
   * reflectance `f32::MAX` (it is never reset), so the first `reflect`
   * multiplies that lane's attenuation by `f32::MAX`.
   */
  lemma {:induction false} UnhitLaneKeepsSentinel(scene: Scene, rays: Rays, maxDepth: nat, lib: Libm, i: nat)
    requires ValidLayout(scene.layout) && maxDepth >= 1 && i < LANES
    requires Search(scene, Init(rays, maxDepth), lib).minToi[i] == F32_MAX
    ensures Search(scene, Init(rays, maxDepth), lib).reflectances[i] == F32_MAX
    ensures ReflectStep(Search(scene, Init(rays, maxDepth), lib)).0.coefColors.xs[i] == F32_MAX
  {
    var st := Init(rays, maxDepth);
    var s := SpheresPass(scene, st, scene.layout.spheres, lib);
    SpheresKeepMinToi(scene, st, scene.layout.spheres, lib);
    PlanesKeepMinToi(scene, s, scene.layout.planes);
    SpheresUnhit(scene, st, scene.layout.spheres, lib, i);
    PlanesUnhit(scene, s, scene.layout.planes, i);
  }

  lemma {:induction false} SpheresUnhit(scene: Scene, st: Projections, ss: seq<Sphere>, lib: Libm, i: nat)
    requires ValidLayout(scene.layout) && i < LANES && SentinelOrHit(st.minToi)
    requires SpheresPass(scene, st, ss, lib).minToi[i] == st.minToi[i]
    ensures SpheresPass(scene, st, ss, lib).reflectances[i] == st.reflectances[i]
    decreases |ss|
  {
    if ss != [] {
      var s := ss[|ss| - 1];
      var prev := SpheresPass(scene, st, ss[..|ss| - 1], lib);
      SpheresKeepMinToi(scene, st, ss[..|ss| - 1], lib);
      SphereStepKeepsMinToi(prev, SpherePos(scene, s), scene.layout.radius(s),
                            scene.layout.color(Obstacle.Sphere(s)), scene.layout.reflectance(Obstacle.Sphere(s)), lib);
      SpheresUnhit(scene, st, ss[..|ss| - 1], lib, i);
    }
  }

  lemma {:induction false} PlanesUnhit(scene: Scene, st: Projections, ps: seq<Plane>, i: nat)
    requires i < LANES && SentinelOrHit(st.minToi)
    requires PlanesPass(scene, st, ps).minToi[i] == st.minToi[i]
    ensures PlanesPass(scene, st, ps).reflectances[i] == st.reflectances[i]
    decreases |ps|
  {
    if ps != [] {
      var p := ps[|ps| - 1];
      var prev := PlanesPass(scene, st, ps[..|ps| - 1]);
      PlanesKeepMinToi(scene, st, ps[..|ps| - 1]);
      PlaneStepKeepsMinToi(prev, scene.layout.axis(p), scene.layout.offset(p),
                           scene.layout.normal(p), scene.layout.color(Obstacle.Plane(p)), scene.layout.reflectance(Obstacle.Plane(p)));
      PlanesUnhit(scene, st, ps[..|ps| - 1], i);
    }
  }

  /**
   * Energy never grows: a lane whose reflectance is in [0, 1] and whose
   * attenuation is non-negative has no larger attenuation after `reflect`.
   */
  lemma ReflectAttenuates(st: Projections, i: nat)
    requires st.depthLeft >= 1 && i < LANES
    requires 0.0 <= st.reflectances[i] <= 1.0
    requires 0.0 <= st.coefColors.xs[i] && 0.0 <= st.coefColors.ys[i] && 0.0 <= st.coefColors.zs[i]
    ensures var c := ReflectStep(st).0.coefColors;
            0.0 <= c.xs[i] <= st.coefColors.xs[i] && 0.0 <= c.ys[i] <= st.coefColors.ys[i]
            && 0.0 <= c.zs[i] <= st.coefColors.zs[i]
  {
    ScaleShrinks(st.coefColors, st.reflectances, i);
  }

  lemma ScaleShrinks(p: Points, s: Reals, i: nat)
    requires i < LANES && 0.0 <= s[i] <= 1.0
    requires 0.0 <= p.xs[i] && 0.0 <= p.ys[i] && 0.0 <= p.zs[i]
    ensures 0.0 <= Scale(p, s).xs[i] <= p.xs[i] && 0.0 <= Scale(p, s).ys[i] <= p.ys[i]
    ensures 0.0 <= Scale(p, s).zs[i] <= p.zs[i]
  {
    var q := Scale(p, s);
    var x, y, z, r := p.xs[i], p.ys[i], p.zs[i], s[i];
    assert q.xs[i] == x * r && q.ys[i] == y * r && q.zs[i] == z * r;
    Shrinks(x, r);
    Shrinks(y, r);
    Shrinks(z, r);
    assert x * r <= x && y * r <= y && z * r <= z;
  }

  lemma Shrinks(x: real, r: real)
    requires 0.0 <= x && 0.0 <= r <= 1.0
    ensures 0.0 <= x * r <= x
  {
  }

  // ---------------------------------------------------------------------
  // The imperative tracer
  // ---------------------------------------------------------------------

  /** `RaysProjections`: the per-batch tracer state, updated in place. */
  class RaysProjections {
    var rays: Rays
    var minToi: Reals
    var obstacleReflectances: Reals
    var obstacleColors: Points
    var obstacleNormals: Points
    var offsetColors: Points
    var coefColors: Points
    var depthLeft: nat

    function State(): Projections
      reads this
    {
      Projections(rays, minToi, obstacleReflectances, obstacleColors, obstacleNormals, offsetColors, coefColors, depthLeft)
    }

    /** `RaysProjections::new`. */
    constructor (rays: Rays, maxDepth: nat)
      ensures State() == Init(rays, maxDepth)
    {
      this.rays := rays;
      minToi := SplatReals(F32_MAX);
      obstacleReflectances := SplatReals(F32_MAX);
      obstacleColors := Splat(0.0, 0.0, 0.0);
      obstacleNormals := Splat(0.0, 0.0, 0.0);
      offsetColors := Splat(0.0, 0.0, 0.0);
      coefColors := Splat(1.0, 1.0, 1.0);
      depthLeft := maxDepth;
    }

    method WithAxisAlignedPlane(axis: Axis, offsetWithinAxis: real, normal: Point, color: Point, reflectance: real)
      modifies this
      ensures State() == PlaneStep(old(State()), axis, offsetWithinAxis, normal, color, reflectance)
    {
      var toi := PlaneTois(GetAxis(rays.origins, axis), GetAxis(rays.dirs, axis), offsetWithinAxis);
      var mask := HitMask(PlaneCandidates(GetAxis(rays.dirs, axis)), toi, minToi);
      if !Any(mask) {
        return;
      }
      minToi := UpdateRealsIf(minToi, mask, toi);
      obstacleColors := UpdateIf(obstacleColors, mask, FromSingle(color));
      obstacleReflectances := UpdateRealsIf(obstacleReflectances, mask, SplatReals(reflectance));
      var checkeredMask := Checkered(mask, rays, toi);
      obstacleReflectances := UpdateRealsIf(obstacleReflectances, checkeredMask, ZEROS);
      obstacleNormals := UpdateIf(obstacleNormals, mask, FromSingle(normal));
    }

    method WithSphere(spherePos: Point, sphereRadius: real, color: Point, reflectance: real, lib: Libm)
      requires sphereRadius != 0.0
      modifies this
      ensures State() == SphereStep(old(State()), spherePos, sphereRadius, color, reflectance, lib)
    {
      var discs := SphereDiscs(rays, spherePos, sphereRadius);
      if !Any(Ge(discs.0, ZEROS)) {
        return;
      }
      if !Any(Ge(discs.1, ZEROS)) {
        return;
      }
      var mask := Ge(discs.2, ZEROS);
      if !Any(mask) {
        return;
      }
      var toi := SphereTois(rays, spherePos, discs.2, lib);
      var won := HitMask(mask, toi, minToi);
      minToi := UpdateRealsIf(minToi, won, toi);
      obstacleColors := UpdateIf(obstacleColors, won, FromSingle(color));
      obstacleNormals := UpdateIf(obstacleNormals, won, SphereNormals(rays, spherePos, sphereRadius, minToi));
      obstacleReflectances := UpdateRealsIf(obstacleReflectances, won, SplatReals(reflectance));
    }

    method Reflect() returns (done: bool)
      requires depthLeft >= 1
      modifies this
      ensures (State(), done) == ReflectStep(old(State()))
    {
      offsetColors := Add(offsetColors, Hadamard(coefColors, obstacleColors));
      coefColors := Scale(coefColors, obstacleReflectances);
      depthLeft := depthLeft - 1;
      if depthLeft == 0 || All(Eq(obstacleReflectances, ZEROS)) {
        return true;
      }
      var pois := Add(rays.origins, Scale(rays.dirs, minToi));
      var reflectionDirs := Sub(rays.dirs, Scale(Scale(obstacleNormals, Dot(rays.dirs, obstacleNormals)), SplatReals(2.0)));
      rays := Rays(pois, reflectionDirs);
      minToi := SplatReals(F32_MAX);
      return false;
    }

    method Finish(baseColors: Points) returns (colors: Points)
      modifies this
      ensures colors == Finished(old(State()), baseColors)
    {
      coefColors := Hadamard(coefColors, baseColors);
      offsetColors := Add(offsetColors, coefColors);
      colors := offsetColors;
    }
  }

  /** The sphere half of one iteration of the loop of `trace_rays`. */
  method SearchSpheres(projections: RaysProjections, scene: Scene, lib: Libm)
    requires ValidLayout(scene.layout)
    modifies projections
    ensures projections.State() == SpheresPass(scene, old(projections.State()), scene.layout.spheres, lib)
  {
    ghost var before := projections.State();
    var spheres := scene.layout.spheres;
    for k := 0 to |spheres|
      invariant projections.State() == SpheresPass(scene, before, spheres[..k], lib)
    {
      assert spheres[..k + 1][..k] == spheres[..k];
      var s := spheres[k];
      projections.WithSphere(SpherePos(scene, s), scene.layout.radius(s),
                             scene.layout.color(Obstacle.Sphere(s)), scene.layout.reflectance(Obstacle.Sphere(s)), lib);
    }
    assert spheres[..|spheres|] == spheres;
  }

  /** The plane half of one iteration of the loop of `trace_rays`. */
  method SearchPlanes(projections: RaysProjections, scene: Scene)
    modifies projections
    ensures projections.State() == PlanesPass(scene, old(projections.State()), scene.layout.planes)
  {
    ghost var before := projections.State();
    var planes := scene.layout.planes;
    for k := 0 to |planes|
      invariant projections.State() == PlanesPass(scene, before, planes[..k])
    {
      assert planes[..k + 1][..k] == planes[..k];
      var p := planes[k];
      projections.WithAxisAlignedPlane(scene.layout.axis(p), scene.layout.offset(p), scene.layout.normal(p),
                                       scene.layout.color(Obstacle.Plane(p)), scene.layout.reflectance(Obstacle.Plane(p)));
    }
    assert planes[..|planes|] == planes;
  }

  /**
   * `trace_rays`: alternates the closest-hit search over every sphere and
   * every plane with `reflect` until `reflect` reports termination, which
   * happens after at most `max_depth` bounces, then finishes against white.
   */
  method TraceRays(scene: Scene, rays: Rays, maxDepth: nat, lib: Libm) returns (colors: Points, ghost reflections: nat)
    requires ValidLayout(scene.layout) && maxDepth >= 1
    ensures colors == Trace(scene, rays, maxDepth, lib)
    ensures 1 <= reflections <= maxDepth
  {
    var projections := new RaysProjections(rays, maxDepth);
    ghost var start := projections.State();
    reflections := 0;
    ReflectionsBounded(scene, start, lib);
    while true
      invariant projections.depthLeft >= 1
      invariant Run(scene, projections.State(), lib) == Run(scene, start, lib)
      invariant reflections + Reflections(scene, projections.State(), lib) == Reflections(scene, start, lib)
      decreases projections.depthLeft
    {
      SearchSpheres(projections, scene, lib);
      SearchPlanes(projections, scene);
      var done := projections.Reflect();
      reflections := reflections + 1;
      if done {
        break;
      }
    }
    colors := projections.Finish(Splat(1.0, 1.0, 1.0));
  }
}
