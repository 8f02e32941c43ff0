/**
 * The earlier fixed-scene tracer (src/render/scene.rs): one movable
 * sphere, six walls and two large bounding spheres, with the obstacle
 * attributes in constant tables.
 *
 * It shares the lane kernels of `Tracer` (the plane test with its
 * checkerboard, the sphere discriminant and roots) and its state record
 * `Tracer.Projections`; this version keeps no bounce budget, so
 * `depthLeft` stays 0.  It differs from the later tracer in three ways:
 * a winning sphere lane's normal is divided by its own length rather than
 * by the radius, `reflect` always rebuilds the rays and stops only when
 * every reflectance is 0, and the bounce loop is a `for` over `depth`
 * with a `break`.
 */
module BatchScene {
  import opened Math
  import Tracer

  // ---------------------------------------------------------------------
  // Obstacle tables
  // ---------------------------------------------------------------------

  datatype Obstacle = Top | Bottom | Left | Right | Far | Near | Sphere

  /** `Obstacle::None as usize`: the number of table entries. */
  const OBSTACLE_COUNT: nat := 7

  /** The enum discriminant, which indexes the tables. */
  function Ordinal(o: Obstacle): (n: nat)
    ensures n < OBSTACLE_COUNT
  {
    match o
    case Top => 0
    case Bottom => 1
    case Left => 2
    case Right => 3
    case Far => 4
    case Near => 5
    case Sphere => 6
  }

  const OBSTACLE_NORMALS: seq<Point> := [
    NewPoint(0.0, -1.0, 0.0), NewPoint(0.0, 1.0, 0.0), NewPoint(1.0, 0.0, 0.0), NewPoint(-1.0, 0.0, 0.0),
    NewPoint(0.0, 0.0, 1.0), NewPoint(0.0, 0.0, -1.0), NewPoint(0.0, 0.0, 0.0)]

  const OBSTACLE_COLORS: seq<Point> := [
    NewPoint(0.8, 0.8, 0.1), NewPoint(0.1, 0.8, 0.8), NewPoint(0.8, 0.1, 0.8), NewPoint(0.8, 0.1, 0.1),
    NewPoint(0.1, 0.1, 0.8), NewPoint(0.1, 0.8, 0.1), NewPoint(0.1, 0.1, 0.1)]

  const OBSTACLE_REFLECTANCES: seq<real> := [0.3, 0.3, 0.3, 0.3, 0.3, 0.3, 0.5]

  const OBSTACLE_OFFSETS: seq<real> := [2.0, -2.0, -4.0, 4.0, -16.0, 0.0, 0.0]

  const SPHERE_RADIUS: real := 0.5

  /** The walls in the order each bounce tests them, with the axis each is orthogonal to. */
  const PLANE_ORDER: seq<(Obstacle, Axis)> := [(Top, YS), (Bottom, YS), (Left, XS), (Right, XS), (Far, ZS), (Near, ZS)]

  /**
   * Wall `o` is orthogonal to `axis`: its normal is the unit vector along
   * that axis, pointing to the side of the wall the origin is on (the
   * inside of the box).
   */
  predicate WallFacesInside(o: Obstacle, axis: Axis)
    requires Ordinal(o) < |OBSTACLE_NORMALS| && Ordinal(o) < |OBSTACLE_OFFSETS|
  {
    var n := OBSTACLE_NORMALS[Ordinal(o)];
    GetCoord(n, axis) * GetCoord(n, axis) == 1.0 && PointDot(n, n) == 1.0
    && -GetCoord(n, axis) * OBSTACLE_OFFSETS[Ordinal(o)] >= 0.0
  }

  /** Every table has one entry per obstacle, and every reflectance is in [0, 1]. */
  lemma TablesWellFormed()
    ensures |OBSTACLE_NORMALS| == |OBSTACLE_COLORS| == |OBSTACLE_REFLECTANCES| == |OBSTACLE_OFFSETS| == OBSTACLE_COUNT
    ensures forall k :: 0 <= k < OBSTACLE_COUNT ==> 0.0 <= OBSTACLE_REFLECTANCES[k] <= 1.0
  {
  }

  /** Every wall of `PLANE_ORDER` faces the inside of the box. */
  lemma WallsFaceInside()
    ensures PLANE_ORDER == [(Top, YS), (Bottom, YS), (Left, XS), (Right, XS), (Far, ZS), (Near, ZS)]
    ensures WallFacesInside(Top, YS) && WallFacesInside(Bottom, YS)
    ensures WallFacesInside(Left, XS) && WallFacesInside(Right, XS)
    ensures WallFacesInside(Far, ZS) && WallFacesInside(Near, ZS)
  {
  }

  // ---------------------------------------------------------------------
  // The sphere test with length-normalised normals
  // ---------------------------------------------------------------------

  /** One component of (origin + dir·t) − centre. */
  function PoiDelta(o: real, d: real, t: real, centre: real): real
  {
    o + d * t - centre
  }

  /** |(origin + dir·t) − centre| of lane i. */
  function MagnitudeAt(rays: Rays, c: Point, t: real, i: nat, lib: Libm): real
    requires i < LANES
  {
    var a := PoiDelta(rays.origins.xs[i], rays.dirs.xs[i], t, c.x);
    var b := PoiDelta(rays.origins.ys[i], rays.dirs.ys[i], t, c.y);
    var e := PoiDelta(rays.origins.zs[i], rays.dirs.zs[i], t, c.z);
    Magnitude(a, b, e, lib)
  }

  /** The length of (a, b, e). */
  function Magnitude(a: real, b: real, e: real, lib: Libm): real
  {
    lib.sqrt((a * a + b * b) + e * e)
  }

  /**
   * `v / magnitude`.  A zero magnitude (the source's 0/0, NaN) yields 0; no
   * lane the sphere wins has one when the radius is positive
   * (`WinningMagnitudeIsRadius`).
   */
  function UnitComponent(v: real, m: real): real
  {
    if m == 0.0 then 0.0 else v / m
  }

  /** The normals (poi − centre) / |poi − centre| at the points given by `toi`. */
  function UnitNormals(rays: Rays, c: Point, toi: Reals, lib: Libm): (n: Points)
    ensures forall i :: 0 <= i < LANES ==>
      var m := MagnitudeAt(rays, c, toi[i], i, lib);
      n.xs[i] == UnitComponent(PoiDelta(rays.origins.xs[i], rays.dirs.xs[i], toi[i], c.x), m)
      && n.ys[i] == UnitComponent(PoiDelta(rays.origins.ys[i], rays.dirs.ys[i], toi[i], c.y), m)
      && n.zs[i] == UnitComponent(PoiDelta(rays.origins.zs[i], rays.dirs.zs[i], toi[i], c.z), m)
  {
    Points(
      seq(LANES, i requires 0 <= i < LANES =>
        UnitComponent(PoiDelta(rays.origins.xs[i], rays.dirs.xs[i], toi[i], c.x), MagnitudeAt(rays, c, toi[i], i, lib))),
      seq(LANES, i requires 0 <= i < LANES =>
        UnitComponent(PoiDelta(rays.origins.ys[i], rays.dirs.ys[i], toi[i], c.y), MagnitudeAt(rays, c, toi[i], i, lib))),
      seq(LANES, i requires 0 <= i < LANES =>
        UnitComponent(PoiDelta(rays.origins.zs[i], rays.dirs.zs[i], toi[i], c.z), MagnitudeAt(rays, c, toi[i], i, lib))))
  }

  /**
   * The lane rule of this `with_sphere`: a lane the sphere wins gets the
   * toi, the sphere's colour and reflectance and the normal divided by its
   * own length; any other lane keeps all four.
   */
  ghost predicate UnitSphereLane(st: Tracer.Projections, r: Tracer.Projections, c: Point, radius: real,
                                 color: Point, reflectance: real, lib: Libm, i: nat)
    requires i < LANES
  {
    if Tracer.SphereWins(st.rays, st.minToi, c, radius, i, lib) then
      var t := Tracer.SphereToiAt(st.rays, c, radius, i, lib);
      var m := MagnitudeAt(st.rays, c, t, i, lib);
      r.minToi[i] == t && Tracer.LaneIs(r.colors, i, color) && r.reflectances[i] == reflectance
      && r.normals.xs[i] == UnitComponent(PoiDelta(st.rays.origins.xs[i], st.rays.dirs.xs[i], t, c.x), m)
      && r.normals.ys[i] == UnitComponent(PoiDelta(st.rays.origins.ys[i], st.rays.dirs.ys[i], t, c.y), m)
      && r.normals.zs[i] == UnitComponent(PoiDelta(st.rays.origins.zs[i], st.rays.dirs.zs[i], t, c.z), m)
    else Tracer.LaneKept(st, r, i)
  }

  /**
   * `with_sphere`: the same discriminant, early returns and closest-hit
   * rule as the later tracer; winning lanes get length-normalised normals.
   */
  function UnitSphereStep(st: Tracer.Projections, c: Point, radius: real, color: Point, reflectance: real, lib: Libm): (r: Tracer.Projections)
    ensures Tracer.OnlyHitFieldsChange(st, r)
  {
    var ds := Tracer.SphereDiscs(st.rays, c, radius);
    if !Any(Ge(ds.0, Tracer.ZEROS)) then st
    else if !Any(Ge(ds.1, Tracer.ZEROS)) then st
    else if !Any(Ge(ds.2, Tracer.ZEROS)) then st
    else UnitSphereHit(st, c, radius, color, reflectance, lib)
  }

  /**
   * Lane by lane: a lane the sphere wins takes the sphere's attributes and
   * the length-normalised normal, and every other lane keeps its fields,
   * including every lane of a batch that one of the early returns skips.
   */
  lemma UnitSphereStepLanes(st: Tracer.Projections, c: Point, radius: real, color: Point, reflectance: real, lib: Libm)
    ensures var r := UnitSphereStep(st, c, radius, color, reflectance, lib);
            forall i :: 0 <= i < LANES ==> UnitSphereLane(st, r, c, radius, color, reflectance, lib, i)
  {
    var ds := Tracer.SphereDiscs(st.rays, c, radius);
    if !Any(Ge(ds.0, Tracer.ZEROS)) {
      Tracer.StageNegative(st.rays, c, radius, ds.0, 0);
    } else if !Any(Ge(ds.1, Tracer.ZEROS)) {
      Tracer.StageNegative(st.rays, c, radius, ds.1, 1);
    } else if !Any(Ge(ds.2, Tracer.ZEROS)) {
      assert forall i :: 0 <= i < LANES ==> !Ge(ds.2, Tracer.ZEROS)[i];
    } else {
      UnitSphereHitLanes(st, c, radius, color, reflectance, lib);
    }
  }

  /** The updates of `with_sphere` once some lane has a non-negative discriminant. */
  function UnitSphereHit(st: Tracer.Projections, c: Point, radius: real, color: Point, reflectance: real, lib: Libm): (r: Tracer.Projections)
    ensures Tracer.OnlyHitFieldsChange(st, r)
  {
    var discs := Tracer.SphereDiscs(st.rays, c, radius).2;
    var toi := Tracer.SphereTois(st.rays, c, discs, lib);
    var won := Tracer.HitMask(Ge(discs, Tracer.ZEROS), toi, st.minToi);
    var minToi := UpdateRealsIf(st.minToi, won, toi);
    st.(minToi := minToi,
        colors := UpdateIf(st.colors, won, FromSingle(color)),
        normals := UpdateIf(st.normals, won, UnitNormals(st.rays, c, minToi, lib)),
        reflectances := UpdateRealsIf(st.reflectances, won, SplatReals(reflectance)))
  }

  lemma UnitSphereHitLanes(st: Tracer.Projections, c: Point, radius: real, color: Point, reflectance: real, lib: Libm)
    ensures var r := UnitSphereHit(st, c, radius, color, reflectance, lib);
            forall i :: 0 <= i < LANES ==> UnitSphereLane(st, r, c, radius, color, reflectance, lib, i)
  {
    var r := UnitSphereHit(st, c, radius, color, reflectance, lib);
    var discs := Tracer.SphereDiscs(st.rays, c, radius).2;
    var toi := Tracer.SphereTois(st.rays, c, discs, lib);
    var won := Tracer.HitMask(Ge(discs, Tracer.ZEROS), toi, st.minToi);
    var minToi := UpdateRealsIf(st.minToi, won, toi);
    forall i | 0 <= i < LANES
      ensures UnitSphereLane(st, r, c, radius, color, reflectance, lib, i)
    {
      assert won[i] <==> Tracer.SphereWins(st.rays, st.minToi, c, radius, i, lib);
      if won[i] {
        assert minToi[i] == Tracer.SphereToiAt(st.rays, c, radius, i, lib);
      }
    }
  }

  /** A lane whose direction is zero has candidate toi 0, so no sphere wins it. */
  lemma WinningLaneMoves(rays: Rays, minToi: Reals, c: Point, radius: real, lib: Libm, i: nat)
    requires i < LANES
    requires Tracer.SphereWins(rays, minToi, c, radius, i, lib)
    ensures Tracer.DssAt(rays, i) != 0.0
  {
    if Tracer.DssAt(rays, i) == 0.0 {
      assert false;
    }
  }

  /**
   * On a lane the sphere wins, with an exact square root and a positive
   * radius, the point of intersection lies on the sphere, so the length
   * the normal is divided by is the radius itself.
   */
  lemma WinningMagnitudeIsRadius(rays: Rays, minToi: Reals, c: Point, radius: real, lib: Libm, i: nat)
    requires i < LANES && IsSqrt(lib) && radius > 0.0
    requires Tracer.SphereWins(rays, minToi, c, radius, i, lib)
    ensures MagnitudeAt(rays, c, Tracer.SphereToiAt(rays, c, radius, i, lib), i, lib) == radius
  {
    WinningPoiOnSphere(rays, minToi, c, radius, lib, i);
    MagnitudeOnSphere(rays, c, Tracer.SphereToiAt(rays, c, radius, i, lib), i, radius, lib);
  }

  /** A point at distance `radius` from the centre has magnitude `radius`. */
  lemma MagnitudeOnSphere(rays: Rays, c: Point, t: real, i: nat, radius: real, lib: Libm)
    requires i < LANES && IsSqrt(lib) && radius > 0.0
    requires var a := PoiDelta(rays.origins.xs[i], rays.dirs.xs[i], t, c.x);
             var b := PoiDelta(rays.origins.ys[i], rays.dirs.ys[i], t, c.y);
             var e := PoiDelta(rays.origins.zs[i], rays.dirs.zs[i], t, c.z);
             (a * a + b * b) + e * e == radius * radius
    ensures MagnitudeAt(rays, c, t, i, lib) == radius
  {
    var a := PoiDelta(rays.origins.xs[i], rays.dirs.xs[i], t, c.x);
    var b := PoiDelta(rays.origins.ys[i], rays.dirs.ys[i], t, c.y);
    var e := PoiDelta(rays.origins.zs[i], rays.dirs.zs[i], t, c.z);
    assert MagnitudeAt(rays, c, t, i, lib) == Magnitude(a, b, e, lib);
    SqrtOfSquare(lib, (a * a + b * b) + e * e, radius);
  }

  /** On a lane the sphere wins, the point of intersection lies on the sphere. */
  lemma WinningPoiOnSphere(rays: Rays, minToi: Reals, c: Point, radius: real, lib: Libm, i: nat)
    requires i < LANES && IsSqrt(lib)
    requires Tracer.SphereWins(rays, minToi, c, radius, i, lib)
    ensures var t := Tracer.SphereToiAt(rays, c, radius, i, lib);
            var a := PoiDelta(rays.origins.xs[i], rays.dirs.xs[i], t, c.x);
            var b := PoiDelta(rays.origins.ys[i], rays.dirs.ys[i], t, c.y);
            var e := PoiDelta(rays.origins.zs[i], rays.dirs.zs[i], t, c.z);
            (a * a + b * b) + e * e == radius * radius
  {
    WinningLaneMoves(rays, minToi, c, radius, lib, i);
    Tracer.LaneToiIsRoot(rays, c, radius, i, lib);
    OnSphere(rays, c, Tracer.SphereToiAt(rays, c, radius, i, lib), i, radius);
  }

  /** (origin + dir·t) − centre is e + t·dir with e = origin − centre. */
  lemma OnSphere(rays: Rays, c: Point, t: real, i: nat, radius: real)
    requires i < LANES
    requires var ex := Tracer.DeltaX(rays, c, i);
             var ey := Tracer.DeltaY(rays, c, i);
             var ez := Tracer.DeltaZ(rays, c, i);
             (ex + t * rays.dirs.xs[i]) * (ex + t * rays.dirs.xs[i]) + (ey + t * rays.dirs.ys[i]) * (ey + t * rays.dirs.ys[i])
               + (ez + t * rays.dirs.zs[i]) * (ez + t * rays.dirs.zs[i]) == radius * radius
    ensures var a := PoiDelta(rays.origins.xs[i], rays.dirs.xs[i], t, c.x);
            var b := PoiDelta(rays.origins.ys[i], rays.dirs.ys[i], t, c.y);
            var e := PoiDelta(rays.origins.zs[i], rays.dirs.zs[i], t, c.z);
            (a * a + b * b) + e * e == radius * radius
  {
    assert PoiDelta(rays.origins.xs[i], rays.dirs.xs[i], t, c.x) == Tracer.DeltaX(rays, c, i) + t * rays.dirs.xs[i];
    assert PoiDelta(rays.origins.ys[i], rays.dirs.ys[i], t, c.y) == Tracer.DeltaY(rays, c, i) + t * rays.dirs.ys[i];
    assert PoiDelta(rays.origins.zs[i], rays.dirs.zs[i], t, c.z) == Tracer.DeltaZ(rays, c, i) + t * rays.dirs.zs[i];
  }

  lemma SqrtOfSquare(lib: Libm, x: real, r: real)
    requires IsSqrt(lib) && r > 0.0 && x == r * r
    ensures lib.sqrt(x) == r
  {
    var s := lib.sqrt(x);
    assert 0.0 <= s && s * s == x;
    NonNegativeRoot(s, r);
  }

  /** The non-negative square root is unique. */
  lemma NonNegativeRoot(s: real, r: real)
    requires 0.0 <= s && 0.0 < r && s * s == r * r
    ensures s == r
  {
    assert (r - s) * (r + s) == r * r - s * s == 0.0;
    assert r + s > 0.0;
  }

  /**
   * With an exact square root and a positive radius this `with_sphere`
   * does exactly what the later tracer's does: dividing by the normal's
   * length is dividing by the radius.
   */
  lemma UnitSphereStepIsSphereStep(st: Tracer.Projections, c: Point, radius: real, color: Point, reflectance: real, lib: Libm)
    requires IsSqrt(lib) && radius > 0.0
    ensures UnitSphereStep(st, c, radius, color, reflectance, lib) == Tracer.SphereStep(st, c, radius, color, reflectance, lib)
  {
    var u := UnitSphereStep(st, c, radius, color, reflectance, lib);
    var s := Tracer.SphereStep(st, c, radius, color, reflectance, lib);
    UnitSphereStepLanes(st, c, radius, color, reflectance, lib);
    forall i | 0 <= i < LANES
      ensures u.minToi[i] == s.minToi[i] && u.reflectances[i] == s.reflectances[i]
      ensures Tracer.SameLane(u.colors, s.colors, i) && Tracer.SameLane(u.normals, s.normals, i)
    {
      LanesAgree(st, u, s, c, radius, color, reflectance, lib, i);
    }
    assert u.minToi == s.minToi && u.reflectances == s.reflectances;
    assert u.colors.xs == s.colors.xs && u.colors.ys == s.colors.ys && u.colors.zs == s.colors.zs;
    assert u.normals.xs == s.normals.xs && u.normals.ys == s.normals.ys && u.normals.zs == s.normals.zs;
  }

  /** Lane i of the two sphere tests' results agree. */
  lemma LanesAgree(st: Tracer.Projections, u: Tracer.Projections, s: Tracer.Projections, c: Point, radius: real,
                   color: Point, reflectance: real, lib: Libm, i: nat)
    requires IsSqrt(lib) && radius > 0.0 && i < LANES
    requires UnitSphereLane(st, u, c, radius, color, reflectance, lib, i)
    requires Tracer.SphereLane(st, s, c, radius, color, reflectance, lib, i)
    ensures u.minToi[i] == s.minToi[i] && u.reflectances[i] == s.reflectances[i]
    ensures Tracer.SameLane(u.colors, s.colors, i) && Tracer.SameLane(u.normals, s.normals, i)
  {
    if Tracer.SphereWins(st.rays, st.minToi, c, radius, i, lib) {
      WinningMagnitudeIsRadius(st.rays, st.minToi, c, radius, lib, i);
    }
  }

  /** This sphere test never raises `min_toi` and keeps every lane a sentinel or a hit. */
  lemma UnitSphereStepKeepsMinToi(st: Tracer.Projections, c: Point, radius: real, color: Point, reflectance: real, lib: Libm)
    requires Tracer.SentinelOrHit(st.minToi)
    ensures var r := UnitSphereStep(st, c, radius, color, reflectance, lib);
            Tracer.NotAbove(r.minToi, st.minToi) && Tracer.SentinelOrHit(r.minToi)
  {
    var r := UnitSphereStep(st, c, radius, color, reflectance, lib);
    UnitSphereStepLanes(st, c, radius, color, reflectance, lib);
    forall i | 0 <= i < LANES
      ensures r.minToi[i] <= st.minToi[i] && (r.minToi[i] == Tracer.F32_MAX || (Tracer.MIN_TOI < r.minToi[i] < Tracer.F32_MAX))
    {
      assert UnitSphereLane(st, r, c, radius, color, reflectance, lib, i);
    }
  }

  // ---------------------------------------------------------------------
  // Reflection and the bounce loop
  // ---------------------------------------------------------------------

  /**
   * `reflect`: always replaces the rays by their mirror reflections at the
   * points of intersection, accumulates offset += coef·colour and
   * coef *= reflectance, resets `min_toi`, and reports whether every
   * lane's reflectance is 0.
   */
  function ReflectAlways(st: Tracer.Projections): (Tracer.Projections, bool)
  {
    var pois := Add(st.rays.origins, Scale(st.rays.dirs, st.minToi));
    var dirs := Sub(st.rays.dirs, Scale(Scale(st.normals, Dot(st.rays.dirs, st.normals)), SplatReals(2.0)));
    (st.(rays := Rays(pois, dirs),
         offsetColors := Add(st.offsetColors, Hadamard(st.coefColors, st.colors)),
         coefColors := Scale(st.coefColors, st.reflectances),
         minToi := SplatReals(Tracer.F32_MAX)),
     All(Eq(st.reflectances, Tracer.ZEROS)))
  }

  /**
   * `reflect` keeps the hit fields and the colour sum offset + coef·colour
   * it adds in, resets every lane's `min_toi`, and stops exactly when every
   * reflectance is 0; then every lane's attenuation is 0, so a further
   * bounce could add nothing to the colours and the `break` loses nothing.
   */
  lemma ReflectAlwaysStopsWhenAbsorbed(st: Tracer.Projections)
    ensures var r := ReflectAlways(st);
            (forall i :: 0 <= i < LANES ==> r.0.minToi[i] == Tracer.F32_MAX)
            && r.0.reflectances == st.reflectances && r.0.colors == st.colors && r.0.normals == st.normals
            && r.0.depthLeft == st.depthLeft
            && (forall i :: 0 <= i < LANES ==>
                  r.0.offsetColors.xs[i] == st.offsetColors.xs[i] + st.coefColors.xs[i] * st.colors.xs[i]
                  && r.0.offsetColors.ys[i] == st.offsetColors.ys[i] + st.coefColors.ys[i] * st.colors.ys[i]
                  && r.0.offsetColors.zs[i] == st.offsetColors.zs[i] + st.coefColors.zs[i] * st.colors.zs[i])
            && (r.1 <==> forall i :: 0 <= i < LANES ==> st.reflectances[i] == 0.0)
            && (r.1 ==> r.0.coefColors == Splat(0.0, 0.0, 0.0))
  {
    var r := ReflectAlways(st);
    if r.1 {
      var z := r.0.coefColors;
      assert z == Scale(st.coefColors, st.reflectances);
      forall i | 0 <= i < LANES
        ensures z.xs[i] == 0.0 && z.ys[i] == 0.0 && z.zs[i] == 0.0
      {
        assert Eq(st.reflectances, Tracer.ZEROS)[i];
      }
      assert z.xs == SplatReals(0.0) && z.ys == SplatReals(0.0) && z.zs == SplatReals(0.0);
    }
  }

  /** The far bounding sphere: radius 4 around (0, 0, −19.9), black, absorbing. */
  const FAR_BOUND: Point := NewPoint(0.0, 0.0, -19.9)

  /** The near bounding sphere: radius 4 around (0, 0, 3.9), white, absorbing. */
  const NEAR_BOUND: Point := NewPoint(0.0, 0.0, 3.9)

  const BOUND_RADIUS: real := 4.0

  /** One obstacle test of a bounce. */
  datatype Test = SphereTest(centre: Point, radius: real, color: Point, reflectance: real)
                | WallTest(wall: Obstacle, axis: Axis)

  /** One test; a wall test takes the wall's entries of the tables. */
  function Apply(st: Tracer.Projections, t: Test, lib: Libm): (r: Tracer.Projections)
    ensures Tracer.OnlyHitFieldsChange(st, r)
  {
    match t
    case SphereTest(c, radius, color, reflectance) => UnitSphereStep(st, c, radius, color, reflectance, lib)
    case WallTest(o, axis) =>
      Tracer.PlaneStep(st, axis, OBSTACLE_OFFSETS[Ordinal(o)], OBSTACLE_NORMALS[Ordinal(o)],
                       OBSTACLE_COLORS[Ordinal(o)], OBSTACLE_REFLECTANCES[Ordinal(o)])
  }

  /** The tests in order (a left fold). */
  function Pass(st: Tracer.Projections, tests: seq<Test>, lib: Libm): (r: Tracer.Projections)
    ensures Tracer.OnlyHitFieldsChange(st, r)
    decreases |tests|
  {
    if tests == [] then st
    else Apply(Pass(st, tests[..|tests| - 1], lib), tests[|tests| - 1], lib)
  }

  /** The fold over k + 1 tests is one more test after the fold over k. */
  lemma PassSnoc(st: Tracer.Projections, tests: seq<Test>, k: nat, lib: Libm)
    requires k < |tests|
    ensures Pass(st, tests[..k + 1], lib) == Apply(Pass(st, tests[..k], lib), tests[k], lib)
  {
    assert tests[..k + 1][..k] == tests[..k];
  }

  /**
   * The tests of one bounce: the movable sphere centred at `c`, the six
   * walls in `PLANE_ORDER`, then the far and the near bounding sphere.
   */
  function Tests(c: Point): (ts: seq<Test>)
    ensures |ts| == 9
  {
    [SphereTest(c, SPHERE_RADIUS, OBSTACLE_COLORS[Ordinal(Sphere)], OBSTACLE_REFLECTANCES[Ordinal(Sphere)])]
    + seq(|PLANE_ORDER|, k requires 0 <= k < |PLANE_ORDER| => WallTest(PLANE_ORDER[k].0, PLANE_ORDER[k].1))
    + [SphereTest(FAR_BOUND, BOUND_RADIUS, NewPoint(0.0, 0.0, 0.0), 0.0),
       SphereTest(NEAR_BOUND, BOUND_RADIUS, NewPoint(1.0, 1.0, 1.0), 0.0)]
  }

  /**
   * The `for _ in 0..depth` loop: search, reflect, and `break` when
   * `reflect` says so.  The result is the final state and how many times
   * `reflect` was called.
   */
  function Run(tests: seq<Test>, st: Tracer.Projections, depth: nat, lib: Libm): (Tracer.Projections, nat)
    decreases depth
  {
    if depth == 0 then (st, 0)
    else
      var next := ReflectAlways(Pass(st, tests, lib));
      if next.1 then (next.0, 1)
      else var rest := Run(tests, next.0, depth - 1, lib); (rest.0, rest.1 + 1)
  }

  /** `rays_colors`: the loop from a fresh state, finished against white. */
  function SceneColors(c: Point, rays: Rays, depth: nat, lib: Libm): Points
  {
    Tracer.Finished(Run(Tests(c), Tracer.Init(rays, 0), depth, lib).0, Splat(1.0, 1.0, 1.0))
  }

  /** With `depth = 0` no obstacle is tested and every lane is white. */
  lemma SceneColorsDepthZero(c: Point, rays: Rays, lib: Libm)
    ensures SceneColors(c, rays, 0, lib) == Splat(1.0, 1.0, 1.0)
  {
    var st := Tracer.Init(rays, 0);
    Tracer.FinishedWhite(st);
    var r := Add(st.offsetColors, st.coefColors);
    assert r.xs == SplatReals(1.0) && r.ys == SplatReals(1.0) && r.zs == SplatReals(1.0);
  }

  /** Every test of a bounce, and so the whole search, never raises `min_toi` in any lane. */
  lemma {:induction false} PassKeepsMinToi(st: Tracer.Projections, tests: seq<Test>, lib: Libm)
    requires Tracer.SentinelOrHit(st.minToi)
    ensures Tracer.NotAbove(Pass(st, tests, lib).minToi, st.minToi) && Tracer.SentinelOrHit(Pass(st, tests, lib).minToi)
    decreases |tests|
  {
    if tests != [] {
      PassKeepsMinToi(st, tests[..|tests| - 1], lib);
      var prev := Pass(st, tests[..|tests| - 1], lib);
      match tests[|tests| - 1]
      case SphereTest(c, radius, color, reflectance) =>
        UnitSphereStepKeepsMinToi(prev, c, radius, color, reflectance, lib);
      case WallTest(o, axis) =>
        Tracer.PlaneStepKeepsMinToi(prev, axis, OBSTACLE_OFFSETS[Ordinal(o)], OBSTACLE_NORMALS[Ordinal(o)],
                                    OBSTACLE_COLORS[Ordinal(o)], OBSTACLE_REFLECTANCES[Ordinal(o)]);
    }
  }

  // ---------------------------------------------------------------------
  // The imperative scene and tracer state
  // ---------------------------------------------------------------------

  /** `RaysProjections` of this tracer: the same fields without a bounce budget. */
  class RaysProjections {
    var rays: Rays
    var minToi: Reals
    var obstacleReflectances: Reals
    var obstacleColors: Points
    var obstacleNormals: Points
    var offsetColors: Points
    var coefColors: Points

    function State(): Tracer.Projections
      reads this
    {
      Tracer.Projections(rays, minToi, obstacleReflectances, obstacleColors, obstacleNormals, offsetColors, coefColors, 0)
    }

    /** `RaysProjections::new`. */
    constructor (rays: Rays)
      ensures State() == Tracer.Init(rays, 0)
    {
      this.rays := rays;
      minToi := SplatReals(Tracer.F32_MAX);
      obstacleReflectances := SplatReals(Tracer.F32_MAX);
      obstacleColors := Splat(0.0, 0.0, 0.0);
      obstacleNormals := Splat(0.0, 0.0, 0.0);
      offsetColors := Splat(0.0, 0.0, 0.0);
      coefColors := Splat(1.0, 1.0, 1.0);
    }

    /** `with_axis_aligned_plane`, with the table entries the loop passes. */
    method WithAxisAlignedPlane(axis: Axis, offsetWithinAxis: real, normal: Point, color: Point, reflectance: real)
      modifies this
      ensures State() == Tracer.PlaneStep(old(State()), axis, offsetWithinAxis, normal, color, reflectance)
    {
      var toi := Tracer.PlaneTois(GetAxis(rays.origins, axis), GetAxis(rays.dirs, axis), offsetWithinAxis);
      var mask := Tracer.HitMask(Tracer.PlaneCandidates(GetAxis(rays.dirs, axis)), toi, minToi);
      if !Any(mask) {
        return;
      }
      minToi := UpdateRealsIf(minToi, mask, toi);
      obstacleColors := UpdateIf(obstacleColors, mask, FromSingle(color));
      obstacleReflectances := UpdateRealsIf(obstacleReflectances, mask, SplatReals(reflectance));
      var checkeredMask := Tracer.Checkered(mask, rays, toi);
      obstacleReflectances := UpdateRealsIf(obstacleReflectances, checkeredMask, Tracer.ZEROS);
      obstacleNormals := UpdateIf(obstacleNormals, mask, FromSingle(normal));
    }

    /** `with_sphere`. */
    method WithSphere(spherePos: Point, sphereRadius: real, color: Point, reflectance: real, lib: Libm)
      modifies this
      ensures State() == UnitSphereStep(old(State()), spherePos, sphereRadius, color, reflectance, lib)
    {
      var discs := Tracer.SphereDiscs(rays, spherePos, sphereRadius);
      if !Any(Ge(discs.0, Tracer.ZEROS)) {
        return;
      }
      if !Any(Ge(discs.1, Tracer.ZEROS)) {
        return;
      }
      if !Any(Ge(discs.2, Tracer.ZEROS)) {
        return;
      }
      SphereHit(spherePos, sphereRadius, color, reflectance, lib);
    }

    /** The updates of `with_sphere` past its early returns. */
    method SphereHit(spherePos: Point, sphereRadius: real, color: Point, reflectance: real, lib: Libm)
      modifies this
      ensures State() == UnitSphereHit(old(State()), spherePos, sphereRadius, color, reflectance, lib)
    {
      var discs := Tracer.SphereDiscs(rays, spherePos, sphereRadius).2;
      var mask := Ge(discs, Tracer.ZEROS);
      var toi := Tracer.SphereTois(rays, spherePos, discs, lib);
      var won := Tracer.HitMask(mask, toi, minToi);
      minToi := UpdateRealsIf(minToi, won, toi);
      obstacleColors := UpdateIf(obstacleColors, won, FromSingle(color));
      obstacleNormals := UpdateIf(obstacleNormals, won, UnitNormals(rays, spherePos, minToi, lib));
      obstacleReflectances := UpdateRealsIf(obstacleReflectances, won, SplatReals(reflectance));
    }

    /** `reflect`. */
    method Reflect() returns (absorbed: bool)
      modifies this
      ensures (State(), absorbed) == ReflectAlways(old(State()))
    {
      var pois := Add(rays.origins, Scale(rays.dirs, minToi));
      var reflectionDirs := Sub(rays.dirs, Scale(Scale(obstacleNormals, Dot(rays.dirs, obstacleNormals)), SplatReals(2.0)));
      rays := Rays(pois, reflectionDirs);
      offsetColors := Add(offsetColors, Hadamard(coefColors, obstacleColors));
      coefColors := Scale(coefColors, obstacleReflectances);
      minToi := SplatReals(Tracer.F32_MAX);
      absorbed := All(Eq(obstacleReflectances, Tracer.ZEROS));
    }

    /** `finish`. */
    method Finish(baseColors: Points) returns (colors: Points)
      modifies this
      ensures colors == Tracer.Finished(old(State()), baseColors)
    {
      coefColors := Hadamard(coefColors, baseColors);
      offsetColors := Add(offsetColors, coefColors);
      colors := offsetColors;
    }

    /** One test, through the matching method. */
    method ApplyTest(t: Test, lib: Libm)
      modifies this
      ensures State() == Apply(old(State()), t, lib)
    {
      match t
      case SphereTest(c, radius, color, reflectance) =>
        WithSphere(c, radius, color, reflectance, lib);
      case WallTest(o, axis) =>
        WithAxisAlignedPlane(axis, OBSTACLE_OFFSETS[Ordinal(o)], OBSTACLE_NORMALS[Ordinal(o)],
                             OBSTACLE_COLORS[Ordinal(o)], OBSTACLE_REFLECTANCES[Ordinal(o)]);
    }

    /**
     * One bounce's closest-hit search (the loop body of `rays_colors`
     * before `reflect`): the sphere, the walls of `PLANE_ORDER` in a loop,
     * then the two bounding spheres.
     */
    method SearchAll(c: Point, lib: Libm)
      modifies this
      ensures State() == Pass(old(State()), Tests(c), lib)
    {
      ghost var before := State();
      var tests := Tests(c);
      PassSnoc(before, tests, 0, lib);
      ApplyTest(tests[0], lib);
      for k := 0 to |PLANE_ORDER|
        invariant State() == Pass(before, tests[..k + 1], lib)
      {
        PassSnoc(before, tests, k + 1, lib);
        ApplyTest(tests[k + 1], lib);
      }
      PassSnoc(before, tests, 7, lib);
      ApplyTest(tests[7], lib);
      PassSnoc(before, tests, 8, lib);
      ApplyTest(tests[8], lib);
      assert tests[..9] == tests;
    }

    /** One pass of the loop of `rays_colors`: the search, then `reflect`. */
    method Bounce(c: Point, lib: Libm) returns (absorbed: bool)
      modifies this
      ensures (State(), absorbed) == ReflectAlways(Pass(old(State()), Tests(c), lib))
    {
      SearchAll(c, lib);
      absorbed := Reflect();
    }
  }

  /** `FixedScene`: the movable sphere's centre, splatted over the lanes. */
  class FixedScene {
    var spherePos: Points

    /** The centre lane 0 holds. */
    function Centre(): Point
      reads this
    {
      NewPoint(spherePos.xs[0], spherePos.ys[0], spherePos.zs[0])
    }

    /** Every lane holds the same centre. */
    predicate Valid()
      reads this
    {
      spherePos == FromSingle(Centre())
    }

    /** `FixedScene::new`: the sphere starts at (−2, −1, −6). */
    constructor ()
      ensures Valid() && spherePos == Splat(-2.0, -1.0, -6.0)
      ensures Centre() == NewPoint(-2.0, -1.0, -6.0)
    {
      spherePos := Splat(-2.0, -1.0, -6.0);
    }

    /** `move_sphere`: adds (dx, dy, dz) to every lane of the centre and changes nothing else. */
    method MoveSphere(deltaX: real, deltaY: real, deltaZ: real)
      requires Valid()
      modifies this
      ensures Valid()
      ensures spherePos == Add(old(spherePos), Splat(deltaX, deltaY, deltaZ))
      ensures Centre() == NewPoint(old(Centre()).x + deltaX, old(Centre()).y + deltaY, old(Centre()).z + deltaZ)
    {
      ghost var p := spherePos;
      spherePos := spherePos.(xs := Plus(spherePos.xs, SplatReals(deltaX)));
      spherePos := spherePos.(ys := Plus(spherePos.ys, SplatReals(deltaY)));
      spherePos := spherePos.(zs := Plus(spherePos.zs, SplatReals(deltaZ)));
      assert spherePos.xs == SplatReals(Centre().x) && spherePos.ys == SplatReals(Centre().y) && spherePos.zs == SplatReals(Centre().z);
      ghost var q := Add(p, Splat(deltaX, deltaY, deltaZ));
      assert spherePos.xs == q.xs && spherePos.ys == q.ys && spherePos.zs == q.zs;
    }

    /**
     * `rays_colors`: at most `depth` bounces, stopping after the first one
     * that leaves every reflectance 0, then finished against white.
     */
    method RaysColors(rays: Rays, depth: nat, lib: Libm) returns (colors: Points, ghost bounces: nat)
      requires Valid()
      ensures colors == SceneColors(Centre(), rays, depth, lib)
      ensures bounces == Run(Tests(Centre()), Tracer.Init(rays, 0), depth, lib).1
      ensures bounces <= depth && (depth > 0 ==> bounces >= 1)
    {
      var projections := new RaysProjections(rays);
      var c := Centre();
      ghost var tests := Tests(c);
      ghost var total := Run(tests, projections.State(), depth, lib);
      bounces := 0;
      var remaining := depth;
      while remaining > 0
        invariant bounces + remaining == depth
        invariant var rest := Run(tests, projections.State(), remaining, lib);
                  rest.0 == total.0 && bounces + rest.1 == total.1
      {
        var absorbed := projections.Bounce(c, lib);
        bounces := bounces + 1;
        if absorbed {
          break;
        }
        remaining := remaining - 1;
      }
      colors := projections.Finish(Splat(1.0, 1.0, 1.0));
    }
  }
}
