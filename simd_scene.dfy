/**
 * The first lane-batched tracer (src/simd/scene.rs): one sphere, six
 * walls in constant tables, no reflectances, and exactly `depth` bounces
 * that halve the attenuation every time.
 *
 * `intersect_plane` and `intersect_sphere` update three `&mut` batches in
 * place; here they take those batches in and give their new values back,
 * and `PlaneTest` / `SphereTest` specify them on a `Hits` value.  The
 * lane kernels (plane toi, hit rule, discriminant and roots) are those of
 * `Tracer`, and the length-normalised sphere normal is that of
 * `BatchScene`.
 */
module SimdScene {
  import opened Math
  import Tracer
  import BatchScene
  import LaneAssign

  // ---------------------------------------------------------------------
  // Obstacle tables
  // ---------------------------------------------------------------------

  datatype Obstacle = Top | Bottom | Left | Right | Far | Near | Sphere | NoObstacle

  /** `Obstacle::None as usize + 1` (`NoObstacle` stands for `Obstacle::None`). */
  const OBSTACLE_COUNT: nat := 8

  /** The enum discriminant, which indexes the tables. */
  function Ordinal(o: Obstacle): (n: nat)
    ensures n < OBSTACLE_COUNT
  {
    match o
    case Top => 0
    case Bottom => 1
    case Left => 2
    case Right => 3
    case Far => 4
    case Near => 5
    case Sphere => 6
    case NoObstacle => 7
  }

  const OBSTACLE_NORMALS: seq<Point> := [
    NewPoint(0.0, -1.0, 0.0), NewPoint(0.0, 1.0, 0.0), NewPoint(1.0, 0.0, 0.0), NewPoint(-1.0, 0.0, 0.0),
    NewPoint(0.0, 0.0, 1.0), NewPoint(0.0, 0.0, -1.0), NewPoint(0.0, 0.0, 0.0), NewPoint(0.0, 0.0, 0.0)]

  const OBSTACLE_COLORS: seq<Point> := [
    NewPoint(0.5, 0.5, 0.0), NewPoint(0.0, 0.5, 0.5), NewPoint(0.5, 0.0, 0.5), NewPoint(0.5, 0.0, 0.0),
    NewPoint(0.0, 0.0, 0.5), NewPoint(0.0, 0.5, 0.0), NewPoint(0.5, 0.5, 0.5), NewPoint(1.0, 1.0, 1.0)]

  const OBSTACLE_OFFSETS: seq<real> := [2.0, -2.0, -2.0, 2.0, -8.0, 0.0, 0.0, 0.0]

  const SPHERE_RADIUS: real := 0.5

  /** Every channel of the colour lies in [0, 1/2]. */
  predicate HalfBright(p: Point)
  {
    0.0 <= p.x <= 0.5 && 0.0 <= p.y <= 0.5 && 0.0 <= p.z <= 0.5
  }

  /**
   * Every table has one entry per obstacle, and the colour of every
   * obstacle a ray can hit is at most half bright in each channel.
   */
  lemma TablesWellFormed()
    ensures |OBSTACLE_NORMALS| == |OBSTACLE_COLORS| == |OBSTACLE_OFFSETS| == OBSTACLE_COUNT
    ensures HalfBright(OBSTACLE_COLORS[Ordinal(Top)]) && HalfBright(OBSTACLE_COLORS[Ordinal(Bottom)])
    ensures HalfBright(OBSTACLE_COLORS[Ordinal(Left)]) && HalfBright(OBSTACLE_COLORS[Ordinal(Right)])
    ensures HalfBright(OBSTACLE_COLORS[Ordinal(Far)]) && HalfBright(OBSTACLE_COLORS[Ordinal(Near)])
    ensures HalfBright(OBSTACLE_COLORS[Ordinal(Sphere)])
  {
  }

  // ---------------------------------------------------------------------
  // The two obstacle tests
  // ---------------------------------------------------------------------

  /** The three batches the obstacle tests update. */
  datatype Hits = Hits(minToi: Reals, colors: Points, normals: Points)

  /** What every bounce starts from: no hit, black, zero normals. */
  function FreshHits(): (h: Hits)
    ensures forall i :: 0 <= i < LANES ==> h.minToi[i] == Tracer.F32_MAX
    ensures h.colors == Splat(0.0, 0.0, 0.0) && h.normals == Splat(0.0, 0.0, 0.0)
  {
    Hits(SplatReals(Tracer.F32_MAX), Splat(0.0, 0.0, 0.0), Splat(0.0, 0.0, 0.0))
  }

  /** Lane i keeps its time of intersection, colour and normal. */
  ghost predicate KeptLane(h: Hits, r: Hits, i: nat)
    requires i < LANES
  {
    r.minToi[i] == h.minToi[i] && Tracer.SameLane(r.colors, h.colors, i) && Tracer.SameLane(r.normals, h.normals, i)
  }

  /** Lane i is won by wall `o`, orthogonal to the axis of `origins` and `dirs`. */
  ghost predicate PlaneWinsLane(minToi: Reals, o: Obstacle, origins: Reals, dirs: Reals, i: nat)
    requires i < LANES
  {
    dirs[i] != 0.0 && Tracer.MIN_TOI < (OBSTACLE_OFFSETS[Ordinal(o)] - origins[i]) / dirs[i] < minToi[i]
  }

  /** `intersect_plane`: no early return, no checkerboard, no reflectance. */
  function PlaneTest(h: Hits, o: Obstacle, origins: Reals, dirs: Reals): Hits
  {
    var toi := Tracer.PlaneTois(origins, dirs, OBSTACLE_OFFSETS[Ordinal(o)]);
    var mask := Tracer.HitMask(Tracer.PlaneCandidates(dirs), toi, h.minToi);
    Hits(UpdateRealsIf(h.minToi, mask, toi),
         UpdateIf(h.colors, mask, FromSingle(OBSTACLE_COLORS[Ordinal(o)])),
         UpdateIf(h.normals, mask, FromSingle(OBSTACLE_NORMALS[Ordinal(o)])))
  }

  /**
   * A lane is updated iff its toi (offset − origin) / dir satisfies
   * MIN_TOI < toi < min_toi; it then gets that toi and the wall's colour
   * and normal, and every other lane keeps all three.
   */
  lemma PlaneTestLanes(h: Hits, o: Obstacle, origins: Reals, dirs: Reals)
    ensures var r := PlaneTest(h, o, origins, dirs);
            forall i :: 0 <= i < LANES ==>
              if PlaneWinsLane(h.minToi, o, origins, dirs, i) then
                r.minToi[i] == (OBSTACLE_OFFSETS[Ordinal(o)] - origins[i]) / dirs[i]
                && Tracer.LaneIs(r.colors, i, OBSTACLE_COLORS[Ordinal(o)])
                && Tracer.LaneIs(r.normals, i, OBSTACLE_NORMALS[Ordinal(o)])
              else KeptLane(h, r, i)
  {
  }

  /**
   * The lane rule of `intersect_sphere`: the returned mask holds lane i
   * iff the sphere wins it; a won lane gets the toi, the sphere's colour
   * and the normal (poi − centre) / |poi − centre|, and any other lane
   * keeps all three.
   */
  ghost predicate SphereLaneRule(h: Hits, r: Hits, won: bool, c: Point, rays: Rays, lib: Libm, i: nat)
    requires i < LANES
  {
    (won <==> Tracer.SphereWins(rays, h.minToi, c, SPHERE_RADIUS, i, lib))
    && if won then
      var t := Tracer.SphereToiAt(rays, c, SPHERE_RADIUS, i, lib);
      var m := BatchScene.MagnitudeAt(rays, c, t, i, lib);
      r.minToi[i] == t && Tracer.LaneIs(r.colors, i, OBSTACLE_COLORS[Ordinal(Sphere)])
      && r.normals.xs[i] == BatchScene.UnitComponent(BatchScene.PoiDelta(rays.origins.xs[i], rays.dirs.xs[i], t, c.x), m)
      && r.normals.ys[i] == BatchScene.UnitComponent(BatchScene.PoiDelta(rays.origins.ys[i], rays.dirs.ys[i], t, c.y), m)
      && r.normals.zs[i] == BatchScene.UnitComponent(BatchScene.PoiDelta(rays.origins.zs[i], rays.dirs.zs[i], t, c.z), m)
    else KeptLane(h, r, i)
  }

  /**
   * `intersect_sphere` against the sphere of radius 0.5 at `c`: the new
   * batches and the mask of the lanes it won.  When no lane has a
   * non-negative discriminant it returns that all-false mask at once.
   */
  function SphereTest(h: Hits, c: Point, rays: Rays, lib: Libm): (Hits, Mask)
  {
    var d := Tracer.SphereDiscs(rays, c, SPHERE_RADIUS).2;
    var mask := Ge(d, Tracer.ZEROS);
    if !Any(mask) then (h, mask)
    else
      var toi := Tracer.SphereTois(rays, c, d, lib);
      var won := Tracer.HitMask(mask, toi, h.minToi);
      var minToi := UpdateRealsIf(h.minToi, won, toi);
      (Hits(minToi,
            UpdateIf(h.colors, won, FromSingle(OBSTACLE_COLORS[Ordinal(Sphere)])),
            UpdateIf(h.normals, won, BatchScene.UnitNormals(rays, c, minToi, lib))),
       won)
  }

  /** Every lane of `SphereTest` follows `SphereLaneRule`, the early return included. */
  lemma SphereTestLanes(h: Hits, c: Point, rays: Rays, lib: Libm)
    ensures var r := SphereTest(h, c, rays, lib);
            forall i :: 0 <= i < LANES ==> SphereLaneRule(h, r.0, r.1[i], c, rays, lib, i)
  {
    var r := SphereTest(h, c, rays, lib);
    var d := Tracer.SphereDiscs(rays, c, SPHERE_RADIUS).2;
    var mask := Ge(d, Tracer.ZEROS);
    if !Any(mask) {
      forall i | 0 <= i < LANES
        ensures SphereLaneRule(h, r.0, r.1[i], c, rays, lib, i)
      {
        assert !mask[i];
      }
    } else {
      var toi := Tracer.SphereTois(rays, c, d, lib);
      var won := Tracer.HitMask(mask, toi, h.minToi);
      var minToi := UpdateRealsIf(h.minToi, won, toi);
      forall i | 0 <= i < LANES
        ensures SphereLaneRule(h, r.0, r.1[i], c, rays, lib, i)
      {
        assert won[i] <==> Tracer.SphereWins(rays, h.minToi, c, SPHERE_RADIUS, i, lib);
        if won[i] {
          assert minToi[i] == Tracer.SphereToiAt(rays, c, SPHERE_RADIUS, i, lib);
        }
      }
    }
  }

  /**
   * With an exact square root, the normal of a won lane is the outward
   * unit normal (poi − centre) / radius: the point of intersection is at
   * distance 0.5 from the centre.
   */
  lemma SphereNormalIsRadial(h: Hits, c: Point, rays: Rays, lib: Libm, i: nat)
    requires i < LANES && IsSqrt(lib)
    requires SphereTest(h, c, rays, lib).1[i]
    ensures var r := SphereTest(h, c, rays, lib).0;
            var t := Tracer.SphereToiAt(rays, c, SPHERE_RADIUS, i, lib);
            r.normals.xs[i] == Tracer.NormalComponent(rays.origins.xs[i], rays.dirs.xs[i], t, c.x, SPHERE_RADIUS)
            && r.normals.ys[i] == Tracer.NormalComponent(rays.origins.ys[i], rays.dirs.ys[i], t, c.y, SPHERE_RADIUS)
            && r.normals.zs[i] == Tracer.NormalComponent(rays.origins.zs[i], rays.dirs.zs[i], t, c.z, SPHERE_RADIUS)
  {
    var r := SphereTest(h, c, rays, lib);
    SphereTestLanes(h, c, rays, lib);
    assert SphereLaneRule(h, r.0, r.1[i], c, rays, lib, i);
    RadialLane(h, r.0, c, rays, lib, i);
  }

  /** A won lane's normal divided by its own length is divided by the radius. */
  lemma RadialLane(h: Hits, r: Hits, c: Point, rays: Rays, lib: Libm, i: nat)
    requires i < LANES && IsSqrt(lib)
    requires SphereLaneRule(h, r, true, c, rays, lib, i)
    ensures var t := Tracer.SphereToiAt(rays, c, SPHERE_RADIUS, i, lib);
            r.normals.xs[i] == Tracer.NormalComponent(rays.origins.xs[i], rays.dirs.xs[i], t, c.x, SPHERE_RADIUS)
            && r.normals.ys[i] == Tracer.NormalComponent(rays.origins.ys[i], rays.dirs.ys[i], t, c.y, SPHERE_RADIUS)
            && r.normals.zs[i] == Tracer.NormalComponent(rays.origins.zs[i], rays.dirs.zs[i], t, c.z, SPHERE_RADIUS)
  {
    BatchScene.WinningMagnitudeIsRadius(rays, h.minToi, c, SPHERE_RADIUS, lib, i);
  }

  // ---------------------------------------------------------------------
  // One bounce
  // ---------------------------------------------------------------------

  /** The six walls in the order a bounce tests them: Right, Left, Top, Bottom, Far, Near. */
  function Walls(h: Hits, rays: Rays): Hits
  {
    var h1 := PlaneTest(h, Right, rays.origins.xs, rays.dirs.xs);
    var h2 := PlaneTest(h1, Left, rays.origins.xs, rays.dirs.xs);
    var h3 := PlaneTest(h2, Top, rays.origins.ys, rays.dirs.ys);
    var h4 := PlaneTest(h3, Bottom, rays.origins.ys, rays.dirs.ys);
    var h5 := PlaneTest(h4, Far, rays.origins.zs, rays.dirs.zs);
    PlaneTest(h5, Near, rays.origins.zs, rays.dirs.zs)
  }

  /**
   * The closest-hit search of one bounce: the sphere from fresh batches,
   * then the walls unless the sphere won every lane.
   */
  function Search(c: Point, rays: Rays, lib: Libm): Hits
  {
    var s := SphereTest(FreshHits(), c, rays, lib);
    if All(s.1) then s.0 else Walls(s.0, rays)
  }

  /**
   * Lane i either has no hit (the sentinel, black and a zero normal) or a
   * hit beyond MIN_TOI with an obstacle colour at most half bright.
   */
  ghost predicate HitOrMiss(h: Hits, i: nat)
    requires i < LANES
  {
    (h.minToi[i] == Tracer.F32_MAX && Tracer.LaneIs(h.colors, i, NewPoint(0.0, 0.0, 0.0))
     && Tracer.LaneIs(h.normals, i, NewPoint(0.0, 0.0, 0.0)))
    || (Tracer.MIN_TOI < h.minToi[i] < Tracer.F32_MAX
        && 0.0 <= h.colors.xs[i] <= 0.5 && 0.0 <= h.colors.ys[i] <= 0.5 && 0.0 <= h.colors.zs[i] <= 0.5)
  }

  ghost predicate AllHitOrMiss(h: Hits)
  {
    forall i :: 0 <= i < LANES ==> HitOrMiss(h, i)
  }

  lemma {:induction false} PlaneTestKeepsHitOrMiss(h: Hits, o: Obstacle, origins: Reals, dirs: Reals)
    requires o != NoObstacle && AllHitOrMiss(h)
    ensures AllHitOrMiss(PlaneTest(h, o, origins, dirs))
  {
    var r := PlaneTest(h, o, origins, dirs);
    PlaneTestLanes(h, o, origins, dirs);
    TablesWellFormed();
    forall i | 0 <= i < LANES
      ensures HitOrMiss(r, i)
    {
      assert HitOrMiss(h, i);
      if PlaneWinsLane(h.minToi, o, origins, dirs, i) {
        assert Tracer.LaneIs(r.colors, i, OBSTACLE_COLORS[Ordinal(o)]);
      } else {
        assert KeptLane(h, r, i);
      }
    }
  }

  lemma {:induction false} SphereTestKeepsHitOrMiss(h: Hits, c: Point, rays: Rays, lib: Libm)
    requires AllHitOrMiss(h)
    ensures AllHitOrMiss(SphereTest(h, c, rays, lib).0)
  {
    var r := SphereTest(h, c, rays, lib);
    SphereTestLanes(h, c, rays, lib);
    TablesWellFormed();
    forall i | 0 <= i < LANES
      ensures HitOrMiss(r.0, i)
    {
      assert HitOrMiss(h, i);
      assert SphereLaneRule(h, r.0, r.1[i], c, rays, lib, i);
    }
  }

  /**
   * After the search every lane is a miss (sentinel `min_toi`, black, zero
   * normal) or a hit beyond MIN_TOI whose colour is at most half bright.
   */
  lemma {:induction false} SearchHitOrMiss(c: Point, rays: Rays, lib: Libm)
    ensures AllHitOrMiss(Search(c, rays, lib))
  {
    var h0 := FreshHits();
    forall i | 0 <= i < LANES
      ensures HitOrMiss(h0, i)
    {
      assert h0.minToi[i] == Tracer.F32_MAX;
    }
    SphereTestKeepsHitOrMiss(h0, c, rays, lib);
    var s := SphereTest(h0, c, rays, lib);
    if !All(s.1) {
      var h1 := PlaneTest(s.0, Right, rays.origins.xs, rays.dirs.xs);
      var h2 := PlaneTest(h1, Left, rays.origins.xs, rays.dirs.xs);
      var h3 := PlaneTest(h2, Top, rays.origins.ys, rays.dirs.ys);
      var h4 := PlaneTest(h3, Bottom, rays.origins.ys, rays.dirs.ys);
      var h5 := PlaneTest(h4, Far, rays.origins.zs, rays.dirs.zs);
      PlaneTestKeepsHitOrMiss(s.0, Right, rays.origins.xs, rays.dirs.xs);
      PlaneTestKeepsHitOrMiss(h1, Left, rays.origins.xs, rays.dirs.xs);
      PlaneTestKeepsHitOrMiss(h2, Top, rays.origins.ys, rays.dirs.ys);
      PlaneTestKeepsHitOrMiss(h3, Bottom, rays.origins.ys, rays.dirs.ys);
      PlaneTestKeepsHitOrMiss(h4, Far, rays.origins.zs, rays.dirs.zs);
      PlaneTestKeepsHitOrMiss(h5, Near, rays.origins.zs, rays.dirs.zs);
    }
  }

  /** The values the bounce loop carries: the rays and the two colour accumulators. */
  datatype Traced = Traced(rays: Rays, offsetColors: Points, coefColors: Points)

  /** Before the first bounce: offset black, attenuation white. */
  function Start(rays: Rays): Traced
  {
    Traced(rays, Splat(0.0, 0.0, 0.0), Splat(1.0, 1.0, 1.0))
  }

  /**
   * The rest of a pass of the loop of `rays_colors` once the search has
   * given `h`: the rays are always reflected, offset += coef·colour and
   * coef is halved.
   */
  function Reflect(st: Traced, h: Hits): Traced
  {
    var pois := Add(st.rays.origins, Scale(st.rays.dirs, h.minToi));
    var dirs := Sub(st.rays.dirs, Scale(Scale(h.normals, Dot(st.rays.dirs, h.normals)), SplatReals(2.0)));
    Traced(Rays(pois, dirs), Add(st.offsetColors, Hadamard(st.coefColors, h.colors)),
           Hadamard(st.coefColors, Splat(0.5, 0.5, 0.5)))
  }

  /** One pass of the loop of `rays_colors`: the search, then `Reflect`. */
  function Bounce(st: Traced, c: Point, lib: Libm): Traced
  {
    Reflect(st, Search(c, st.rays, lib))
  }

  /** A lane the search leaves without a hit keeps its direction and adds no colour. */
  lemma MissPassesThrough(st: Traced, c: Point, lib: Libm, i: nat)
    requires i < LANES && Search(c, st.rays, lib).minToi[i] == Tracer.F32_MAX
    ensures var r := Bounce(st, c, lib);
            Tracer.SameLane(r.rays.dirs, st.rays.dirs, i) && Tracer.SameLane(r.offsetColors, st.offsetColors, i)
  {
    var h := Search(c, st.rays, lib);
    SearchHitOrMiss(c, st.rays, lib);
    assert HitOrMiss(h, i);
    MissLane(st, h, i);
  }

  lemma MissLane(st: Traced, h: Hits, i: nat)
    requires i < LANES && Tracer.LaneIs(h.colors, i, NewPoint(0.0, 0.0, 0.0)) && Tracer.LaneIs(h.normals, i, NewPoint(0.0, 0.0, 0.0))
    ensures var r := Reflect(st, h);
            Tracer.SameLane(r.rays.dirs, st.rays.dirs, i) && Tracer.SameLane(r.offsetColors, st.offsetColors, i)
  {
  }

  /** `k` applications of `step` from `st`. */
  function Iterate(step: Traced -> Traced, st: Traced, k: nat): Traced
    decreases k
  {
    if k == 0 then st else step(Iterate(step, st, k - 1))
  }

  /** `k` bounces from `st` (the `for _ in 0..depth` loop after k passes). */
  function Bounced(st: Traced, c: Point, k: nat, lib: Libm): Traced
  {
    Iterate(s => Bounce(s, c, lib), st, k)
  }

  /** `rays_colors`: `depth` bounces, then offset + coef·white. */
  function SceneColors(c: Point, rays: Rays, depth: nat, lib: Libm): Points
  {
    var st := Bounced(Start(rays), c, depth, lib);
    Add(st.offsetColors, Hadamard(st.coefColors, Splat(1.0, 1.0, 1.0)))
  }

  /** 0.5 to the power k. */
  function Half(k: nat): (h: real)
    ensures 0.0 < h <= 1.0
  {
    if k == 0 then 1.0 else 0.5 * Half(k - 1)
  }

  /** One accumulation step keeps the offset in [0, 1 − coef]. */
  lemma AccumulateStep(o: real, h: real, col: real)
    requires 0.0 < h && 0.0 <= o <= 1.0 - h && 0.0 <= col <= 0.5
    ensures 0.0 <= o + h * col <= 1.0 - 0.5 * h
  {
    MulNonNegative(h, col);
    MulNonNegative(h, 0.5 - col);
    assert h * col + h * (0.5 - col) == 0.5 * h;
  }

  lemma MulNonNegative(a: real, b: real)
    requires 0.0 <= a && 0.0 <= b
    ensures 0.0 <= a * b
  {
  }

  /** Offsets in [0, 1 − h] in every lane and channel. */
  ghost predicate OffsetBelow(p: Points, h: real)
  {
    forall i :: 0 <= i < LANES ==>
      0.0 <= p.xs[i] <= 1.0 - h && 0.0 <= p.ys[i] <= 1.0 - h && 0.0 <= p.zs[i] <= 1.0 - h
  }

  /** Attenuation h in every lane and channel, and an offset in [0, 1 − h]. */
  ghost predicate Attenuated(st: Traced, h: real)
  {
    0.0 < h && st.coefColors == Splat(h, h, h) && OffsetBelow(st.offsetColors, h)
  }

  /**
   * Reflecting with attenuation h in every lane halves it, and after a
   * search (every colour at most half bright) an offset in [0, 1 − h]
   * stays in [0, 1 − h/2].
   */
  lemma ReflectBounds(st: Traced, hits: Hits, h: real)
    requires 0.0 < h && st.coefColors == Splat(h, h, h) && OffsetBelow(st.offsetColors, h)
    requires AllHitOrMiss(hits)
    ensures Reflect(st, hits).coefColors == Splat(0.5 * h, 0.5 * h, 0.5 * h)
    ensures OffsetBelow(Reflect(st, hits).offsetColors, 0.5 * h)
  {
    var r := Reflect(st, hits);
    assert r.coefColors == Hadamard(st.coefColors, Splat(0.5, 0.5, 0.5));
    assert r.coefColors.xs == SplatReals(0.5 * h) && r.coefColors.ys == SplatReals(0.5 * h);
    assert r.coefColors.zs == SplatReals(0.5 * h);
    var offset := Add(st.offsetColors, Hadamard(st.coefColors, hits.colors));
    assert r.offsetColors == offset;
    forall i | 0 <= i < LANES
      ensures 0.0 <= offset.xs[i] <= 1.0 - 0.5 * h && 0.0 <= offset.ys[i] <= 1.0 - 0.5 * h
      ensures 0.0 <= offset.zs[i] <= 1.0 - 0.5 * h
    {
      AccumulateLane(st.offsetColors, hits, h, i);
    }
  }

  /** One lane of `ReflectBounds`'s offset. */
  lemma AccumulateLane(offset: Points, hits: Hits, h: real, i: nat)
    requires i < LANES && 0.0 < h && HitOrMiss(hits, i)
    requires 0.0 <= offset.xs[i] <= 1.0 - h && 0.0 <= offset.ys[i] <= 1.0 - h && 0.0 <= offset.zs[i] <= 1.0 - h
    ensures var o := Add(offset, Hadamard(Splat(h, h, h), hits.colors));
            0.0 <= o.xs[i] <= 1.0 - 0.5 * h && 0.0 <= o.ys[i] <= 1.0 - 0.5 * h && 0.0 <= o.zs[i] <= 1.0 - 0.5 * h
  {
    AccumulateStep(offset.xs[i], h, hits.colors.xs[i]);
    AccumulateStep(offset.ys[i], h, hits.colors.ys[i]);
    AccumulateStep(offset.zs[i], h, hits.colors.zs[i]);
  }

  /** The same for a whole pass of the loop, search included. */
  lemma BounceBounds(st: Traced, c: Point, lib: Libm, h: real)
    requires Attenuated(st, h)
    ensures Attenuated(Bounce(st, c, lib), 0.5 * h)
  {
    SearchHitOrMiss(c, st.rays, lib);
    ReflectBounds(st, Search(c, st.rays, lib), h);
  }

  /**
   * Any step that halves the attenuation and keeps the offset within
   * [0, 1 − h], iterated k times from the start, reaches attenuation
   * 0.5^k.
   */
  lemma {:induction false} IterateAttenuates(step: Traced -> Traced, rays: Rays, k: nat)
    requires forall st, h :: Attenuated(st, h) ==> Attenuated(step(st), 0.5 * h)
    ensures Attenuated(Iterate(step, Start(rays), k), Half(k))
  {
    if k == 0 {
      StartAttenuated(rays);
    } else {
      IterateAttenuates(step, rays, k - 1);
      assert Half(k) == 0.5 * Half(k - 1);
    }
  }

  /**
   * After k bounces the attenuation is 0.5^k in every lane and channel
   * and the accumulated colour lies in [0, 1 − 0.5^k].
   */
  lemma BouncedBounds(rays: Rays, c: Point, k: nat, lib: Libm)
    ensures Attenuated(Bounced(Start(rays), c, k, lib), Half(k))
  {
    var step := s => Bounce(s, c, lib);
    forall st, h | Attenuated(st, h)
      ensures Attenuated(step(st), 0.5 * h)
    {
      BounceBounds(st, c, lib, h);
    }
    IterateAttenuates(step, rays, k);
  }

  /** Before the first bounce the attenuation is 1 and the offset 0. */
  lemma StartAttenuated(rays: Rays)
    ensures Attenuated(Start(rays), 1.0)
  {
  }

  /**
   * Every channel of every lane `rays_colors` returns lies in
   * [0.5^depth, 1]: the result never needs clamping.
   */
  lemma SceneColorsInUnit(c: Point, rays: Rays, depth: nat, lib: Libm)
    ensures var r := SceneColors(c, rays, depth, lib);
            forall i :: 0 <= i < LANES ==>
              Half(depth) <= r.xs[i] <= 1.0 && Half(depth) <= r.ys[i] <= 1.0 && Half(depth) <= r.zs[i] <= 1.0
  {
    BouncedBounds(rays, c, depth, lib);
    var st := Bounced(Start(rays), c, depth, lib);
    assert OffsetBelow(st.offsetColors, Half(depth));
  }

  /** With `depth = 0` every lane is white. */
  lemma SceneColorsDepthZero(c: Point, rays: Rays, lib: Libm)
    ensures SceneColors(c, rays, 0, lib) == Splat(1.0, 1.0, 1.0)
  {
    var r := SceneColors(c, rays, 0, lib);
    assert r.xs == SplatReals(1.0) && r.ys == SplatReals(1.0) && r.zs == SplatReals(1.0);
  }

  // ---------------------------------------------------------------------
  // The imperative code
  // ---------------------------------------------------------------------

  /** `intersect_plane`, with its three `&mut` batches in and out. */
  method IntersectPlane(o: Obstacle, minToi: Reals, obstacleColors: Points, obstacleNormals: Points,
                        origins: Reals, dirs: Reals)
    returns (minToi': Reals, obstacleColors': Points, obstacleNormals': Points)
    ensures Hits(minToi', obstacleColors', obstacleNormals') == PlaneTest(Hits(minToi, obstacleColors, obstacleNormals), o, origins, dirs)
  {
    var toi := Tracer.PlaneTois(origins, dirs, OBSTACLE_OFFSETS[Ordinal(o)]);
    var mask := Tracer.HitMask(Tracer.PlaneCandidates(dirs), toi, minToi);
    minToi' := UpdateRealsIf(minToi, mask, toi);
    var color := OBSTACLE_COLORS[Ordinal(o)];
    obstacleColors' := obstacleColors.(xs := UpdateRealsIf(obstacleColors.xs, mask, SplatReals(color.x)));
    obstacleColors' := obstacleColors'.(ys := UpdateRealsIf(obstacleColors'.ys, mask, SplatReals(color.y)));
    obstacleColors' := obstacleColors'.(zs := UpdateRealsIf(obstacleColors'.zs, mask, SplatReals(color.z)));
    var normal := OBSTACLE_NORMALS[Ordinal(o)];
    obstacleNormals' := obstacleNormals.(xs := UpdateRealsIf(obstacleNormals.xs, mask, SplatReals(normal.x)));
    obstacleNormals' := obstacleNormals'.(ys := UpdateRealsIf(obstacleNormals'.ys, mask, SplatReals(normal.y)));
    obstacleNormals' := obstacleNormals'.(zs := UpdateRealsIf(obstacleNormals'.zs, mask, SplatReals(normal.z)));
  }

  /** `intersect_sphere`, with its three `&mut` batches in and out; it returns the won mask. */
  method IntersectSphere(spherePos: Point, minToi: Reals, obstacleColors: Points, obstacleNormals: Points, rays: Rays, lib: Libm)
    returns (mask: Mask, minToi': Reals, obstacleColors': Points, obstacleNormals': Points)
    ensures (Hits(minToi', obstacleColors', obstacleNormals'), mask)
         == SphereTest(Hits(minToi, obstacleColors, obstacleNormals), spherePos, rays, lib)
  {
    var d := Tracer.SphereDiscs(rays, spherePos, SPHERE_RADIUS).2;
    mask := Ge(d, Tracer.ZEROS);
    minToi', obstacleColors', obstacleNormals' := minToi, obstacleColors, obstacleNormals;
    if !Any(mask) {
      return;
    }
    var toi := Tracer.SphereTois(rays, spherePos, d, lib);
    mask := Tracer.HitMask(mask, toi, minToi);
    minToi' := UpdateRealsIf(minToi, mask, toi);
    var color := OBSTACLE_COLORS[Ordinal(Sphere)];
    obstacleColors' := obstacleColors.(xs := UpdateRealsIf(obstacleColors.xs, mask, SplatReals(color.x)));
    obstacleColors' := obstacleColors'.(ys := UpdateRealsIf(obstacleColors'.ys, mask, SplatReals(color.y)));
    obstacleColors' := obstacleColors'.(zs := UpdateRealsIf(obstacleColors'.zs, mask, SplatReals(color.z)));
    var normals := BatchScene.UnitNormals(rays, spherePos, minToi', lib);
    obstacleNormals' := obstacleNormals.(xs := UpdateRealsIf(obstacleNormals.xs, mask, normals.xs));
    obstacleNormals' := obstacleNormals'.(ys := UpdateRealsIf(obstacleNormals'.ys, mask, normals.ys));
    obstacleNormals' := obstacleNormals'.(zs := UpdateRealsIf(obstacleNormals'.zs, mask, normals.zs));
  }

  /**
   * The search at the head of each pass of `rays_colors`: fresh batches,
   * the sphere, and the six walls unless the sphere won every lane.
   */
  method SearchObstacles(c: Point, rays: Rays, lib: Libm) returns (minToi: Reals, obstacleColors: Points, obstacleNormals: Points)
    ensures Hits(minToi, obstacleColors, obstacleNormals) == Search(c, rays, lib)
  {
    minToi := SplatReals(Tracer.F32_MAX);
    obstacleColors := Splat(0.0, 0.0, 0.0);
    obstacleNormals := Splat(0.0, 0.0, 0.0);
    var sphereMask;
    sphereMask, minToi, obstacleColors, obstacleNormals := IntersectSphere(c, minToi, obstacleColors, obstacleNormals, rays, lib);
    if !All(sphereMask) {
      minToi, obstacleColors, obstacleNormals := IntersectPlane(Right, minToi, obstacleColors, obstacleNormals, rays.origins.xs, rays.dirs.xs);
      minToi, obstacleColors, obstacleNormals := IntersectPlane(Left, minToi, obstacleColors, obstacleNormals, rays.origins.xs, rays.dirs.xs);
      minToi, obstacleColors, obstacleNormals := IntersectPlane(Top, minToi, obstacleColors, obstacleNormals, rays.origins.ys, rays.dirs.ys);
      minToi, obstacleColors, obstacleNormals := IntersectPlane(Bottom, minToi, obstacleColors, obstacleNormals, rays.origins.ys, rays.dirs.ys);
      minToi, obstacleColors, obstacleNormals := IntersectPlane(Far, minToi, obstacleColors, obstacleNormals, rays.origins.zs, rays.dirs.zs);
      minToi, obstacleColors, obstacleNormals := IntersectPlane(Near, minToi, obstacleColors, obstacleNormals, rays.origins.zs, rays.dirs.zs);
    }
  }

  /** One pass of the loop: search, reflect, accumulate, halve. */
  method BounceOnce(c: Point, rays: Rays, offsetColors: Points, coefColors: Points, lib: Libm)
    returns (rays': Rays, offsetColors': Points, coefColors': Points)
    ensures Traced(rays', offsetColors', coefColors') == Bounce(Traced(rays, offsetColors, coefColors), c, lib)
  {
    var minToi, obstacleColors, obstacleNormals := SearchObstacles(c, rays, lib);
    var pois := Add(rays.origins, Scale(rays.dirs, minToi));
    var reflectionDirs := Sub(rays.dirs, Scale(Scale(obstacleNormals, Dot(rays.dirs, obstacleNormals)), SplatReals(2.0)));
    rays' := Rays(pois, reflectionDirs);
    offsetColors' := LaneAssign.AddAssign(offsetColors, Hadamard(coefColors, obstacleColors));
    coefColors' := LaneAssign.HadamardAssign(coefColors, Splat(0.5, 0.5, 0.5));
  }

  /** `FixedScene`: the sphere's centre, splatted over the lanes. */
  datatype FixedScene = FixedScene(spherePos: Points)

  /** The centre lane 0 holds. */
  function Centre(scene: FixedScene): Point
  {
    NewPoint(scene.spherePos.xs[0], scene.spherePos.ys[0], scene.spherePos.zs[0])
  }

  /** Every lane holds the same centre. */
  predicate Uniform(scene: FixedScene)
  {
    scene.spherePos == FromSingle(Centre(scene))
  }

  /** `FixedScene::new`: the sphere at (−1, 0.7, −4) in every lane. */
  function NewScene(): (scene: FixedScene)
    ensures Uniform(scene) && Centre(scene) == NewPoint(-1.0, 0.7, -4.0)
  {
    FixedScene(Splat(-1.0, 0.7, -4.0))
  }

  /** `rays_colors`: exactly `depth` passes, then coef *= white and offset += coef. */
  method RaysColors(scene: FixedScene, rays: Rays, depth: nat, lib: Libm) returns (colors: Points)
    requires Uniform(scene)
    ensures colors == SceneColors(Centre(scene), rays, depth, lib)
  {
    var c := Centre(scene);
    var offsetColors := Splat(0.0, 0.0, 0.0);
    var coefColors := Splat(1.0, 1.0, 1.0);
    var baseColors := Splat(1.0, 1.0, 1.0);
    var current := rays;
    for k := 0 to depth
      invariant Traced(current, offsetColors, coefColors) == Bounced(Start(rays), c, k, lib)
    {
      current, offsetColors, coefColors := BounceOnce(c, current, offsetColors, coefColors, lib);
    }
    coefColors := LaneAssign.HadamardAssign(coefColors, baseColors);
    offsetColors := LaneAssign.AddAssign(offsetColors, coefColors);
    colors := offsetColors;
  }
}
