/**
 * The renderer of the SIMD tracer (src/simd/render.rs).  It walks the
 * frame row by row and, in each row, group by group of LANES columns;
 * each group is shaded from the average of `samples_per_pixel` traced
 * batches and written with `put_pixel`.  The sub-pixel jitter and the
 * offsets are those of the batch renderer (the code is the same); the
 * trailing `width % LANES` columns of every row are never written.  The
 * image is an `array2` indexed [column, row], as `put_pixel(x, y)`.
 */
module SimdRender {
  import opened Math
  import SimdCamera
  import SimdScene
  import Colors
  import Renderer
  import BatchRender
  import LaneAssign

  /** The column groups of a row: `width / LANES`. */
  function Groups(width: nat): nat
  {
    width / LANES
  }

  /** The scene's colours of sample s of group x in row y. */
  function SampleColors(f: BatchRender.Setup, c: Point, cam: SimdCamera.Camera, y: nat, x: nat, s: nat, lib: Libm): Points
    requires BatchRender.Shaped(f) && s < |f.xDeltas| && f.width != 0 && f.height != 0
  {
    SimdScene.SceneColors(c, SimdCamera.PixelRays(cam, BatchRender.XOffsets(f, x, s), BatchRender.YOffsets(f, y, s)),
                          f.maxDepth, lib)
  }

  /** The samples of group x in row y, as a function of the sample number (black past the last sample). */
  function Sampler(f: BatchRender.Setup, c: Point, cam: SimdCamera.Camera, y: nat, x: nat, lib: Libm): nat -> Points
    requires BatchRender.Shaped(f) && f.width != 0 && f.height != 0
  {
    (s: nat) => if s < |f.xDeltas| then SampleColors(f, c, cam, y, x, s, lib) else Splat(0.0, 0.0, 0.0)
  }

  /** The sum of the scene's colours over the first k samples of group x in row y. */
  function SampleSum(f: BatchRender.Setup, c: Point, cam: SimdCamera.Camera, y: nat, x: nat, k: nat, lib: Libm): Points
    requires BatchRender.Shaped(f) && k <= |f.xDeltas| && f.width != 0 && f.height != 0
  {
    SumUpTo(Sampler(f, c, cam, y, x, lib), k)
  }

  /** The sample average of group x in row y. */
  function Average(f: BatchRender.Setup, c: Point, cam: SimdCamera.Camera, y: nat, x: nat, lib: Libm): Points
    requires BatchRender.Shaped(f) && |f.xDeltas| > 0 && f.width != 0 && f.height != 0
  {
    DivBy(SampleSum(f, c, cam, y, x, |f.xDeltas|, lib), SplatReals(|f.xDeltas| as real))
  }

  /**
   * The colours of group x in row y: the average, square-rooted and
   * clamped.  Without samples the average is 0/0, a NaN that the clamp
   * passes through and the saturating cast turns into 0, so the group is
   * black.
   */
  function GroupColors(f: BatchRender.Setup, c: Point, cam: SimdCamera.Camera, y: nat, x: nat, lib: Libm): Points
    requires BatchRender.Shaped(f) && f.width != 0 && f.height != 0
  {
    if |f.xDeltas| == 0 then Splat(0.0, 0.0, 0.0)
    else Normalize(SqrtPoints(Average(f, c, cam, y, x, lib), lib))
  }

  /** The pixel of lane i: `(c * 255.0) as u8` for each of the three channels. */
  function PixelOf(colors: Points, i: nat): (p: Colors.Rgb)
    requires i < LANES
  {
    Colors.Rgb(AsU8(colors.xs[i] * 255.0), AsU8(colors.ys[i] * 255.0), AsU8(colors.zs[i] * 255.0))
  }

  /** What `render` puts at column px of row y: lane px % LANES of group px / LANES. */
  function Target(f: BatchRender.Setup, c: Point, cam: SimdCamera.Camera, px: nat, y: nat, lib: Libm): Colors.Rgb
    requires BatchRender.Shaped(f) && f.width != 0 && f.height != 0
  {
    PixelOf(GroupColors(f, c, cam, y, px / LANES, lib), px % LANES)
  }

  // ---------------------------------------------------------------------
  // Normalisation is the identity here
  // ---------------------------------------------------------------------

  /** Every lane and channel of p lies in [lo, hi]. */
  ghost predicate Between(p: Points, lo: real, hi: real)
  {
    forall i :: 0 <= i < LANES ==>
      lo <= p.xs[i] <= hi && lo <= p.ys[i] <= hi && lo <= p.zs[i] <= hi
  }

  /** The scene's colours of one batch lie in [0.5^depth, 1]. */
  lemma SceneColorsBetween(c: Point, rays: Rays, depth: nat, lib: Libm)
    ensures Between(SimdScene.SceneColors(c, rays, depth, lib), SimdScene.Half(depth), 1.0)
  {
    SimdScene.SceneColorsInUnit(c, rays, depth, lib);
  }

  /** Adding q ∈ [h, 1] to p ∈ [lo, hi] gives a value in any [lo', hi'] around [lo + h, hi + 1]. */
  lemma AddBetween(p: Points, q: Points, lo: real, hi: real, h: real, lo': real, hi': real)
    requires Between(p, lo, hi) && Between(q, h, 1.0) && lo' <= lo + h && hi + 1.0 <= hi'
    ensures Between(Add(p, q), lo', hi')
  {
  }

  /** k·h written as a repeated sum, so that each step of an induction stays linear. */
  function RepeatedSum(k: nat, h: real): real
  {
    if k == 0 then 0.0 else RepeatedSum(k - 1, h) + h
  }

  /** The repeated sum is the product. */
  lemma {:induction false} RepeatedSumIsProduct(k: nat, h: real)
    ensures RepeatedSum(k, h) == k as real * h
  {
    if k > 0 {
      RepeatedSumIsProduct(k - 1, h);
      assert (k - 1) as real * h + h == k as real * h;
    }
  }

  /** A sum of k values each in [h, 1] lies in [k·h, k]. */
  lemma {:induction false} SumUpToBetween(sample: nat -> Points, k: nat, h: real)
    requires forall s: nat :: s < k ==> Between(sample(s), h, 1.0)
    ensures Between(SumUpTo(sample, k), RepeatedSum(k, h), k as real)
  {
    if k > 0 {
      SumUpToBetween(sample, k - 1, h);
      AddBetween(SumUpTo(sample, k - 1), sample(k - 1), RepeatedSum(k - 1, h), (k - 1) as real, h, RepeatedSum(k, h), k as real);
    }
  }

  /** One sample's colours lie in [0.5^depth, 1]. */
  lemma SampleBetween(f: BatchRender.Setup, c: Point, cam: SimdCamera.Camera, y: nat, x: nat, s: nat, lib: Libm)
    requires BatchRender.Shaped(f) && s < |f.xDeltas| && f.width != 0 && f.height != 0
    ensures Between(SampleColors(f, c, cam, y, x, s, lib), SimdScene.Half(f.maxDepth), 1.0)
  {
    SceneColorsBetween(c, SimdCamera.PixelRays(cam, BatchRender.XOffsets(f, x, s), BatchRender.YOffsets(f, y, s)), f.maxDepth, lib);
  }

  /** Every sample of a group lies in [0.5^depth, 1]. */
  lemma SamplerBetween(f: BatchRender.Setup, c: Point, cam: SimdCamera.Camera, y: nat, x: nat, lib: Libm)
    requires BatchRender.Shaped(f) && f.width != 0 && f.height != 0
    ensures forall s: nat :: s < |f.xDeltas| ==> Between(Sampler(f, c, cam, y, x, lib)(s), SimdScene.Half(f.maxDepth), 1.0)
  {
    forall s: nat | s < |f.xDeltas|
      ensures Between(Sampler(f, c, cam, y, x, lib)(s), SimdScene.Half(f.maxDepth), 1.0)
    {
      SampleBetween(f, c, cam, y, x, s, lib);
    }
  }

  /** The sum of all samples of a group lies in [n·0.5^depth, n] for n samples (RepeatedSum is the product, RepeatedSumIsProduct). */
  lemma SampleSumBounds(f: BatchRender.Setup, c: Point, cam: SimdCamera.Camera, y: nat, x: nat, lib: Libm)
    requires BatchRender.Shaped(f) && f.width != 0 && f.height != 0
    ensures Between(SampleSum(f, c, cam, y, x, |f.xDeltas|, lib), RepeatedSum(|f.xDeltas|, SimdScene.Half(f.maxDepth)), |f.xDeltas| as real)
  {
    var n, h := |f.xDeltas|, SimdScene.Half(f.maxDepth);
    var sum := SampleSum(f, c, cam, y, x, n, lib);
    SamplerBetween(f, c, cam, y, x, lib);
    SumUpToBetween(Sampler(f, c, cam, y, x, lib), n, h);
  }

  /** A value in [n·h, n] divided by n > 0 lies in [h, 1]. */
  lemma DivBounds(v: real, n: real, h: real, lo: real)
    requires 0.0 < n && lo == n * h && lo <= v <= n
    ensures h <= v / n <= 1.0
  {
    assert v / n * n == v;
  }

  /** Dividing every lane of p ∈ [n·h, n] by n > 0 gives a value in [h, 1]. */
  lemma DivByBetween(p: Points, n: real, h: real, lo: real)
    requires 0.0 < n && lo == n * h && Between(p, lo, n)
    ensures Between(DivBy(p, SplatReals(n)), h, 1.0)
  {
    var r := DivBy(p, SplatReals(n));
    forall i | 0 <= i < LANES
      ensures h <= r.xs[i] <= 1.0 && h <= r.ys[i] <= 1.0 && h <= r.zs[i] <= 1.0
    {
      DivBounds(p.xs[i], n, h, lo);
      DivBounds(p.ys[i], n, h, lo);
      DivBounds(p.zs[i], n, h, lo);
    }
  }

  /** The exact square root of every lane of p ∈ [lo, 1], lo ≥ 0, lies in [0, 1]. */
  lemma SqrtInUnit(p: Points, lo: real, lib: Libm)
    requires IsSqrt(lib) && 0.0 <= lo && Between(p, lo, 1.0)
    ensures InUnitCube(SqrtPoints(p, lib))
  {
    var r := SqrtPoints(p, lib);
    forall i | 0 <= i < LANES
      ensures 0.0 <= r.xs[i] <= 1.0 && 0.0 <= r.ys[i] <= 1.0 && 0.0 <= r.zs[i] <= 1.0
    {
      SqrtAtMostOne(lib, p.xs[i]);
      SqrtAtMostOne(lib, p.ys[i]);
      SqrtAtMostOne(lib, p.zs[i]);
    }
  }

  /**
   * With at least one sample, every lane of the average lies in
   * [0.5^depth, 1], so with an exact square root the clamp of `normalize`
   * never changes a colour: the shaded colours are the square-rooted
   * average itself.
   */
  lemma NormalizeIsIdentity(f: BatchRender.Setup, c: Point, cam: SimdCamera.Camera, y: nat, x: nat, lib: Libm)
    requires BatchRender.Shaped(f) && |f.xDeltas| > 0 && f.width != 0 && f.height != 0 && IsSqrt(lib)
    ensures Between(Average(f, c, cam, y, x, lib), SimdScene.Half(f.maxDepth), 1.0)
    ensures GroupColors(f, c, cam, y, x, lib) == SqrtPoints(Average(f, c, cam, y, x, lib), lib)
  {
    var n := |f.xDeltas|;
    SampleSumBounds(f, c, cam, y, x, lib);
    RepeatedSumIsProduct(n, SimdScene.Half(f.maxDepth));
    DivByBetween(SampleSum(f, c, cam, y, x, n, lib), n as real, SimdScene.Half(f.maxDepth), RepeatedSum(n, SimdScene.Half(f.maxDepth)));
    SqrtInUnit(Average(f, c, cam, y, x, lib), SimdScene.Half(f.maxDepth), lib);
  }

  /**
   * Every byte of pixel (px, y) is ⌊255·c⌋ of its lane's channel c of the
   * group colours, which lies in [0, 1]; without samples the pixel is black.
   */
  lemma TargetBytes(f: BatchRender.Setup, c: Point, cam: SimdCamera.Camera, px: nat, y: nat, lib: Libm)
    requires BatchRender.Shaped(f) && f.width != 0 && f.height != 0
    ensures var colors, i, p := GroupColors(f, c, cam, y, px / LANES, lib), px % LANES, Target(f, c, cam, px, y, lib);
            0.0 <= colors.xs[i] <= 1.0 && 0.0 <= colors.ys[i] <= 1.0 && 0.0 <= colors.zs[i] <= 1.0
            && p.r as int == (colors.xs[i] * 255.0).Floor && p.g as int == (colors.ys[i] * 255.0).Floor
            && p.b as int == (colors.zs[i] * 255.0).Floor
    ensures |f.xDeltas| == 0 ==> Target(f, c, cam, px, y, lib) == Colors.Rgb(0, 0, 0)
  {
    var colors := GroupColors(f, c, cam, y, px / LANES, lib);
    assert InUnitCube(colors);
  }

  // ---------------------------------------------------------------------
  // The renderer
  // ---------------------------------------------------------------------

  /**
   * `render`: pixel (px, y) of every row and of every column below
   * (width / LANES)·LANES gets lane px % LANES of group px / LANES of its
   * row; the trailing columns keep their old contents.
   */
  method Render(scene: SimdScene.FixedScene, cam: SimdCamera.Camera, buffer: array2<Colors.Rgb>,
                spp: nat, maxDepth: nat, draws: seq<real>, lib: Libm) returns (f: BatchRender.Setup)
    requires SimdScene.Uniform(scene) && |draws| == 2 * spp * LANES
    modifies buffer
    ensures f == BatchRender.Setup(buffer.Length0, buffer.Length1, BatchRender.XJitter(draws, spp), BatchRender.YJitter(draws, spp), maxDepth)
    ensures BatchRender.Shaped(f)
    ensures forall px, py :: 0 <= px < buffer.Length0 && 0 <= py < buffer.Length1 ==>
      buffer[px, py] == if px < Groups(buffer.Length0) * LANES then Target(f, SimdScene.Centre(scene), cam, px, py, lib)
                        else old(buffer[px, py])
  {
    var width, height := buffer.Length0, buffer.Length1;
    var xDeltas, yDeltas := BatchRender.DrawDeltas(draws, spp);
    f := BatchRender.Setup(width, height, xDeltas, yDeltas, maxDepth);
    var c := SimdScene.Centre(scene);
    for y := 0 to height
      invariant forall px, py :: 0 <= px < width && 0 <= py < height ==>
        buffer[px, py] == if px < Groups(width) * LANES && py < y then Target(f, c, cam, px, py, lib) else old(buffer[px, py])
    {
      RenderRow(f, scene, cam, buffer, y, lib);
    }
  }

  /** One pass of the row loop: every group of row y written, every other pixel kept. */
  method RenderRow(f: BatchRender.Setup, scene: SimdScene.FixedScene, cam: SimdCamera.Camera, buffer: array2<Colors.Rgb>, y: nat, lib: Libm)
    requires SimdScene.Uniform(scene) && BatchRender.Shaped(f)
    requires f.width == buffer.Length0 && f.height == buffer.Length1 && y < buffer.Length1
    modifies buffer
    ensures forall px, py :: 0 <= px < buffer.Length0 && 0 <= py < buffer.Length1 ==>
      buffer[px, py] == if px < Groups(f.width) * LANES && py == y then Target(f, SimdScene.Centre(scene), cam, px, py, lib)
                        else old(buffer[px, py])
  {
    var c := SimdScene.Centre(scene);
    for x := 0 to f.width / LANES
      invariant forall px, py :: 0 <= px < buffer.Length0 && 0 <= py < buffer.Length1 ==>
        buffer[px, py] == if px < x * LANES && py == y then Target(f, c, cam, px, py, lib) else old(buffer[px, py])
    {
      var pixelsColors := TraceGroup(f, scene, cam, y, x, lib);
      PutGroup(buffer, x, y, pixelsColors);
      forall px | x * LANES <= px < x * LANES + LANES
        ensures px / LANES == x && px % LANES == px - x * LANES
      {
        Renderer.ChunkIndex(x, px - x * LANES);
      }
    }
  }

  /** The pixel loop: lane i of `colors` put at column x·LANES + i of row y. */
  method PutGroup(buffer: array2<Colors.Rgb>, x: nat, y: nat, colors: Points)
    requires x * LANES + LANES <= buffer.Length0 && y < buffer.Length1
    modifies buffer
    ensures forall px, py :: 0 <= px < buffer.Length0 && 0 <= py < buffer.Length1 ==>
      buffer[px, py] == if x * LANES <= px < x * LANES + LANES && py == y then PixelOf(colors, px - x * LANES)
                        else old(buffer[px, py])
  {
    for i := 0 to LANES
      invariant forall px, py :: 0 <= px < buffer.Length0 && 0 <= py < buffer.Length1 ==>
        buffer[px, py] == if x * LANES <= px < x * LANES + i && py == y then PixelOf(colors, px - x * LANES)
                          else old(buffer[px, py])
    {
      buffer[x * LANES + i, y] := PixelOf(colors, i);
    }
  }

  /** The body of the group loop up to the pixel writes: the colours of group x in row y. */
  method TraceGroup(f: BatchRender.Setup, scene: SimdScene.FixedScene, cam: SimdCamera.Camera, y: nat, x: nat, lib: Libm)
      returns (pixelsColors: Points)
    requires SimdScene.Uniform(scene) && BatchRender.Shaped(f) && f.width != 0 && f.height != 0
    ensures pixelsColors == GroupColors(f, SimdScene.Centre(scene), cam, y, x, lib)
  {
    pixelsColors := Splat(0.0, 0.0, 0.0);
    for sample := 0 to |f.xDeltas|
      invariant pixelsColors == SampleSum(f, SimdScene.Centre(scene), cam, y, x, sample, lib)
    {
      var xOffsets := BatchRender.XOffsets(f, x, sample);
      var yOffsets := BatchRender.YOffsets(f, y, sample);
      var rays := SimdCamera.PixelRays(cam, xOffsets, yOffsets);
      var colors := SimdScene.RaysColors(scene, rays, f.maxDepth, lib);
      pixelsColors := LaneAssign.AddAssign(pixelsColors, colors);
    }
    if |f.xDeltas| == 0 {
      pixelsColors := Splat(0.0, 0.0, 0.0);
    } else {
      pixelsColors := DivBy(pixelsColors, SplatReals(|f.xDeltas| as real));
      pixelsColors := Normalize(SqrtPoints(pixelsColors, lib));
    }
  }
}
