/**
 * The batch renderer of the earlier tracer (src/render/render.rs).  Like
 * the frame renderer it cuts the buffer into chunks of LANES pixels and
 * shades every lane from the average of `samples_per_pixel` traced
 * batches, but the sub-pixel offsets are random draws (one per lane and
 * sample, x first), the scene is the fixed scene of render/scene.rs and
 * the bytes are written at full brightness.  The random draws are an
 * input: `draws` lists the values `unit_distr.sample` returns, in order.
 */
module BatchRender {
  import opened Math
  import opened RenderCamera
  import BatchScene
  import Renderer

  // ---------------------------------------------------------------------
  // The jitter
  // ---------------------------------------------------------------------

  /** The position in the draw sequence of the x draw (a = 0) or y draw (a = 1) of lane i of sample s. */
  function DrawIndex(s: nat, i: nat, a: nat): nat
  {
    2 * (s * LANES + i) + a
  }

  /** The x deltas the jitter loop builds from `draws`: sample s, lane i gets draw DrawIndex(s, i, 0). */
  function XJitter(draws: seq<real>, spp: nat): (d: seq<Reals>)
    requires |draws| == 2 * spp * LANES
    ensures |d| == spp
  {
    seq(spp, s requires 0 <= s < spp => seq(LANES, i requires 0 <= i < LANES => draws[DrawIndex(s, i, 0)]))
  }

  /** The y deltas the jitter loop builds from `draws`: sample s, lane i gets draw DrawIndex(s, i, 1). */
  function YJitter(draws: seq<real>, spp: nat): (d: seq<Reals>)
    requires |draws| == 2 * spp * LANES
    ensures |d| == spp
  {
    seq(spp, s requires 0 <= s < spp => seq(LANES, i requires 0 <= i < LANES => draws[DrawIndex(s, i, 1)]))
  }

  /**
   * Every draw is used exactly once: each position below 2·spp·LANES is
   * the draw of exactly one (sample, lane, axis), and distinct triples
   * use distinct draws.
   */
  lemma DrawsUsedOnce(spp: nat, k: nat, s: nat, i: nat, a: nat, s': nat, i': nat, a': nat)
    requires k < 2 * spp * LANES && i < LANES && a < 2 && i' < LANES && a' < 2
    ensures k / (2 * LANES) < spp && DrawIndex(k / (2 * LANES), (k / 2) % LANES, k % 2) == k
    ensures DrawIndex(s, i, a) == DrawIndex(s', i', a') ==> s == s' && i == i' && a == a'
  {
    assert k / 16 < spp;
    if DrawIndex(s, i, a) == DrawIndex(s', i', a') {
      assert a == a' by {
        assert DrawIndex(s, i, a) % 2 == a && DrawIndex(s', i', a') % 2 == a';
      }
      assert s * LANES + i == s' * LANES + i';
      assert s == s' && i == i' by {
        assert (s * LANES + i) / LANES == s && (s' * LANES + i') / LANES == s';
      }
    }
  }

  /** The jitter loop of `render` (lines 25-33): draws are consumed x then y, lane by lane, sample by sample. */
  method DrawDeltas(draws: seq<real>, spp: nat) returns (xDeltas: seq<Reals>, yDeltas: seq<Reals>)
    requires |draws| == 2 * spp * LANES
    ensures xDeltas == XJitter(draws, spp) && yDeltas == YJitter(draws, spp)
  {
    var xs := new Reals[spp](_ => SplatReals(0.0));
    var ys := new Reals[spp](_ => SplatReals(0.0));
    var next := 0;
    for sample := 0 to spp
      invariant next == 2 * sample * LANES
      invariant forall s :: 0 <= s < sample ==> xs[s] == XJitter(draws, spp)[s] && ys[s] == YJitter(draws, spp)[s]
    {
      for i := 0 to LANES
        invariant next == DrawIndex(sample, i, 0)
        invariant forall s :: 0 <= s < sample ==> xs[s] == XJitter(draws, spp)[s] && ys[s] == YJitter(draws, spp)[s]
        invariant forall j :: 0 <= j < i ==> xs[sample][j] == draws[DrawIndex(sample, j, 0)] && ys[sample][j] == draws[DrawIndex(sample, j, 1)]
      {
        xs[sample] := xs[sample][i := draws[next]];
        ys[sample] := ys[sample][i := draws[next + 1]];
        next := next + 2;
      }
      assert xs[sample] == XJitter(draws, spp)[sample];
      assert ys[sample] == YJitter(draws, spp)[sample];
    }
    xDeltas := xs[..];
    yDeltas := ys[..];
  }

  // ---------------------------------------------------------------------
  // The specification of a frame
  // ---------------------------------------------------------------------

  /** What `render` is called with, besides the scene, the camera and the buffer. */
  datatype Setup = Setup(width: nat, height: nat, xDeltas: seq<Reals>, yDeltas: seq<Reals>, maxDepth: nat)

  /** One x and one y delta batch per sample. */
  predicate Shaped(f: Setup)
  {
    |f.xDeltas| == |f.yDeltas|
  }

  /** The chunks of a row: `width / LANES`. */
  function LanesPerLine(f: Setup): nat
  {
    f.width / LANES
  }

  /** The view-port x coordinates of sample s in column group x. */
  function XOffsets(f: Setup, x: nat, s: nat): (r: Reals)
    requires Shaped(f) && s < |f.xDeltas| && f.width != 0
    ensures forall i :: 0 <= i < LANES ==> r[i] == ((x * LANES + i) as real + f.xDeltas[s][i]) / f.width as real
  {
    seq(LANES, i requires 0 <= i < LANES => ((x * LANES + i) as real + f.xDeltas[s][i]) / f.width as real)
  }

  /** The view-port y coordinates of sample s in row y. */
  function YOffsets(f: Setup, y: nat, s: nat): (r: Reals)
    requires Shaped(f) && s < |f.yDeltas| && f.height != 0
    ensures forall i :: 0 <= i < LANES ==> r[i] == (y as real + f.yDeltas[s][i]) / f.height as real
  {
    seq(LANES, i requires 0 <= i < LANES => (y as real + f.yDeltas[s][i]) / f.height as real)
  }

  /** The sum of the scene's colours over the first k samples of column group x in row y. */
  function SampleSum(f: Setup, c: Point, view: View, y: nat, x: nat, k: nat, lib: Libm): Points
    requires Shaped(f) && k <= |f.xDeltas| && f.width != 0 && f.height != 0
  {
    if k == 0 then Splat(0.0, 0.0, 0.0)
    else Add(SampleSum(f, c, view, y, x, k - 1, lib),
             BatchScene.SceneColors(c, ViewRays(view, XOffsets(f, x, k - 1), YOffsets(f, y, k - 1)), f.maxDepth, lib))
  }

  /**
   * The colours of chunk n: the sample average, square-rooted and clamped.
   * Without samples the average is 0/0, a NaN that the clamp passes
   * through and the saturating cast turns into 0, so the chunk is black.
   */
  function ChunkColors(f: Setup, c: Point, view: View, n: nat, lib: Libm): Points
    requires Shaped(f) && f.width >= LANES && f.height != 0
  {
    var spp := |f.xDeltas|;
    if spp == 0 then Splat(0.0, 0.0, 0.0)
    else
      var sum := SampleSum(f, c, view, n / LanesPerLine(f), n % LanesPerLine(f), spp, lib);
      Normalize(SqrtPoints(DivBy(sum, SplatReals(spp as real)), lib))
  }

  /** The colours of the first `chunks` chunks, in chunk order. */
  function FrameColors(f: Setup, c: Point, view: View, chunks: nat, lib: Libm): (s: seq<Points>)
    requires Shaped(f) && (chunks > 0 ==> f.width >= LANES && f.height != 0)
    ensures |s| == chunks
  {
    seq(chunks, m requires 0 <= m < chunks => ChunkColors(f, c, view, m, lib))
  }

  /** Every colour a chunk is shaded with is in [0, 1], so every byte written is ⌊255·c⌋ and never saturates. */
  lemma ChunkColorsBytes(f: Setup, c: Point, view: View, n: nat, lib: Libm, i: nat)
    requires Shaped(f) && f.width >= LANES && f.height != 0 && i < LANES
    ensures var p := ChunkColors(f, c, view, n, lib);
            0.0 <= p.xs[i] <= 1.0 && 0.0 <= p.ys[i] <= 1.0 && 0.0 <= p.zs[i] <= 1.0
            && Renderer.ChannelByte(p.xs[i], 1.0) as int == (p.xs[i] * 255.0).Floor
            && Renderer.ChannelByte(p.ys[i], 1.0) as int == (p.ys[i] * 255.0).Floor
            && Renderer.ChannelByte(p.zs[i], 1.0) as int == (p.zs[i] * 255.0).Floor
  {
    var p := ChunkColors(f, c, view, n, lib);
    assert InUnitCube(p);
    Renderer.ChannelByteExact(p.xs[i], 1.0);
    Renderer.ChannelByteExact(p.ys[i], 1.0);
    Renderer.ChannelByteExact(p.zs[i], 1.0);
  }

  /**
   * A draw d in [0, 1) added to pixel column (or row) p of a frame w
   * pixels across lands in that pixel's cell [p/w, (p + 1)/w) of the
   * view port.
   */
  lemma JitterInCell(p: real, d: real, w: real)
    requires 0.0 <= p && 0.0 <= d < 1.0 && p + 1.0 <= w
    ensures p / w <= (p + d) / w < (p + 1.0) / w
    ensures 0.0 <= (p + d) / w < 1.0
  {
    Renderer.DivMonotone(p + d, p + 1.0, w);
    assert p / w <= (p + d) / w by {
      if d > 0.0 {
        Renderer.DivMonotone(p, p + d, w);
      }
    }
    assert (p + 1.0) / w <= 1.0 by {
      if p + 1.0 < w {
        Renderer.DivMonotone(p + 1.0, w, w);
      }
    }
  }

  /**
   * Chunk n, lane i, samples the cell of pixel (x·LANES + i, y), where
   * y = n / lanes_per_line and x = n % lanes_per_line, whenever the draws
   * lie in [0, 1) and the row is inside the frame.
   */
  lemma ChunkSamplesItsPixel(f: Setup, n: nat, s: nat, i: nat)
    requires Shaped(f) && f.width >= LANES && f.height != 0 && s < |f.xDeltas| && i < LANES
    requires 0.0 <= f.xDeltas[s][i] < 1.0 && 0.0 <= f.yDeltas[s][i] < 1.0
    requires n / LanesPerLine(f) < f.height
    ensures var px := (n % LanesPerLine(f)) * LANES + i;
            px < f.width
            && px as real / f.width as real <= XOffsets(f, n % LanesPerLine(f), s)[i] < (px + 1) as real / f.width as real
    ensures var y := n / LanesPerLine(f);
            y as real / f.height as real <= YOffsets(f, y, s)[i] < (y + 1) as real / f.height as real
  {
    var lpl := LanesPerLine(f);
    var x := n % lpl;
    Renderer.ChunkPixel(n, i, lpl);
    assert lpl * LANES <= f.width;
    JitterInCell((x * LANES + i) as real, f.xDeltas[s][i], f.width as real);
    JitterInCell((n / lpl) as real, f.yDeltas[s][i], f.height as real);
  }

  // ---------------------------------------------------------------------
  // The renderer
  // ---------------------------------------------------------------------

  /**
   * `render`: the jitter loop, then every complete chunk of LANES pixels
   * shaded from its colours (the parallel iteration is modelled
   * sequentially).  Red, green and blue are written, alpha and the
   * trailing pixels are untouched.  `n / lanes_per_line` panics when the
   * frame is narrower than LANES, and a zero height would make every y
   * offset infinite, so both are excluded when there is a chunk.
   */
  method Render(scene: BatchScene.FixedScene, camera: Camera, buffer: array<Renderer.Rgba>,
                width: nat, height: nat, spp: nat, maxDepth: nat, draws: seq<real>, lib: Libm)
      returns (f: Setup)
    requires scene.Valid() && |draws| == 2 * spp * LANES
    requires buffer.Length >= LANES ==> width >= LANES && height != 0
    modifies buffer
    ensures f == Setup(width, height, XJitter(draws, spp), YJitter(draws, spp), maxDepth) && Shaped(f)
    ensures Renderer.ShadedFrame(FrameColors(f, scene.Centre(), camera.CurrentView(), buffer.Length / LANES, lib),
                                 1.0, old(buffer[..]), buffer[..])
  {
    var xDeltas, yDeltas := DrawDeltas(draws, spp);
    f := Setup(width, height, xDeltas, yDeltas, maxDepth);
    ghost var before := buffer[..];
    var chunks := buffer.Length / LANES;
    ghost var colors := FrameColors(f, scene.Centre(), camera.CurrentView(), chunks, lib);
    for n := 0 to chunks
      invariant Renderer.ShadedPrefix(colors, n, 1.0, before, buffer[..])
    {
      ghost var mid := buffer[..];
      var pixelsColors := TraceChunk(f, scene, camera, n, lib);
      Renderer.ShadeChunk(buffer, n, pixelsColors, 1.0);
      Renderer.ShadedPrefixStep(colors, n, 1.0, before, mid, buffer[..]);
    }
  }

  /** The closure of `render` up to the byte writes: the colours of chunk n. */
  method TraceChunk(f: Setup, scene: BatchScene.FixedScene, camera: Camera, n: nat, lib: Libm) returns (pixelsColors: Points)
    requires Shaped(f) && f.width >= LANES && f.height != 0 && scene.Valid()
    ensures pixelsColors == ChunkColors(f, scene.Centre(), camera.CurrentView(), n, lib)
  {
    var lanesPerLine := f.width / LANES;
    var y := n / lanesPerLine;
    var x := n % lanesPerLine;
    pixelsColors := SumSamples(f, scene, camera, y, x, lib);
    var spp := |f.xDeltas|;
    if spp == 0 {
      pixelsColors := Splat(0.0, 0.0, 0.0);
    } else {
      pixelsColors := DivBy(pixelsColors, SplatReals(spp as real));
      pixelsColors := Normalize(SqrtPoints(pixelsColors, lib));
    }
  }

  /** The sample loop of the closure: the scene's colours of every sample of column group x in row y, summed in sample order. */
  method SumSamples(f: Setup, scene: BatchScene.FixedScene, camera: Camera, y: nat, x: nat, lib: Libm) returns (sum: Points)
    requires Shaped(f) && f.width != 0 && f.height != 0 && scene.Valid()
    ensures sum == SampleSum(f, scene.Centre(), camera.CurrentView(), y, x, |f.xDeltas|, lib)
  {
    sum := Splat(0.0, 0.0, 0.0);
    for sample := 0 to |f.xDeltas|
      invariant sum == SampleSum(f, scene.Centre(), camera.CurrentView(), y, x, sample, lib)
    {
      sum := AddSample(f, scene, camera, y, x, sample, sum, lib);
    }
  }

  /** One pass of the sample loop: the rays of sample s, their colours added to the sum of the earlier samples. */
  method AddSample(f: Setup, scene: BatchScene.FixedScene, camera: Camera, y: nat, x: nat, s: nat, sum: Points, lib: Libm)
      returns (sum': Points)
    requires Shaped(f) && s < |f.xDeltas| && f.width != 0 && f.height != 0 && scene.Valid()
    requires sum == SampleSum(f, scene.Centre(), camera.CurrentView(), y, x, s, lib)
    ensures sum' == SampleSum(f, scene.Centre(), camera.CurrentView(), y, x, s + 1, lib)
  {
    var xOffsets := XOffsets(f, x, s);
    var yOffsets := YOffsets(f, y, s);
    var rays := camera.PixelRays(xOffsets, yOffsets);
    var colors;
    ghost var bounces;
    colors, bounces := scene.RaysColors(rays, f.maxDepth, lib);
    sum' := Add(sum, colors);
  }
}
