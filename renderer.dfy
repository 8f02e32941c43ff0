/**
 * The frame renderer (src/render/renderer.rs).  The frame buffer is cut
 * into chunks of LANES consecutive pixels; chunk n covers columns
 * x·LANES .. x·LANES + LANES − 1 of row y, where y = n / lanes_per_line and
 * x = n % lanes_per_line.  Each pixel is the average of
 * `samples_per_pixel` traced rays, aimed at fixed sub-pixel positions
 * spread over the unit square, gamma-corrected by a square root, clamped
 * into [0, 1] and scaled by `coef` into bytes.
 */
module Renderer {
  import opened Math
  import opened SceneApi
  import opened Tracer
  import opened RenderCamera

  // ---------------------------------------------------------------------
  // Sub-pixel sample positions
  // ---------------------------------------------------------------------

  /** The point p lies strictly inside the rectangle with corners `tl` (top left) and `br` (bottom right). */
  ghost predicate Inside(p: (real, real), tl: (real, real), br: (real, real))
  {
    tl.0 < p.0 < br.0 && br.1 < p.1 < tl.1
  }

  /** The centre of the rectangle (tl, br). */
  function Centre(tl: (real, real), br: (real, real)): (real, real)
  {
    ((tl.0 + br.0) / 2.0, (tl.1 + br.1) / 2.0)
  }

  /**
   * The split of `spread_samples`, corrected to what is evidently intended
   * (`SpreadSamples` below keeps the code as written): the bottom-right
   * corner of the first half and the top-left corner of the second.  A
   * rectangle wider than high is cut at left + width/2, any other at
   * top − height/2 (the y axis grows upwards, so the height is
   * top − bottom); both halves lie inside the rectangle.
   */
  function Halves(tl: (real, real), br: (real, real)): (h: ((real, real), (real, real)))
    ensures tl.0 < br.0 && br.1 < tl.1 ==>
      tl.0 < h.0.0 <= br.0 && br.1 <= h.0.1 < tl.1 && tl.0 <= h.1.0 < br.0 && br.1 < h.1.1 <= tl.1
  {
    var width := br.0 - tl.0;
    var height := tl.1 - br.1;
    if width > height then ((tl.0 + width / 2.0, br.1), (tl.0 + width / 2.0, tl.1))
    else ((br.0, tl.1 - height / 2.0), (tl.0, tl.1 - height / 2.0))
  }

  /**
   * Sample k of n spread over (tl, br): one sample is the centre; of more,
   * the first ⌊n/2⌋ are spread over the first half and the rest over the
   * second.
   */
  function SampleAt(tl: (real, real), br: (real, real), n: nat, k: nat): (real, real)
    requires k < n
    decreases n
  {
    if n == 1 then Centre(tl, br)
    else if k < n / 2 then SampleAt(tl, Halves(tl, br).0, n / 2, k)
    else SampleAt(Halves(tl, br).1, br, n - n / 2, k - n / 2)
  }

  /** Every sample lies strictly inside the rectangle it was spread over. */
  lemma {:induction false} SampleInside(tl: (real, real), br: (real, real), n: nat, k: nat)
    requires k < n && tl.0 < br.0 && br.1 < tl.1
    ensures Inside(SampleAt(tl, br, n, k), tl, br)
    decreases n
  {
    if n > 1 {
      var (brA, tlB) := Halves(tl, br);
      if k < n / 2 {
        SampleInside(tl, brA, n / 2, k);
      } else {
        SampleInside(tlB, br, n - n / 2, k - n / 2);
      }
    }
  }

  /**
   * With the corrected split one sample sits at the centre of the pixel
   * and two split the unit square into a top and a bottom half.
   */
  lemma SamplesOfUnitSquare()
    ensures SampleAt((0.0, 1.0), (1.0, 0.0), 1, 0) == (0.5, 0.5)
    ensures SampleAt((0.0, 1.0), (1.0, 0.0), 2, 0) == (0.5, 0.75)
    ensures SampleAt((0.0, 1.0), (1.0, 0.0), 2, 1) == (0.5, 0.25)
  {
    assert Halves((0.0, 1.0), (1.0, 0.0)) == ((1.0, 0.5), (0.0, 0.5));
  }

  /**
   * The split of `spread_samples` as written: the cut of a height split is
   * placed at top + height/2, which lies above the rectangle.
   */
  function HalvesAsWritten(tl: (real, real), br: (real, real)): ((real, real), (real, real))
  {
    var width := br.0 - tl.0;
    var height := tl.1 - br.1;
    if width > height then ((tl.0 + width / 2.0, br.1), (tl.0 + width / 2.0, tl.1))
    else ((br.0, tl.1 + height / 2.0), (tl.0, tl.1 + height / 2.0))
  }

  /**
   * `spread_samples` as written.  What it does keep: a split in y never
   * changes the x range, and a split in x halves it, so every sample's x
   * coordinate lies strictly between the left and right edges.
   */
  function SampleAtAsWritten(tl: (real, real), br: (real, real), n: nat, k: nat): (r: (real, real))
    requires k < n
    ensures tl.0 < br.0 ==> tl.0 < r.0 < br.0
    decreases n
  {
    if n == 1 then Centre(tl, br)
    else if k < n / 2 then SampleAtAsWritten(tl, HalvesAsWritten(tl, br).0, n / 2, k)
    else SampleAtAsWritten(HalvesAsWritten(tl, br).1, br, n - n / 2, k - n / 2)
  }

  /**
   * With two samples per pixel the code as written puts the first sample
   * outside the pixel, at y = 1.25, where the corrected split puts it at
   * y = 0.75.
   */
  lemma SamplesAsWrittenEscape()
    ensures SampleAtAsWritten((0.0, 1.0), (1.0, 0.0), 2, 0) == (0.5, 1.25)
    ensures SampleAtAsWritten((0.0, 1.0), (1.0, 0.0), 2, 1) == (0.5, 0.75)
    ensures !Inside(SampleAtAsWritten((0.0, 1.0), (1.0, 0.0), 2, 0), (0.0, 1.0), (1.0, 0.0))
    ensures SampleAtAsWritten((0.0, 1.0), (1.0, 0.0), 2, 0) != SampleAt((0.0, 1.0), (1.0, 0.0), 2, 0)
  {
    assert HalvesAsWritten((0.0, 1.0), (1.0, 0.0)) == ((1.0, 1.5), (0.0, 1.5));
    SamplesOfUnitSquare();
  }

  /** A single sample, as written and corrected alike, is the centre of the rectangle. */
  lemma SingleSampleIsCentre(tl: (real, real), br: (real, real))
    ensures SampleAtAsWritten(tl, br, 1, 0) == SampleAt(tl, br, 1, 0) == Centre(tl, br)
  {
  }

  /**
   * `spread_samples`, as written, on the slice [lo, hi) of the two delta buffers:
   * entry lo + k becomes the splatted coordinates of sample k of the
   * hi − lo samples spread over (tl, br); nothing outside the slice
   * changes.
   */
  method SpreadSamples(tl: (real, real), br: (real, real), xDeltas: array<Reals>, yDeltas: array<Reals>, lo: nat, hi: nat)
    requires lo < hi <= xDeltas.Length && hi <= yDeltas.Length && xDeltas != yDeltas
    modifies xDeltas, yDeltas
    ensures forall k :: lo <= k < hi ==>
      xDeltas[k] == SplatReals(SampleAtAsWritten(tl, br, hi - lo, k - lo).0)
      && yDeltas[k] == SplatReals(SampleAtAsWritten(tl, br, hi - lo, k - lo).1)
    ensures forall k :: 0 <= k < xDeltas.Length && !(lo <= k < hi) ==> xDeltas[k] == old(xDeltas[k])
    ensures forall k :: 0 <= k < yDeltas.Length && !(lo <= k < hi) ==> yDeltas[k] == old(yDeltas[k])
    decreases hi - lo
  {
    var samplesLeft := hi - lo;
    if samplesLeft == 1 {
      xDeltas[lo] := SplatReals((tl.0 + br.0) / 2.0);
      yDeltas[lo] := SplatReals((tl.1 + br.1) / 2.0);
    } else {
      var samplesCountA := samplesLeft / 2;
      var mid := lo + samplesCountA;
      var width := br.0 - tl.0;
      var height := tl.1 - br.1;
      var brA, tlB;
      if width > height {
        brA, tlB := (tl.0 + width / 2.0, br.1), (tl.0 + width / 2.0, tl.1);
      } else {
        brA, tlB := (br.0, tl.1 + height / 2.0), (tl.0, tl.1 + height / 2.0);
      }
      assert (brA, tlB) == HalvesAsWritten(tl, br);
      SpreadSamples(tl, brA, xDeltas, yDeltas, lo, mid);
      SpreadSamples(tlB, br, xDeltas, yDeltas, mid, hi);
    }
  }

  // ---------------------------------------------------------------------
  // Pixels
  // ---------------------------------------------------------------------

  /** One pixel of the frame buffer, `[u8; 4]` in RGBA order. */
  datatype Rgba = Rgba(r: byte, g: byte, b: byte, a: byte)

  /** The byte of a colour component in [0, 1] scaled by `coef`: `(c * 255 * coef) as u8`. */
  function ChannelByte(c: real, coef: real): byte
  {
    AsU8((c * 255.0) * coef)
  }

  /** Lane i of `colors` written into `pixel`: red, green and blue are replaced, alpha is kept. */
  function Shade(pixel: Rgba, colors: Points, i: nat, coef: real): (r: Rgba)
    requires i < LANES
    ensures r.a == pixel.a
    ensures r.r == ChannelByte(colors.xs[i], coef) && r.g == ChannelByte(colors.ys[i], coef) && r.b == ChannelByte(colors.zs[i], coef)
  {
    pixel.(r := ChannelByte(colors.xs[i], coef), g := ChannelByte(colors.ys[i], coef), b := ChannelByte(colors.zs[i], coef))
  }

  /** For a component in [0, 1] and a fade coefficient in [0, 1] the cast never saturates: the byte is ⌊255·c·coef⌋. */
  lemma ChannelByteExact(c: real, coef: real)
    requires 0.0 <= c <= 1.0 && 0.0 <= coef <= 1.0
    ensures ChannelByte(c, coef) as int == ((c * 255.0) * coef).Floor
    ensures c == 1.0 && coef == 1.0 ==> ChannelByte(c, coef) == 255
    ensures coef == 0.0 ==> ChannelByte(c, coef) == 0
  {
    var v := c * 255.0;
    assert 0.0 <= v <= 255.0;
    assert 0.0 <= v * coef <= v by {
      assert v * coef <= v * 1.0;
    }
  }

  /** Chunk n, lane i is pixel k = n·LANES + i of the buffer. */
  lemma ChunkIndex(n: nat, i: nat)
    requires i < LANES
    ensures (n * LANES + i) / LANES == n && (n * LANES + i) % LANES == i
  {
  }

  /**
   * When the frame width is a multiple of LANES, chunk n lane i is the
   * pixel in column x·LANES + i of row y, where y = n / lanes_per_line and
   * x = n % lanes_per_line: its index in the row-major buffer is
   * y·width + x·LANES + i.
   */
  lemma {:induction false} ChunkPixel(n: nat, i: nat, lanesPerLine: nat)
    requires i < LANES && lanesPerLine > 0
    ensures n * LANES + i == (n / lanesPerLine) * (lanesPerLine * LANES) + (n % lanesPerLine) * LANES + i
    ensures (n % lanesPerLine) * LANES + i < lanesPerLine * LANES
  {
    var y, x := n / lanesPerLine, n % lanesPerLine;
    assert n == y * lanesPerLine + x;
    assert n * LANES == y * (lanesPerLine * LANES) + x * LANES by {
      assert n * LANES == (y * lanesPerLine + x) * LANES;
    }
    assert x * LANES + i < (x + 1) * LANES;
    assert (x + 1) * LANES <= lanesPerLine * LANES by {
      assert x + 1 <= lanesPerLine;
    }
  }

  /**
   * `after` is `before` with the first n chunks shaded from `colors`
   * (pixel k from lane k % LANES of chunk k / LANES) and the rest untouched.
   */
  ghost predicate ShadedPrefix(colors: seq<Points>, n: nat, coef: real, before: seq<Rgba>, after: seq<Rgba>)
  {
    |after| == |before| && n <= |colors| && |colors| * LANES <= |before|
    && (forall k :: 0 <= k < n * LANES ==> after[k] == Shade(before[k], colors[k / LANES], k % LANES, coef))
    && (forall k :: n * LANES <= k < |before| ==> after[k] == before[k])
  }

  /** Every complete chunk of the frame is shaded from `colors`; the trailing pixels are untouched. */
  ghost predicate ShadedFrame(colors: seq<Points>, coef: real, before: seq<Rgba>, after: seq<Rgba>)
  {
    |colors| == |before| / LANES && ShadedPrefix(colors, |colors|, coef, before, after)
  }

  /** `after` is `before` with the LANES pixels of chunk n shaded from `colors`. */
  ghost predicate ChunkShaded(n: nat, colors: Points, coef: real, before: seq<Rgba>, after: seq<Rgba>)
  {
    |after| == |before|
    && (forall k :: 0 <= k < |before| && n * LANES <= k < n * LANES + LANES ==>
          after[k] == Shade(before[k], colors, k - n * LANES, coef))
    && (forall k :: 0 <= k < |before| && !(n * LANES <= k < n * LANES + LANES) ==> after[k] == before[k])
  }

  /** The pixel loop of `render`'s closure: writes the colours of chunk n into its LANES pixels. */
  method ShadeChunk(buffer: array<Rgba>, n: nat, colors: Points, coef: real)
    requires n * LANES + LANES <= buffer.Length
    modifies buffer
    ensures ChunkShaded(n, colors, coef, old(buffer[..]), buffer[..])
  {
    for i := 0 to LANES
      invariant forall k :: 0 <= k < buffer.Length && n * LANES <= k < n * LANES + i ==>
        buffer[k] == Shade(old(buffer[k]), colors, k - n * LANES, coef)
      invariant forall k :: 0 <= k < buffer.Length && !(n * LANES <= k < n * LANES + i) ==> buffer[k] == old(buffer[k])
    {
      buffer[n * LANES + i] := Shade(buffer[n * LANES + i], colors, i, coef);
    }
  }

  /** Shading chunk n from colors[n] extends a shaded prefix of n chunks to one of n + 1. */
  lemma ShadedPrefixStep(colors: seq<Points>, n: nat, coef: real, before: seq<Rgba>, mid: seq<Rgba>, after: seq<Rgba>)
    requires ShadedPrefix(colors, n, coef, before, mid) && n < |colors|
    requires ChunkShaded(n, colors[n], coef, mid, after)
    ensures ShadedPrefix(colors, n + 1, coef, before, after)
  {
    forall k | 0 <= k < (n + 1) * LANES
      ensures after[k] == Shade(before[k], colors[k / LANES], k % LANES, coef)
    {
      if k >= n * LANES {
        ChunkIndex(n, k - n * LANES);
      }
    }
  }

  /** A point d ∈ (0, 1) into cell p of a line w cells long lies strictly inside that cell's share of [0, 1]. */
  lemma InsideCell(p: real, d: real, w: real)
    requires 0.0 <= p && 0.0 < d < 1.0 && p + 1.0 <= w
    ensures p / w < (p + d) / w < (p + 1.0) / w
    ensures 0.0 < (p + d) / w < 1.0
  {
    DivMonotone(p, p + d, w);
    DivMonotone(p + d, p + 1.0, w);
    DivMonotone(p + d, w, w);
    DivMonotone(0.0, p + d, w);
  }

  lemma DivMonotone(a: real, b: real, c: real)
    requires a < b && c > 0.0
    ensures a / c < b / c
  {
  }

  // ---------------------------------------------------------------------
  // The renderer
  // ---------------------------------------------------------------------

  const UNIT_TOP_LEFT: (real, real) := (0.0, 1.0)
  const UNIT_BOTTOM_RIGHT: (real, real) := (1.0, 0.0)

  class Renderer {
    const width: real
    const height: real
    const lanesPerLine: nat
    const samplesPerPixel: nat
    const maxDepth: nat
    const xDeltas: seq<Reals>
    const yDeltas: seq<Reals>

    /** One x and one y delta vector per sample. */
    predicate Shaped()
    {
      samplesPerPixel >= 1 && |xDeltas| == samplesPerPixel && |yDeltas| == samplesPerPixel
    }

    /** The deltas are the sample positions `spread_samples` computes, as written, over the unit pixel. */
    ghost predicate Valid()
    {
      Shaped()
      && (forall k :: 0 <= k < samplesPerPixel ==>
            xDeltas[k] == SplatReals(SampleAtAsWritten(UNIT_TOP_LEFT, UNIT_BOTTOM_RIGHT, samplesPerPixel, k).0)
            && yDeltas[k] == SplatReals(SampleAtAsWritten(UNIT_TOP_LEFT, UNIT_BOTTOM_RIGHT, samplesPerPixel, k).1))
    }

    /**
     * `Renderer::new` for a frame of `frameWidth` × `frameHeight` pixels
     * (both `u16`).  The source recurses without end in `spread_samples`
     * when there are no samples, so at least one is required.
     */
    constructor (frameWidth: nat, frameHeight: nat, spp: nat, depth: nat)
      requires frameWidth < 0x1_0000 && frameHeight < 0x1_0000 && spp >= 1
      ensures Valid()
      ensures width == frameWidth as real && height == frameHeight as real
      ensures lanesPerLine == frameWidth / LANES && samplesPerPixel == spp && maxDepth == depth
    {
      var xs := new Reals[spp](_ => ZEROS);
      var ys := new Reals[spp](_ => ZEROS);
      SpreadSamples(UNIT_TOP_LEFT, UNIT_BOTTOM_RIGHT, xs, ys, 0, spp);
      width := frameWidth as real;
      height := frameHeight as real;
      lanesPerLine := frameWidth / LANES;
      samplesPerPixel := spp;
      maxDepth := depth;
      xDeltas := xs[..];
      yDeltas := ys[..];
    }

    /**
     * Every x delta lies strictly inside (0, 1); the y delta does too when
     * there is one sample per pixel, as in the game, where it is the
     * centre 0.5.  With two or more samples the first y delta is 1.25
     * (SamplesAsWrittenEscape), outside the pixel.
     */
    lemma DeltasInUnitSquare(k: nat, i: nat)
      requires Valid() && k < samplesPerPixel && i < LANES
      ensures 0.0 < xDeltas[k][i] < 1.0
      ensures samplesPerPixel == 1 ==> yDeltas[k][i] == 0.5
    {
      assert xDeltas[k][i] == SampleAtAsWritten(UNIT_TOP_LEFT, UNIT_BOTTOM_RIGHT, samplesPerPixel, k).0;
    }

    /** The view-port x coordinates of sample s in column chunk x: ((x·LANES + i) + δx) / width. */
    function XOffsets(x: nat, s: nat): (r: Reals)
      requires Shaped() && s < samplesPerPixel && width != 0.0
      ensures forall i :: 0 <= i < LANES ==> r[i] == ((x * LANES + i) as real + xDeltas[s][i]) / width
    {
      seq(LANES, i requires 0 <= i < LANES => ((x * LANES + i) as real + xDeltas[s][i]) / width)
    }

    /** The view-port y coordinates of sample s in row y: (y + δy) / height. */
    function YOffsets(y: nat, s: nat): (r: Reals)
      requires Shaped() && s < samplesPerPixel && height != 0.0
      ensures forall i :: 0 <= i < LANES ==> r[i] == (y as real + yDeltas[s][i]) / height
    {
      seq(LANES, i requires 0 <= i < LANES => (y as real + yDeltas[s][i]) / height)
    }

    /**
     * A sample of pixel (x·LANES + i, y) hits the view port strictly inside
     * that pixel's column, and, with one sample per pixel, strictly inside
     * its row too, so for a pixel of the frame its view-port coordinates lie
     * strictly inside (0, 1).
     */
    lemma OffsetsInPixel(x: nat, y: nat, s: nat, i: nat)
      requires Valid() && s < samplesPerPixel && i < LANES && width > 0.0 && height > 0.0
      requires (x * LANES + i + 1) as real <= width && (y + 1) as real <= height
      ensures (x * LANES + i) as real / width < XOffsets(x, s)[i] < ((x * LANES + i) as real + 1.0) / width
      ensures 0.0 < XOffsets(x, s)[i] < 1.0
      ensures samplesPerPixel == 1 ==> y as real / height < YOffsets(y, s)[i] < (y as real + 1.0) / height
      ensures samplesPerPixel == 1 ==> 0.0 < YOffsets(y, s)[i] < 1.0
    {
      DeltasInUnitSquare(s, i);
      InsideCell((x * LANES + i) as real, xDeltas[s][i], width);
      if samplesPerPixel == 1 {
        InsideCell(y as real, yDeltas[s][i], height);
      }
    }

    /** The traced colours of sample s of chunk (x, y). */
    function SampleColors(scene: Scene, view: View, y: nat, x: nat, s: nat, lib: Libm): Points
      requires Shaped() && s < samplesPerPixel && width != 0.0 && height != 0.0
      requires ValidLayout(scene.layout) && maxDepth >= 1
    {
      Trace(scene, ViewRays(view, XOffsets(x, s), YOffsets(y, s)), maxDepth, lib)
    }

    /** The traced colours of chunk (x, y) sample by sample (black past the last sample). */
    function Sampler(scene: Scene, view: View, y: nat, x: nat, lib: Libm): nat -> Points
      requires Shaped() && width != 0.0 && height != 0.0
      requires ValidLayout(scene.layout) && maxDepth >= 1
    {
      (s: nat) => if s < samplesPerPixel then SampleColors(scene, view, y, x, s, lib) else Splat(0.0, 0.0, 0.0)
    }

    /** The sum of the traced colours of the first k samples of chunk (x, y). */
    function SampleSum(scene: Scene, view: View, y: nat, x: nat, k: nat, lib: Libm): Points
      requires Shaped() && k <= samplesPerPixel && width != 0.0 && height != 0.0
      requires ValidLayout(scene.layout) && maxDepth >= 1
    {
      SumUpTo(Sampler(scene, view, y, x, lib), k)
    }

    /** The displayed colours of chunk n: the sample average, gamma-corrected by a square root and clamped into [0, 1]. */
    function ChunkColors(scene: Scene, camera: Camera, n: nat, lib: Libm): (c: Points)
      requires Shaped() && width != 0.0 && height != 0.0 && lanesPerLine > 0
      requires ValidLayout(scene.layout) && maxDepth >= 1
      reads camera
      ensures InUnitCube(c)
    {
      var sum := SampleSum(scene, camera.CurrentView(), n / lanesPerLine, n % lanesPerLine, samplesPerPixel, lib);
      Normalize(SqrtPoints(DivBy(sum, SplatReals(samplesPerPixel as real)), lib))
    }

    /** The displayed colours of the first `chunks` chunks, in chunk order. */
    function FrameColors(scene: Scene, camera: Camera, chunks: nat, lib: Libm): (s: seq<Points>)
      requires Shaped() && ValidLayout(scene.layout) && maxDepth >= 1
      requires chunks > 0 ==> lanesPerLine > 0 && width != 0.0 && height != 0.0
      reads camera
      ensures |s| == chunks
    {
      seq(chunks, m requires 0 <= m < chunks reads camera => ChunkColors(scene, camera, m, lib))
    }

    /** The pixel buffer after `render`: chunk pixels shaded from the chunk's colours, trailing pixels untouched. */
    ghost predicate Rendered(scene: Scene, camera: Camera, coef: real, before: seq<Rgba>, after: seq<Rgba>, lib: Libm)
      requires Shaped() && ValidLayout(scene.layout) && maxDepth >= 1
      requires |before| >= LANES ==> lanesPerLine > 0 && width != 0.0 && height != 0.0
      reads camera
    {
      ShadedFrame(FrameColors(scene, camera, |before| / LANES, lib), coef, before, after)
    }

    /**
     * `render`: every complete chunk of LANES pixels gets the shaded colours
     * of its rays; the chunks are independent (the parallel iteration of
     * the source is modelled sequentially).  `n / lanes_per_line` panics when
     * the frame is narrower than LANES, and a zero height would make every
     * y offset infinite, so both are excluded when there is a chunk.
     */
    method Render(scene: Scene, camera: Camera, coef: real, buffer: array<Rgba>, lib: Libm)
      requires Shaped() && ValidLayout(scene.layout) && maxDepth >= 1
      requires buffer.Length >= LANES ==> lanesPerLine > 0 && width != 0.0 && height != 0.0
      modifies buffer
      ensures Rendered(scene, camera, coef, old(buffer[..]), buffer[..], lib)
    {
      ghost var before := buffer[..];
      var chunks := buffer.Length / LANES;
      ghost var colors := FrameColors(scene, camera, chunks, lib);
      for n := 0 to chunks
        invariant ShadedPrefix(colors, n, coef, before, buffer[..])
      {
        ghost var mid := buffer[..];
        var pixelsColors := TraceChunk(scene, camera, n, lib);
        ShadeChunk(buffer, n, pixelsColors, coef);
        ShadedPrefixStep(colors, n, coef, before, mid, buffer[..]);
      }
    }

    /**
     * The body of `render`'s closure up to the pixel writes: the colours
     * of chunk n, traced sample by sample, averaged, gamma-corrected and
     * clamped.
     */
    method TraceChunk(scene: Scene, camera: Camera, n: nat, lib: Libm) returns (pixelsColors: Points)
      requires Shaped() && width != 0.0 && height != 0.0 && lanesPerLine > 0
      requires ValidLayout(scene.layout) && maxDepth >= 1
      ensures pixelsColors == ChunkColors(scene, camera, n, lib)
    {
      var y := n / lanesPerLine;
      var x := n % lanesPerLine;
      var view := camera.CurrentView();
      pixelsColors := SumSamples(scene, view, y, x, lib, Sampler(scene, view, y, x, lib));
      pixelsColors := DivBy(pixelsColors, SplatReals(samplesPerPixel as real));
      pixelsColors := Normalize(SqrtPoints(pixelsColors, lib));
    }

    /**
     * The sample loop of `render`: the traced colours of every sample of
     * chunk (x, y), summed in sample order.  `sample` names the colours of
     * each sample for the specification only.
     */
    method SumSamples(scene: Scene, view: View, y: nat, x: nat, lib: Libm, ghost sample: nat -> Points) returns (sum: Points)
      requires Shaped() && width != 0.0 && height != 0.0
      requires ValidLayout(scene.layout) && maxDepth >= 1
      requires forall s: nat {:trigger SampleColors(scene, view, y, x, s, lib)} :: s < samplesPerPixel ==>
                 sample(s) == SampleColors(scene, view, y, x, s, lib)
      ensures sum == SumUpTo(sample, samplesPerPixel)
    {
      sum := Splat(0.0, 0.0, 0.0);
      for s := 0 to samplesPerPixel
        invariant sum == SumUpTo(sample, s)
      {
        sum := AddSample(scene, view, y, x, s, sum, lib, sample);
      }
    }

    /** One iteration of the sample loop: adds the traced colours of sample s of chunk (x, y) to the sum of the earlier ones. */
    method AddSample(scene: Scene, view: View, y: nat, x: nat, s: nat, sum: Points, lib: Libm, ghost sample: nat -> Points)
        returns (sum': Points)
      requires Shaped() && s < samplesPerPixel && width != 0.0 && height != 0.0
      requires ValidLayout(scene.layout) && maxDepth >= 1
      requires sample(s) == SampleColors(scene, view, y, x, s, lib)
      requires sum == SumUpTo(sample, s)
      ensures sum' == SumUpTo(sample, s + 1)
    {
      var xOffsets := XOffsets(x, s);
      var yOffsets := YOffsets(y, s);
      var rays := ViewRays(view, xOffsets, yOffsets);
      var colors;
      ghost var reflections;
      colors, reflections := TraceRays(scene, rays, maxDepth, lib);
      sum' := Add(sum, colors);
    }
  }
}
