/**
 * The renderer of the first, scalar tracer (src/render.rs).  It draws one
 * x and one y jitter value per sample, then walks the frame column by
 * column and, in each column, row by row; every pixel is shaded from the
 * average of `samples_per_pixel` ray colours and written with
 * `put_pixel`.  The scene is an `impl Scene` whose `ray_color` is not part
 * of this model: it is the parameter `rayColor`.  The image is an
 * `array2` indexed [column, row], as `put_pixel(x, y)`.
 */
module ScalarRender {
  import opened Math
  import ScalarCamera
  import Colors
  import BatchRender

  /** `scene.ray_color(ray, max_depth)`. */
  type RayColor = (ScalarCamera.Ray, nat) -> Colors.Color

  const Black := Colors.Color(0.0, 0.0, 0.0)

  // ---------------------------------------------------------------------
  // The jitter
  // ---------------------------------------------------------------------

  /** The x deltas: the first of the two draws of every sample. */
  function XJitter(draws: seq<real>, spp: nat): (d: seq<real>)
    requires |draws| == 2 * spp
    ensures |d| == spp
  {
    seq(spp, s requires 0 <= s < spp => draws[2 * s])
  }

  /** The y deltas: the second of the two draws of every sample. */
  function YJitter(draws: seq<real>, spp: nat): (d: seq<real>)
    requires |draws| == 2 * spp
    ensures |d| == spp
  {
    seq(spp, s requires 0 <= s < spp => draws[2 * s + 1])
  }

  /** The draw stream that yields xs and ys alternately. */
  function Interleave(xs: seq<real>, ys: seq<real>): (d: seq<real>)
    requires |xs| == |ys|
    ensures |d| == 2 * |xs|
  {
    if |xs| == 0 then [] else Interleave(xs[..|xs| - 1], ys[..|ys| - 1]) + [xs[|xs| - 1], ys[|ys| - 1]]
  }

  /** Reading sample s of an interleaved stream gives back xs[s] and ys[s]. */
  lemma {:induction false} InterleaveAt(xs: seq<real>, ys: seq<real>, s: nat)
    requires |xs| == |ys| && s < |xs|
    ensures Interleave(xs, ys)[2 * s] == xs[s] && Interleave(xs, ys)[2 * s + 1] == ys[s]
  {
    var n := |xs| - 1;
    if s < n {
      InterleaveAt(xs[..n], ys[..n], s);
    }
  }

  /** The jitter uses every draw exactly once and in order: the deltas interleaved are the draws. */
  lemma JitterSplitsDraws(draws: seq<real>, spp: nat)
    requires |draws| == 2 * spp
    ensures Interleave(XJitter(draws, spp), YJitter(draws, spp)) == draws
  {
    var xs, ys := XJitter(draws, spp), YJitter(draws, spp);
    var d := Interleave(xs, ys);
    forall k | 0 <= k < |draws|
      ensures d[k] == draws[k]
    {
      InterleaveAt(xs, ys, k / 2);
      assert k == 2 * (k / 2) + k % 2;
    }
  }

  /** The jitter loop of `render`: x then y delta, from the draw stream, sample by sample. */
  method DrawDeltas(draws: seq<real>, spp: nat) returns (xDeltas: seq<real>, yDeltas: seq<real>)
    requires |draws| == 2 * spp
    ensures xDeltas == XJitter(draws, spp) && yDeltas == YJitter(draws, spp)
  {
    var xs := new real[spp](_ => 0.0);
    var ys := new real[spp](_ => 0.0);
    var next := 0;
    for sample := 0 to spp
      invariant next == 2 * sample
      invariant forall s :: 0 <= s < sample ==> xs[s] == draws[2 * s] && ys[s] == draws[2 * s + 1]
    {
      xs[sample] := draws[next];
      ys[sample] := draws[next + 1];
      next := next + 2;
    }
    xDeltas := xs[..];
    yDeltas := ys[..];
  }

  // ---------------------------------------------------------------------
  // The specification of a frame
  // ---------------------------------------------------------------------

  /** What `render` is called with, besides the scene, the camera and the buffer. */
  datatype Setup = Setup(width: nat, height: nat, xDeltas: seq<real>, yDeltas: seq<real>, maxDepth: nat)

  /** One x and one y delta per sample. */
  predicate Shaped(f: Setup)
  {
    |f.xDeltas| == |f.yDeltas|
  }

  /** The ray of sample s of pixel (x, y): through view-port point ((x + δx)/width, (y + δy)/height). */
  function SampleRay(f: Setup, cam: ScalarCamera.Camera, x: nat, y: nat, s: nat): ScalarCamera.Ray
    requires Shaped(f) && s < |f.xDeltas| && x < f.width && y < f.height
  {
    ScalarCamera.PixelRay(cam, (x as real + f.xDeltas[s]) / f.width as real, (y as real + f.yDeltas[s]) / f.height as real)
  }

  /** The colours of the first k samples of pixel (x, y), summed in sample order. */
  function SampleSum(f: Setup, cam: ScalarCamera.Camera, x: nat, y: nat, k: nat, rayColor: RayColor): Colors.Color
    requires Shaped(f) && k <= |f.xDeltas| && x < f.width && y < f.height
  {
    if k == 0 then Black
    else Colors.Sum(SampleSum(f, cam, x, y, k - 1, rayColor), rayColor(SampleRay(f, cam, x, y, k - 1), f.maxDepth))
  }

  /**
   * The shaded colour of pixel (x, y): the sum times 1/spp, square-rooted
   * and clamped.  Without samples the product is 0·∞, a NaN that the
   * clamp keeps and the saturating cast turns into 0, so the pixel is black.
   */
  function PixelColor(f: Setup, cam: ScalarCamera.Camera, x: nat, y: nat, rayColor: RayColor, lib: Libm): Colors.Color
    requires Shaped(f) && x < f.width && y < f.height
  {
    var spp := |f.xDeltas|;
    if spp == 0 then Black
    else Colors.Normalize(Colors.Sqrt(Colors.Scale(SampleSum(f, cam, x, y, spp, rayColor), 1.0 / spp as real), lib))
  }

  /** What `render` puts at (x, y). */
  function Target(f: Setup, cam: ScalarCamera.Camera, x: nat, y: nat, rayColor: RayColor, lib: Libm): Colors.Rgb
    requires Shaped(f) && x < f.width && y < f.height
  {
    Colors.IntoRgb(PixelColor(f, cam, x, y, rayColor, lib))
  }

  // ---------------------------------------------------------------------
  // Properties of a frame
  // ---------------------------------------------------------------------

  /**
   * Every byte of a pixel is ⌊255·c⌋ of its channel c of the shaded
   * colour, which lies in [0, 1]; without samples the pixel is black.
   */
  lemma TargetBytes(f: Setup, cam: ScalarCamera.Camera, x: nat, y: nat, rayColor: RayColor, lib: Libm)
    requires Shaped(f) && x < f.width && y < f.height
    ensures var c, p := PixelColor(f, cam, x, y, rayColor, lib), Target(f, cam, x, y, rayColor, lib);
            Colors.InUnit(c)
            && p.r as int == (c.c0 * 255.0).Floor && p.g as int == (c.c1 * 255.0).Floor && p.b as int == (c.c2 * 255.0).Floor
    ensures |f.xDeltas| == 0 ==> Target(f, cam, x, y, rayColor, lib) == Colors.Rgb(0, 0, 0)
  {
    var c := PixelColor(f, cam, x, y, rayColor, lib);
    assert Colors.InUnit(c);
  }

  /** Every sample ray of pixel (x, y) passes through the view-port cell of that pixel. */
  lemma SampleInPixel(f: Setup, cam: ScalarCamera.Camera, x: nat, y: nat, s: nat)
    requires Shaped(f) && s < |f.xDeltas| && x < f.width && y < f.height
    requires 0.0 <= f.xDeltas[s] < 1.0 && 0.0 <= f.yDeltas[s] < 1.0
    ensures var u, v := (x as real + f.xDeltas[s]) / f.width as real, (y as real + f.yDeltas[s]) / f.height as real;
            SampleRay(f, cam, x, y, s) == ScalarCamera.PixelRay(cam, u, v)
            && x as real / f.width as real <= u < (x + 1) as real / f.width as real
            && y as real / f.height as real <= v < (y + 1) as real / f.height as real
  {
    BatchRender.JitterInCell(x as real, f.xDeltas[s], f.width as real);
    BatchRender.JitterInCell(y as real, f.yDeltas[s], f.height as real);
  }

  /** Every ray colour of the scene lies in [0, 1]. */
  ghost predicate UnitScene(rayColor: RayColor)
  {
    forall r, d :: Colors.InUnit(rayColor(r, d))
  }

  /** Every channel of c lies in [0, hi]. */
  ghost predicate UpTo(c: Colors.Color, hi: real)
  {
    0.0 <= c.c0 <= hi && 0.0 <= c.c1 <= hi && 0.0 <= c.c2 <= hi
  }

  /** With colours in [0, 1], the sum of k samples lies in [0, k]. */
  lemma {:induction false} SampleSumBounds(f: Setup, cam: ScalarCamera.Camera, x: nat, y: nat, k: nat, rayColor: RayColor)
    requires Shaped(f) && k <= |f.xDeltas| && x < f.width && y < f.height && UnitScene(rayColor)
    ensures UpTo(SampleSum(f, cam, x, y, k, rayColor), k as real)
  {
    if k > 0 {
      SampleSumBounds(f, cam, x, y, k - 1, rayColor);
      var c := rayColor(SampleRay(f, cam, x, y, k - 1), f.maxDepth);
      assert Colors.InUnit(c);
    }
  }

  /** A value in [0, n] times 1/n, n > 0, lies in [0, 1]. */
  lemma ScaleBounds(v: real, n: real)
    requires 0.0 < n && 0.0 <= v <= n
    ensures 0.0 <= 1.0 / n * v <= 1.0
  {
    assert 1.0 / n * v == v / n;
  }

  /** A colour in [0, n] times 1/n, n > 0, lies in [0, 1]. */
  lemma AverageInUnit(sum: Colors.Color, n: real)
    requires 0.0 < n && UpTo(sum, n)
    ensures Colors.InUnit(Colors.Scale(sum, 1.0 / n))
  {
    ScaleBounds(sum.c0, n);
    ScaleBounds(sum.c1, n);
    ScaleBounds(sum.c2, n);
  }

  /** The exact square root of a colour in [0, 1] lies in [0, 1]. */
  lemma SqrtInUnit(c: Colors.Color, lib: Libm)
    requires IsSqrt(lib) && Colors.InUnit(c)
    ensures Colors.InUnit(Colors.Sqrt(c, lib))
  {
    SqrtAtMostOne(lib, c.c0);
    SqrtAtMostOne(lib, c.c1);
    SqrtAtMostOne(lib, c.c2);
  }

  /**
   * With colours in [0, 1], an exact square root and at least one
   * sample, the clamp of `normalize` never changes a colour: the shaded
   * colour is the square root of the average itself, and lies in [0, 1].
   */
  lemma NormalizeIsIdentity(f: Setup, cam: ScalarCamera.Camera, x: nat, y: nat, rayColor: RayColor, lib: Libm)
    requires Shaped(f) && |f.xDeltas| > 0 && x < f.width && y < f.height && UnitScene(rayColor) && IsSqrt(lib)
    ensures var n := |f.xDeltas|;
            var average := Colors.Scale(SampleSum(f, cam, x, y, n, rayColor), 1.0 / n as real);
            Colors.InUnit(average) && PixelColor(f, cam, x, y, rayColor, lib) == Colors.Sqrt(average, lib)
  {
    var n := |f.xDeltas|;
    var sum := SampleSum(f, cam, x, y, n, rayColor);
    SampleSumBounds(f, cam, x, y, n, rayColor);
    AverageInUnit(sum, n as real);
    SqrtInUnit(Colors.Scale(sum, 1.0 / n as real), lib);
  }

  /** Adding c once more to k − 1 copies of c gives k copies. */
  lemma ScaleStep(c: Colors.Color, k: nat)
    requires k > 0
    ensures Colors.Sum(Colors.Scale(c, (k - 1) as real), c) == Colors.Scale(c, k as real)
  {
    var j := (k - 1) as real;
    assert j * c.c0 + c.c0 == (j + 1.0) * c.c0;
    assert j * c.c1 + c.c1 == (j + 1.0) * c.c1;
    assert j * c.c2 + c.c2 == (j + 1.0) * c.c2;
  }

  /** The sum of k samples of one and the same colour c is k·c. */
  lemma {:induction false} SampleSumOfConstant(f: Setup, cam: ScalarCamera.Camera, x: nat, y: nat, k: nat, rayColor: RayColor, c: Colors.Color)
    requires Shaped(f) && k <= |f.xDeltas| && x < f.width && y < f.height
    requires forall r, d :: rayColor(r, d) == c
    ensures SampleSum(f, cam, x, y, k, rayColor) == Colors.Scale(c, k as real)
  {
    if k > 0 {
      SampleSumOfConstant(f, cam, x, y, k - 1, rayColor, c);
      ScaleStep(c, k);
    }
  }

  /** k copies of c times 1/k, k > 0, is c. */
  lemma ScaleBack(c: Colors.Color, k: real)
    requires 0.0 < k
    ensures Colors.Scale(Colors.Scale(c, k), 1.0 / k) == c
  {
    assert 1.0 / k * (k * c.c0) == c.c0;
    assert 1.0 / k * (k * c.c1) == c.c1;
    assert 1.0 / k * (k * c.c2) == c.c2;
  }

  /**
   * A scene of one colour c in [0, 1] shades every pixel with the square
   * root of c, whatever the number of samples (at least one) and the jitter.
   */
  lemma ConstantScene(f: Setup, cam: ScalarCamera.Camera, x: nat, y: nat, rayColor: RayColor, lib: Libm, c: Colors.Color)
    requires Shaped(f) && |f.xDeltas| > 0 && x < f.width && y < f.height && IsSqrt(lib)
    requires Colors.InUnit(c) && forall r, d :: rayColor(r, d) == c
    ensures PixelColor(f, cam, x, y, rayColor, lib) == Colors.Sqrt(c, lib)
  {
    var n := |f.xDeltas|;
    SampleSumOfConstant(f, cam, x, y, n, rayColor, c);
    ScaleBack(c, n as real);
    SqrtInUnit(c, lib);
  }

  // ---------------------------------------------------------------------
  // The renderer
  // ---------------------------------------------------------------------

  /** `render`: the jitter loop, then every pixel of the frame, column by column. */
  method Render(cam: ScalarCamera.Camera, buffer: array2<Colors.Rgb>, spp: nat, maxDepth: nat, draws: seq<real>,
                rayColor: RayColor, lib: Libm) returns (f: Setup)
    requires |draws| == 2 * spp
    modifies buffer
    ensures f == Setup(buffer.Length0, buffer.Length1, XJitter(draws, spp), YJitter(draws, spp), maxDepth) && Shaped(f)
    ensures forall px, py :: 0 <= px < buffer.Length0 && 0 <= py < buffer.Length1 ==>
      buffer[px, py] == Target(f, cam, px, py, rayColor, lib)
  {
    var width, height := buffer.Length0, buffer.Length1;
    var xDeltas, yDeltas := DrawDeltas(draws, spp);
    f := Setup(width, height, xDeltas, yDeltas, maxDepth);
    for x := 0 to width
      invariant forall px, py :: 0 <= px < width && 0 <= py < height ==>
        buffer[px, py] == if px < x then Target(f, cam, px, py, rayColor, lib) else old(buffer[px, py])
    {
      for y := 0 to height
        invariant forall px, py :: 0 <= px < width && 0 <= py < height ==>
          buffer[px, py] == if px < x || (px == x && py < y) then Target(f, cam, px, py, rayColor, lib) else old(buffer[px, py])
      {
        var pixel := TracePixel(f, cam, x, y, rayColor, lib);
        buffer[x, y] := pixel;
      }
    }
  }

  /** The body of the inner loop up to `put_pixel`: the colour of pixel (x, y), as bytes. */
  method TracePixel(f: Setup, cam: ScalarCamera.Camera, x: nat, y: nat, rayColor: RayColor, lib: Libm) returns (pixel: Colors.Rgb)
    requires Shaped(f) && x < f.width && y < f.height
    ensures pixel == Target(f, cam, x, y, rayColor, lib)
  {
    var spp := |f.xDeltas|;
    var pixelColor := Black;
    for sample := 0 to spp
      invariant pixelColor == SampleSum(f, cam, x, y, sample, rayColor)
    {
      var ray := ScalarCamera.PixelRay(cam, (x as real + f.xDeltas[sample]) / f.width as real,
                                       (y as real + f.yDeltas[sample]) / f.height as real);
      pixelColor := Colors.SumAssign(pixelColor, rayColor(ray, f.maxDepth));
    }
    if spp == 0 {
      pixelColor := Black;
    } else {
      pixelColor := Colors.Normalize(Colors.Sqrt(Colors.Scale(pixelColor, 1.0 / spp as real), lib));
    }
    pixel := Colors.IntoRgb(pixelColor);
  }
}
