/**
 * The scalar colour of the first renderer (src/color.rs): three `f32`
 * channels, clamped into [0, 1] before they are turned into bytes.
 */
module Colors {
  import opened Math

  /** `Color([f32; 3])`: channels 0, 1 and 2. */
  datatype Color = Color(c0: real, c1: real, c2: real)

  /** One pixel of an `image::RgbImage`. */
  datatype Rgb = Rgb(r: byte, g: byte, b: byte)

  /** Every channel lies in [0, 1]. */
  predicate InUnit(c: Color)
  {
    0.0 <= c.c0 <= 1.0 && 0.0 <= c.c1 <= 1.0 && 0.0 <= c.c2 <= 1.0
  }

  /** `normalize`: every channel clamped into [0, 1]; channels already there are kept. */
  function Normalize(c: Color): (r: Color)
    ensures InUnit(r)
    ensures 0.0 <= c.c0 <= 1.0 ==> r.c0 == c.c0
    ensures 0.0 <= c.c1 <= 1.0 ==> r.c1 == c.c1
    ensures 0.0 <= c.c2 <= 1.0 ==> r.c2 == c.c2
    ensures InUnit(c) ==> r == c
  {
    Color(Clamp(c.c0, 0.0, 1.0), Clamp(c.c1, 0.0, 1.0), Clamp(c.c2, 0.0, 1.0))
  }

  /** Normalising twice is normalising once. */
  lemma NormalizeIdempotent(c: Color)
    ensures Normalize(Normalize(c)) == Normalize(c)
  {
  }

  /** The byte of one channel: `clamp(c * 255, 0, 255) as u8`. */
  function ChannelByte(c: real): (b: byte)
    ensures 0.0 <= c <= 1.0 ==> b as int == (c * 255.0).Floor
    ensures c <= 0.0 ==> b == 0
    ensures 1.0 <= c ==> b == 255
  {
    AsU8(Clamp(c * 255.0, 0.0, 255.0))
  }

  /** `into_rgb`: the three channel bytes, in channel order. */
  function IntoRgb(c: Color): (p: Rgb)
    ensures p.r == ChannelByte(c.c0) && p.g == ChannelByte(c.c1) && p.b == ChannelByte(c.c2)
  {
    Rgb(ChannelByte(c.c0), ChannelByte(c.c1), ChannelByte(c.c2))
  }

  /** Black becomes (0, 0, 0) and white (255, 255, 255). */
  lemma IntoRgbExtremes()
    ensures IntoRgb(Color(0.0, 0.0, 0.0)) == Rgb(0, 0, 0)
    ensures IntoRgb(Color(1.0, 1.0, 1.0)) == Rgb(255, 255, 255)
  {
  }

  /** `r()`: channel 0. */
  function R(c: Color): (x: real)
    ensures x == c.c0
  {
    c.c0
  }

  /** `g()` as written: it returns channel 0 rather than channel 1. */
  function GAsWritten(c: Color): real
  {
    c.c0
  }

  /** `b()` as written: it returns channel 0 rather than channel 2. */
  function BAsWritten(c: Color): real
  {
    c.c0
  }

  /** `g()` as intended: channel 1. */
  function G(c: Color): (x: real)
    ensures x == c.c1
  {
    c.c1
  }

  /** `b()` as intended: channel 2. */
  function B(c: Color): (x: real)
    ensures x == c.c2
  {
    c.c2
  }

  /** On pure green and pure blue the getters as written report 0. */
  lemma GetterAsWrittenMismatch()
    ensures GAsWritten(Color(0.0, 1.0, 0.0)) == 0.0 && G(Color(0.0, 1.0, 0.0)) == 1.0
    ensures BAsWritten(Color(0.0, 0.0, 1.0)) == 0.0 && B(Color(0.0, 0.0, 1.0)) == 1.0
  {
  }

  /** The intended getters take a colour apart: `Color::new(c.r(), c.g(), c.b())` is `c`. */
  lemma GettersRebuild(c: Color)
    ensures Color(R(c), G(c), B(c)) == c
  {
  }

  /** `Mul<f32>`: every channel scaled by `k`. */
  function Scale(c: Color, k: real): (r: Color)
    ensures r.c0 == k * c.c0 && r.c1 == k * c.c1 && r.c2 == k * c.c2
  {
    Color(k * c.c0, k * c.c1, k * c.c2)
  }

  /** `Mul<Color>`: channel-wise product. */
  function Hadamard(c: Color, d: Color): (r: Color)
    ensures r.c0 == d.c0 * c.c0 && r.c1 == d.c1 * c.c1 && r.c2 == d.c2 * c.c2
  {
    Color(d.c0 * c.c0, d.c1 * c.c1, d.c2 * c.c2)
  }

  /** `Add`: channel-wise sum. */
  function Sum(c: Color, d: Color): (r: Color)
    ensures r.c0 == c.c0 + d.c0 && r.c1 == c.c1 + d.c1 && r.c2 == c.c2 + d.c2
  {
    Color(c.c0 + d.c0, c.c1 + d.c1, c.c2 + d.c2)
  }

  /** `*= f32`, channel by channel; it agrees with `c * k`. */
  method ScaleAssign(c: Color, k: real) returns (c': Color)
    ensures c' == Scale(c, k)
  {
    c' := c;
    c' := c'.(c0 := c'.c0 * k);
    c' := c'.(c1 := c'.c1 * k);
    c' := c'.(c2 := c'.c2 * k);
  }

  /** `*= Color`, channel by channel; it agrees with `c * d`. */
  method HadamardAssign(c: Color, d: Color) returns (c': Color)
    ensures c' == Hadamard(c, d)
  {
    c' := c;
    c' := c'.(c0 := c'.c0 * d.c0);
    c' := c'.(c1 := c'.c1 * d.c1);
    c' := c'.(c2 := c'.c2 * d.c2);
  }

  /** `+=`, channel by channel; it agrees with `c + d`. */
  method SumAssign(c: Color, d: Color) returns (c': Color)
    ensures c' == Sum(c, d)
  {
    c' := c;
    c' := c'.(c0 := c'.c0 + d.c0);
    c' := c'.(c1 := c'.c1 + d.c1);
    c' := c'.(c2 := c'.c2 + d.c2);
  }

  /** `blend`: the average of two colours, clamped into [0, 1]. */
  function Blend(c: Color, d: Color): (r: Color)
    ensures InUnit(r)
    ensures r.c0 == Clamp((c.c0 + d.c0) * 0.5, 0.0, 1.0)
    ensures r.c1 == Clamp((c.c1 + d.c1) * 0.5, 0.0, 1.0)
    ensures r.c2 == Clamp((c.c2 + d.c2) * 0.5, 0.0, 1.0)
  {
    Normalize(Scale(Sum(c, d), 0.5))
  }

  /** Blending is symmetric, and blending a colour in [0, 1] with itself gives it back. */
  lemma BlendProperties(c: Color, d: Color)
    ensures Blend(c, d) == Blend(d, c)
    ensures InUnit(c) ==> Blend(c, c) == c
  {
  }

  /**
   * `blend_with_coef`: `normalize(c·coef + d·(1 − coef))`.  The source
   * asserts `coef ≤ 1`.  Coefficient 1 gives c and 0 gives d, for colours
   * in [0, 1].
   */
  function BlendWithCoef(c: Color, d: Color, coef: real): (r: Color)
    requires coef <= 1.0
    ensures InUnit(r)
    ensures InUnit(c) && coef == 1.0 ==> r == c
    ensures InUnit(d) && coef == 0.0 ==> r == d
  {
    Normalize(Sum(Scale(c, coef), Scale(d, 1.0 - coef)))
  }

  /** `sqrt`: the square root of every channel. */
  function Sqrt(c: Color, lib: Libm): (r: Color)
    ensures r.c0 == lib.sqrt(c.c0) && r.c1 == lib.sqrt(c.c1) && r.c2 == lib.sqrt(c.c2)
  {
    Color(lib.sqrt(c.c0), lib.sqrt(c.c1), lib.sqrt(c.c2))
  }
}
