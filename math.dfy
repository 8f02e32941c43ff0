/**
 * Lane-batched vector math of the ray tracer (src/math.rs).
 *
 * A `Reals` is one lane batch: LANES independent reals, one per ray of a
 * group.  A `Points` packs three batches (xs, ys, zs) and stands for
 * positions, directions, normals and RGB colours alike.  Every operation
 * works lane by lane; the masked select `UpdateRealsIf` / `UpdateIf` is the
 * only way a lane's value is replaced, and it leaves unmasked lanes alone.
 *
 * The source's `f32` arithmetic is modelled on mathematical reals.
 * `sqrt` and `powf` are not definable on Dafny reals, so they are carried
 * by a `Libm` value; results that need `sqrt` to be exact take `IsSqrt`.
 * The compound-assignment operators (`p += q`, `p *= r`, ...) of the
 * source replace the whole `Copy` value, so `p += q` is `p := Add(p, q)`.
 */
module Math {

  const LANES: nat := 8

  /** One lane batch (`Reals = Simd<f32, LANES>`). */
  type Reals = s: seq<real> | |s| == LANES
    witness [0.0, 0.0, 0.0, 0.0, 0.0, 0.0, 0.0, 0.0]

  /** One lane mask (`Mask = SimdMask<i32, LANES>`). */
  type Mask = m: seq<bool> | |m| == LANES
    witness [false, false, false, false, false, false, false, false]

  /** Unsigned byte, the target of `as u8`. */
  newtype byte = x: int | 0 <= x < 256

  datatype Option<T> = None | Some(value: T)

  /** The square root and power functions the source takes from the platform. */
  datatype Libm = Libm(sqrt: real -> real, powf: (real, real) -> real)

  /** `lib.sqrt` is the exact non-negative square root on non-negative reals. */
  ghost predicate IsSqrt(lib: Libm)
  {
    forall x: real {:trigger lib.sqrt(x)} :: 0.0 <= x ==> 0.0 <= lib.sqrt(x) && lib.sqrt(x) * lib.sqrt(x) == x
  }

  /** An exact square root of a value in [0, 1] lies in [0, 1]. */
  lemma SqrtAtMostOne(lib: Libm, v: real)
    requires IsSqrt(lib) && 0.0 <= v <= 1.0
    ensures 0.0 <= lib.sqrt(v) <= 1.0
  {
    var s := lib.sqrt(v);
    assert 0.0 <= s && s * s == v;
  }

  // ---------------------------------------------------------------------
  // Scalars: clamping and the truncating casts
  // ---------------------------------------------------------------------

  /** `f32::clamp` / `simd_clamp`; the source panics when `lo > hi`. */
  function Clamp(x: real, lo: real, hi: real): (r: real)
    requires lo <= hi
    ensures lo <= r <= hi
    ensures lo <= x <= hi ==> r == x
    ensures x < lo ==> r == lo
    ensures hi < x ==> r == hi
  {
    if x < lo then lo else if hi < x then hi else x
  }

  /** Truncation toward zero of a real (the integer part of `x`). */
  function Trunc(x: real): (r: int)
    ensures 0.0 <= x ==> r as real <= x < r as real + 1.0
    ensures x < 0.0 ==> r as real - 1.0 < x <= r as real
  {
    if 0.0 <= x then x.Floor else -((-x).Floor)
  }

  const I32_MIN: int := -0x8000_0000
  const I32_MAX: int := 0x7FFF_FFFF

  /** `x as i32`: truncation toward zero, saturating at the bounds of `i32`. */
  function AsI32(x: real): (r: int)
    ensures I32_MIN <= r <= I32_MAX
    ensures I32_MIN <= Trunc(x) <= I32_MAX ==> r == Trunc(x)
  {
    var t := Trunc(x);
    if t < I32_MIN then I32_MIN else if I32_MAX < t then I32_MAX else t
  }

  /** `x as u8`: truncation toward zero, saturating at 0 and 255. */
  function AsU8(x: real): (r: byte)
    ensures 0.0 <= x < 256.0 ==> r as int == x.Floor
    ensures x < 0.0 ==> r == 0
    ensures 256.0 <= x ==> r == 255
  {
    var t := Trunc(x);
    if t < 0 then 0 else if 255 < t then 255 else t as byte
  }

  /** `b as usize as Real`. */
  function Indicator(b: bool): real
  {
    if b then 1.0 else 0.0
  }

  // ---------------------------------------------------------------------
  // Lane batches
  // ---------------------------------------------------------------------

  /** `splat_reals`: the same value in every lane. */
  function SplatReals(x: real): (r: Reals)
    ensures forall i :: 0 <= i < LANES ==> r[i] == x
  {
    seq(LANES, i => x)
  }

  /**
   * `update_reals_if(values, mask, update_with)`: `*values =
   * mask.select(update_with, *values)`.
   */
  function UpdateRealsIf(values: Reals, mask: Mask, updateWith: Reals): (r: Reals)
    ensures forall i :: 0 <= i < LANES && mask[i] ==> r[i] == updateWith[i]
    ensures forall i :: 0 <= i < LANES && !mask[i] ==> r[i] == values[i]
  {
    seq(LANES, i requires 0 <= i < LANES => if mask[i] then updateWith[i] else values[i])
  }

  function Plus(a: Reals, b: Reals): (r: Reals)
    ensures forall i :: 0 <= i < LANES ==> r[i] == a[i] + b[i]
  {
    seq(LANES, i requires 0 <= i < LANES => a[i] + b[i])
  }

  function Minus(a: Reals, b: Reals): (r: Reals)
    ensures forall i :: 0 <= i < LANES ==> r[i] == a[i] - b[i]
  {
    seq(LANES, i requires 0 <= i < LANES => a[i] - b[i])
  }

  function Times(a: Reals, b: Reals): (r: Reals)
    ensures forall i :: 0 <= i < LANES ==> r[i] == a[i] * b[i]
  {
    seq(LANES, i requires 0 <= i < LANES => a[i] * b[i])
  }

  /** Lane-wise division; a zero divisor (IEEE inf/NaN) is excluded. */
  function Quot(a: Reals, b: Reals): (r: Reals)
    requires forall i :: 0 <= i < LANES ==> b[i] != 0.0
    ensures forall i :: 0 <= i < LANES ==> r[i] == a[i] / b[i]
  {
    seq(LANES, i requires 0 <= i < LANES => a[i] / b[i])
  }

  /** `simd_max`. */
  function MaxReals(a: Reals, b: Reals): (r: Reals)
    ensures forall i :: 0 <= i < LANES ==> r[i] >= a[i] && r[i] >= b[i] && (r[i] == a[i] || r[i] == b[i])
  {
    seq(LANES, i requires 0 <= i < LANES => if a[i] < b[i] then b[i] else a[i])
  }

  /** `simd_min`. */
  function MinReals(a: Reals, b: Reals): (r: Reals)
    ensures forall i :: 0 <= i < LANES ==> r[i] <= a[i] && r[i] <= b[i] && (r[i] == a[i] || r[i] == b[i])
  {
    seq(LANES, i requires 0 <= i < LANES => if a[i] < b[i] then a[i] else b[i])
  }

  function SqrtReals(a: Reals, lib: Libm): (r: Reals)
    ensures forall i :: 0 <= i < LANES ==> r[i] == lib.sqrt(a[i])
  {
    seq(LANES, i requires 0 <= i < LANES => lib.sqrt(a[i]))
  }

  /** `simd_gt`. */
  function Gt(a: Reals, b: Reals): (m: Mask)
    ensures forall i :: 0 <= i < LANES ==> (m[i] <==> a[i] > b[i])
  {
    seq(LANES, i requires 0 <= i < LANES => a[i] > b[i])
  }

  /** `simd_lt`. */
  function Lt(a: Reals, b: Reals): (m: Mask)
    ensures forall i :: 0 <= i < LANES ==> (m[i] <==> a[i] < b[i])
  {
    seq(LANES, i requires 0 <= i < LANES => a[i] < b[i])
  }

  /** `simd_ge`. */
  function Ge(a: Reals, b: Reals): (m: Mask)
    ensures forall i :: 0 <= i < LANES ==> (m[i] <==> a[i] >= b[i])
  {
    seq(LANES, i requires 0 <= i < LANES => a[i] >= b[i])
  }

  /** `simd_eq`. */
  function Eq(a: Reals, b: Reals): (m: Mask)
    ensures forall i :: 0 <= i < LANES ==> (m[i] <==> a[i] == b[i])
  {
    seq(LANES, i requires 0 <= i < LANES => a[i] == b[i])
  }

  /** Mask conjunction `m & n`. */
  function And(m: Mask, n: Mask): (r: Mask)
    ensures forall i :: 0 <= i < LANES ==> (r[i] <==> m[i] && n[i])
  {
    seq(LANES, i requires 0 <= i < LANES => m[i] && n[i])
  }

  /** `mask.any()`. */
  function Any(m: Mask): (b: bool)
    ensures b <==> exists i :: 0 <= i < LANES && m[i]
  {
    true in m
  }

  /** `mask.all()`. */
  function All(m: Mask): (b: bool)
    ensures b <==> forall i :: 0 <= i < LANES ==> m[i]
  {
    !(false in m)
  }

  // ---------------------------------------------------------------------
  // Batched points, vectors and colours
  // ---------------------------------------------------------------------

  datatype Axis = XS | YS | ZS

  /** `Points` (also `Colors` and `Vectors`): one 3-vector per lane. */
  datatype Points = Points(xs: Reals, ys: Reals, zs: Reals)

  /** `Rays`: an origin and a direction per lane. */
  datatype Rays = Rays(origins: Points, dirs: Points)

  /** `Points::splat`: every lane holds (x, y, z). */
  function Splat(x: real, y: real, z: real): (r: Points)
    ensures forall i :: 0 <= i < LANES ==> r.xs[i] == x && r.ys[i] == y && r.zs[i] == z
  {
    Points(SplatReals(x), SplatReals(y), SplatReals(z))
  }

  /** `Points::from_single`: every lane holds the point's x, y and z. */
  function FromSingle(p: Point): (r: Points)
    ensures forall i :: 0 <= i < LANES ==> r.xs[i] == p.x && r.ys[i] == p.y && r.zs[i] == p.z
  {
    Splat(p.x, p.y, p.z)
  }

  /** `Points::get_axis`: the batch of the selected component. */
  function GetAxis(p: Points, axis: Axis): (r: Reals)
    ensures axis == XS ==> r == p.xs
    ensures axis == YS ==> r == p.ys
    ensures axis == ZS ==> r == p.zs
  {
    match axis
    case XS => p.xs
    case YS => p.ys
    case ZS => p.zs
  }

  /** `Points::sqrt`: the square root of every component of every lane. */
  function SqrtPoints(p: Points, lib: Libm): (r: Points)
    ensures forall i :: 0 <= i < LANES ==>
      r.xs[i] == lib.sqrt(p.xs[i]) && r.ys[i] == lib.sqrt(p.ys[i]) && r.zs[i] == lib.sqrt(p.zs[i])
  {
    Points(SqrtReals(p.xs, lib), SqrtReals(p.ys, lib), SqrtReals(p.zs, lib))
  }

  function ClampReals(a: Reals): (r: Reals)
    ensures forall i :: 0 <= i < LANES ==> r[i] == Clamp(a[i], 0.0, 1.0)
  {
    seq(LANES, i requires 0 <= i < LANES => Clamp(a[i], 0.0, 1.0))
  }

  /** Every component of every lane lies in [0, 1]. */
  ghost predicate InUnitCube(p: Points)
  {
    forall i :: 0 <= i < LANES ==>
      0.0 <= p.xs[i] <= 1.0 && 0.0 <= p.ys[i] <= 1.0 && 0.0 <= p.zs[i] <= 1.0
  }

  /**
   * `Points::normalize`: clamps every component of every lane into [0, 1]
   * and leaves components already there unchanged.
   */
  function Normalize(p: Points): (r: Points)
    ensures InUnitCube(r)
    ensures forall i :: 0 <= i < LANES && 0.0 <= p.xs[i] <= 1.0 ==> r.xs[i] == p.xs[i]
    ensures forall i :: 0 <= i < LANES && 0.0 <= p.ys[i] <= 1.0 ==> r.ys[i] == p.ys[i]
    ensures forall i :: 0 <= i < LANES && 0.0 <= p.zs[i] <= 1.0 ==> r.zs[i] == p.zs[i]
    ensures InUnitCube(p) ==> r == p
  {
    Points(ClampReals(p.xs), ClampReals(p.ys), ClampReals(p.zs))
  }

  /** Normalising twice is normalising once. */
  lemma NormalizeIdempotent(p: Points)
    ensures Normalize(Normalize(p)) == Normalize(p)
  {
  }

  /** `Points::dot`: the lane-wise dot product. */
  function Dot(p: Points, q: Points): (r: Reals)
    ensures forall i :: 0 <= i < LANES ==>
      r[i] == p.xs[i] * q.xs[i] + p.ys[i] * q.ys[i] + p.zs[i] * q.zs[i]
  {
    Plus(Plus(Times(p.xs, q.xs), Times(p.ys, q.ys)), Times(p.zs, q.zs))
  }

  /** The dot product is symmetric in its arguments. */
  lemma DotSymmetric(p: Points, q: Points)
    ensures Dot(p, q) == Dot(q, p)
  {
    assert forall i :: 0 <= i < LANES ==> Dot(p, q)[i] == Dot(q, p)[i];
  }

  /**
   * `Points::update_if`: one mask for all three components, so a lane's
   * x, y and z are replaced together or not at all.
   */
  function UpdateIf(p: Points, mask: Mask, updateWith: Points): (r: Points)
    ensures forall i :: 0 <= i < LANES && mask[i] ==>
      r.xs[i] == updateWith.xs[i] && r.ys[i] == updateWith.ys[i] && r.zs[i] == updateWith.zs[i]
    ensures forall i :: 0 <= i < LANES && !mask[i] ==>
      r.xs[i] == p.xs[i] && r.ys[i] == p.ys[i] && r.zs[i] == p.zs[i]
  {
    Points(UpdateRealsIf(p.xs, mask, updateWith.xs),
           UpdateRealsIf(p.ys, mask, updateWith.ys),
           UpdateRealsIf(p.zs, mask, updateWith.zs))
  }

  /** A mask with no lane set leaves a batch unchanged. */
  lemma UpdateIfNone(p: Points, mask: Mask, updateWith: Points)
    requires !Any(mask)
    ensures UpdateIf(p, mask, updateWith) == p
  {
    var r := UpdateIf(p, mask, updateWith);
    assert r.xs == p.xs && r.ys == p.ys && r.zs == p.zs;
  }

  /** `p + q`. */
  function Add(p: Points, q: Points): (r: Points)
    ensures forall i :: 0 <= i < LANES ==>
      r.xs[i] == p.xs[i] + q.xs[i] && r.ys[i] == p.ys[i] + q.ys[i] && r.zs[i] == p.zs[i] + q.zs[i]
  {
    Points(Plus(p.xs, q.xs), Plus(p.ys, q.ys), Plus(p.zs, q.zs))
  }

  /**
   * The sum of the first k values of `sample`, in order: the lane-wise
   * sum that the sample loops of the renderers accumulate.
   */
  function SumUpTo(sample: nat -> Points, k: nat): Points
  {
    if k == 0 then Splat(0.0, 0.0, 0.0) else Add(SumUpTo(sample, k - 1), sample(k - 1))
  }

  /** `p - q`. */
  function Sub(p: Points, q: Points): (r: Points)
    ensures forall i :: 0 <= i < LANES ==>
      r.xs[i] == p.xs[i] - q.xs[i] && r.ys[i] == p.ys[i] - q.ys[i] && r.zs[i] == p.zs[i] - q.zs[i]
  {
    Points(Minus(p.xs, q.xs), Minus(p.ys, q.ys), Minus(p.zs, q.zs))
  }

  /** `p * r` for a batch `r` (`Mul<Reals>`): lane i is scaled by `r[i]`. */
  function Scale(p: Points, s: Reals): (r: Points)
    ensures forall i :: 0 <= i < LANES ==>
      r.xs[i] == p.xs[i] * s[i] && r.ys[i] == p.ys[i] * s[i] && r.zs[i] == p.zs[i] * s[i]
  {
    Points(Times(p.xs, s), Times(p.ys, s), Times(p.zs, s))
  }

  /** `p * q` for batched points (`Mul<Points>`): component-wise product. */
  function Hadamard(p: Points, q: Points): (r: Points)
    ensures forall i :: 0 <= i < LANES ==>
      r.xs[i] == p.xs[i] * q.xs[i] && r.ys[i] == p.ys[i] * q.ys[i] && r.zs[i] == p.zs[i] * q.zs[i]
  {
    Points(Times(p.xs, q.xs), Times(p.ys, q.ys), Times(p.zs, q.zs))
  }

  /** `p / r` for a batch `r` without zero lanes (`Div<Reals>`). */
  function DivBy(p: Points, s: Reals): (r: Points)
    requires forall i :: 0 <= i < LANES ==> s[i] != 0.0
    ensures forall i :: 0 <= i < LANES ==>
      r.xs[i] == p.xs[i] / s[i] && r.ys[i] == p.ys[i] / s[i] && r.zs[i] == p.zs[i] / s[i]
  {
    Points(Quot(p.xs, s), Quot(p.ys, s), Quot(p.zs, s))
  }

  /** `p * x` for a scalar `x` (`Mul<Real>`). */
  function ScaleBy(p: Points, x: real): (r: Points)
    ensures forall i :: 0 <= i < LANES ==>
      r.xs[i] == p.xs[i] * x && r.ys[i] == p.ys[i] * x && r.zs[i] == p.zs[i] * x
  {
    Scale(p, SplatReals(x))
  }

  /**
   * No lane reads another lane: two inputs that agree on lane i give
   * results that agree on lane i, for the sum and the masked select.
   */
  lemma LanesIndependent(p: Points, q: Points, p': Points, q': Points, m: Mask, m': Mask, i: nat)
    requires i < LANES
    requires p.xs[i] == p'.xs[i] && p.ys[i] == p'.ys[i] && p.zs[i] == p'.zs[i]
    requires q.xs[i] == q'.xs[i] && q.ys[i] == q'.ys[i] && q.zs[i] == q'.zs[i]
    requires m[i] == m'[i]
    ensures Add(p, q).xs[i] == Add(p', q').xs[i] && Add(p, q).ys[i] == Add(p', q').ys[i]
    ensures Add(p, q).zs[i] == Add(p', q').zs[i]
    ensures UpdateIf(p, m, q).xs[i] == UpdateIf(p', m', q').xs[i]
    ensures UpdateIf(p, m, q).ys[i] == UpdateIf(p', m', q').ys[i]
    ensures UpdateIf(p, m, q).zs[i] == UpdateIf(p', m', q').zs[i]
    ensures Dot(p, q)[i] == Dot(p', q')[i]
  {
  }

  // ---------------------------------------------------------------------
  // Single points (`Point(Simd<Real, 4>)`, the last slot is padding)
  // ---------------------------------------------------------------------

  datatype Point = Point(x: real, y: real, z: real, pad: real)

  /** `Point::new`: stores (x, y, z) with a zero padding slot. */
  function NewPoint(x: real, y: real, z: real): (p: Point)
    ensures p.x == x && p.y == y && p.z == z && p.pad == 0.0
  {
    Point(x, y, z, 0.0)
  }

  /** `Point::get_axis`. */
  function GetCoord(p: Point, axis: Axis): (r: real)
    ensures axis == XS ==> r == p.x
    ensures axis == YS ==> r == p.y
    ensures axis == ZS ==> r == p.z
  {
    match axis
    case XS => p.x
    case YS => p.y
    case ZS => p.z
  }

  /**
   * A write through `Point::get_axis_mut`: the selected component becomes
   * `v`; the other two and the padding slot are unchanged.
   */
  function SetCoord(p: Point, axis: Axis, v: real): (r: Point)
    ensures GetCoord(r, axis) == v
    ensures forall a :: a != axis ==> GetCoord(r, a) == GetCoord(p, a)
    ensures r.pad == p.pad
  {
    match axis
    case XS => p.(x := v)
    case YS => p.(y := v)
    case ZS => p.(z := v)
  }

  /** `Point::dot` (the padding slot takes no part). */
  function PointDot(p: Point, q: Point): real
  {
    p.x * q.x + p.y * q.y + p.z * q.z
  }

  /** `Point + Point` (all four slots). */
  function PointAdd(p: Point, q: Point): Point
  {
    Point(p.x + q.x, p.y + q.y, p.z + q.z, p.pad + q.pad)
  }

  /** `Point - Point` (all four slots). */
  function PointSub(p: Point, q: Point): Point
  {
    Point(p.x - q.x, p.y - q.y, p.z - q.z, p.pad - q.pad)
  }

  /** `Point * Real` (all four slots). */
  function PointScale(p: Point, s: real): Point
  {
    Point(p.x * s, p.y * s, p.z * s, p.pad * s)
  }

  /** `Point / Real` for a non-zero divisor (all four slots). */
  function PointDiv(p: Point, s: real): Point
    requires s != 0.0
  {
    Point(p.x / s, p.y / s, p.z / s, p.pad / s)
  }

  // ---------------------------------------------------------------------
  // Paddle directions
  // ---------------------------------------------------------------------

  datatype Directions = Directions(up: bool, down: bool, left: bool, right: bool)

  /**
   * `Directions::to_vector`: (speed·(right − left), speed·(up − down), 0);
   * opposite keys cancel and the z component is always zero.
   */
  function ToVector(d: Directions, speed: real): (v: Point)
    ensures v.x == speed * (Indicator(d.right) - Indicator(d.left))
    ensures v.y == speed * (Indicator(d.up) - Indicator(d.down))
    ensures v.z == 0.0 && v.pad == 0.0
    ensures d.left == d.right ==> v.x == 0.0
    ensures d.up == d.down ==> v.y == 0.0
  {
    NewPoint(speed * Indicator(d.right) + (-speed) * Indicator(d.left),
             speed * Indicator(d.up) + (-speed) * Indicator(d.down),
             0.0)
  }
}
