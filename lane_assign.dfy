/**
 * The in-place forms of the lane operators (`update_reals_if`,
 * `Points::update_if` and the `*Assign` impls of src/math.rs, with the
 * same bodies in src/render/mod.rs and, taking references, in
 * src/simd/mod.rs).  A `&mut Points` is an in-out value: the method
 * takes the old batch and returns the new one, updating one component
 * at a time as the source does, and each agrees with its binary form.
 */
module LaneAssign {
  import opened Math

  /** `update_reals_if(&mut values, mask, update_with)`: the masked select, in place. */
  method UpdateRealsIfInPlace(values: Reals, mask: Mask, updateWith: Reals) returns (values': Reals)
    ensures forall i :: 0 <= i < LANES ==> values'[i] == if mask[i] then updateWith[i] else values[i]
    ensures values' == UpdateRealsIf(values, mask, updateWith)
  {
    values' := UpdateRealsIf(values, mask, updateWith);
  }

  /** `Points::update_if`: xs, then ys, then zs, under the one mask. */
  method UpdateIfInPlace(p: Points, mask: Mask, updateWith: Points) returns (p': Points)
    ensures p' == UpdateIf(p, mask, updateWith)
    ensures forall i :: 0 <= i < LANES && !mask[i] ==>
      p'.xs[i] == p.xs[i] && p'.ys[i] == p.ys[i] && p'.zs[i] == p.zs[i]
  {
    p' := p;
    p' := p'.(xs := UpdateRealsIf(p'.xs, mask, updateWith.xs));
    p' := p'.(ys := UpdateRealsIf(p'.ys, mask, updateWith.ys));
    p' := p'.(zs := UpdateRealsIf(p'.zs, mask, updateWith.zs));
  }

  /** `*= Reals`: agrees with `p * r`. */
  method ScaleAssign(p: Points, s: Reals) returns (p': Points)
    ensures p' == Scale(p, s)
  {
    p' := p;
    p' := p'.(xs := Times(p'.xs, s));
    p' := p'.(ys := Times(p'.ys, s));
    p' := p'.(zs := Times(p'.zs, s));
  }

  /** `*= Points`: agrees with `p * q`. */
  method HadamardAssign(p: Points, q: Points) returns (p': Points)
    ensures p' == Hadamard(p, q)
  {
    p' := p;
    p' := p'.(xs := Times(p'.xs, q.xs));
    p' := p'.(ys := Times(p'.ys, q.ys));
    p' := p'.(zs := Times(p'.zs, q.zs));
  }

  /** `/= Reals`, for a divisor without zero lanes: agrees with `p / r`. */
  method DivAssign(p: Points, s: Reals) returns (p': Points)
    requires forall i :: 0 <= i < LANES ==> s[i] != 0.0
    ensures p' == DivBy(p, s)
  {
    p' := p;
    p' := p'.(xs := Quot(p'.xs, s));
    p' := p'.(ys := Quot(p'.ys, s));
    p' := p'.(zs := Quot(p'.zs, s));
  }

  /** `*= Real`: agrees with `p * x`. */
  method ScaleByAssign(p: Points, x: real) returns (p': Points)
    ensures p' == ScaleBy(p, x)
  {
    p' := p;
    p' := p'.(xs := Times(p'.xs, SplatReals(x)));
    p' := p'.(ys := Times(p'.ys, SplatReals(x)));
    p' := p'.(zs := Times(p'.zs, SplatReals(x)));
  }

  /** `+=`: agrees with `p + q`. */
  method AddAssign(p: Points, q: Points) returns (p': Points)
    ensures p' == Add(p, q)
  {
    p' := p;
    p' := p'.(xs := Plus(p'.xs, q.xs));
    p' := p'.(ys := Plus(p'.ys, q.ys));
    p' := p'.(zs := Plus(p'.zs, q.zs));
  }

  /** `-=`: agrees with `p - q`. */
  method SubAssign(p: Points, q: Points) returns (p': Points)
    ensures p' == Sub(p, q)
  {
    p' := p;
    p' := p'.(xs := Minus(p'.xs, q.xs));
    p' := p'.(ys := Minus(p'.ys, q.ys));
    p' := p'.(zs := Minus(p'.zs, q.zs));
  }

  /** `Point::get_axis_mut(axis) = v`: only the selected coordinate changes. */
  method SetAxisInPlace(p: Point, axis: Axis, v: real) returns (p': Point)
    ensures GetCoord(p', axis) == v && p'.pad == p.pad
    ensures forall a :: a != axis ==> GetCoord(p', a) == GetCoord(p, a)
  {
    match axis
    case XS => p' := p.(x := v);
    case YS => p' := p.(y := v);
    case ZS => p' := p.(z := v);
  }
}
