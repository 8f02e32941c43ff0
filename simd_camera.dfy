/**
 * The camera of the lane-batched prototype (src/simd/camera.rs): a fixed
 * origin at (0, 0, 0) and a view port 2 wide, one unit ahead.
 */
module SimdCamera {
  import opened Math

  /** The camera's four vectors, each splatted over the lanes. */
  datatype Camera = Camera(origin: Points, viewPortBase: Points, viewPortXAxis: Points, viewPortYAxis: Points)

  /** `Camera::new`: origin 0 and a view port 2 wide and 2 / aspect_ratio high. */
  function NewCamera(aspectRatio: real): (c: Camera)
    requires aspectRatio != 0.0
    ensures c.origin == Splat(0.0, 0.0, 0.0)
    ensures var h := 2.0 / aspectRatio;
            c.viewPortBase == Splat(-1.0, h / 2.0, -1.0)
            && c.viewPortXAxis == Splat(2.0, 0.0, 0.0) && c.viewPortYAxis == Splat(0.0, -h, 0.0)
  {
    var viewPortWidth := 2.0;
    var viewPortHeight := viewPortWidth / aspectRatio;
    Camera(Splat(0.0, 0.0, 0.0),
           Splat(-viewPortWidth / 2.0, viewPortHeight / 2.0, -1.0),
           Splat(viewPortWidth, 0.0, 0.0),
           Splat(0.0, -viewPortHeight, 0.0))
  }

  /**
   * `pixel_rays`: every lane starts at the origin; lane i points at
   * base + x_axis·x_i + y_axis·y_i.
   */
  function PixelRays(c: Camera, xOffsets: Reals, yOffsets: Reals): (r: Rays)
    ensures r.origins == c.origin
    ensures forall i :: 0 <= i < LANES ==>
      r.dirs.xs[i] == (c.viewPortBase.xs[i] + c.viewPortXAxis.xs[i] * xOffsets[i]) + c.viewPortYAxis.xs[i] * yOffsets[i]
      && r.dirs.ys[i] == (c.viewPortBase.ys[i] + c.viewPortXAxis.ys[i] * xOffsets[i]) + c.viewPortYAxis.ys[i] * yOffsets[i]
      && r.dirs.zs[i] == (c.viewPortBase.zs[i] + c.viewPortXAxis.zs[i] * xOffsets[i]) + c.viewPortYAxis.zs[i] * yOffsets[i]
  {
    var dirs := c.viewPortBase;
    var dirs := Add(dirs, Scale(c.viewPortXAxis, xOffsets));
    var dirs := Add(dirs, Scale(c.viewPortYAxis, yOffsets));
    Rays(c.origin, dirs)
  }

  /**
   * For a camera built by `Camera::new`, every lane starts at 0 and lane i
   * points at (2x_i − 1, h·(1/2 − y_i), −1).
   */
  lemma PixelRaysOfNewCamera(aspectRatio: real, xOffsets: Reals, yOffsets: Reals, i: nat)
    requires aspectRatio != 0.0 && i < LANES
    ensures var r := PixelRays(NewCamera(aspectRatio), xOffsets, yOffsets);
            var h := 2.0 / aspectRatio;
            r.origins.xs[i] == 0.0 && r.origins.ys[i] == 0.0 && r.origins.zs[i] == 0.0
            && r.dirs.xs[i] == 2.0 * xOffsets[i] - 1.0 && r.dirs.ys[i] == h * (0.5 - yOffsets[i])
            && r.dirs.zs[i] == -1.0
  {
    var h := 2.0 / aspectRatio;
    var r := PixelRays(NewCamera(aspectRatio), xOffsets, yOffsets);
    assert r.dirs.xs[i] == (-1.0 + 2.0 * xOffsets[i]) + 0.0 * yOffsets[i];
    assert r.dirs.ys[i] == (h / 2.0 + 0.0 * xOffsets[i]) + (-h) * yOffsets[i];
    assert r.dirs.zs[i] == (-1.0 + 0.0 * xOffsets[i]) + 0.0 * yOffsets[i];
  }
}
