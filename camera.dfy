/**
 * The game camera (src/render/camera.rs): a fixed view port one unit in
 * front of a movable origin.  Primary rays start at the origin and point
 * at base + x_axis·u + y_axis·v for view-port coordinates (u, v) in
 * [0, 1]², (0, 0) being the top-left corner.
 */
module RenderCamera {
  import opened Math

  /** The view-port geometry `Camera::new` builds for a view port `w` wide and `h` high. */
  ghost predicate ViewPort(base: Point, xAxis: Point, yAxis: Point, w: real, h: real)
  {
    base.x == -w / 2.0 && base.y == h / 2.0 && base.z == -1.0
    && xAxis.x == w && xAxis.y == 0.0 && xAxis.z == 0.0
    && yAxis.x == 0.0 && yAxis.y == -h && yAxis.z == 0.0
  }

  /** What the rays depend on: the origin and the view port's base and axes. */
  datatype View = View(origin: Point, base: Point, xAxis: Point, yAxis: Point)

  /**
   * `pixel_rays` on a view: every lane starts at the origin and points at
   * the view-port point base + x_axis·x_offset + y_axis·y_offset of that lane.
   */
  function ViewRays(v: View, xOffsets: Reals, yOffsets: Reals): (r: Rays)
    ensures r.origins == FromSingle(v.origin)
    ensures forall i :: 0 <= i < LANES ==>
      r.dirs.xs[i] == (v.base.x + v.xAxis.x * xOffsets[i]) + v.yAxis.x * yOffsets[i]
      && r.dirs.ys[i] == (v.base.y + v.xAxis.y * xOffsets[i]) + v.yAxis.y * yOffsets[i]
      && r.dirs.zs[i] == (v.base.z + v.xAxis.z * xOffsets[i]) + v.yAxis.z * yOffsets[i]
  {
    var dirs := FromSingle(v.base);
    var dirs := Add(dirs, Scale(FromSingle(v.xAxis), xOffsets));
    var dirs := Add(dirs, Scale(FromSingle(v.yAxis), yOffsets));
    Rays(FromSingle(v.origin), dirs)
  }

  class Camera {
    var origin: Point
    const viewPortBase: Point
    const viewPortXAxis: Point
    const viewPortYAxis: Point

    /** `Camera::new`: the view port is `width` wide and `width / aspectRatio` high, centred on the view axis. */
    constructor (aspectRatio: real, width: real)
      requires aspectRatio != 0.0
      ensures origin == NewPoint(1.0, -1.0, 0.0)
      ensures ViewPort(viewPortBase, viewPortXAxis, viewPortYAxis, width, width / aspectRatio)
    {
      var viewPortWidth := width;
      var viewPortHeight := viewPortWidth / aspectRatio;
      origin := NewPoint(1.0, -1.0, 0.0);
      viewPortBase := NewPoint(-viewPortWidth / 2.0, viewPortHeight / 2.0, -1.0);
      viewPortXAxis := NewPoint(viewPortWidth, 0.0, 0.0);
      viewPortYAxis := NewPoint(0.0, -viewPortHeight, 0.0);
    }

    /** `move_origin_to`: the origin's x and y become `x` and `y`; its z and the view port stay. */
    method MoveOriginTo(x: real, y: real)
      modifies this
      ensures origin == old(origin).(x := x, y := y)
    {
      origin := origin.(x := x);
      origin := origin.(y := y);
    }

    /** The camera's current view. */
    function CurrentView(): View
      reads this
    {
      View(origin, viewPortBase, viewPortXAxis, viewPortYAxis)
    }

    /** `pixel_rays`: the rays of the current view (see `ViewRays`). */
    function PixelRays(xOffsets: Reals, yOffsets: Reals): (r: Rays)
      reads this
      ensures r.origins == FromSingle(origin)
      ensures forall i :: 0 <= i < LANES ==>
        r.dirs.xs[i] == (viewPortBase.x + viewPortXAxis.x * xOffsets[i]) + viewPortYAxis.x * yOffsets[i]
        && r.dirs.ys[i] == (viewPortBase.y + viewPortXAxis.y * xOffsets[i]) + viewPortYAxis.y * yOffsets[i]
        && r.dirs.zs[i] == (viewPortBase.z + viewPortXAxis.z * xOffsets[i]) + viewPortYAxis.z * yOffsets[i]
    {
      ViewRays(CurrentView(), xOffsets, yOffsets)
    }

    /**
     * For the geometry `Camera::new` builds, the ray of lane i points at
     * (w·(u − 1/2), h·(1/2 − v), −1): the view port's centre (1/2, 1/2)
     * is straight ahead and its top-left corner (0, 0) is (−w/2, h/2, −1).
     */
    lemma PixelRayTargets(xOffsets: Reals, yOffsets: Reals, w: real, h: real, i: nat)
      requires ViewPort(viewPortBase, viewPortXAxis, viewPortYAxis, w, h) && i < LANES
      ensures var d := PixelRays(xOffsets, yOffsets).dirs;
              d.xs[i] == w * (xOffsets[i] - 0.5) && d.ys[i] == h * (0.5 - yOffsets[i]) && d.zs[i] == -1.0
      ensures xOffsets[i] == 0.5 && yOffsets[i] == 0.5 ==>
                var d := PixelRays(xOffsets, yOffsets).dirs;
                d.xs[i] == 0.0 && d.ys[i] == 0.0
    {
      var d := PixelRays(xOffsets, yOffsets).dirs;
      assert d.xs[i] == -w / 2.0 + w * xOffsets[i] + 0.0 * yOffsets[i];
      assert d.ys[i] == h / 2.0 + 0.0 * xOffsets[i] + (-h) * yOffsets[i];
    }
  }
}
