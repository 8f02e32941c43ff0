/**
 * The camera of the first, scalar renderer (src/camera.rs): one ray per
 * call, from a fixed origin through a view port 2 wide, one unit ahead.
 */
module ScalarCamera {
  /** A three-component point or vector. */
  datatype Vec3 = Vec3(x: real, y: real, z: real)

  datatype Ray = Ray(origin: Vec3, dir: Vec3)

  datatype Camera = Camera(origin: Vec3, viewPortBase: Vec3, viewPortXAxis: Vec3, viewPortYAxis: Vec3)

  /**
   * `Camera::new`: origin (1, 0.3, 0), a view port 2 wide and
   * 2 / aspect_ratio high, centred one unit in front of the camera.
   */
  function NewCamera(aspectRatio: real): (c: Camera)
    requires aspectRatio != 0.0
    ensures c.origin == Vec3(1.0, 0.3, 0.0)
    ensures var h := 2.0 / aspectRatio;
            c.viewPortBase == Vec3(-1.0, h / 2.0, -1.0)
            && c.viewPortXAxis == Vec3(2.0, 0.0, 0.0) && c.viewPortYAxis == Vec3(0.0, -h, 0.0)
  {
    var viewPortWidth := 2.0;
    var viewPortHeight := viewPortWidth / aspectRatio;
    Camera(Vec3(1.0, 0.3, 0.0),
           Vec3(-viewPortWidth / 2.0, viewPortHeight / 2.0, -1.0),
           Vec3(viewPortWidth, 0.0, 0.0),
           Vec3(0.0, -viewPortHeight, 0.0))
  }

  /** `pixel_ray`: from the origin towards base + x_axis·x + y_axis·y. */
  function PixelRay(c: Camera, xOffset: real, yOffset: real): (r: Ray)
    ensures r.origin == c.origin
    ensures r.dir.x == c.viewPortBase.x + c.viewPortXAxis.x * xOffset + c.viewPortYAxis.x * yOffset
    ensures r.dir.y == c.viewPortBase.y + c.viewPortXAxis.y * xOffset + c.viewPortYAxis.y * yOffset
    ensures r.dir.z == c.viewPortBase.z + c.viewPortXAxis.z * xOffset + c.viewPortYAxis.z * yOffset
  {
    var b, u, v := c.viewPortBase, c.viewPortXAxis, c.viewPortYAxis;
    Ray(c.origin, Vec3(b.x + u.x * xOffset + v.x * yOffset,
                       b.y + u.y * xOffset + v.y * yOffset,
                       b.z + u.z * xOffset + v.z * yOffset))
  }

  /**
   * For a camera built by `Camera::new`, the ray through view-port point
   * (x, y) points at (2x − 1, h·(1/2 − y), −1): its z is always −1 and the
   * view port's centre is straight ahead.
   */
  lemma PixelRayOfNewCamera(aspectRatio: real, xOffset: real, yOffset: real)
    requires aspectRatio != 0.0
    ensures var r := PixelRay(NewCamera(aspectRatio), xOffset, yOffset);
            var h := 2.0 / aspectRatio;
            r.origin == Vec3(1.0, 0.3, 0.0)
            && r.dir == Vec3(2.0 * xOffset - 1.0, h * (0.5 - yOffset), -1.0)
    ensures PixelRay(NewCamera(aspectRatio), 0.5, 0.5).dir == Vec3(0.0, 0.0, -1.0)
  {
    var h := 2.0 / aspectRatio;
    var d := PixelRay(NewCamera(aspectRatio), xOffset, yOffset).dir;
    assert d.y == h / 2.0 + 0.0 * xOffset + (-h) * yOffset;
  }
}
