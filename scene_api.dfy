/**
 * The scene the tracer, the motion ticker, the AI and the game driver use
 * (`crate::scene::{Scene, Sphere, Plane, Obstacle}`).  Only its interface is
 * visible from the modelled files, so it is modelled abstractly: a fixed
 * layout (which spheres and planes exist, their radii, axes, offsets,
 * normals, colours and reflectances) plus the three sphere positions, with
 * `MoveSphereTo` as the only mutator.
 */
module SceneApi {
  import opened Math

  datatype Sphere = Ball | FarPaddle | NearPaddle

  datatype Plane = Top | Bottom | Left | Right | Far | Near

  datatype Obstacle = Sphere(sphere: Sphere) | Plane(plane: Plane)

  /** The static attributes of the scene's obstacles. */
  datatype Layout = Layout(
    spheres: seq<Sphere>,
    planes: seq<Plane>,
    radius: Sphere -> real,
    axis: Plane -> Axis,
    offset: Plane -> real,
    normal: Plane -> Point,
    color: Obstacle -> Point,
    reflectance: Obstacle -> real)

  /** Every sphere has a positive radius (the tracer divides by it). */
  predicate ValidLayout(l: Layout)
  {
    l.radius(Ball) > 0.0 && l.radius(FarPaddle) > 0.0 && l.radius(NearPaddle) > 0.0
  }

  /** Every obstacle's reflectance lies in [0, 1]. */
  ghost predicate ReflectancesInUnit(l: Layout)
  {
    forall o :: 0.0 <= l.reflectance(o) <= 1.0
  }

  datatype Scene = Scene(layout: Layout, ball: Point, farPaddle: Point, nearPaddle: Point)

  /** `Scene::sphere_pos`. */
  function SpherePos(scene: Scene, s: Sphere): Point
  {
    match s
    case Ball => scene.ball
    case FarPaddle => scene.farPaddle
    case NearPaddle => scene.nearPaddle
  }

  /**
   * `Scene::move_sphere_to`: overwrites the position of sphere `s` and
   * nothing else.
   */
  function MoveSphereTo(scene: Scene, s: Sphere, p: Point): (r: Scene)
    ensures SpherePos(r, s) == p
    ensures forall t :: t != s ==> SpherePos(r, t) == SpherePos(scene, t)
    ensures r.layout == scene.layout
  {
    match s
    case Ball => scene.(ball := p)
    case FarPaddle => scene.(farPaddle := p)
    case NearPaddle => scene.(nearPaddle := p)
  }
}
