/**
 * The game's physics step (src/motion.rs): the ball flies in a straight
 * line, the paddles accelerate under the pressed keys, lose speed to
 * friction and are clamped into the arena, and the first collision found
 * (paddles first, then the plane pairs along x, y and z) puts the ball back
 * in contact and mirrors its speed.
 */
module Motion {
  import opened Math
  import opened SceneApi

  datatype MotionResult = NoCollision | Collision(obstacle: Obstacle)

  const PADDLE_FRICTION: real := 0.7
  const PADDLE_ACCELERATION: real := 2.0

  // ---------------------------------------------------------------------
  // Bouncing
  // ---------------------------------------------------------------------

  /** `bounce`: the speed with its component along the normal mirrored, v − 2(v·n)n. */
  function Bounce(speed: Point, normal: Point): Point
  {
    PointSub(speed, PointScale(PointScale(normal, PointDot(speed, normal)), 2.0))
  }

  /** For a unit normal the bounce negates the normal component of the speed ... */
  lemma BounceNegatesNormal(v: Point, n: Point)
    requires PointDot(n, n) == 1.0
    ensures PointDot(Bounce(v, n), n) == -PointDot(v, n)
  {
    var d := PointDot(v, n);
    var b := Bounce(v, n);
    assert b.x == v.x - n.x * d * 2.0 && b.y == v.y - n.y * d * 2.0 && b.z == v.z - n.z * d * 2.0;
    calc {
      PointDot(b, n);
      (v.x - n.x * d * 2.0) * n.x + (v.y - n.y * d * 2.0) * n.y + (v.z - n.z * d * 2.0) * n.z;
      d - 2.0 * d * (n.x * n.x + n.y * n.y + n.z * n.z);
      d - 2.0 * d * PointDot(n, n);
      -d;
    }
  }

  /** ... keeps every component orthogonal to the normal ... */
  lemma BounceKeepsTangent(v: Point, n: Point, t: Point)
    requires PointDot(t, n) == 0.0
    ensures PointDot(Bounce(v, n), t) == PointDot(v, t)
  {
    var d := PointDot(v, n);
    var b := Bounce(v, n);
    assert b.x == v.x - n.x * d * 2.0 && b.y == v.y - n.y * d * 2.0 && b.z == v.z - n.z * d * 2.0;
    calc {
      PointDot(b, t);
      (v.x - n.x * d * 2.0) * t.x + (v.y - n.y * d * 2.0) * t.y + (v.z - n.z * d * 2.0) * t.z;
      PointDot(v, t) - 2.0 * d * (t.x * n.x + t.y * n.y + t.z * n.z);
      PointDot(v, t) - 2.0 * d * PointDot(t, n);
    }
  }

  /** ... and bouncing twice off the same unit normal gives the speed back. */
  lemma BounceTwice(v: Point, n: Point)
    requires PointDot(n, n) == 1.0
    ensures Bounce(Bounce(v, n), n) == v
  {
    BounceNegatesNormal(v, n);
    var d := PointDot(v, n);
    var b := Bounce(v, n);
    assert PointDot(b, n) == -d;
    var bb := Bounce(b, n);
    assert bb.x == b.x - n.x * (-d) * 2.0;
    assert b.x == v.x - n.x * d * 2.0;
  }

  // ---------------------------------------------------------------------
  // Paddles
  // ---------------------------------------------------------------------

  function LeftLimit(l: Layout): real { l.offset(Left) + 1.0 }
  function RightLimit(l: Layout): real { l.offset(Right) - 1.0 }
  function BottomLimit(l: Layout): real { l.offset(Bottom) + 1.0 }
  function TopLimit(l: Layout): real { l.offset(Top) - 1.0 }

  /** `f32::clamp` panics on an empty interval, so the arena must leave room for a paddle on both axes. */
  predicate HasPaddleRoom(l: Layout)
  {
    LeftLimit(l) <= RightLimit(l) && BottomLimit(l) <= TopLimit(l)
  }

  /** The paddle's speed after friction and the keys' acceleration, and where that speed would take it. */
  function FreeMotion(scene: Scene, elapsed: real, paddle: Sphere, directions: Directions, speed: Point, lib: Libm): (Point, Point)
  {
    var speed' := PointAdd(PointScale(speed, lib.powf(PADDLE_FRICTION, elapsed)),
                           PointScale(ToVector(directions, PADDLE_ACCELERATION), elapsed));
    (speed', PointAdd(SpherePos(scene, paddle), PointScale(speed', elapsed)))
  }

  /** A coordinate at or beyond either limit. */
  predicate AtLimit(v: real, lo: real, hi: real)
  {
    v <= lo || v >= hi
  }

  /**
   * `move_paddle`: the paddle ends inside the limits, one unit in from the
   * side planes; it keeps the free motion's position on an axis where that
   * lies strictly inside and stops exactly on the limit it reached or
   * passed otherwise, and its speed's x (resp. y) is the free speed's,
   * negated exactly when the free x (resp. y) is at or beyond a limit.  A
   * paddle without z speed keeps its z.  No other sphere moves.
   */
  function MovePaddle(scene: Scene, elapsed: real, paddle: Sphere, directions: Directions, speed: Point, lib: Libm): (r: (Scene, Point))
    requires HasPaddleRoom(scene.layout)
    ensures var (free, _) := FreeMotion(scene, elapsed, paddle, directions, speed, lib);
            r.1.x == (if AtLimit(FreeMotion(scene, elapsed, paddle, directions, speed, lib).1.x,
                                 LeftLimit(scene.layout), RightLimit(scene.layout)) then -free.x else free.x)
            && r.1.y == (if AtLimit(FreeMotion(scene, elapsed, paddle, directions, speed, lib).1.y,
                                    BottomLimit(scene.layout), TopLimit(scene.layout)) then -free.y else free.y)
            && r.1.z == free.z
    ensures var p := SpherePos(r.0, paddle);
            LeftLimit(scene.layout) <= p.x <= RightLimit(scene.layout)
            && BottomLimit(scene.layout) <= p.y <= TopLimit(scene.layout)
    ensures var (_, pos) := FreeMotion(scene, elapsed, paddle, directions, speed, lib);
            var p := SpherePos(r.0, paddle);
            (!AtLimit(pos.x, LeftLimit(scene.layout), RightLimit(scene.layout)) ==> p.x == pos.x)
            && (!AtLimit(pos.y, BottomLimit(scene.layout), TopLimit(scene.layout)) ==> p.y == pos.y)
            && p.z == pos.z
    ensures var (_, pos) := FreeMotion(scene, elapsed, paddle, directions, speed, lib);
            var p := SpherePos(r.0, paddle);
            (pos.x <= LeftLimit(scene.layout) ==> p.x == LeftLimit(scene.layout))
            && (pos.x >= RightLimit(scene.layout) ==> p.x == RightLimit(scene.layout))
            && (pos.y <= BottomLimit(scene.layout) ==> p.y == BottomLimit(scene.layout))
            && (pos.y >= TopLimit(scene.layout) ==> p.y == TopLimit(scene.layout))
    ensures speed.z == 0.0 ==> r.1.z == 0.0 && SpherePos(r.0, paddle).z == SpherePos(scene, paddle).z
    ensures forall s :: s != paddle ==> SpherePos(r.0, s) == SpherePos(scene, s)
    ensures r.0.layout == scene.layout
  {
    var (speed', newPos) := FreeMotion(scene, elapsed, paddle, directions, speed, lib);
    var left, right := LeftLimit(scene.layout), RightLimit(scene.layout);
    var bottom, top := BottomLimit(scene.layout), TopLimit(scene.layout);
    var speed' := if newPos.x <= left || newPos.x >= right then speed'.(x := -speed'.x) else speed';
    var speed' := if newPos.y <= bottom || newPos.y >= top then speed'.(y := -speed'.y) else speed';
    var newPos := newPos.(x := Clamp(newPos.x, left, right));
    var newPos := newPos.(y := Clamp(newPos.y, bottom, top));
    (MoveSphereTo(scene, paddle, newPos), speed')
  }

  // ---------------------------------------------------------------------
  // Collisions
  // ---------------------------------------------------------------------

  /**
   * `collide_sphere_with_planes`: a sphere closer than its radius to the
   * min plane is put back in contact with it; otherwise one closer than
   * its radius to the max plane is put back in contact with that one;
   * otherwise there is no collision.  Only the given axis of the position
   * changes.
   */
  function CollideWithPlanes(axis: Axis, scene: Scene, sphere: Sphere, minPlane: Plane, maxPlane: Plane): (r: Option<(Point, Plane)>)
    ensures var pos, lo, hi, rad := SpherePos(scene, sphere), scene.layout.offset(minPlane),
                                    scene.layout.offset(maxPlane), scene.layout.radius(sphere);
            if GetCoord(pos, axis) - lo < rad then r == Some((SetCoord(pos, axis, lo + rad), minPlane))
            else if hi - GetCoord(pos, axis) < rad then r == Some((SetCoord(pos, axis, hi - rad), maxPlane))
            else r == None
    ensures r.Some? ==> forall a :: a != axis ==> GetCoord(r.value.0, a) == GetCoord(SpherePos(scene, sphere), a)
    ensures r.Some? ==> r.value.0.pad == SpherePos(scene, sphere).pad
  {
    var spherePos := SpherePos(scene, sphere);
    var minOffset := scene.layout.offset(minPlane);
    var maxOffset := scene.layout.offset(maxPlane);
    var radius := scene.layout.radius(sphere);
    if GetCoord(spherePos, axis) - minOffset < radius then
      Some((SetCoord(spherePos, axis, minOffset + radius), minPlane))
    else if maxOffset - GetCoord(spherePos, axis) < radius then
      Some((SetCoord(spherePos, axis, maxOffset - radius), maxPlane))
    else
      None
  }

  /**
   * The outcome of `collide_sphere_with_sphere`.  When the centres
   * coincide the source divides by a zero distance and produces NaN
   * coordinates; the model reports that case on its own.
   */
  datatype Contact = Apart | Touching(pos: Point, normal: Point) | Coincident

  /** The distance between the centres of a and b, `sqrt(diff.x² + diff.y² + diff.z²)`. */
  function Distance(scene: Scene, a: Sphere, b: Sphere, lib: Libm): real
  {
    var diff := PointSub(SpherePos(scene, a), SpherePos(scene, b));
    lib.sqrt(PointDot(diff, diff))
  }

  /**
   * `collide_sphere_with_sphere`: the spheres touch iff their centres are
   * closer than the sum of the radii; then a is put back at that distance
   * from b along the line of centres, and the unit direction from b to a
   * is the normal.
   */
  function CollideSpheres(scene: Scene, a: Sphere, b: Sphere, lib: Libm): (c: Contact)
    ensures c == Apart <==> !(Distance(scene, a, b, lib) < scene.layout.radius(a) + scene.layout.radius(b))
    ensures c == Coincident <==> Distance(scene, a, b, lib) == 0.0 < scene.layout.radius(a) + scene.layout.radius(b)
    ensures c.Touching? ==>
      var d := Distance(scene, a, b, lib);
      var n := PointDiv(PointSub(SpherePos(scene, a), SpherePos(scene, b)), d);
      c.normal == n && c.pos == PointAdd(SpherePos(scene, b), PointScale(n, scene.layout.radius(a) + scene.layout.radius(b)))
  {
    var aPos := SpherePos(scene, a);
    var bPos := SpherePos(scene, b);
    var reach := scene.layout.radius(a) + scene.layout.radius(b);
    var diff := PointSub(aPos, bPos);
    var distance := Distance(scene, a, b, lib);
    if distance < reach then
      if distance == 0.0 then Coincident
      else
        var normalized := PointDiv(diff, distance);
        Touching(PointAdd(bPos, PointScale(normalized, reach)), normalized)
    else Apart
  }

  /** The first sphere in `spheres` the ball is in contact with, and the contact. */
  function FirstSphereHit(scene: Scene, spheres: seq<Sphere>, lib: Libm): Option<(Sphere, Contact)>
  {
    if |spheres| == 0 then None
    else
      var c := CollideSpheres(scene, Ball, spheres[0], lib);
      if c != Apart then Some((spheres[0], c)) else FirstSphereHit(scene, spheres[1..], lib)
  }

  /** `FirstSphereHit` finds the first contact in list order, and none exactly when every sphere is apart. */
  lemma {:induction false} FirstSphereHitIsFirst(scene: Scene, spheres: seq<Sphere>, lib: Libm)
    ensures var h := FirstSphereHit(scene, spheres, lib);
            (h.None? <==> forall k :: 0 <= k < |spheres| ==> CollideSpheres(scene, Ball, spheres[k], lib) == Apart)
            && (h.Some? ==> exists k :: 0 <= k < |spheres| && spheres[k] == h.value.0
                              && h.value.1 == CollideSpheres(scene, Ball, spheres[k], lib) != Apart
                              && forall j :: 0 <= j < k ==> CollideSpheres(scene, Ball, spheres[j], lib) == Apart)
  {
    if |spheres| > 0 {
      var c := CollideSpheres(scene, Ball, spheres[0], lib);
      if c == Apart {
        FirstSphereHitIsFirst(scene, spheres[1..], lib);
        var h := FirstSphereHit(scene, spheres, lib);
        if h.Some? {
          var k :| 0 <= k < |spheres[1..]| && spheres[1..][k] == h.value.0
                   && h.value.1 == CollideSpheres(scene, Ball, spheres[1..][k], lib) != Apart
                   && forall j :: 0 <= j < k ==> CollideSpheres(scene, Ball, spheres[1..][j], lib) == Apart;
          assert spheres[k + 1] == spheres[1..][k];
          forall j | 0 <= j < k + 1
            ensures CollideSpheres(scene, Ball, spheres[j], lib) == Apart
          {
            if j > 0 {
              assert spheres[j] == spheres[1..][j - 1];
            }
          }
        } else {
          forall k | 0 <= k < |spheres|
            ensures CollideSpheres(scene, Ball, spheres[k], lib) == Apart
          {
            if k > 0 {
              assert spheres[k] == spheres[1..][k - 1];
            }
          }
        }
      }
    }
  }

  /** The plane pairs `tick` tests, in order: x against Left/Right, y against Bottom/Top, z against Far/Near. */
  const PLANE_PAIRS: seq<(Axis, Plane, Plane)> := [(XS, Left, Right), (YS, Bottom, Top), (ZS, Far, Near)]

  /** The first pair in `pairs` the ball collides with, and the corrected position and plane. */
  function FirstPlaneHit(scene: Scene, pairs: seq<(Axis, Plane, Plane)>): Option<(Point, Plane)>
  {
    if |pairs| == 0 then None
    else
      var h := CollideWithPlanes(pairs[0].0, scene, Ball, pairs[0].1, pairs[0].2);
      if h.Some? then h else FirstPlaneHit(scene, pairs[1..])
  }

  /** `FirstPlaneHit` returns the collision of the first colliding pair, or none when no pair collides. */
  lemma {:induction false} FirstPlaneHitIsFirst(scene: Scene, pairs: seq<(Axis, Plane, Plane)>)
    ensures var h := FirstPlaneHit(scene, pairs);
            (h.None? <==> forall k :: 0 <= k < |pairs| ==> CollideWithPlanes(pairs[k].0, scene, Ball, pairs[k].1, pairs[k].2).None?)
            && (h.Some? ==> exists k :: 0 <= k < |pairs| && h == CollideWithPlanes(pairs[k].0, scene, Ball, pairs[k].1, pairs[k].2)
                              && forall j :: 0 <= j < k ==> CollideWithPlanes(pairs[j].0, scene, Ball, pairs[j].1, pairs[j].2).None?)
  {
    if |pairs| > 0 {
      var h0 := CollideWithPlanes(pairs[0].0, scene, Ball, pairs[0].1, pairs[0].2);
      if h0.None? {
        FirstPlaneHitIsFirst(scene, pairs[1..]);
        var h := FirstPlaneHit(scene, pairs);
        if h.Some? {
          var k :| 0 <= k < |pairs[1..]| && h == CollideWithPlanes(pairs[1..][k].0, scene, Ball, pairs[1..][k].1, pairs[1..][k].2)
                   && forall j :: 0 <= j < k ==> CollideWithPlanes(pairs[1..][j].0, scene, Ball, pairs[1..][j].1, pairs[1..][j].2).None?;
          assert pairs[k + 1] == pairs[1..][k];
          forall j | 0 <= j < k + 1
            ensures CollideWithPlanes(pairs[j].0, scene, Ball, pairs[j].1, pairs[j].2).None?
          {
            if j > 0 {
              assert pairs[j] == pairs[1..][j - 1];
            }
          }
        } else {
          forall k | 0 <= k < |pairs|
            ensures CollideWithPlanes(pairs[k].0, scene, Ball, pairs[k].1, pairs[k].2).None?
          {
            if k > 0 {
              assert pairs[k] == pairs[1..][k - 1];
            }
          }
        }
      }
    }
  }

  // ---------------------------------------------------------------------
  // The tick
  // ---------------------------------------------------------------------

  /** The three speeds a `MotionTicker` holds. */
  datatype Speeds = Speeds(ball: Point, nearPaddle: Point, farPaddle: Point)

  /** `MotionTicker::new`. */
  const INITIAL_SPEEDS: Speeds := Speeds(NewPoint(1.5, 4.5, -4.0), NewPoint(0.0, 0.0, 0.0), NewPoint(0.0, 0.0, 0.0))

  /** The scene and speeds once the ball and both paddles have moved, before any collision is handled. */
  function Moved(speeds: Speeds, scene: Scene, elapsed: real, nearDirections: Directions, farDirections: Directions, lib: Libm): (Scene, Speeds)
    requires HasPaddleRoom(scene.layout)
  {
    var s1 := MoveSphereTo(scene, Ball, PointAdd(SpherePos(scene, Ball), PointScale(speeds.ball, elapsed)));
    var (s2, far) := MovePaddle(s1, elapsed, FarPaddle, farDirections, speeds.farPaddle, lib);
    var (s3, near) := MovePaddle(s2, elapsed, NearPaddle, nearDirections, speeds.nearPaddle, lib);
    (s3, Speeds(speeds.ball, near, far))
  }

  /** The collision handling of `tick` on the moved scene: the first contact found puts the ball back and bounces its speed. */
  function Resolve(speeds: Speeds, scene: Scene, lib: Libm): (MotionResult, Scene, Speeds)
  {
    match FirstSphereHit(scene, [FarPaddle, NearPaddle], lib)
    case Some((s, Touching(pos, normal))) =>
      (Collision(Sphere(s)), MoveSphereTo(scene, Ball, pos), speeds.(ball := Bounce(speeds.ball, normal)))
    case Some((s, _)) =>
      (Collision(Sphere(s)), scene, speeds)
    case None =>
      match FirstPlaneHit(scene, PLANE_PAIRS)
      case Some((pos, plane)) =>
        (Collision(Plane(plane)), MoveSphereTo(scene, Ball, pos), speeds.(ball := Bounce(speeds.ball, scene.layout.normal(plane))))
      case None =>
        (NoCollision, scene, speeds)
  }

  /** `MotionTicker::tick` on values: move, then resolve the first collision. */
  function TickResult(speeds: Speeds, scene: Scene, elapsed: real, nearDirections: Directions, farDirections: Directions, lib: Libm)
    : (MotionResult, Scene, Speeds)
    requires HasPaddleRoom(scene.layout)
  {
    var (moved, speeds') := Moved(speeds, scene, elapsed, nearDirections, farDirections, lib);
    Resolve(speeds', moved, lib)
  }

  /**
   * The result of a tick names the first obstacle in `tick`'s order the
   * moved ball touches: the far paddle, the near paddle, then the x, y and
   * z plane pairs; the ball's speed changes only on a collision, and on a
   * plane collision it is bounced off that plane's normal.
   */
  lemma TickOrder(speeds: Speeds, scene: Scene, elapsed: real, nearDirections: Directions, farDirections: Directions, lib: Libm)
    requires HasPaddleRoom(scene.layout)
    ensures var (moved, _) := Moved(speeds, scene, elapsed, nearDirections, farDirections, lib);
            var (result, _, speeds') := TickResult(speeds, scene, elapsed, nearDirections, farDirections, lib);
            var far, near := CollideSpheres(moved, Ball, FarPaddle, lib), CollideSpheres(moved, Ball, NearPaddle, lib);
            (result == Collision(Sphere(FarPaddle)) <==> far != Apart)
            && (result == Collision(Sphere(NearPaddle)) <==> far == Apart && near != Apart)
            && (result.Collision? && result.obstacle.Plane? ==>
                  far == Apart && near == Apart
                  && speeds'.ball == Bounce(speeds.ball, scene.layout.normal(result.obstacle.plane)))
            && (result == NoCollision <==>
                  far == Apart && near == Apart && forall k :: 0 <= k < |PLANE_PAIRS| ==>
                    CollideWithPlanes(PLANE_PAIRS[k].0, moved, Ball, PLANE_PAIRS[k].1, PLANE_PAIRS[k].2).None?)
            && (result == NoCollision ==> speeds'.ball == speeds.ball)
  {
    var (moved, _) := Moved(speeds, scene, elapsed, nearDirections, farDirections, lib);
    FirstSphereHitIsFirst(moved, [FarPaddle, NearPaddle], lib);
    FirstPlaneHitIsFirst(moved, PLANE_PAIRS);
    var far := CollideSpheres(moved, Ball, FarPaddle, lib);
    if far != Apart {
      assert FirstSphereHit(moved, [FarPaddle, NearPaddle], lib) == Some((FarPaddle, far));
    }
  }

  /**
   * A tick keeps both paddles inside the arena limits, leaves the layout
   * alone, and, while the paddles have no z speed, keeps their z
   * coordinates and their zero z speeds.
   */
  lemma TickKeepsPaddles(speeds: Speeds, scene: Scene, elapsed: real, nearDirections: Directions, farDirections: Directions, lib: Libm)
    requires HasPaddleRoom(scene.layout)
    ensures var (_, scene', speeds') := TickResult(speeds, scene, elapsed, nearDirections, farDirections, lib);
            scene'.layout == scene.layout
            && (forall p :: p != Ball ==>
                  LeftLimit(scene.layout) <= SpherePos(scene', p).x <= RightLimit(scene.layout)
                  && BottomLimit(scene.layout) <= SpherePos(scene', p).y <= TopLimit(scene.layout))
            && (speeds.nearPaddle.z == 0.0 && speeds.farPaddle.z == 0.0 ==>
                  speeds'.nearPaddle.z == 0.0 && speeds'.farPaddle.z == 0.0
                  && SpherePos(scene', NearPaddle).z == SpherePos(scene, NearPaddle).z
                  && SpherePos(scene', FarPaddle).z == SpherePos(scene, FarPaddle).z)
  {
    var s1 := MoveSphereTo(scene, Ball, PointAdd(SpherePos(scene, Ball), PointScale(speeds.ball, elapsed)));
    var (s2, far) := MovePaddle(s1, elapsed, FarPaddle, farDirections, speeds.farPaddle, lib);
    var (s3, near) := MovePaddle(s2, elapsed, NearPaddle, nearDirections, speeds.nearPaddle, lib);
    assert SpherePos(s3, FarPaddle) == SpherePos(s2, FarPaddle);
  }

  /**
   * `MotionTicker`: the ball's and the paddles' speeds, updated in place
   * by `tick`.  Paddle speeds start without a z component and never gain
   * one.
   */
  class MotionTicker {
    var ballSpeed: Point
    var nearPaddleSpeed: Point
    var farPaddleSpeed: Point

    function State(): Speeds
      reads this
    {
      Speeds(ballSpeed, nearPaddleSpeed, farPaddleSpeed)
    }

    /** No paddle moves along z. */
    ghost predicate Valid()
      reads this
    {
      nearPaddleSpeed.z == 0.0 && farPaddleSpeed.z == 0.0
    }

    /** `MotionTicker::new`: the ball starts at (1.5, 4.5, −4), the paddles at rest. */
    constructor ()
      ensures State() == INITIAL_SPEEDS && Valid()
    {
      ballSpeed := NewPoint(1.5, 4.5, -4.0);
      nearPaddleSpeed := NewPoint(0.0, 0.0, 0.0);
      farPaddleSpeed := NewPoint(0.0, 0.0, 0.0);
    }

    /**
     * `tick`: moves the ball by its speed, moves the far and then the near
     * paddle, then handles the first collision of the ball with the far
     * paddle, the near paddle, and the x, y and z plane pairs, in that
     * order, and reports it.
     */
    method Tick(scene: Scene, elapsed: real, nearDirections: Directions, farDirections: Directions, lib: Libm)
      returns (result: MotionResult, scene': Scene)
      requires HasPaddleRoom(scene.layout)
      modifies this
      ensures (result, scene', State()) == TickResult(old(State()), scene, elapsed, nearDirections, farDirections, lib)
      ensures old(Valid()) ==> Valid()
    {
      ghost var speeds := State();
      scene' := MoveSphereTo(scene, Ball, PointAdd(SpherePos(scene, Ball), PointScale(ballSpeed, elapsed)));
      var far := MovePaddle(scene', elapsed, FarPaddle, farDirections, farPaddleSpeed, lib);
      scene', farPaddleSpeed := far.0, far.1;
      var near := MovePaddle(scene', elapsed, NearPaddle, nearDirections, nearPaddleSpeed, lib);
      scene', nearPaddleSpeed := near.0, near.1;
      assert (scene', State()) == Moved(speeds, scene, elapsed, nearDirections, farDirections, lib);
      ghost var moved, movedSpeeds := scene', State();
      var paddles := [FarPaddle, NearPaddle];
      for k := 0 to |paddles|
        invariant FirstSphereHit(scene', paddles, lib) == FirstSphereHit(scene', paddles[k..], lib)
        invariant scene' == moved && State() == movedSpeeds
      {
        var contact := CollideSpheres(scene', Ball, paddles[k], lib);
        if contact != Apart {
          assert FirstSphereHit(scene', paddles, lib) == Some((paddles[k], contact));
          if contact.Touching? {
            scene' := MoveSphereTo(scene', Ball, contact.pos);
            ballSpeed := Bounce(ballSpeed, contact.normal);
          }
          result := Collision(Sphere(paddles[k]));
          return;
        }
        assert paddles[k..][1..] == paddles[k + 1..];
      }
      for k := 0 to |PLANE_PAIRS|
        invariant FirstPlaneHit(scene', PLANE_PAIRS) == FirstPlaneHit(scene', PLANE_PAIRS[k..])
        invariant scene' == moved && State() == movedSpeeds
      {
        var (axis, minPlane, maxPlane) := PLANE_PAIRS[k];
        var hit := CollideWithPlanes(axis, scene', Ball, minPlane, maxPlane);
        if hit.Some? {
          var (newPos, plane) := hit.value;
          scene' := MoveSphereTo(scene', Ball, newPos);
          ballSpeed := Bounce(ballSpeed, scene'.layout.normal(plane));
          result := Collision(Plane(plane));
          return;
        }
        assert PLANE_PAIRS[k..][1..] == PLANE_PAIRS[k + 1..];
      }
      result := NoCollision;
    }
  }
}
