/**
 * The far paddle's controller (src/ai.rs): it presses the direction keys
 * that move the far paddle towards the ball, with a dead zone of EPSILON
 * on each axis.
 */
module Ai {
  import opened Math
  import opened SceneApi

  /** The dead zone on each axis. */
  const EPSILON: real := 0.1

  /** `control_far_paddle`: up/down follow the ball's y, left/right its x. */
  function ControlFarPaddle(scene: Scene): (d: Directions)
    ensures d.up <==> SpherePos(scene, Ball).y - SpherePos(scene, FarPaddle).y > EPSILON
    ensures d.down <==> SpherePos(scene, FarPaddle).y - SpherePos(scene, Ball).y > EPSILON
    ensures d.left <==> SpherePos(scene, FarPaddle).x - SpherePos(scene, Ball).x > EPSILON
    ensures d.right <==> SpherePos(scene, Ball).x - SpherePos(scene, FarPaddle).x > EPSILON
  {
    var ball := SpherePos(scene, Ball);
    var paddle := SpherePos(scene, FarPaddle);
    Directions(ball.y - paddle.y > EPSILON, paddle.y - ball.y > EPSILON,
               paddle.x - ball.x > EPSILON, ball.x - paddle.x > EPSILON)
  }

  /**
   * Opposite keys are never pressed together, and inside the dead zone of
   * an axis neither key of that axis is pressed.
   */
  lemma ControlsExclusive(scene: Scene)
    ensures var d := ControlFarPaddle(scene);
            !(d.up && d.down) && !(d.left && d.right)
    ensures var dy := SpherePos(scene, Ball).y - SpherePos(scene, FarPaddle).y;
            -EPSILON <= dy <= EPSILON ==> !ControlFarPaddle(scene).up && !ControlFarPaddle(scene).down
    ensures var dx := SpherePos(scene, Ball).x - SpherePos(scene, FarPaddle).x;
            -EPSILON <= dx <= EPSILON ==> !ControlFarPaddle(scene).left && !ControlFarPaddle(scene).right
  {
  }

  /**
   * Only the x and y of the ball and the far paddle matter: two scenes
   * that agree on those give the same controls, whatever the z
   * coordinates and the near paddle are.
   */
  lemma ControlsIgnoreDepth(s1: Scene, s2: Scene)
    requires SpherePos(s1, Ball).x == SpherePos(s2, Ball).x && SpherePos(s1, Ball).y == SpherePos(s2, Ball).y
    requires SpherePos(s1, FarPaddle).x == SpherePos(s2, FarPaddle).x
    requires SpherePos(s1, FarPaddle).y == SpherePos(s2, FarPaddle).y
    ensures ControlFarPaddle(s1) == ControlFarPaddle(s2)
  {
  }

  /**
   * The controls drive the paddle's free acceleration towards the ball:
   * the x component of `to_vector` has the sign of ball.x − paddle.x
   * outside the dead zone, and likewise for y.
   */
  lemma ControlsPointAtBall(scene: Scene, speed: real)
    requires speed > 0.0
    ensures var v := ToVector(ControlFarPaddle(scene), speed);
            var dx := SpherePos(scene, Ball).x - SpherePos(scene, FarPaddle).x;
            var dy := SpherePos(scene, Ball).y - SpherePos(scene, FarPaddle).y;
            (dx > EPSILON ==> v.x == speed) && (dx < -EPSILON ==> v.x == -speed)
            && (-EPSILON <= dx <= EPSILON ==> v.x == 0.0)
            && (dy > EPSILON ==> v.y == speed) && (dy < -EPSILON ==> v.y == -speed)
            && (-EPSILON <= dy <= EPSILON ==> v.y == 0.0)
  {
  }
}
