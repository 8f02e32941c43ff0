# ray-ten, modelled in Dafny

ray-ten is a small 3D pong game. The ball and two paddles are spheres inside a box of six axis-aligned walls. Each frame is drawn by a lane-batched ray tracer. It traces eight rays at once, with one ray per SIMD lane. This project models the tracer and the game's discrete rules, states what they promise, and proves it.

It covers:

- **Lane math** (`Math`, `LaneAssign`).
  - A `Reals` batch holds eight reals; a `Points` holds three batches (xs, ys, zs).
  - Every operation works lane by lane.
  - The masked selects `update_reals_if` / `update_if` replace exactly the masked lanes.
  - `normalize` clamps into [0, 1].
  - The in-place operators agree with their binary forms.
  - The same definitions model the three copies of this code: `src/math.rs`, `src/render/mod.rs` and the reference-taking `src/simd/mod.rs`.
- **The tracing kernel** (`Tracer`).
  - `RaysProjections` is a class with the source's fields.
  - `with_axis_aligned_plane`, `with_sphere`, `reflect` and `finish` are methods, each proved equal to a step function on the state.
  - `trace_rays` is a loop over the scene's spheres and planes, then `reflect`.
  - The lemmas prove:
    - the hit rule `MIN_TOI < toi < min_toi`;
    - that `min_toi` never increases;
    - that the checkerboard mask is a subset of the hit mask;
    - that the sphere test's early returns are sound;
    - that sphere roots lie on the sphere (Lagrange's identity);
    - the reflection and termination rules;
    - that the loop ends within `max_depth` reflections.
- **The cameras** (`RenderCamera`, `SimdCamera`, `ScalarCamera`): pixel offsets become rays, and every primary ray points at z = −1.
- **The renderers**.
  - `Renderer` (`src/render/renderer.rs`):
    - the stratified `spread_samples` recursion, written into arrays as the code computes it, beside the corrected split of the Findings table;
    - the chunk-to-pixel index mapping;
    - averaging, square root and clamping;
    - the RGB byte write, which never touches alpha.
  - The older renderers, each proved to write the pixels and bytes its loops compute:
    - `BatchRender` (`src/render/render.rs`);
    - `SimdRender` (`src/simd/render.rs`);
    - `ScalarRender` (`src/render.rs`).
- **The older scenes**.
  - `BatchScene` (`src/render/scene.rs`): a `RaysProjections` variant, an obstacle table and a bounce loop that stops early.
  - `SimdScene` (`src/simd/scene.rs`): exactly `depth` bounces with attenuation 0.5; every result channel lies in [0.5^depth, 1].
- **Game rules**.
  - `Motion` (`src/motion.rs`): collision order, paddle clamping and bouncing.
  - `Ai` (`src/ai.rs`): the far-paddle controller.
  - `Game` (`src/game_driver.rs`): the menu/HUD state machine and the score.
  - `Colors` (`src/color.rs`): the scalar colour type.

The scene the newest tracer and the game use (`crate::scene`) is not part of this model. Only its interface is visible. `SceneApi` models it abstractly:

- a fixed layout: sphere radii, plane axes, offsets and normals, obstacle colours and reflectances;
- three sphere positions;
- `move_sphere_to` as its only mutator.

Value types (`Copy` structs and arrays) are Dafny datatypes. Structs whose fields the source updates through `&mut self` are classes:

- `Tracer.RaysProjections`, `BatchScene.RaysProjections`, `BatchScene.FixedScene`;
- `RenderCamera.Camera`;
- `Renderer.Renderer`;
- `Motion.MotionTicker`, `Game.GameState`, `Game.GameDriver`.

A `&mut` argument to a free function is an in-out parameter.

## Model

| member | source | states |
|---|---|---|
| Math.Clamp | src/math.rs:69-77 | The result lies in [lo, hi]. It is x when x is inside, lo below and hi above. |
| Math.Trunc | src/render/tracer.rs:90-92 | `as` truncation toward zero: the result is within 1 of x, on the side of 0. |
| Math.AsI32 | src/render/tracer.rs:90-92 | Saturating `as i32`: always in the i32 range, and equal to the truncation when that fits. |
| Math.AsU8 | src/render/renderer.rs:68-70 | Saturating `as u8`: the floor for values in [0, 256), 0 below, 255 above. |
| Math.SplatReals | src/math.rs:15-17 | Every lane holds x. The same operation is also at src/render/mod.rs:17-19. |
| Math.UpdateRealsIf | src/math.rs:19-21 | A masked lane takes `update_with`; every other lane keeps its value. The same operation is also at src/render/mod.rs:22-24. |
| Math.Plus | src/math.rs:170-179 | Lane-wise sum. |
| Math.Minus | src/math.rs:189-198 | Lane-wise difference. |
| Math.Times | src/math.rs:90-100 | Lane-wise product. |
| Math.Quot | src/math.rs:130-140 | Lane-wise quotient, for non-zero divisors. |
| Math.MaxReals | src/simd/scene.rs:124 | Each lane is at least both operands and equal to one of them. |
| Math.MinReals | src/simd/scene.rs:130 | Each lane is at most both operands and equal to one of them. |
| Math.SqrtReals | src/math.rs:61-67 | Each lane is the square root of its input. |
| Math.Gt | src/render/tracer.rs:78 | Lane i is set iff a[i] > b[i]. |
| Math.Lt | src/render/tracer.rs:78 | Lane i is set iff a[i] < b[i]. |
| Math.Ge | src/render/tracer.rs:119 | Lane i is set iff a[i] ≥ b[i]. |
| Math.Eq | src/render/tracer.rs:165 | Lane i is set iff a[i] = b[i]. |
| Math.And | src/render/tracer.rs:78 | Lane i is set iff it is set in both masks. |
| Math.Any | src/render/tracer.rs:79 | True iff some lane is set. |
| Math.All | src/simd/scene.rs:182 | True iff every lane is set. |
| Math.Splat | src/math.rs:41-47 | Every lane holds (x, y, z). The same operation is also at src/render/mod.rs:42-48 and src/simd/mod.rs:34-40. |
| Math.FromSingle | src/math.rs:49-51 | Every lane holds the point's three coordinates. |
| Math.GetAxis | src/math.rs:53-59 | XS, YS and ZS select xs, ys and zs. The same operation is also at src/render/mod.rs:51-57. |
| Math.SqrtPoints | src/math.rs:61-67 | Each component of each lane is square-rooted. The same operation is also at src/simd/mod.rs:42-48. |
| Math.ClampReals | src/math.rs:69-77 | Each lane is clamped into [0, 1]. |
| Math.Normalize | src/math.rs:69-77 | Every component of every lane lies in [0, 1]. Components already in [0, 1] are kept, so the unit cube is left unchanged. The same operation is also at src/render/mod.rs:69-77 and src/simd/mod.rs:50-58. |
| Math.NormalizeIdempotent | src/math.rs:69-77 | Normalizing twice is normalizing once. |
| Math.Dot | src/math.rs:79-81 | Lane i is xs·xs' + ys·ys' + zs·zs'. The same operation is also at src/render/mod.rs:80-82 and src/simd/mod.rs:60-62. |
| Math.DotSymmetric | src/math.rs:79-81 | The dot product is symmetric. |
| Math.UpdateIf | src/math.rs:83-87 | One mask for all three components: a masked lane takes all three new components, an unmasked lane keeps all three. The same operation is also at src/render/mod.rs:85-89. |
| Math.UpdateIfNone | src/math.rs:83-87 | With no lane set the batch is unchanged. |
| Math.Add | src/math.rs:170-179 | Component-wise, lane-wise sum. The same operation is also at src/simd/mod.rs:145-154. |
| Math.Sub | src/math.rs:189-198 | Component-wise, lane-wise difference. The same operation is also at src/render/mod.rs:191-200. |
| Math.Scale | src/math.rs:90-100 | All three components of lane i are scaled by r[i]. The same operation is also at src/render/mod.rs:92-102. |
| Math.Hadamard | src/math.rs:110-120 | Component-wise, lane-wise product. |
| Math.DivBy | src/math.rs:130-140 | All three components of lane i are divided by r[i], for non-zero divisors. |
| Math.ScaleBy | src/math.rs:150-160 | Every component of every lane is multiplied by x. |
| Math.LanesIndependent | src/math.rs:83-87 | Lane i of a sum, of a masked select and of a dot product depends only on lane i of the operands. |
| Math.NewPoint | src/math.rs:227-241 | `Point::new` stores (x, y, z, 0), and the three accessors return the arguments. |
| Math.GetCoord | src/math.rs:243-249 | XS, YS and ZS select x, y and z. |
| Math.SetCoord | src/math.rs:263-269 | Only the chosen coordinate changes, to v; the other two and the padding slot are kept. |
| Math.ToVector | src/math.rs:322-328 | x = speed·(right − left), y = speed·(up − down), z = 0. Opposite keys cancel. |
| Math.SqrtAtMostOne | src/math.rs:61-67 | An exact square root maps [0, 1] into [0, 1]. |
| LaneAssign.UpdateRealsIfInPlace | src/math.rs:19-21 | The in-place masked select gives the same batch as `UpdateRealsIf`. |
| LaneAssign.UpdateIfInPlace | src/math.rs:83-87 | Updating xs, ys, then zs under one mask equals `UpdateIf`; unmasked lanes keep all three. |
| LaneAssign.ScaleAssign | src/math.rs:102-108 | `*= Reals` equals the binary `Scale`. |
| LaneAssign.HadamardAssign | src/math.rs:122-128 | `*= Points` equals the binary `Hadamard`. |
| LaneAssign.DivAssign | src/math.rs:142-148 | `/= Reals` equals the binary `DivBy`. |
| LaneAssign.ScaleByAssign | src/math.rs:162-168 | `*= Real` equals the binary `ScaleBy`. |
| LaneAssign.AddAssign | src/math.rs:181-187 | `+=` equals the binary `Add`. The same operation is also at src/simd/mod.rs:156-162. |
| LaneAssign.SubAssign | src/math.rs:200-206 | `-=` equals the binary `Sub`. |
| LaneAssign.SetAxisInPlace | src/math.rs:251-269 | Writing through `get_axis_mut` changes only that coordinate. |
| SceneApi.MoveSphereTo | src/motion.rs:37 | Sphere s moves to p. Every other sphere and the layout are unchanged. |
| Ai.ControlFarPaddle | src/ai.rs:7-14 | up iff ball.y − paddle.y > 0.1; down iff paddle.y − ball.y > 0.1; left iff paddle.x − ball.x > 0.1; right iff ball.x − paddle.x > 0.1. |
| Ai.ControlsExclusive | src/ai.rs:9-12 | Opposite keys are never both pressed, and neither is pressed inside the 0.1 dead zone. |
| Ai.ControlsIgnoreDepth | src/ai.rs:9-12 | Only x and y of the two positions matter; z has no effect. |
| Ai.ControlsPointAtBall | src/ai.rs:9-12 | The paddle's movement on x is +speed when the ball is more than 0.1 to the right, −speed when more than 0.1 to the left, and 0 in between; likewise on y. |
| Motion.BounceNegatesNormal | src/motion.rs:158-160 | For a unit normal, bouncing negates the speed's normal component. |
| Motion.BounceKeepsTangent | src/motion.rs:158-160 | Bouncing keeps every component orthogonal to the normal. |
| Motion.BounceTwice | src/motion.rs:158-160 | For a unit normal, bouncing twice gives back the original speed. |
| Motion.Bounce | src/motion.rs:158-160 | The reflection v − 2(v·n)n; its properties are the three lemmas above. |
| Motion.MovePaddle | src/motion.rs:80-107 | An x (or y) speed is negated exactly when the free move reaches or passes that axis's limit. The paddle ends within [left+1, right−1] × [bottom+1, top−1]: at the free position when strictly inside, exactly on the limit it reached or passed otherwise. With zero z speed, z is kept. Other spheres and the layout are unchanged. |
| Motion.CollideWithPlanes | src/motion.rs:109-132 | The min plane is tested first, then the max plane, else no collision. A collision moves only that axis, to min_offset + r or max_offset − r. |
| Motion.CollideSpheres | src/motion.rs:134-156 | No contact iff the distance is not below ra + rb. When touching, the normal is diff / distance and sphere a sits at b + normal·(ra + rb). Coincident centres are reported separately. |
| Motion.FirstSphereHitIsFirst | src/motion.rs:53-61 | The reported sphere contact is the first in test order; every sphere before it is apart. |
| Motion.FirstPlaneHitIsFirst | src/motion.rs:63-75 | The reported plane collision is the first pair in order X, Y, Z; the pairs before it report none. |
| Motion.TickOrder | src/motion.rs:29-78 | On the moved scene, the far paddle is reported iff it touches the ball. The near paddle is reported iff the far one is apart and the near one touches. A plane is reported only when both paddles are apart, and the ball's speed is then bounced off that plane's normal. No collision is reported iff nothing touches, and then the ball's speed is unchanged. |
| Motion.TickKeepsPaddles | src/motion.rs:29-78 | After a tick both paddles are within their x and y limits and the layout is unchanged. Paddles without z speed keep their z and their zero z speed. |
| Motion.TickResult | src/motion.rs:29-78 | One motion step: both paddles move, then the collisions are resolved; its properties are TickOrder and TickKeepsPaddles. |
| Motion.MotionTicker.constructor | src/motion.rs:21-27 | Ball speed (1.5, 4.5, −4); paddle speeds zero. |
| Motion.MotionTicker.Tick | src/motion.rs:29-78 | The result, new scene and new speeds are those of `TickResult`, and paddle speeds keep z = 0. |
| Game.MenuItems | src/game_driver.rs:70-92 | MainMenu has 2 items (NewGame, Exit), Hud 0, PauseMenu 3 (Continue, EndGame, Exit), EndGame 1 (MainMenu). |
| Game.Down | src/game_driver.rs:164-168 | The selection moves to the next item, wrapping to 0, and stays below the menu length. |
| Game.Up | src/game_driver.rs:159-163 | The selection moves to the previous item, wrapping to the last, and stays below the menu length. |
| Game.UpDownInverse | src/game_driver.rs:159-168 | Up undoes Down and Down undoes Up. |
| Game.UpAsWritten | src/game_driver.rs:159-163 | The as-written `(sel − 1) % len` on a 64-bit usize: in bounds, and equal to `Up` except at 0. |
| Game.UpAsWrittenSticksAtTop | src/game_driver.rs:159-163 | In the pause menu, Up at item 0 stays at 0 as written, whereas the wrapping reading gives 2. |
| Game.SelectionAsWritten | src/game_driver.rs:159-168 | The selection the code as written computes from Up (underflowing) and Down; always in bounds. |
| Game.InputsUpAsWritten | src/game_driver.rs:137-172 | Past the timeout with no action, `Inputs` selects what the code as written selects, except exactly at the first entry of the pause menu with Up pressed. |
| Game.Inputs | src/game_driver.rs:137-172 | The selection stays in bounds and the UI state is unchanged. Any returned action resets the timer. Up at the first entry uses the wrapping `Up` (see Left out and InputsUpAsWritten). |
| Game.InputsDebounced | src/game_driver.rs:138-141 | Below the 0.2 s timeout nothing happens except that the frame time is added. |
| Game.InputsActions | src/game_driver.rs:142-158 | Hud yields only Pause; a menu yields its selected item or, from the pause menu, Continue. |
| Game.InputsKeys | src/game_driver.rs:142-158 | In Hud only Escape acts, giving Pause. In a menu, Enter gives the selected item's action before Escape is read, and Escape gives Continue only in the pause menu. |
| Game.UpAndDownCancel | src/game_driver.rs:159-168 | Up and Down pressed together leave the selection unchanged and reset the timer. |
| Game.AfterAction | src/game_driver.rs:174-201 | NewGame goes to Hud with score 0. Pause, EndGame and MainMenu go to that state with selection and timer reset. Continue goes to Hud keeping the selection. Exit changes nothing. |
| Game.ActionKeepsSelectionInBounds | src/game_driver.rs:174-201 | Every action keeps the selection within the new menu. |
| Game.ScoreDelta | src/game_driver.rs:47-51 | −1 iff the ball hit the near wall, +1 iff it hit the far wall, 0 otherwise. |
| Game.KeyDirections | src/game_driver.rs:209-214 | The arrow keys become the four directions unchanged. |
| Game.GameState.constructor | src/game_driver.rs:22-29 | The given scene, the initial motion speeds, a camera at (1, −1, 0) with the view port of width 2 and aspect width/height, and a renderer of the frame size with the game's samples per pixel and depth. |
| Game.GameState.Advance | src/game_driver.rs:31-52 | The scene and speeds follow `TickResult`. The camera moves to the near paddle's x and y. The score delta is `ScoreDelta` of the result, in [−1, 1]. |
| Game.GameDriver.constructor | src/game_driver.rs:108-123 | Main menu, selection 0, timer 0, score 0. |
| Game.GameDriver.ProcessInputs | src/game_driver.rs:137-172 | The action and the new menu are `Inputs`, with the wrapping Up; score and game are untouched. |
| Game.GameDriver.ProcessAction | src/game_driver.rs:174-201 | Menu and score follow `AfterAction`. NewGame installs a fresh game state; every other action keeps it. |
| Game.GameDriver.Advance | src/game_driver.rs:203-221 | Nothing changes in the pause menu. Otherwise the game advances with the AI on the far paddle and the keys on the near one, the camera moves to the near paddle's x and y, and the score moves by the tick's delta. |
| Game.GameDriver.NextFrame | src/game_driver.rs:125-135 | Returns false exactly when the polled action is Exit, in which case no action is applied. |
| Colors.Normalize | src/color.rs:12-18 | Every channel lies in [0, 1]; channels already there are kept. |
| Colors.NormalizeIdempotent | src/color.rs:12-18 | Normalizing twice is normalizing once. |
| Colors.ChannelByte | src/color.rs:20-26 | For c in [0, 1] the byte is ⌊c·255⌋; at or below 0 it is 0, at or above 1 it is 255. |
| Colors.IntoRgb | src/color.rs:20-26 | Each byte is `ChannelByte` of its channel. |
| Colors.IntoRgbExtremes | src/color.rs:20-26 | Black gives (0, 0, 0) and white gives (255, 255, 255). |
| Colors.R | src/color.rs:28-31 | Channel 0. |
| Colors.G | src/color.rs:33-36 | Channel 1 (the intended getter). |
| Colors.B | src/color.rs:38-41 | Channel 2 (the intended getter). |
| Colors.GAsWritten | src/color.rs:33-36 | `g()` as written: channel 0. |
| Colors.BAsWritten | src/color.rs:38-41 | `b()` as written: channel 0. |
| Colors.GetterAsWrittenMismatch | src/color.rs:33-41 | As written, `g()` of (0, 1, 0) is 0 where its green channel is 1, and `b()` of (0, 0, 1) is 0 where its blue channel is 1. |
| Colors.GettersRebuild | src/color.rs:28-41 | The corrected getters rebuild the colour: `Color::new(r, g, b)` is the original. |
| Colors.Scale | src/color.rs:59-65 | Each channel is multiplied by the scalar. |
| Colors.Hadamard | src/color.rs:75-85 | Channel-wise product. |
| Colors.Sum | src/color.rs:95-105 | Channel-wise sum. |
| Colors.ScaleAssign | src/color.rs:67-73 | `*= f32`, one channel at a time, equals `Scale`. |
| Colors.HadamardAssign | src/color.rs:87-93 | `*= Color` equals `Hadamard`. |
| Colors.SumAssign | src/color.rs:107-113 | `+= Color` equals `Sum`. |
| Colors.Blend | src/color.rs:44-46 | The result is the unit-clamped average of both colours, in [0, 1]. |
| Colors.BlendProperties | src/color.rs:44-46 | Blend is symmetric, and blending a unit colour with itself gives it back. |
| Colors.BlendWithCoef | src/color.rs:49-52 | For coef ≤ 1 the result is in [0, 1]; coef 1 gives the first colour and coef 0 the second (when in unit range). |
| Colors.Sqrt | src/color.rs:54-56 | Each channel is square-rooted. |
| RenderCamera.ViewRays | src/render/camera.rs:28-36 | Every lane's origin is the camera origin. Lane i's direction is base + x_axis·x[i] + y_axis·y[i]. |
| RenderCamera.Camera.constructor | src/render/camera.rs:11-21 | For a non-zero aspect ratio: origin (1, −1, 0), h = w / aspect, base (−w/2, h/2, −1), x axis (w, 0, 0), y axis (0, −h, 0). |
| RenderCamera.Camera.MoveOriginTo | src/render/camera.rs:23-26 | Only origin x and y change; origin z and the view port are kept. |
| RenderCamera.Camera.PixelRays | src/render/camera.rs:28-36 | The rays of the current view, as in `ViewRays`. |
| RenderCamera.Camera.PixelRayTargets | src/render/camera.rs:28-36 | With the constructor's view port, lane i's direction is (w(x − ½), h(½ − y), −1): every primary ray has z = −1, and centre offsets look straight ahead. |
| ScalarCamera.NewCamera | src/camera.rs:11-21 | Origin (1, 0.3, 0), h = 2 / aspect, base (−1, h/2, −1), axes (2, 0, 0) and (0, −h, 0). |
| ScalarCamera.PixelRay | src/camera.rs:23-30 | The origin is the camera's; the direction is base + x_axis·x + y_axis·y. |
| ScalarCamera.PixelRayOfNewCamera | src/camera.rs:17-28 | From a fresh camera the direction is (2x − 1, h(½ − y), −1), so z = −1. |
| SimdCamera.NewCamera | src/simd/camera.rs:11-21 | Origin 0, h = 2 / aspect, base (−1, h/2, −1), axes (2, 0, 0) and (0, −h, 0). |
| SimdCamera.PixelRays | src/simd/camera.rs:23-31 | All lanes share the origin; lane i's direction is base + x_axis·x[i] + y_axis·y[i]. |
| SimdCamera.PixelRaysOfNewCamera | src/simd/camera.rs:18-26 | From a fresh camera every lane direction has z = −1. |
| Tracer.PlaneTois | src/render/tracer.rs:76-77 | A lane with non-zero direction gets (offset − origin) / dir. |
| Tracer.PlaneCandidates | src/render/tracer.rs:76-77 | A lane is a candidate iff its direction on the axis is non-zero. |
| Tracer.HitMask | src/render/tracer.rs:78 | Lane i is set iff it is a candidate and MIN_TOI < toi[i] < min_toi[i]. |
| Tracer.WrapI32 | src/render/tracer.rs:90-92 | Two's-complement i32 wrap-around of `+`: always in the i32 range. |
| Tracer.RemI32By2 | src/render/tracer.rs:93 | `% 2` truncated toward zero: in {−1, 0, 1}. |
| Tracer.WrapSumParity | src/render/tracer.rs:90-93 | Wrapping the two additions does not change the parity of the sum. |
| Tracer.RemI32By2Zero | src/render/tracer.rs:93 | The truncating remainder is 0 iff the value is even. |
| Tracer.CheckerParity | src/render/tracer.rs:86-96 | A point is on a zero square iff the sum of its three truncated scaled coordinates is even. |
| Tracer.Checkered | src/render/tracer.rs:86-96 | The checker mask is the hit mask restricted to lanes on a zero square, so it is a subset of the hit mask. |
| Tracer.DiscBelowStages | src/render/tracer.rs:113-128 | Each subtracted square only lowers the discriminant: full ≤ second stage ≤ first stage. |
| Tracer.StageNegative | src/render/tracer.rs:119-126 | If no lane of an early stage is ≥ 0, no lane's full discriminant is either, so the early returns drop no hit. |
| Tracer.Root | src/render/tracer.rs:141-142 | `max(num / dss, 0)`: never negative, and the quotient itself when that is defined and non-negative. |
| Tracer.LaneToi | src/render/tracer.rs:135-144 | The candidate `min(max(t1, 0), max(t2, 0))` is never negative. |
| Tracer.SphereToiAt | src/render/tracer.rs:135-144 | A lane's sphere candidate toi is never negative. |
| Tracer.LaneToiIsRoot | src/render/tracer.rs:135-144 | A positive candidate toi puts origin + toi·dir on the sphere. |
| Tracer.RootsOnSphere | src/render/tracer.rs:135-144 | Both quadratic roots lie on the sphere. |
| Tracer.Lagrange | src/render/tracer.rs:113-128 | Lagrange's identity: the three squared cross terms add up to \|d\|²\|e\|² − (d·e)². |
| Tracer.Expand | src/render/tracer.rs:135-144 | \|e + t·d\|² expands to \|e\|² + 2t(d·e) + t²\|d\|². |
| Tracer.QuadraticRoot | src/render/tracer.rs:135-144 | t = (−p ± √disc) / D solves the sphere equation. |
| Tracer.Init | src/render/tracer.rs:50-61 | min_toi and reflectances f32::MAX, zero colours, normals and offset, white coef, depth_left = max_depth. |
| Tracer.PlaneMaskIsWins | src/render/tracer.rs:76-78 | The plane's hit mask is exactly the set of lanes the plane wins. |
| Tracer.PlaneStep | src/render/tracer.rs:63-99 | Only the hit fields change. A lane the plane wins takes toi, the colour and the normal, and the reflectance (0 if on a zero square). Every other lane keeps all four. |
| Tracer.SphereDiscs | src/render/tracer.rs:113-128 | The three discriminant stages, lane by lane. |
| Tracer.SphereTois | src/render/tracer.rs:135-144 | Each lane is that lane's candidate toi. |
| Tracer.SphereNormals | src/render/tracer.rs:151-153 | Lane i is (origin + dir·toi − centre) / radius. |
| Tracer.SphereStep | src/render/tracer.rs:101-157 | Only the hit fields change. A lane is updated iff its discriminant is ≥ 0 and MIN_TOI < toi < min_toi; it then gets toi, the normal (poi − centre) / radius, the colour and the reflectance. The early returns included. |
| Tracer.SphereHit | src/render/tracer.rs:130-156 | The update after the early returns follows the same lane rule. |
| Tracer.ReflectStep | src/render/tracer.rs:159-180 | offset += coef·colour, coef *= reflectance, depth_left decreases. It stops iff depth_left was 1 or every reflectance is 0. Only when it goes on are the rays replaced by (poi, dir − 2(dir·n)n) and min_toi reset. |
| Tracer.Finished | src/render/tracer.rs:182-186 | offset + coef·base. |
| Tracer.FinishedWhite | src/render/tracer.rs:33 | With a white base the trace is offset + coef. |
| Tracer.SpheresPass | src/render/tracer.rs:12-19 | The sphere loop changes only hit fields. |
| Tracer.PlanesPass | src/render/tracer.rs:20-28 | The plane loop changes only hit fields. |
| Tracer.Search | src/render/tracer.rs:12-28 | The closest-hit search changes only hit fields. |
| Tracer.ReflectionsBounded | src/render/tracer.rs:9-34 | The loop reflects at least once and at most max_depth times. |
| Tracer.TraceIsOffsetPlusCoef | src/render/tracer.rs:33 | The traced colour is the final offset + coef. |
| Tracer.PlaneStepKeepsMinToi | src/render/tracer.rs:78-82 | min_toi never increases, and every lane keeps either the sentinel or a value above MIN_TOI. |
| Tracer.SphereStepKeepsMinToi | src/render/tracer.rs:145-147 | The same for a sphere test. |
| Tracer.SearchKeepsMinToi | src/render/tracer.rs:12-28 | The same across a whole search. |
| Tracer.UnhitLaneKeepsSentinel | src/render/tracer.rs:54 | A lane the first search misses keeps reflectance f32::MAX, so its coef is multiplied by f32::MAX. |
| Tracer.ReflectAttenuates | src/render/tracer.rs:161 | With a reflectance in [0, 1] a lane's coef does not grow and stays non-negative. |
| Tracer.RaysProjections.constructor | src/render/tracer.rs:50-61 | The state is `Init(rays, max_depth)`. |
| Tracer.RaysProjections.WithAxisAlignedPlane | src/render/tracer.rs:63-99 | The new state is `PlaneStep` of the old. |
| Tracer.RaysProjections.WithSphere | src/render/tracer.rs:101-157 | The new state is `SphereStep` of the old, for a non-zero radius. |
| Tracer.RaysProjections.Reflect | src/render/tracer.rs:159-180 | The new state and the returned flag are `ReflectStep` of the old state. |
| Tracer.RaysProjections.Finish | src/render/tracer.rs:182-186 | Returns `Finished` of the state. |
| Tracer.SearchSpheres | src/render/tracer.rs:12-19 | The projections end at `SpheresPass`. |
| Tracer.SearchPlanes | src/render/tracer.rs:20-28 | The projections end at `PlanesPass`. |
| Tracer.TraceRays | src/render/tracer.rs:9-34 | For max_depth ≥ 1 the colours are `Trace`, reached after between 1 and max_depth reflections. |
| Renderer.Halves | src/render/renderer.rs:92-117 | Corrected split (cut at top − height/2, the Findings row): both halves of a non-degenerate rectangle lie inside it, split in x when wider, else in y. |
| Renderer.SampleAt | src/render/renderer.rs:76-120 | The corrected `spread_samples` recursion: one sample is the centre; more are split ⌊n/2⌋ into the first half and the rest into the second. |
| Renderer.SampleInside | src/render/renderer.rs:76-120 | With the corrected height split, every sample point lies inside its rectangle. |
| Renderer.SamplesOfUnitSquare | src/render/renderer.rs:83-85 | Corrected split: one sample of the unit square sits at (0.5, 0.5); two sit at (0.5, 0.75) and (0.5, 0.25). |
| Renderer.HalvesAsWritten | src/render/renderer.rs:90-117 | The split as written: in x at left + width/2 when wider, else in y at top + height/2. |
| Renderer.SampleAtAsWritten | src/render/renderer.rs:76-120 | `spread_samples` as written; every sample's x lies strictly between the rectangle's left and right edges, for every sample count. |
| Renderer.SingleSampleIsCentre | src/render/renderer.rs:83-85 | One sample, as written and corrected alike, is the rectangle's centre. |
| Renderer.SamplesAsWrittenEscape | src/render/renderer.rs:105-117 | As written, two samples land at (0.5, 1.25) and (0.5, 0.75): the first is outside the unit square and differs from the corrected split's. |
| Renderer.SpreadSamples | src/render/renderer.rs:76-120 | Every slot in [lo, hi) of both arrays is written with its sample point as the code computes it (`SampleAtAsWritten`), and every slot outside is unchanged. |
| Renderer.Shade | src/render/renderer.rs:67-71 | Bytes 0..2 are `ChannelByte` of the lane's channels; alpha is kept. |
| Renderer.ChannelByteExact | src/render/renderer.rs:68-70 | For c and coef in [0, 1] the byte is ⌊c·255·coef⌋; 1·1 gives 255 and coef 0 gives 0. |
| Renderer.ChunkIndex | src/render/renderer.rs:43 | Buffer index n·LANES + i lies in chunk n, slot i. |
| Renderer.ChunkPixel | src/render/renderer.rs:47-54 | n·LANES + i = y·width + x·LANES + i, with the column inside the row, so chunks cover the pixels disjointly. |
| Renderer.ShadeChunk | src/render/renderer.rs:67-71 | Writes pixels n·LANES .. n·LANES + 7 through `Shade`; nothing else changes. |
| Renderer.ShadedPrefixStep | src/render/renderer.rs:46-72 | Shading chunk n after chunks 0..n−1 gives the first n+1 chunks shaded. |
| Renderer.InsideCell | src/render/renderer.rs:57-60 | An offset in (0, 1) keeps the normalised coordinate strictly inside its pixel's cell. |
| Renderer.DivMonotone | src/render/renderer.rs:59-60 | Dividing by a positive size keeps strict order. |
| Renderer.Renderer.constructor | src/render/renderer.rs:22-39 | Width and height as reals, lanes_per_line = width / LANES, and every sample slot filled by `spread_samples`, as written, over the unit square. |
| Renderer.Renderer.DeltasInUnitSquare | src/render/renderer.rs:28 | Every stored x delta lies strictly inside (0, 1); with one sample per pixel (the game's setting) the y delta is 0.5. |
| Renderer.Renderer.XOffsets | src/render/renderer.rs:51-59 | Lane i is (x·LANES + i + dx[s][i]) / width. |
| Renderer.Renderer.YOffsets | src/render/renderer.rs:52-60 | Lane i is (y + dy[s][i]) / height. |
| Renderer.Renderer.OffsetsInPixel | src/render/renderer.rs:51-60 | Each x offset lies strictly inside its pixel's column and inside (0, 1); with one sample per pixel the y offset lies inside its row and inside (0, 1) too. |
| Renderer.Renderer.ChunkColors | src/render/renderer.rs:49-66 | A chunk's colour is in the unit cube: the clamp of the square root of the sample average. |
| Renderer.Renderer.FrameColors | src/render/renderer.rs:46-66 | One colour batch per chunk. |
| Renderer.Renderer.Render | src/render/renderer.rs:41-73 | Every chunk's eight pixels get the bytes of its colour, alpha untouched, and pixels past the last whole chunk are unchanged. |
| Renderer.Renderer.TraceChunk | src/render/renderer.rs:46-66 | The chunk's colour is `ChunkColors`. |
| Renderer.Renderer.SumSamples | src/render/renderer.rs:50-64 | The sum of `trace_rays` over all samples. |
| Renderer.Renderer.AddSample | src/render/renderer.rs:51-63 | One more sample added to the running sum. |
| BatchScene.Ordinal | src/render/scene.rs:168-180 | The discriminant is below OBSTACLE_COUNT = 7. |
| BatchScene.TablesWellFormed | src/render/scene.rs:180-223 | Every table has 7 entries and every reflectance lies in [0, 1]. |
| BatchScene.WallsFaceInside | src/render/scene.rs:236-252 | The walls are tested Top, Bottom, Left, Right, Far, Near on their own axes, and each wall's normal points into the box. |
| BatchScene.UnitNormals | src/render/scene.rs:133-137 | Lane i of the normal is (poi − centre) divided by its own length. |
| BatchScene.UnitSphereStep | src/render/scene.rs:86-141 | Only hit fields change; lanes follow the sphere rule with length-normalised normals. |
| BatchScene.UnitSphereStepLanes | src/render/scene.rs:86-141 | A won lane gets toi, colour, reflectance and the normalised normal; every other lane keeps all four. |
| BatchScene.UnitSphereHit | src/render/scene.rs:115-140 | The update past the early returns follows the same lane rule. |
| BatchScene.UnitSphereHitLanes | src/render/scene.rs:115-140 | Lane by lane, the same rule. |
| BatchScene.WinningLaneMoves | src/render/scene.rs:115-132 | A lane the sphere wins has a non-zero direction. |
| BatchScene.WinningMagnitudeIsRadius | src/render/scene.rs:133-137 | With an exact square root, a won lane's normal length equals the radius. |
| BatchScene.MagnitudeOnSphere | src/render/scene.rs:133-137 | A point on the sphere is at distance radius from the centre. |
| BatchScene.WinningPoiOnSphere | src/render/scene.rs:115-137 | A won lane's point of intersection lies on the sphere. |
| BatchScene.OnSphere | src/render/scene.rs:115-137 | The same, for the lane's coordinates. |
| BatchScene.SqrtOfSquare | src/render/scene.rs:133-137 | An exact square root of r² is r for r > 0. |
| BatchScene.NonNegativeRoot | src/render/scene.rs:133-137 | The non-negative square root of r² is r, for r > 0. |
| BatchScene.UnitSphereStepIsSphereStep | src/render/scene.rs:86-141 | With an exact square root and a positive radius, dividing by the normal's length is dividing by the radius, so this step equals the newer tracer's. |
| BatchScene.LanesAgree | src/render/scene.rs:133-137 | The two normal forms agree lane by lane. |
| BatchScene.UnitSphereStepKeepsMinToi | src/render/scene.rs:86-141 | min_toi does not increase, and stays the sentinel or above MIN_TOI. |
| BatchScene.ReflectAlwaysStopsWhenAbsorbed | src/render/scene.rs:144-158 | min_toi is always reset, and offset += coef·colour in every lane. It stops iff every reflectance is 0, and then coef is black. |
| BatchScene.Apply | src/render/scene.rs:229-264 | Each test is a plane or sphere step. |
| BatchScene.Pass | src/render/scene.rs:229-264 | The tests in order; only hit fields change. |
| BatchScene.PassSnoc | src/render/scene.rs:229-264 | Running one more test appends it to the pass. |
| BatchScene.Tests | src/render/scene.rs:229-264 | Nine tests in this order: the scene sphere; Top, Bottom, Left, Right, Far, Near; two radius-4 bounding spheres with reflectance 0. |
| BatchScene.SceneColorsDepthZero | src/render/scene.rs:227-270 | With depth 0 every lane is white. |
| BatchScene.PassKeepsMinToi | src/render/scene.rs:229-264 | min_toi does not increase across a pass. |
| BatchScene.RaysProjections.constructor | src/render/scene.rs:39-49 | The state is `Init(rays, 0)`. |
| BatchScene.RaysProjections.WithAxisAlignedPlane | src/render/scene.rs:52-83 | The variant plane step. |
| BatchScene.RaysProjections.WithSphere | src/render/scene.rs:86-141 | The variant sphere step with early returns. |
| BatchScene.RaysProjections.SphereHit | src/render/scene.rs:115-140 | The update past the early returns. |
| BatchScene.RaysProjections.Reflect | src/render/scene.rs:144-158 | The variant reflection and its flag. |
| BatchScene.RaysProjections.Finish | src/render/scene.rs:161-165 | offset + coef·base. |
| BatchScene.RaysProjections.ApplyTest | src/render/scene.rs:229-264 | One test of the pass. |
| BatchScene.RaysProjections.SearchAll | src/render/scene.rs:230-264 | The whole pass. |
| BatchScene.RaysProjections.Bounce | src/render/scene.rs:229-267 | One pass and one reflection. |
| BatchScene.FixedScene.constructor | src/render/scene.rs:15-19 | The sphere centre is (−2, −1, −6) in every lane. |
| BatchScene.FixedScene.MoveSphere | src/render/scene.rs:21-25 | Adds (dx, dy, dz) to the centre in every lane; nothing else changes. |
| BatchScene.FixedScene.RaysColors | src/render/scene.rs:227-270 | The colours are `SceneColors` after at most depth bounces, and at least one when depth > 0. |
| SimdScene.Ordinal | src/simd/scene.rs:24-36 | The discriminant is below OBSTACLE_COUNT. |
| SimdScene.TablesWellFormed | src/simd/scene.rs:36-70 | Every table has one entry per obstacle, and every hittable colour is at most ½ in each channel. |
| SimdScene.FreshHits | src/simd/scene.rs:169-171 | Each bounce starts from min_toi f32::MAX and zero colours and normals. |
| SimdScene.PlaneTestLanes | src/simd/scene.rs:85-95 | A lane is updated iff MIN_TOI < toi < min_toi; it gets toi, colour and normal, and every other lane keeps all three. |
| SimdScene.SphereTestLanes | src/simd/scene.rs:107-158 | The returned mask is exactly the won lanes, which get toi, colour and normal; the rest keep all three. With no d ≥ 0 the all-false mask returns with no change. |
| SimdScene.SphereNormalIsRadial | src/simd/scene.rs:148-156 | With an exact square root a won lane's normal is (poi − centre) / 0.5. |
| SimdScene.RadialLane | src/simd/scene.rs:148-152 | The normal's length is the radius. |
| SimdScene.PlaneTestKeepsHitOrMiss | src/simd/scene.rs:85-95 | Each lane stays a miss (sentinel, black) or a hit above MIN_TOI with a half-bright colour. |
| SimdScene.SphereTestKeepsHitOrMiss | src/simd/scene.rs:107-158 | The same for the sphere test. |
| SimdScene.SearchHitOrMiss | src/simd/scene.rs:169-236 | After a search each lane is a miss or a half-bright hit. |
| SimdScene.MissPassesThrough | src/simd/scene.rs:238-245 | A lane with no hit keeps its direction and adds no colour. |
| SimdScene.Half | src/simd/scene.rs:245 | 0.5^k lies in (0, 1]. |
| SimdScene.AccumulateStep | src/simd/scene.rs:244-245 | One accumulation keeps the offset within [0, 1 − coef]. |
| SimdScene.ReflectBounds | src/simd/scene.rs:238-245 | Reflecting halves the attenuation and keeps the offset within [0, 1 − h/2]. |
| SimdScene.AccumulateLane | src/simd/scene.rs:244 | The same for one lane. |
| SimdScene.BounceBounds | src/simd/scene.rs:168-246 | A whole bounce halves the attenuation and keeps the offset bound. |
| SimdScene.IterateAttenuates | src/simd/scene.rs:168-246 | k halving steps from the start reach attenuation 0.5^k. |
| SimdScene.BouncedBounds | src/simd/scene.rs:168-246 | After k bounces coef = 0.5^k everywhere and the offset lies in [0, 1 − 0.5^k]. |
| SimdScene.StartAttenuated | src/simd/scene.rs:164-165 | The loop starts with attenuation 1 and offset 0. |
| SimdScene.SceneColorsInUnit | src/simd/scene.rs:163-251 | Every result channel lies in [0.5^depth, 1]. |
| SimdScene.SceneColorsDepthZero | src/simd/scene.rs:248-250 | With depth 0 every lane is white. |
| SimdScene.IntersectPlane | src/simd/scene.rs:77-97 | The new batches are `PlaneTest`. |
| SimdScene.IntersectSphere | src/simd/scene.rs:99-159 | The new batches and the mask are `SphereTest`. |
| SimdScene.SearchObstacles | src/simd/scene.rs:169-236 | Fresh batches, the sphere, and the six walls unless the sphere won every lane: `Search`. |
| SimdScene.BounceOnce | src/simd/scene.rs:168-246 | One pass of the loop: `Bounce`. |
| SimdScene.NewScene | src/simd/scene.rs:17-21 | The sphere sits at (−1, 0.7, −4) in every lane. |
| SimdScene.RaysColors | src/simd/scene.rs:163-251 | Exactly depth bounces, then offset + coef: `SceneColors`. |
| BatchRender.XJitter | src/render/render.rs:28-33 | One x-delta batch per sample. |
| BatchRender.YJitter | src/render/render.rs:28-33 | One y-delta batch per sample. |
| BatchRender.DrawsUsedOnce | src/render/render.rs:28-33 | Every random draw feeds exactly one (sample, lane, axis) slot, and no two slots share one. |
| BatchRender.DrawDeltas | src/render/render.rs:24-33 | The nested fill loops produce `XJitter` and `YJitter`. |
| BatchRender.XOffsets | src/render/render.rs:45-54 | Lane i is (x·LANES + i + dx[s][i]) / width. |
| BatchRender.YOffsets | src/render/render.rs:46-55 | Lane i is (y + dy[s][i]) / height. |
| BatchRender.FrameColors | src/render/render.rs:37-60 | One colour batch per chunk. |
| BatchRender.ChunkColorsBytes | src/render/render.rs:59-65 | Each lane's colour is in [0, 1], so its bytes are ⌊c·255⌋. |
| BatchRender.JitterInCell | src/render/render.rs:51-55 | A delta in [0, 1) keeps the coordinate inside the pixel's cell and inside [0, 1). |
| BatchRender.ChunkSamplesItsPixel | src/render/render.rs:40-55 | Chunk n, lane i samples pixel ((n mod lanes_per_line)·LANES + i, n / lanes_per_line), inside its cell. |
| BatchRender.Render | src/render/render.rs:12-66 | Every whole chunk gets its bytes, with alpha untouched. |
| BatchRender.TraceChunk | src/render/render.rs:40-60 | The chunk's colour. |
| BatchRender.SumSamples | src/render/render.rs:43-58 | The sum of `rays_colors` over all samples. |
| BatchRender.AddSample | src/render/render.rs:44-58 | One more sample added. |
| SimdRender.SceneColorsBetween | src/simd/scene.rs:163-251 | Every scene colour lies in [0.5^depth, 1]. |
| SimdRender.AddBetween | src/simd/render.rs:50 | Adding a sample keeps the running sum's bounds. |
| SimdRender.RepeatedSumIsProduct | src/simd/render.rs:37-51 | k additions of h equal k·h. |
| SimdRender.SumUpToBetween | src/simd/render.rs:37-51 | A sum of k samples in [h, 1] lies in [k·h, k]. |
| SimdRender.SampleBetween | src/simd/render.rs:49-50 | Each sample lies in [0.5^depth, 1]. |
| SimdRender.SamplerBetween | src/simd/render.rs:37-51 | Every sample does. |
| SimdRender.SampleSumBounds | src/simd/render.rs:37-51 | The sum over spp samples lies in [spp·0.5^depth, spp]. |
| SimdRender.DivBounds | src/simd/render.rs:52 | Dividing bounds by n. |
| SimdRender.DivByBetween | src/simd/render.rs:52 | The average lies in [0.5^depth, 1]. |
| SimdRender.SqrtInUnit | src/simd/render.rs:53 | Its square root is in the unit cube. |
| SimdRender.NormalizeIsIdentity | src/simd/render.rs:52-53 | The clamp after the square root changes nothing. |
| SimdRender.TargetBytes | src/simd/render.rs:52-63 | Each pixel's bytes are ⌊c·255⌋ of the square-rooted average; with 0 samples the pixel is black. |
| SimdRender.Render | src/simd/render.rs:14-66 | Every pixel with column below (width / LANES)·LANES gets its target bytes; every later column is never written. |
| SimdRender.RenderRow | src/simd/render.rs:35-65 | Every group of row y is written; every other pixel is kept. |
| SimdRender.PutGroup | src/simd/render.rs:54-63 | Pixels x·LANES .. x·LANES + 7 of row y get their bytes; nothing else changes. |
| SimdRender.TraceGroup | src/simd/render.rs:36-53 | The group's colour. |
| ScalarRender.XJitter | src/render.rs:17-23 | One x delta per sample. |
| ScalarRender.YJitter | src/render.rs:17-23 | One y delta per sample. |
| ScalarRender.Interleave | src/render.rs:20-23 | Interleaving two delta lists doubles the length. |
| ScalarRender.InterleaveAt | src/render.rs:20-23 | Draw 2s is xs[s] and draw 2s + 1 is ys[s]. |
| ScalarRender.JitterSplitsDraws | src/render.rs:20-23 | Splitting and re-interleaving gives back the draws, so each is used exactly once. |
| ScalarRender.DrawDeltas | src/render.rs:17-23 | The fill loop produces `XJitter` and `YJitter`. |
| ScalarRender.TargetBytes | src/render.rs:35-39 | The pixel's bytes are `IntoRgb` of its colour; with 0 samples the pixel is black. |
| ScalarRender.SampleInPixel | src/render.rs:29-32 | Sample s of (x, y) is `pixel_ray((x + dx) / width, (y + dy) / height)`, inside the pixel's cell. |
| ScalarRender.SampleSumBounds | src/render.rs:28-34 | With scene colours in [0, 1], a sum of k samples is at most k per channel. |
| ScalarRender.ScaleBounds | src/render.rs:35 | Multiplying by 1/n maps [0, n] into [0, 1]. |
| ScalarRender.AverageInUnit | src/render.rs:35 | The average lies in [0, 1]. |
| ScalarRender.SqrtInUnit | src/render.rs:36 | So does its square root. |
| ScalarRender.NormalizeIsIdentity | src/render.rs:35-38 | The clamp after the square root changes nothing. |
| ScalarRender.ScaleStep | src/render.rs:33 | Adding c to (k−1)·c gives k·c. |
| ScalarRender.SampleSumOfConstant | src/render.rs:28-34 | A scene of constant colour c sums to k·c. |
| ScalarRender.ScaleBack | src/render.rs:35 | Scaling by k then by 1/k is the identity. |
| ScalarRender.ConstantScene | src/render.rs:27-38 | A constant unit scene colour c gives every pixel sqrt(c). |
| ScalarRender.Render | src/render.rs:7-42 | Every pixel (x, y) of the buffer is written with its target bytes. |
| ScalarRender.TracePixel | src/render.rs:27-39 | One pixel's bytes. |

## Left out

- `src/ui.rs`, `src/main.rs`, `src/scene.rs` (parry3d ray casts) and `src/material.rs` (random reflections) are not part of this model: they are text drawing, file and GIF I/O, and foreign or random code.
- `GameDriver::draw`, and the image and texture built in `GameDriver::new`, are drawing code. The model's constructor builds only the game state and the menu.
- `crate::scene` is not among the visible files. It is modelled abstractly in `SceneApi`, and `Scene::new` becomes a constructor parameter. The model requires the walls to leave room for the paddles, because `f32::clamp` panics otherwise.
- `src/ai.rs` uses `crate::motion::PaddleControls`, which `src/motion.rs` does not define. The model uses `Directions`, which has the same four booleans.
- Keys, the frame time and `is_key_down` are parameters. `get_frame_time` is the `frameTime` argument.
- rayon's `par_chunks_exact_mut` is modelled as a sequential loop. Chunks write disjoint ranges, so order does not matter; concurrency itself is not modelled.
- The random jitter draws are an input sequence `draws`. Its values are not constrained to [0, 1); the lemmas that need that take it as a premise.
- `f32` is modelled as `real`. Rounding, NaN, infinities and overflow are not modelled; the f32::MAX sentinel is the exact value of f32::MAX as a real.
- `sqrt` and `powf` are carried by a `Libm` argument. Results that need an exact square root take `IsSqrt`.
- Tracer.PlaneTois: a zero direction component, where IEEE gives ±∞ or NaN, is "not a candidate" instead, which matches both comparisons failing.
- Tracer.RaysProjections.WithSphere: requires a non-zero radius, because the model divides by it where the source would produce ∞ or NaN normals. `ValidLayout` gives every scene sphere a positive radius.
- Tracer.Root: with |dir|² = 0 the source's 0/0 is NaN and `max(NaN, 0)` yields 0; the model returns toi 0 directly.
- Tracer.TraceRays: requires max_depth ≥ 1, because `depth_left -= 1` on a usize underflows at 0.
- RenderCamera.Camera.constructor: requires a non-zero aspect ratio, because the model divides by it.
- Motion.CollideSpheres: for coincident centres the source divides by a zero distance and produces NaN. The model reports the collision as `Coincident` and leaves the ball where it is, unbounced.
- Game.Inputs and Game.GameDriver.ProcessInputs: Up at the first entry wraps to the last entry (`Up`) instead of the source's `0usize - 1`, which panics in a debug build and wraps to `usize::MAX % len` in a release build (`UpAsWritten`). The two differ only at the first entry of the pause menu (`InputsUpAsWritten`).
- Renderer.Renderer.DeltasInUnitSquare and Renderer.Renderer.OffsetsInPixel: the y bound is stated only for one sample per pixel, because with two or more the code as written puts samples outside the pixel (Findings).
- Renderer.Renderer.constructor: requires samples_per_pixel ≥ 1, because `spread_samples` on an empty slice recurses forever. It also requires width and height below 65536 (the u16 domain).
- Renderer.Renderer.SampleColors and Renderer.Renderer.SumSamples: the sum is stated through a ghost sample function that callers fix to `SampleColors`. This keeps the verifier from unfolding every trace.
- ScalarRender.Render: `scene.ray_color` (from `src/scene.rs`) is a parameter `rayColor`.
- The older renderers' height 0 is excluded where they divide by it. With spp = 0, a pixel's colour is 0/0 in f32; the model gives black.
- The `Point` operators (`src/math.rs:276-302`) are plain vector arithmetic used by the motion code. They carry no contract of their own.
- `Points::new` (`src/simd/mod.rs:30-32`) is the datatype constructor `Points(xs, ys, zs)`.

## Findings

| source | as written | input that shows it | evidently intended | confidence | as-written member | corrected member |
|---|---|---|---|---|---|---|
| src/render/renderer.rs:105-117 | The height split cuts at `top_left.1 + height / 2`, but `top_left.1` is the larger y, so the cut lies above the rectangle. | `Renderer::new` with 2 samples per pixel puts the first sample at (0.5, 1.25), outside the unit pixel. | Cut at `top_left.1 − height / 2`, so every sample stays inside its rectangle. | not executed | Renderer.SamplesAsWrittenEscape | Renderer.SampleInside |
| src/game_driver.rs:159-163 | Up computes `(sel − 1) % len` on a usize. At sel = 0 this wraps to 2^64 − 1 (a panic in debug builds). | In the pause menu (3 items) at item 0, Up gives (2^64 − 1) mod 3 = 0 and stays on item 0. | Wrap to the last item, len − 1. | not executed | Game.UpAsWrittenSticksAtTop | Game.UpDownInverse |
| src/color.rs:33-41 | `g()` and `b()` both return channel 0. | `Color::new(0, 1, 0).g()` returns 0. | `g()` returns channel 1, `b()` channel 2. | not executed | Colors.GetterAsWrittenMismatch | Colors.GettersRebuild |
