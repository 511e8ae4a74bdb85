# First-person camera controller, modelled in Dafny

This project models the first-person camera controller of `src/movement.rs`:

- the `Player` component with its defaults (speed 5.0, sensitivity 0.002);
- the `CameraController` component (yaw, pitch) and the state that
  `setup_camera_controller` gives a camera;
- the per-frame system `move_camera`. It reads the held keys and builds a
  direction from yaw-only forward and right vectors plus world up. W/Z and A/Q
  are aliases. If the direction is not zero, it is normalised and
  `direction * speed * dt` is added to the translation.
- the per-frame system `look_around`. It adds up the frame's mouse-motion
  events and does nothing when the sum is zero. Otherwise the yaw turns
  freely, the pitch turns and is clamped to
  `[-FRAC_PI_2 + 0.001, FRAC_PI_2 - 0.001]`, and the rotation is rebuilt as
  "yaw about Y, then pitch about X".

Each engine system becomes a pure function over an immutable `Camera` record
(transform, player, controller). The engine's queries and resources become
parameters: the set of held keys, the frame time `dt`, and the sequence of
motion deltas.

The arithmetic is over `real`:

- `sin`, `cos` and the vector length are fields of a `Trig` value handed in
  by the caller.
- The length is only known to be positive on non-zero vectors.
- The laws `sin² + cos² = 1` (`PythagoreanAt`) and `|v|² = v · v` (`NormAt`)
  are assumed only by the lemmas that need them, and only at the point they
  are used.
- `FRAC_PI_2` is the exact `f32` constant `1.57079637050628662109375`.

Files:

- `vectors.dfy`: `Vec2`/`Vec3` and their operations.
- `numerics.dfy`: `Trig`, `f32::clamp`, and small real-arithmetic facts.
- `movement.dfy`: the components, the two systems, and their properties.
- `frames.dfy`: frame sequences. Each frame runs `move_camera` and
  `look_around` once, in the order the scheduler chose for that frame. It
  holds the pitch invariant from the initial state and the "hold W" scenario.

Facts of the code the model keeps:

- Forward is `(-sin yaw, 0, -cos yaw)` and right is `(cos yaw, 0, -sin yaw)`
  (src/movement.rs:62-63).
- The pitch margin is 0.001 inside each of `±FRAC_PI_2` (src/movement.rs:107).
- `look_around` adds up relative motion deltas (src/movement.rs:97-100).
- `f32::clamp` keeps both limits, so the pitch range proved is the closed
  interval (`Movement.PitchInRange`).
- The event reader of `look_around` is shared by its per-camera loop
  (src/movement.rs:96-98). The first queried camera drains the frame's events,
  and every later camera sees a zero delta (`Movement.LookAroundQuery`).

## Model

| member | source | states |
|---|---|---|
| Movement.SetupCamera | src/movement.rs:12-40 | A set-up camera keeps its spawned transform and gets speed 5.0, sensitivity 0.002, yaw 0 and pitch 0. That pitch lies inside the clamp range. |
| Frames.PitchBoundedFromSetup | src/movement.rs:33-40 | From the state `setup_camera_controller` attaches, the pitch stays in `[-FRAC_PI_2 + 0.001, FRAC_PI_2 - 0.001]` after any sequence of frames. The lower limit is below level and the upper limit above it. |
| Movement.ReadKeys | src/movement.rs:66-83 | Each of the six key tests holds exactly when some key bound to its action is held (W or Z forward, S back, A or Q left, D right, Space up, ShiftLeft down). |
| Movement.KeyAliases | src/movement.rs:66-74 | Holding W, Z or both moves the camera identically, and so does holding A, Q or both: each alias pair adds its vector once. |
| Movement.BasisOrthogonal | src/movement.rs:61-63 | For every yaw and whatever `sin`/`cos` return, forward and right are horizontal (y = 0) and perpendicular. |
| Movement.BasisOrthonormal | src/movement.rs:61-63 | Where `sin² + cos² = 1`, forward and right have length 1 and `right × forward` is world up. |
| Movement.DirectionByAxes | src/movement.rs:58-83 | The accumulated direction equals `f·forward + s·right + v·up`. Each weight is +1, 0 or -1 according to which keys of its opposite pair are held, so opposite keys cancel. |
| Movement.DirectionHeight | src/movement.rs:78-83 | The direction's y component is (Space ? 1 : 0) − (ShiftLeft ? 1 : 0), independent of yaw and of the horizontal keys. |
| Movement.DirectionZeroIffIdle | src/movement.rs:58-85 | Where `sin² + cos² = 1`, the direction is zero exactly when every opposite pair cancels. This is both directions of the `length_squared() > 0.0` guard. |
| Movement.MoveCamera | src/movement.rs:85-87 | Movement changes only the translation: player, controller and rotation are kept. A zero direction changes nothing. |
| Movement.MoveIdle | src/movement.rs:58-87 | With no movement key held, or only cancelling pairs, the camera does not move, whatever `dt` is. |
| Movement.StepAlongDirection | src/movement.rs:86 | `normalize(d) * speed * dt` is `d` times `speed * dt / abs(d)`, a positive factor when speed and `dt` are positive. |
| Movement.MoveAlongDirection | src/movement.rs:85-87 | A non-zero direction moves the camera by `d * (speed * dt / abs(d))`, a positive multiple of the direction when speed and `dt` are positive. |
| Movement.StepLength | src/movement.rs:86 | Where the length is exact, one step has squared length `(speed * dt)²`. |
| Movement.MoveNormalizedSpeed | src/movement.rs:58-87 | Any key combination that does not cancel moves the camera exactly `speed * dt`, diagonals included. This assumes `sin² + cos² = 1` and an exact length. |
| Movement.MoveIgnoresPitch | src/movement.rs:60-63 | The displacement depends on the yaw only, never on the pitch or the current rotation. |
| Movement.AccumulateMotion | src/movement.rs:97-100 | The event loop returns the sum of all the frame's motion deltas, in arrival order. |
| Movement.SumMotionPermutation | src/movement.rs:97-100 | The frame's delta is the same for every ordering of the same events. |
| Movement.LookOrderIndependent | src/movement.rs:97-111 | `look_around` gives the same camera for any reordering of the frame's events. |
| Movement.Turn | src/movement.rs:103-107 | After a turn the pitch is in the clamp range, and a requested pitch already in range is kept exactly. |
| Numerics.Clamp | src/movement.rs:107 | `clamp` returns a value in `[lo, hi]` and leaves values inside unchanged. No point of `[lo, hi]` is nearer to the input than the result. |
| Movement.LookAround | src/movement.rs:96-111 | A zero summed delta changes nothing. Otherwise the controller is turned by the sum and the rotation is rebuilt from the new yaw and pitch. Player and translation are never touched, and a pitch in range stays in range. |
| Movement.LookAroundQuery | src/movement.rs:96-111 | Over the whole query, the first camera is turned by all of the frame's events and every later camera is left exactly as it was, because the shared reader is already drained. |
| Movement.LookCancelling | src/movement.rs:97-102 | Motion that cancels within a frame (+v then −v) leaves the camera unchanged. |
| Movement.YawTurn | src/movement.rs:102-103 | The yaw always ends at `yaw - dx * sensitivity`, which is no change when there is no net motion. |
| Movement.YawAccumulates | src/movement.rs:103 | The yaw is never clamped. Two frames turn it exactly as one frame holding both frames' events would. |
| Movement.LookSaturates | src/movement.rs:104-107 | A requested pitch below the lower limit ends on the lower limit, and one above the upper limit ends on the upper limit. |
| Numerics.ClampIdempotent | src/movement.rs:107 | Clamping an already clamped pitch changes nothing. |
| Numerics.ClampMonotone | src/movement.rs:107 | Clamping preserves order, so a larger requested pitch never ends lower. |
| Frames.Advance | src/movement.rs:51-113 | One frame, in either system order, never changes the player. It keeps the pitch in range once it is, and keeps the rotation in agreement with yaw and pitch once it is. |
| Frames.RunKeepsPitchInRange | src/movement.rs:102-107 | The pitch invariant holds over every sequence of frames, whatever system order each frame used. |
| Frames.RunKeepsPlayer | src/movement.rs:51-113 | No sequence of frames changes speed or sensitivity. |
| Frames.RunKeepsSynced | src/movement.rs:109-110 | Once the rotation agrees with yaw and pitch, it agrees after every later frame. |
| Frames.RunAppend | src/movement.rs:51-113 | Running two frame sequences back to back is running their concatenation. |
| Frames.FrameOrder | src/movement.rs:51-113 | Whichever system runs first, a frame ends with the same yaw, pitch and rotation. Without net mouse motion, or with cancelling keys, it ends identically. |
| Frames.HoldForward | src/movement.rs:66-87 | Holding W alone with no mouse motion moves the camera `speed × elapsed time` along forward, whatever the individual frame times and system orders. This assumes `sin² + cos² = 1` and an exact length. |
| Frames.TenFramesForward | src/movement.rs:62-87 | From set-up, ten 0.1 s frames holding W move the camera exactly `(0, 0, -5)`, given `sin 0 = 0`, `cos 0 = 1` and an exact length. |
| Vectors.LengthSquaredPositive | src/movement.rs:85 | `length_squared() > 0.0` holds exactly when the vector is not zero. The model writes this guard as `direction != Zero3`. |
| Vectors.LengthSquaredPositive2 | src/movement.rs:102 | The same for the 2-D mouse delta, whose guard the model writes as `delta != Zero2`. |

## Left out

- ECS plumbing (src/movement.rs:28-32, 51-57, 92-96). `Query`, `Commands`, `Res<Time>`, `EventReader` and entity insertion are not modelled. One camera's components are a record, the keys are a `set<Key>`, the frame time is a `real`, and the motion events are a `seq<Vec2>`.
- Movement.LookAround models one camera that receives the frame's events. When several cameras are controlled, only the first one queried receives them. `Movement.LookAroundQuery` models that loop. The frame lemmas in `frames.dfy` follow a single camera, which is the first or only one queried.
- `move_camera` over several cameras. Its loop (src/movement.rs:57) treats each camera independently with the same keys and `dt`, so the model states it for one camera.
- Cursor lock in `setup_camera_controller` (src/movement.rs:43-47) and `cursor_grab` (src/movement.rs:115-125): window side effects only.
- `debug_camera_info` (src/movement.rs:127-142): console output only.
- Quaternion algebra (src/movement.rs:109-110). The rotation is kept as the pair "yaw about Y, then pitch about X" (`YawThenPitch`), not as a quaternion.
- `f32` arithmetic. Rounding, overflow, NaN and infinities are not modelled: all arithmetic is exact over `real`.
- The order of operations in `direction.normalize() * speed * dt` is kept, but with exact reals it cannot matter.
- `sin`, `cos` and the vector length are uninterpreted. Nothing is proved that needs their values beyond `sin² + cos² = 1` and `|v|² = v · v`, and those are required only where stated. The exception is Frames.TenFramesForward, which also assumes `sin 0 = 0` and `cos 0 = 1`. Both hold exactly in `f32`.
- Movement.MoveNormalizedSpeed and Frames.HoldForward hold only where those two laws hold. `f32` results satisfy them only approximately.
- Frames.TenFramesForward holds only where `sin 0 = 0`, `cos 0 = 1` and the length of `(0, 0, -1)` is exact. The first two are exact in `f32`. The step sum `10 × 0.1` is exact over reals, but not in `f32`.
- Movement.SumMotionPermutation holds over exact reals only. `f32` addition is not associative, so in the program a reordering of the same events can change the summed delta. It can even decide whether the zero-delta guard at src/movement.rs:102 fires: (1e8, 0), (1, 0), (-1e8, 0) sums to zero in `f32`, and (1e8, 0), (-1e8, 0), (1, 0) does not.
- Movement.LookOrderIndependent holds over exact reals only, for the same reason: in `f32` the camera can depend on the order of the frame's events.
- Movement.YawAccumulates holds over exact reals only. In `f32`, `yaw - a*s - b*s` and `yaw - (a + b)*s` can round differently, so two frames need not turn the yaw exactly as one frame with both frames' events would.
- Movement.MoveCamera writes the guard `direction.length_squared() > 0.0` as `direction != Zero3`. `Vectors.LengthSquaredPositive` proves the two tests agree on every vector. `look_around`'s guard and `Vectors.LengthSquaredPositive2` are handled the same way.
- Order of the two systems. `move_camera` and `look_around` are added to `Update` as one tuple (src/lib.rs is not part of this model), so the engine does not fix their order. Each `Frame` carries the order the scheduler chose for it, and the frame lemmas hold for every choice. `Frames.FrameOrder` states what the choice changes.
- Set-up and scene. src/setup.rs, src/lib.rs and src/intro.rs are not part of this model. Two things are worth knowing from them:
  - The scene spawns the camera looking at `(1, 1, 1)` while the controller starts at yaw 0 and pitch 0. So the rotation only agrees with the controller after the first frame with mouse motion; `Frames.RunKeepsSynced` applies from then on.
  - src/lib.rs does not register `setup_camera_controller`. The model assumes the components are attached as that function does.
- tests/movement.rs is not modelled. Its camera entity has no `CameraController`, so `move_camera`'s query would not select it.
