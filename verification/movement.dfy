/**
 The first-person camera controller of `src/movement.rs`: the `Player` and
 `CameraController` components, the state `setup_camera_controller` gives a
 camera, and the two per-frame systems `move_camera` and `look_around` as
 pure step functions over one camera's components. The engine queries and
 resources become explicit parameters: the pressed keys, the frame time and
 the frame's mouse-motion events.
 */
module Movement {
  import opened Vectors
  import opened Numerics

  // ---------------------------------------------------------------------
  // Components and initial state
  // ---------------------------------------------------------------------

  /** The keyboard keys the controller reads; every other key is `Other`. */
  datatype Key = W | Z | S | A | Q | D | Space | ShiftLeft | Other(code: nat)

  /** Movement parameters: units per second and radians per mouse count. */
  datatype Player = Player(speed: real, sensitivity: real)

  /** The orientation state, in radians. */
  datatype CameraController = CameraController(yaw: real, pitch: real)

  /** The rotation held in the engine transform. `look_around` only ever
      writes `YawThenPitch(yaw, pitch)`, the quaternion
      `from_axis_angle(Y, yaw) * from_axis_angle(X, pitch)`; whatever the
      scene gave the camera before that is an arbitrary quaternion. */
  datatype Rotation =
    | Quaternion(w: real, i: real, j: real, k: real)
    | YawThenPitch(yaw: real, pitch: real)

  datatype Transform = Transform(translation: Vec3, rotation: Rotation)

  /** One controllable camera: its transform and the two components that
      `setup_camera_controller` attaches to it. */
  datatype Camera = Camera(transform: Transform, player: Player, controller: CameraController)

  /** `Player::default()`. */
  const DefaultPlayer: Player := Player(5.0, 0.002)

  /** The pitch clamp, `-FRAC_PI_2 + 0.001 ..= FRAC_PI_2 - 0.001`. */
  const PitchMin: real := -FracPi2 + 0.001
  const PitchMax: real := FracPi2 - 0.001

  predicate PitchInRange(pitch: real) {
    PitchMin <= pitch <= PitchMax
  }

  /** The rotation agrees with the yaw and pitch the controller holds. */
  predicate RotationSynced(cam: Camera) {
    cam.transform.rotation == YawThenPitch(cam.controller.yaw, cam.controller.pitch)
  }

  /** `setup_camera_controller` for one camera: it keeps the transform the
      scene spawned and attaches the default player and a level, unturned
      controller. The controller starts inside the pitch range. */
  function SetupCamera(spawned: Transform): (cam: Camera)
    ensures cam.transform == spawned
    ensures cam.player.speed == 5.0 && cam.player.sensitivity == 0.002
    ensures cam.controller.yaw == 0.0 && cam.controller.pitch == 0.0
    ensures PitchInRange(cam.controller.pitch)
  {
    Camera(spawned, DefaultPlayer, CameraController(0.0, 0.0))
  }

  // ---------------------------------------------------------------------
  // move_camera
  // ---------------------------------------------------------------------

  /** The horizontal view direction for a yaw: `(-sin yaw, 0, -cos yaw)`. */
  function Forward(t: Trig, yaw: real): Vec3 {
    Vec3(-t.sin(yaw), 0.0, -t.cos(yaw))
  }

  /** The horizontal strafe direction for a yaw: `(cos yaw, 0, -sin yaw)`. */
  function Right(t: Trig, yaw: real): Vec3 {
    Vec3(t.cos(yaw), 0.0, -t.sin(yaw))
  }

  /** The logical movement actions and the physical keys bound to each:
      W and Z both move forward, A and Q both strafe left, so that QWERTY
      and AZERTY layouts share one set of bindings. */
  datatype Action = MoveForward | MoveBackward | StrafeLeft | StrafeRight | Ascend | Descend

  function Bindings(a: Action): set<Key> {
    match a
    case MoveForward => {W, Z}
    case MoveBackward => {S}
    case StrafeLeft => {A, Q}
    case StrafeRight => {D}
    case Ascend => {Space}
    case Descend => {ShiftLeft}
  }

  /** Some key bound to the action is held. */
  predicate Active(a: Action, keys: set<Key>) {
    Bindings(a) * keys != {}
  }

  /** The six key tests of `move_camera`, in its order. */
  datatype Held = Held(forward: bool, backward: bool, left: bool, right: bool, ascend: bool, descend: bool)

  /** Reads the held keys as `move_camera` does. Each test is true exactly
      when some key bound to its action is held. */
  function ReadKeys(keys: set<Key>): (h: Held)
    ensures h.forward <==> Active(MoveForward, keys)
    ensures h.backward <==> Active(MoveBackward, keys)
    ensures h.left <==> Active(StrafeLeft, keys)
    ensures h.right <==> Active(StrafeRight, keys)
    ensures h.ascend <==> Active(Ascend, keys)
    ensures h.descend <==> Active(Descend, keys)
  {
    ActiveKeys(keys);
    Held(W in keys || Z in keys, S in keys, A in keys || Q in keys, D in keys,
         Space in keys, ShiftLeft in keys)
  }

  lemma ActiveKeys(keys: set<Key>)
    ensures Active(MoveForward, keys) <==> W in keys || Z in keys
    ensures Active(MoveBackward, keys) <==> S in keys
    ensures Active(StrafeLeft, keys) <==> A in keys || Q in keys
    ensures Active(StrafeRight, keys) <==> D in keys
    ensures Active(Ascend, keys) <==> Space in keys
    ensures Active(Descend, keys) <==> ShiftLeft in keys
  {
    if W in keys { assert W in Bindings(MoveForward) * keys; }
    if Z in keys { assert Z in Bindings(MoveForward) * keys; }
    if S in keys { assert S in Bindings(MoveBackward) * keys; }
    if A in keys { assert A in Bindings(StrafeLeft) * keys; }
    if Q in keys { assert Q in Bindings(StrafeLeft) * keys; }
    if D in keys { assert D in Bindings(StrafeRight) * keys; }
    if Space in keys { assert Space in Bindings(Ascend) * keys; }
    if ShiftLeft in keys { assert ShiftLeft in Bindings(Descend) * keys; }
  }

  /** +1, 0 or -1: how a pair of opposite actions pulls along one axis. */
  function Axis(positive: bool, negative: bool): real {
    (if positive then 1.0 else 0.0) - (if negative then 1.0 else 0.0)
  }

  function ForwardAxis(h: Held): real { Axis(h.forward, h.backward) }
  function StrafeAxis(h: Held): real { Axis(h.right, h.left) }
  function VerticalAxis(h: Held): real { Axis(h.ascend, h.descend) }

  /** Every pair of opposite actions cancels: neither or both are held. */
  predicate Idle(h: Held) {
    ForwardAxis(h) == 0.0 && StrafeAxis(h) == 0.0 && VerticalAxis(h) == 0.0
  }

  /** The unnormalised direction `move_camera` accumulates, one conditional
      at a time as the system does. */
  function Direction(t: Trig, yaw: real, h: Held): Vec3 {
    var d2 := ForwardPart(Forward(t, yaw), h.forward, h.backward);
    var d4 := StrafePart(d2, Right(t, yaw), h.left, h.right);
    VerticalPart(d4, h.ascend, h.descend)
  }

  function ForwardPart(forward: Vec3, ahead: bool, back: bool): Vec3 {
    var d1 := if ahead then Add(Zero3, forward) else Zero3;
    if back then Sub(d1, forward) else d1
  }

  function StrafePart(d2: Vec3, right: Vec3, left: bool, rightward: bool): Vec3 {
    var d3 := if left then Sub(d2, right) else d2;
    if rightward then Add(d3, right) else d3
  }

  function VerticalPart(d4: Vec3, ascend: bool, descend: bool): Vec3 {
    var d5 := if ascend then d4.(y := d4.y + 1.0) else d4;
    if descend then d5.(y := d5.y - 1.0) else d5
  }

  lemma ScaleByUnit(v: Vec3, k: real)
    requires k == 1.0 || k == 0.0 || k == -1.0
    ensures k == 1.0 ==> Scale(v, k) == v
    ensures k == 0.0 ==> Scale(v, k) == Zero3
    ensures k == -1.0 ==> Scale(v, k) == Vec3(-v.x, -v.y, -v.z)
  {
  }

  lemma ForwardPartByAxis(forward: Vec3, ahead: bool, back: bool)
    ensures ForwardPart(forward, ahead, back) == Scale(forward, Axis(ahead, back))
  {
    ScaleByUnit(forward, Axis(ahead, back));
  }

  lemma StrafePartByAxis(d2: Vec3, right: Vec3, left: bool, rightward: bool)
    ensures StrafePart(d2, right, left, rightward) == Add(d2, Scale(right, Axis(rightward, left)))
  {
    ScaleByUnit(right, Axis(rightward, left));
  }

  lemma VerticalPartByAxis(d4: Vec3, ascend: bool, descend: bool)
    ensures VerticalPart(d4, ascend, descend) == Add(d4, Scale(Up, Axis(ascend, descend)))
  {
    ScaleByUnit(Up, Axis(ascend, descend));
  }

  /** The direction is the axis-weighted sum of the forward, right and up
      vectors: each action contributes once, opposite actions cancel, and
      the height of the direction is the vertical axis alone. */
  lemma DirectionByAxes(t: Trig, yaw: real, h: Held)
    ensures Direction(t, yaw, h)
         == Add(Add(Scale(Forward(t, yaw), ForwardAxis(h)),
                    Scale(Right(t, yaw), StrafeAxis(h))),
                Scale(Up, VerticalAxis(h)))
  {
    var d2 := ForwardPart(Forward(t, yaw), h.forward, h.backward);
    ForwardPartByAxis(Forward(t, yaw), h.forward, h.backward);
    StrafePartByAxis(d2, Right(t, yaw), h.left, h.right);
    VerticalPartByAxis(StrafePart(d2, Right(t, yaw), h.left, h.right), h.ascend, h.descend);
  }

  /** The height of the direction is the vertical axis alone: Space and
      ShiftLeft move along world up, whatever the yaw and the other keys. */
  lemma DirectionHeight(t: Trig, yaw: real, h: Held)
    ensures Direction(t, yaw, h).y == VerticalAxis(h)
  {
    var d2 := ForwardPart(Forward(t, yaw), h.forward, h.backward);
    assert d2.y == 0.0;
    assert StrafePart(d2, Right(t, yaw), h.left, h.right).y == 0.0;
  }

  /** `Vec3::normalize` of a non-zero vector: division by its length. */
  function Normalize(t: Trig, v: Vec3): Vec3
    requires v != Zero3
  {
    Scale(v, 1.0 / t.norm(v))
  }

  /** `direction.normalize() * speed * dt`. */
  function Step(t: Trig, direction: Vec3, speed: real, dt: real): Vec3
    requires direction != Zero3
  {
    Scale(Scale(Normalize(t, direction), speed), dt)
  }

  /** The translation update of `move_camera`: when the direction is not
      zero it is normalised, scaled by `speed * dt` and added; nothing but
      the translation ever changes, and a zero direction changes nothing. */
  function MoveCamera(t: Trig, dt: real, keys: set<Key>, cam: Camera): (r: Camera)
    ensures r.player == cam.player && r.controller == cam.controller
    ensures r.transform.rotation == cam.transform.rotation
    ensures Direction(t, cam.controller.yaw, ReadKeys(keys)) == Zero3 ==> r == cam
  {
    MoveHeld(t, dt, ReadKeys(keys), cam)
  }

  /** The body of `move_camera` once the six key tests are read. */
  function MoveHeld(t: Trig, dt: real, h: Held, cam: Camera): Camera {
    var direction := Direction(t, cam.controller.yaw, h);
    // `direction.length_squared() > 0.0`, which holds exactly when the
    // direction is not zero (`Vectors.LengthSquaredPositive`)
    if direction != Zero3 then Moved(cam, Step(t, direction, cam.player.speed, dt)) else cam
  }

  /** The camera translated by `v`, all else unchanged. */
  function Moved(cam: Camera, v: Vec3): Camera {
    cam.(transform := cam.transform.(translation := Add(cam.transform.translation, v)))
  }

  function Displacement(before: Camera, after: Camera): Vec3 {
    Sub(after.transform.translation, before.transform.translation)
  }

  // ---------------------------------------------------------------------
  // look_around
  // ---------------------------------------------------------------------

  /** The frame's mouse delta: the motion events added up in arrival order. */
  function SumMotion(events: seq<Vec2>): Vec2 {
    if |events| == 0 then Zero2
    else Add2(SumMotion(events[..|events| - 1]), events[|events| - 1])
  }

  /** The event loop of `look_around`, which reads every pending event once. */
  method AccumulateMotion(events: seq<Vec2>) returns (delta: Vec2)
    ensures delta == SumMotion(events)
  {
    delta := Zero2;
    var i := 0;
    while i < |events|
      invariant 0 <= i <= |events|
      invariant delta == SumMotion(events[..i])
    {
      assert events[..i + 1][..i] == events[..i];
      delta := Add2(delta, events[i]);
      i := i + 1;
    }
    assert events[..i] == events;
  }

  /** The orientation update of a frame with a non-zero mouse delta: the
      yaw turns freely, the pitch turns and is clamped into range. */
  function Turn(c: CameraController, delta: Vec2, sensitivity: real): (r: CameraController)
    ensures PitchInRange(r.pitch)
    ensures PitchInRange(c.pitch - delta.y * sensitivity) ==> r.pitch == c.pitch - delta.y * sensitivity
  {
    CameraController(Rotate(c.yaw, delta.x, sensitivity),
                     Clamp(Rotate(c.pitch, delta.y, sensitivity), PitchMin, PitchMax))
  }

  /** `angle -= delta * sensitivity`, the update both angles receive. */
  function Rotate(angle: real, delta: real, sensitivity: real): real {
    angle - delta * sensitivity
  }

  /** `look_around` for one camera. A frame whose motion adds up to zero
      changes nothing. Otherwise the yaw turns freely by `-dx * sensitivity`,
      the pitch turns by `-dy * sensitivity` but is clamped into the pitch
      range, and the rotation is rebuilt from both. */
  function LookAround(events: seq<Vec2>, cam: Camera): (r: Camera)
    ensures r.player == cam.player
    ensures r.transform.translation == cam.transform.translation
    ensures SumMotion(events) == Zero2 ==> r == cam
    ensures SumMotion(events) != Zero2 ==>
              && r.controller == Turn(cam.controller, SumMotion(events), cam.player.sensitivity)
              && RotationSynced(r)
    ensures PitchInRange(cam.controller.pitch) ==> PitchInRange(r.controller.pitch)
  {
    var delta := SumMotion(events);
    // `delta.length_squared() > 0.0`, which holds exactly when the delta is
    // not zero (`Vectors.LengthSquaredPositive2`)
    if delta != Zero2 then
      var c := Turn(cam.controller, delta, cam.player.sensitivity);
      cam.(controller := c, transform := cam.transform.(rotation := YawThenPitch(c.yaw, c.pitch)))
    else
      cam
  }

  /** `look_around` over every camera its query yields, in query order. The
      event reader is shared by the loop, so the first camera drains the
      frame's events and every later camera reads none: only the first
      camera can turn, and the others are left as they were. */
  method LookAroundQuery(events: seq<Vec2>, cams: seq<Camera>) returns (r: seq<Camera>)
    ensures |r| == |cams|
    ensures |cams| > 0 ==> r[0] == LookAround(events, cams[0])
    ensures forall i :: 1 <= i < |cams| ==> r[i] == cams[i]
  {
    r := [];
    var pending := events;
    var i := 0;
    while i < |cams|
      invariant 0 <= i <= |cams|
      invariant |r| == i
      invariant i == 0 ==> pending == events
      invariant 0 < i ==> pending == [] && r[0] == LookAround(events, cams[0])
      invariant forall j :: 1 <= j < i ==> r[j] == cams[j]
    {
      r := r + [LookAround(pending, cams[i])];
      pending := [];
      i := i + 1;
    }
  }

  // ---------------------------------------------------------------------
  // Properties of move_camera
  // ---------------------------------------------------------------------

  /** Forward and right are horizontal and perpendicular for every yaw,
      whatever `sin` and `cos` return; they depend on the yaw alone. */
  lemma BasisOrthogonal(t: Trig, yaw: real)
    ensures Forward(t, yaw).y == 0.0 && Right(t, yaw).y == 0.0
    ensures Dot(Forward(t, yaw), Right(t, yaw)) == 0.0
  {
    var s, c := t.sin(yaw), t.cos(yaw);
    calc {
      Dot(Forward(t, yaw), Right(t, yaw));
    ==
      (-s) * c + 0.0 * 0.0 + (-c) * (-s);
    ==
      0.0;
    }
  }

  /** Where `sin² + cos² = 1`, forward and right are unit vectors and
      `right × forward` is world up: a right-handed frame looking down -Z
      at yaw zero. */
  lemma BasisOrthonormal(t: Trig, yaw: real)
    requires PythagoreanAt(t, yaw)
    ensures LengthSquared(Forward(t, yaw)) == 1.0
    ensures LengthSquared(Right(t, yaw)) == 1.0
    ensures Cross(Right(t, yaw), Forward(t, yaw)) == Up
  {
    var s, c := t.sin(yaw), t.cos(yaw);
    UnitBasis(s, c);
    assert LengthSquared(Forward(t, yaw)) == (-s) * (-s) + 0.0 * 0.0 + (-c) * (-c);
    assert LengthSquared(Right(t, yaw)) == c * c + 0.0 * 0.0 + (-s) * (-s);
    assert Cross(Right(t, yaw), Forward(t, yaw))
        == Vec3(0.0 * (-c) - (-s) * 0.0, (-s) * (-s) - c * (-c), c * 0.0 - 0.0 * (-s));
  }

  /** W and Z are one action, and so are A and Q: holding either key of a
      pair or both moves the camera the same way. */
  lemma KeyAliases(t: Trig, dt: real, keys: set<Key>, cam: Camera)
    ensures MoveCamera(t, dt, keys + {W}, cam) == MoveCamera(t, dt, keys + {Z}, cam)
    ensures MoveCamera(t, dt, keys + {W}, cam) == MoveCamera(t, dt, keys + {W, Z}, cam)
    ensures MoveCamera(t, dt, keys + {A}, cam) == MoveCamera(t, dt, keys + {Q}, cam)
    ensures MoveCamera(t, dt, keys + {A}, cam) == MoveCamera(t, dt, keys + {A, Q}, cam)
  {
    AliasesReadAlike(keys);
  }

  lemma AliasesReadAlike(keys: set<Key>)
    ensures ReadKeys(keys + {W}) == ReadKeys(keys + {Z}) == ReadKeys(keys + {W, Z})
    ensures ReadKeys(keys + {A}) == ReadKeys(keys + {Q}) == ReadKeys(keys + {A, Q})
  {
  }

  /** Where `sin² + cos² = 1` at the yaw, a weighted sum of forward, right
      and up vanishes only when every weight does. */
  lemma CombinationZeroIff(t: Trig, yaw: real, a: real, b: real, v: real)
    requires PythagoreanAt(t, yaw)
    ensures Add(Add(Scale(Forward(t, yaw), a), Scale(Right(t, yaw), b)), Scale(Up, v)) == Zero3
            <==> a == 0.0 && b == 0.0 && v == 0.0
  {
    CombinationComponents(t, yaw, a, b, v);
    WeightsZeroIff(t.sin(yaw), t.cos(yaw), a, b, v);
  }

  lemma CombinationComponents(t: Trig, yaw: real, a: real, b: real, v: real)
    ensures var s, c := t.sin(yaw), t.cos(yaw);
            Add(Add(Scale(Forward(t, yaw), a), Scale(Right(t, yaw), b)), Scale(Up, v))
            == Vec3((-s) * a + c * b + 0.0 * v, 0.0 * a + 0.0 * b + 1.0 * v, (-c) * a + (-s) * b + 0.0 * v)
  {
  }

  /** Where `sin² + cos² = 1` at the yaw, the direction is zero exactly when
      every pair of opposite actions cancels. */
  lemma DirectionZeroIffIdle(t: Trig, yaw: real, h: Held)
    requires PythagoreanAt(t, yaw)
    ensures Direction(t, yaw, h) == Zero3 <==> Idle(h)
  {
    DirectionByAxes(t, yaw, h);
    CombinationZeroIff(t, yaw, ForwardAxis(h), StrafeAxis(h), VerticalAxis(h));
  }

  /** With every pair of opposite keys cancelling (in particular with no
      movement key held) the camera does not move, whatever the frame time. */
  lemma MoveIdle(t: Trig, dt: real, keys: set<Key>, cam: Camera)
    requires Idle(ReadKeys(keys))
    ensures MoveCamera(t, dt, keys, cam) == cam
  {
    var h := ReadKeys(keys);
    DirectionByAxes(t, cam.controller.yaw, h);
    ScaleByUnit(Forward(t, cam.controller.yaw), 0.0);
    ScaleByUnit(Right(t, cam.controller.yaw), 0.0);
    ScaleByUnit(Up, 0.0);
  }

  /** The step is the direction times `speed * dt / |direction|`, a positive
      factor when speed and frame time are positive. */
  lemma StepAlongDirection(t: Trig, d: Vec3, speed: real, dt: real)
    requires d != Zero3
    ensures Step(t, d, speed, dt) == Scale(d, speed * dt / t.norm(d))
    ensures speed > 0.0 && dt > 0.0 ==> speed * dt / t.norm(d) > 0.0
  {
    var n := t.norm(d);
    ScaleTwice(Scale(d, 1.0 / n), speed, dt);
    ScaleTwice(d, 1.0 / n, speed * dt);
    ReciprocalFactor(n, speed * dt);
    if speed > 0.0 && dt > 0.0 {
      PositiveQuotient(speed, dt, n);
    }
  }

  /** Where the length is exact, the step has length `speed * dt`. */
  lemma StepLength(t: Trig, d: Vec3, speed: real, dt: real)
    requires d != Zero3
    requires NormAt(t, d)
    ensures LengthSquared(Step(t, d, speed, dt)) == (speed * dt) * (speed * dt)
  {
    var u := Normalize(t, d);
    NormalizeUnit(t, d);
    LengthSquaredScale(u, speed);
    LengthSquaredScale(Scale(u, speed), dt);
    var moved := Scale(Scale(u, speed), dt);
    ChainSquares(speed, dt, LengthSquared(u), LengthSquared(Scale(u, speed)), LengthSquared(moved));
    assert Step(t, d, speed, dt) == moved;
  }

  /** Where the length is exact, a normalised vector has length 1. */
  lemma NormalizeUnit(t: Trig, d: Vec3)
    requires d != Zero3
    requires NormAt(t, d)
    ensures LengthSquared(Normalize(t, d)) == 1.0
  {
    LengthSquaredScale(d, 1.0 / t.norm(d));
    ReciprocalSquare(t.norm(d), LengthSquared(d));
  }

  /** A non-zero direction moves the camera along that direction, by a
      positive multiple of it when speed and frame time are positive. */
  lemma MoveAlongDirection(t: Trig, dt: real, keys: set<Key>, cam: Camera)
    requires Direction(t, cam.controller.yaw, ReadKeys(keys)) != Zero3
    ensures var d := Direction(t, cam.controller.yaw, ReadKeys(keys));
            var k := cam.player.speed * dt / t.norm(d);
            && Displacement(cam, MoveCamera(t, dt, keys, cam)) == Scale(d, k)
            && (cam.player.speed > 0.0 && dt > 0.0 ==> k > 0.0)
  {
    var d := Direction(t, cam.controller.yaw, ReadKeys(keys));
    StepAlongDirection(t, d, cam.player.speed, dt);
  }

  /** Where `sin² + cos² = 1` at the yaw and `sqrt` is exact at the squared
      length, any key combination that does not cancel moves the camera by
      exactly `speed * dt`: diagonal movement is not faster. */
  lemma MoveNormalizedSpeed(t: Trig, dt: real, keys: set<Key>, cam: Camera)
    requires PythagoreanAt(t, cam.controller.yaw)
    requires NormAt(t, Direction(t, cam.controller.yaw, ReadKeys(keys)))
    requires !Idle(ReadKeys(keys))
    ensures LengthSquared(Displacement(cam, MoveCamera(t, dt, keys, cam)))
         == (cam.player.speed * dt) * (cam.player.speed * dt)
  {
    DirectionZeroIffIdle(t, cam.controller.yaw, ReadKeys(keys));
    MoveLength(t, dt, keys, cam);
  }

  /** Where the length is exact, a non-zero direction moves the camera by
      exactly `speed * dt`. */
  lemma MoveLength(t: Trig, dt: real, keys: set<Key>, cam: Camera)
    requires Direction(t, cam.controller.yaw, ReadKeys(keys)) != Zero3
    requires NormAt(t, Direction(t, cam.controller.yaw, ReadKeys(keys)))
    ensures LengthSquared(Displacement(cam, MoveCamera(t, dt, keys, cam)))
         == (cam.player.speed * dt) * (cam.player.speed * dt)
  {
    MoveByStep(t, dt, keys, cam);
    StepLength(t, Direction(t, cam.controller.yaw, ReadKeys(keys)), cam.player.speed, dt);
  }

  /** A non-zero direction moves the camera by exactly one step. */
  lemma MoveByStep(t: Trig, dt: real, keys: set<Key>, cam: Camera)
    requires Direction(t, cam.controller.yaw, ReadKeys(keys)) != Zero3
    ensures Displacement(cam, MoveCamera(t, dt, keys, cam))
         == Step(t, Direction(t, cam.controller.yaw, ReadKeys(keys)), cam.player.speed, dt)
  {
  }

  /** Movement reads the yaw and never the pitch or the current rotation. */
  lemma MoveIgnoresPitch(t: Trig, dt: real, keys: set<Key>, cam: Camera, pitch: real, rotation: Rotation)
    ensures var tilted := cam.(controller := cam.controller.(pitch := pitch),
                               transform := cam.transform.(rotation := rotation));
            Displacement(tilted, MoveCamera(t, dt, keys, tilted))
            == Displacement(cam, MoveCamera(t, dt, keys, cam))
  {
  }

  // ---------------------------------------------------------------------
  // Properties of look_around
  // ---------------------------------------------------------------------

  lemma {:induction false} SumMotionAppend(a: seq<Vec2>, b: seq<Vec2>)
    ensures SumMotion(a + b) == Add2(SumMotion(a), SumMotion(b))
    decreases |b|
  {
    if |b| == 0 {
      assert a + b == a;
    } else {
      var b' := b[..|b| - 1];
      assert (a + b)[..|a + b| - 1] == a + b';
      SumMotionAppend(a, b');
    }
  }

  /** The frame's delta does not depend on the order the events arrived in. */
  lemma {:induction false} SumMotionPermutation(a: seq<Vec2>, b: seq<Vec2>)
    requires multiset(a) == multiset(b)
    ensures SumMotion(a) == SumMotion(b)
    decreases |a|
  {
    if |a| > 0 {
      var last := a[|a| - 1];
      var a' := a[..|a| - 1];
      assert a == a' + [last];
      assert last in multiset(b);
      var i :| 0 <= i < |b| && b[i] == last;
      var b' := b[..i] + b[i + 1..];
      assert b == b[..i] + [last] + b[i + 1..];
      assert multiset(a') + multiset{last} == multiset(b') + multiset{last};
      MultisetCancel(multiset(a'), multiset(b'), last);
      SumMotionPermutation(a', b');
      SumMotionRemove(b, i);
    } else {
      assert b == [];
    }
  }

  lemma MultisetCancel(x: multiset<Vec2>, y: multiset<Vec2>, e: Vec2)
    requires x + multiset{e} == y + multiset{e}
    ensures x == y
  {
    forall z
      ensures x[z] == y[z]
    {
      assert (x + multiset{e})[z] == (y + multiset{e})[z];
    }
  }

  /** Taking one event out of the sequence and adding it last keeps the sum. */
  lemma SumMotionRemove(b: seq<Vec2>, i: nat)
    requires i < |b|
    ensures SumMotion(b) == Add2(SumMotion(b[..i] + b[i + 1..]), b[i])
  {
    var pre, post := b[..i], b[i + 1..];
    var upto := pre + [b[i]];
    assert b == upto + post;
    assert upto[..|upto| - 1] == pre;
    assert SumMotion(upto) == Add2(SumMotion(pre), b[i]);
    SumMotionAppend(upto, post);
    SumMotionAppend(pre, post);
  }

  /** `look_around` does not depend on the order of the frame's events. */
  lemma LookOrderIndependent(a: seq<Vec2>, b: seq<Vec2>, cam: Camera)
    requires multiset(a) == multiset(b)
    ensures LookAround(a, cam) == LookAround(b, cam)
  {
    SumMotionPermutation(a, b);
  }

  /** Motion that cancels within a frame (+v then -v) leaves the camera as
      it was. */
  lemma LookCancelling(v: Vec2, cam: Camera)
    ensures LookAround([v, Vec2(-v.x, -v.y)], cam) == cam
  {
    var events := [v, Vec2(-v.x, -v.y)];
    assert events[..1] == [v];
    assert events[..1][..0] == [];
    calc {
      SumMotion(events);
    ==
      Add2(SumMotion([v]), Vec2(-v.x, -v.y));
    ==
      Add2(Add2(SumMotion([]), v), Vec2(-v.x, -v.y));
    ==
      Zero2;
    }
  }

  /** The yaw always moves by `-dx * sensitivity`; with no net motion that
      is no move at all. */
  lemma YawTurn(events: seq<Vec2>, cam: Camera)
    ensures LookAround(events, cam).controller.yaw
         == Rotate(cam.controller.yaw, SumMotion(events).x, cam.player.sensitivity)
  {
    if SumMotion(events) == Zero2 {
      RotateByZero(cam.controller.yaw, cam.player.sensitivity);
    }
  }

  lemma RotateByZero(angle: real, sensitivity: real)
    ensures Rotate(angle, 0.0, sensitivity) == angle
  {
  }

  /** The yaw is never clamped, so it adds up across frames: two frames turn
      the yaw exactly as one frame holding both frames' events would. */
  lemma YawAccumulates(a: seq<Vec2>, b: seq<Vec2>, cam: Camera)
    ensures LookAround(b, LookAround(a, cam)).controller.yaw
         == LookAround(a + b, cam).controller.yaw
  {
    var once := LookAround(a, cam);
    assert SumMotion(a + b).x == SumMotion(a).x + SumMotion(b).x by { SumMotionAppend(a, b); }
    YawTurn(a, cam);
    YawTurn(b, once);
    YawTurn(a + b, cam);
    var s := cam.player.sensitivity;
    assert SumMotion(a).x * s + SumMotion(b).x * s == SumMotion(a + b).x * s;
  }

  /** A turn past the limit leaves the pitch on the limit, not beyond it. */
  lemma LookSaturates(events: seq<Vec2>, cam: Camera)
    requires SumMotion(events) != Zero2
    ensures var requested := cam.controller.pitch - SumMotion(events).y * cam.player.sensitivity;
            && (requested < PitchMin ==> LookAround(events, cam).controller.pitch == PitchMin)
            && (requested > PitchMax ==> LookAround(events, cam).controller.pitch == PitchMax)
  {
  }
}
