/**
 Frame sequences: the engine runs `move_camera` and `look_around` once per
 frame. Their relative order within a frame is not fixed by the app and may
 differ from frame to frame, so each frame records which system ran first;
 `FrameOrder` says what the choice changes.
 */
module Frames {
  import opened Vectors
  import opened Numerics
  import opened Movement

  /** The inputs of one frame: its duration, the held keys, the mouse
      motion events it delivered, and whether the scheduler ran
      `look_around` before `move_camera` in it. */
  datatype Frame = Frame(dt: real, keys: set<Key>, motion: seq<Vec2>, lookFirst: bool)

  /** One frame for one camera. The player never changes, the pitch stays
      in range once it is, and a synchronised rotation stays synchronised. */
  function Advance(t: Trig, cam: Camera, f: Frame): (r: Camera)
    ensures r.player == cam.player
    ensures PitchInRange(cam.controller.pitch) ==> PitchInRange(r.controller.pitch)
    ensures RotationSynced(cam) ==> RotationSynced(r)
  {
    if f.lookFirst then MoveCamera(t, f.dt, f.keys, LookAround(f.motion, cam))
    else LookAround(f.motion, MoveCamera(t, f.dt, f.keys, cam))
  }

  /** The camera after a sequence of frames, the first frame first. */
  function Run(t: Trig, cam: Camera, frames: seq<Frame>): Camera
    decreases |frames|
  {
    if |frames| == 0 then cam else Run(t, Advance(t, cam, frames[0]), frames[1..])
  }

  /** Total elapsed time of a frame sequence. */
  function Elapsed(frames: seq<Frame>): real
    decreases |frames|
  {
    if |frames| == 0 then 0.0 else frames[0].dt + Elapsed(frames[1..])
  }

  /** Running two sequences back to back is running their concatenation. */
  lemma {:induction false} RunAppend(t: Trig, cam: Camera, a: seq<Frame>, b: seq<Frame>)
    ensures Run(t, cam, a + b) == Run(t, Run(t, cam, a), b)
    decreases |a|
  {
    if |a| == 0 {
      assert a + b == b;
    } else {
      assert (a + b)[0] == a[0];
      assert (a + b)[1..] == a[1..] + b;
      RunAppend(t, Advance(t, cam, a[0]), a[1..], b);
    }
  }

  /** The pitch invariant: a camera whose pitch is in range keeps it in
      range through every sequence of frames. */
  lemma {:induction false} RunKeepsPitchInRange(t: Trig, cam: Camera, frames: seq<Frame>)
    requires PitchInRange(cam.controller.pitch)
    ensures PitchInRange(Run(t, cam, frames).controller.pitch)
    decreases |frames|
  {
    if |frames| > 0 {
      RunKeepsPitchInRange(t, Advance(t, cam, frames[0]), frames[1..]);
    }
  }

  /** From the state `setup_camera_controller` gives, the pitch is in
      `[-FRAC_PI_2 + 0.001, FRAC_PI_2 - 0.001]` after any frames whatever,
      and the pitch limits really lie on either side of level. */
  lemma PitchBoundedFromSetup(t: Trig, spawned: Transform, frames: seq<Frame>)
    ensures PitchInRange(Run(t, SetupCamera(spawned), frames).controller.pitch)
    ensures PitchMin < 0.0 < PitchMax
  {
    RunKeepsPitchInRange(t, SetupCamera(spawned), frames);
  }

  /** No frame changes the speed or the sensitivity. */
  lemma {:induction false} RunKeepsPlayer(t: Trig, cam: Camera, frames: seq<Frame>)
    ensures Run(t, cam, frames).player == cam.player
    decreases |frames|
  {
    if |frames| > 0 {
      RunKeepsPlayer(t, Advance(t, cam, frames[0]), frames[1..]);
    }
  }

  /** Once the rotation agrees with yaw and pitch, every later frame keeps
      it in agreement. */
  lemma {:induction false} RunKeepsSynced(t: Trig, cam: Camera, frames: seq<Frame>)
    requires RotationSynced(cam)
    ensures RotationSynced(Run(t, cam, frames))
    decreases |frames|
  {
    if |frames| > 0 {
      RunKeepsSynced(t, Advance(t, cam, frames[0]), frames[1..]);
    }
  }

  /** The systems commute on the orientation: movement first or look first,
      the frame ends with the same yaw, pitch and rotation. A frame without
      net mouse motion, or whose keys cancel, ends the same either way. */
  lemma FrameOrder(t: Trig, cam: Camera, f: Frame)
    ensures var moveFirst := LookAround(f.motion, MoveCamera(t, f.dt, f.keys, cam));
            var lookFirst := MoveCamera(t, f.dt, f.keys, LookAround(f.motion, cam));
            && moveFirst.controller == lookFirst.controller
            && moveFirst.transform.rotation == lookFirst.transform.rotation
            && (SumMotion(f.motion) == Zero2 ==> moveFirst == lookFirst)
            && (Idle(ReadKeys(f.keys)) ==> moveFirst == lookFirst)
  {
    if Idle(ReadKeys(f.keys)) {
      MoveIdle(t, f.dt, f.keys, cam);
      MoveIdle(t, f.dt, f.keys, LookAround(f.motion, cam));
    }
  }

  // ---------------------------------------------------------------------
  // Holding W
  // ---------------------------------------------------------------------

  /** A frame that holds W alone and brings no net mouse motion. */
  predicate ForwardOnly(f: Frame) {
    f.keys == {W} && SumMotion(f.motion) == Zero2
  }

  /** Where `sin² + cos² = 1` and the length is exact, forward has length 1. */
  lemma UnitForward(t: Trig, yaw: real)
    requires PythagoreanAt(t, yaw)
    requires NormAt(t, Forward(t, yaw))
    ensures Forward(t, yaw) != Zero3
    ensures t.norm(Forward(t, yaw)) == 1.0
  {
    BasisOrthonormal(t, yaw);
    LengthSquaredPositive(Forward(t, yaw));
    PositiveUnitRoot(t.norm(Forward(t, yaw)));
  }

  /** Holding W alone, the direction is forward itself. */
  lemma DirectionOfW(t: Trig, yaw: real)
    ensures Direction(t, yaw, ReadKeys({W})) == Forward(t, yaw)
  {
    ReadW();
  }

  lemma ReadW()
    ensures ReadKeys({W}) == Held(true, false, false, false, false, false)
  {
  }

  /** The way covered in `time` at `speed` along `f`. It is a `Scale`, named
      so that `TravelAdds` can state additivity over time on whole vectors:
      the solver then joins frame steps by congruence instead of expanding
      them into their components. */
  function Travel(f: Vec3, speed: real, time: real): Vec3 {
    Scale(f, speed * time)
  }

  /** A step along a unit vector is the way covered in `dt` at `speed`. */
  lemma UnitStep(t: Trig, d: Vec3, speed: real, dt: real)
    requires d != Zero3
    requires t.norm(d) == 1.0
    ensures Step(t, d, speed, dt) == Travel(d, speed, dt)
  {
  }

  lemma MoveForwardUnit(t: Trig, dt: real, cam: Camera)
    requires Forward(t, cam.controller.yaw) != Zero3
    requires t.norm(Forward(t, cam.controller.yaw)) == 1.0
    ensures MoveCamera(t, dt, {W}, cam) == Moved(cam, Travel(Forward(t, cam.controller.yaw), cam.player.speed, dt))
  {
    DirectionOfW(t, cam.controller.yaw);
    UnitStep(t, Forward(t, cam.controller.yaw), cam.player.speed, dt);
  }

  /** Where forward has length 1, one W-only frame moves the camera
      `speed * dt` along forward and leaves the orientation alone. */
  lemma ForwardFrame(t: Trig, cam: Camera, f: Frame)
    requires ForwardOnly(f)
    requires Forward(t, cam.controller.yaw) != Zero3
    requires t.norm(Forward(t, cam.controller.yaw)) == 1.0
    ensures Advance(t, cam, f) == Moved(cam, Travel(Forward(t, cam.controller.yaw), cam.player.speed, f.dt))
  {
    MoveForwardUnit(t, f.dt, cam);
  }

  lemma TravelAdds(f: Vec3, speed: real, a: real, b: real, total: real)
    requires total == a + b
    ensures Add(Travel(f, speed, a), Travel(f, speed, b)) == Travel(f, speed, total)
  {
    calc {
      Add(Travel(f, speed, a), Travel(f, speed, b));
    ==
      Vec3(f.x * (speed * a) + f.x * (speed * b), f.y * (speed * a) + f.y * (speed * b),
           f.z * (speed * a) + f.z * (speed * b));
    ==
      Scale(f, speed * (a + b));
    }
  }

  lemma MovedTwice(cam: Camera, u: Vec3, w: Vec3)
    ensures Moved(Moved(cam, u), w) == Moved(cam, Add(u, w))
  {
  }

  /** Holding W alone for a run of frames without mouse motion moves the
      camera `speed` times the elapsed time along forward, whatever the
      individual frame times. */
  lemma HoldForward(t: Trig, cam: Camera, frames: seq<Frame>)
    requires forall i :: 0 <= i < |frames| ==> ForwardOnly(frames[i])
    requires PythagoreanAt(t, cam.controller.yaw)
    requires NormAt(t, Forward(t, cam.controller.yaw))
    ensures Run(t, cam, frames)
         == Moved(cam, Travel(Forward(t, cam.controller.yaw), cam.player.speed, Elapsed(frames)))
  {
    UnitForward(t, cam.controller.yaw);
    HoldUnitForward(t, cam, frames);
  }

  lemma {:induction false} HoldUnitForward(t: Trig, cam: Camera, frames: seq<Frame>)
    requires forall i :: 0 <= i < |frames| ==> ForwardOnly(frames[i])
    requires Forward(t, cam.controller.yaw) != Zero3
    requires t.norm(Forward(t, cam.controller.yaw)) == 1.0
    ensures Run(t, cam, frames)
         == Moved(cam, Travel(Forward(t, cam.controller.yaw), cam.player.speed, Elapsed(frames)))
    decreases |frames|
  {
    var f, speed := Forward(t, cam.controller.yaw), cam.player.speed;
    if |frames| == 0 {
      assert Travel(f, speed, Elapsed(frames)) == Zero3;
      assert Moved(cam, Zero3) == cam;
    } else {
      var rest := frames[1..];
      var next := Advance(t, cam, frames[0]);
      ForwardFrame(t, cam, frames[0]);
      HoldUnitForward(t, next, rest);
      MovedTwice(cam, Travel(f, speed, frames[0].dt), Travel(f, speed, Elapsed(rest)));
      TravelAdds(f, speed, frames[0].dt, Elapsed(rest), Elapsed(frames));
    }
  }

  /** `n` frames of length `dt`, each holding W alone. */
  function HoldW(n: nat, dt: real): (frames: seq<Frame>)
    ensures |frames| == n
    ensures forall i :: 0 <= i < n ==> frames[i] == Frame(dt, {W}, [], false)
  {
    seq(n, _ => Frame(dt, {W}, [], false))
  }

  lemma {:induction false} ElapsedUniform(n: nat, dt: real)
    ensures Elapsed(HoldW(n, dt)) == n as real * dt
    decreases n
  {
    if n > 0 {
      assert HoldW(n, dt)[1..] == HoldW(n - 1, dt);
      ElapsedUniform(n - 1, dt);
    }
  }

  /** From setup, with `sin 0 = 0` and `cos 0 = 1` and an exact length, ten
      frames of 0.1 s holding W move the camera 5 units straight down -Z: one
      second at the default speed. */
  lemma TenFramesForward(t: Trig, spawned: Transform)
    requires t.sin(0.0) == 0.0 && t.cos(0.0) == 1.0
    requires NormAt(t, Forward(t, 0.0))
    ensures Run(t, SetupCamera(spawned), HoldW(10, 0.1)).transform.translation
         == Add(spawned.translation, Vec3(0.0, 0.0, -5.0))
  {
    var frames := HoldW(10, 0.1);
    var cam := SetupCamera(spawned);
    assert SumMotion([]) == Zero2;
    assert forall i :: 0 <= i < |frames| ==> ForwardOnly(frames[i]);
    assert PythagoreanAt(t, 0.0);
    HoldForward(t, cam, frames);
    ElapsedUniform(10, 0.1);
    assert Travel(Forward(t, 0.0), 5.0, 1.0) == Vec3(0.0, 0.0, -5.0);
  }
}
