/**
 * The controller tracker (ControllerTracker): the laser pointer's debounce
 * filter, which slows the pointer's rotation down and finally freezes it
 * while the controller is held almost still, and the stillness detector,
 * which hides the raycaster once the controller has not moved for three
 * seconds.
 *
 * The rotation arithmetic is not modelled: Quaternion.Angle,
 * Quaternion.Lerp and the chain of world-matrix, recentering and pitch
 * corrections that TrackPose applies to the controller rotation are
 * parameters (see Rotations).
 */
module Tracker {
  import opened Geometry
  import opened Results

  /** The unity functions the tracker calls: Quaternion.Angle,
      Quaternion.Lerp, and the transform TrackPose applies to the rotation
      it picked before writing it to transform.rotation. */
  datatype Rotations = Rotations(angle: (Quat, Quat) -> real,
                                 lerp: (Quat, Quat, real) -> Quat,
                                 place: Quat -> Quat)

  /* ---------- the debounce filter (GetLerpRotation) ---------- */

  /** Past this angle from the last pointer rotation debouncing stops. */
  const DebounceExit: real := 2.78
  /** Below this angle the controller counts as held still. */
  const SlowDownAngle: real := 0.74
  /** Held still this long, the pointer freezes. */
  const SlowDownTime: real := 0.4
  /** The lerp speed when not debouncing. */
  const FreeSpeed: real := 100.0

  /** The debounce fields of a tracker. */
  datatype Debounce = Debounce(debouncing: bool, slowDownTimer: real, lerpSpeed: real,
                               lastHandRotation: Quat)

  /** The lerp speed while debouncing: 3.2 times the squared angle, kept
      within [1.5, 50]. */
  function DebounceSpeed(angle: real): (r: real)
    ensures 1.5 <= r <= 50.0
    ensures 1.5 <= 3.2 * angle * angle <= 50.0 ==> r == 3.2 * angle * angle
  {
    Clamp(angle * angle * 3.2, 1.5, 50.0)
  }

  /** The interpolation parameter GetLerpRotation passes to Quaternion.Lerp. */
  function LerpTime(deltaTime: real, speed: real): real
  {
    deltaTime * speed
  }

  /** One GetLerpRotation call: the new debounce fields and the rotation
      returned, for the controller's current rotation `input`. */
  function DebounceStep(s: Debounce, input: Quat, deltaTime: real, rot: Rotations): (Debounce, Quat)
  {
    var angle := rot.angle(s.lastHandRotation, input);
    var debouncing := s.debouncing && angle <= DebounceExit;
    var speed := if debouncing then DebounceSpeed(angle) else FreeSpeed;
    var result := rot.lerp(s.lastHandRotation, input, LerpTime(deltaTime, speed));
    if angle < SlowDownAngle then
      var timer := s.slowDownTimer + deltaTime;
      if timer >= SlowDownTime then (Debounce(true, timer, speed, s.lastHandRotation), s.lastHandRotation)
      else (Debounce(debouncing, timer, speed, result), result)
    else (Debounce(debouncing, 0.0, speed, result), result)
  }

  /** The speed is the clamped square of the angle while debouncing, and
      100 otherwise; a jump past 2.78 degrees ends debouncing and the
      slow-down count. */
  lemma DebounceSpeedChoice(s: Debounce, input: Quat, deltaTime: real, rot: Rotations)
    ensures var angle := rot.angle(s.lastHandRotation, input);
            var n := DebounceStep(s, input, deltaTime, rot).0;
            && (s.debouncing && angle <= DebounceExit ==> n.lerpSpeed == DebounceSpeed(angle) && 1.5 <= n.lerpSpeed <= 50.0)
            && (!(s.debouncing && angle <= DebounceExit) ==> n.lerpSpeed == FreeSpeed)
            && (angle > DebounceExit ==> !n.debouncing && n.slowDownTimer == 0.0)
  { }

  /** A controller held still long enough starts debouncing and the
      returned rotation is the last one, which is kept. */
  lemma SlowDownFreezes(s: Debounce, input: Quat, deltaTime: real, rot: Rotations)
    requires rot.angle(s.lastHandRotation, input) < SlowDownAngle
    requires s.slowDownTimer + deltaTime >= SlowDownTime
    ensures var (n, r) := DebounceStep(s, input, deltaTime, rot);
            n.debouncing && r == s.lastHandRotation && n.lastHandRotation == s.lastHandRotation
            && n.slowDownTimer == s.slowDownTimer + deltaTime
  { }

  /** A move of at least 0.74 degrees restarts the slow-down count and the
      pointer follows the lerped rotation, which becomes the last one. */
  lemma MoveFollows(s: Debounce, input: Quat, deltaTime: real, rot: Rotations)
    requires rot.angle(s.lastHandRotation, input) >= SlowDownAngle
    ensures var (n, r) := DebounceStep(s, input, deltaTime, rot);
            && n.slowDownTimer == 0.0
            && r == rot.lerp(s.lastHandRotation, input, LerpTime(deltaTime, n.lerpSpeed))
            && n.lastHandRotation == r
  {
    var angle := rot.angle(s.lastHandRotation, input);
    var speed := if s.debouncing && angle <= DebounceExit then DebounceSpeed(angle) else FreeSpeed;
    var q := rot.lerp(s.lastHandRotation, input, LerpTime(deltaTime, speed));
    assert DebounceStep(s, input, deltaTime, rot) == (Debounce(s.debouncing && angle <= DebounceExit, 0.0, speed, q), q);
  }

  /** The pointer is frozen: debouncing, with the slow-down time spent. */
  predicate Frozen(s: Debounce)
  {
    s.debouncing && s.slowDownTimer >= SlowDownTime
  }

  /** One frame of the controller's rotation reaching the tracker. */
  datatype Sample = Sample(input: Quat, deltaTime: real)

  /** Runs GetLerpRotation over a sequence of frames; returns the final
      fields and the rotations returned, in order. */
  function DebounceRun(s: Debounce, frames: seq<Sample>, rot: Rotations): (r: (Debounce, seq<Quat>))
    ensures |r.1| == |frames|
    decreases |frames|
  {
    if frames == [] then (s, [])
    else
      var (n, q) := DebounceStep(s, frames[0].input, frames[0].deltaTime, rot);
      var (m, qs) := DebounceRun(n, frames[1..], rot);
      (m, [q] + qs)
  }

  /** Every frame stays within 0.74 degrees of the rotation the pointer
      holds at that frame, and time does not run backwards. */
  ghost predicate HeldStill(s: Debounce, frames: seq<Sample>, rot: Rotations)
    decreases |frames|
  {
    frames != [] ==>
      && rot.angle(s.lastHandRotation, frames[0].input) < SlowDownAngle
      && frames[0].deltaTime >= 0.0
      && HeldStill(DebounceStep(s, frames[0].input, frames[0].deltaTime, rot).0, frames[1..], rot)
  }

  function Duration(frames: seq<Sample>): real
  {
    if frames == [] then 0.0 else frames[0].deltaTime + Duration(frames[1..])
  }

  /** Once frozen, a controller held still keeps the pointer where it is:
      every returned rotation is the frozen one. */
  lemma {:induction false} FrozenStays(s: Debounce, frames: seq<Sample>, rot: Rotations)
    requires Frozen(s) && HeldStill(s, frames, rot)
    ensures var (m, qs) := DebounceRun(s, frames, rot);
            Frozen(m) && m.lastHandRotation == s.lastHandRotation
            && forall k :: 0 <= k < |qs| ==> qs[k] == s.lastHandRotation
    decreases |frames|
  {
    if frames != [] {
      var n := DebounceStep(s, frames[0].input, frames[0].deltaTime, rot).0;
      SlowDownFreezes(s, frames[0].input, frames[0].deltaTime, rot);
      FrozenStays(n, frames[1..], rot);
    }
  }

  /** A controller held still for 0.4 seconds (counted from the current
      slow-down time) freezes the pointer. */
  lemma {:induction false} StillControllerFreezes(s: Debounce, frames: seq<Sample>, rot: Rotations)
    requires HeldStill(s, frames, rot)
    requires frames != [] && s.slowDownTimer + Duration(frames) >= SlowDownTime
    ensures Frozen(DebounceRun(s, frames, rot).0)
    decreases |frames|
  {
    var n := DebounceStep(s, frames[0].input, frames[0].deltaTime, rot).0;
    if s.slowDownTimer + frames[0].deltaTime >= SlowDownTime {
      SlowDownFreezes(s, frames[0].input, frames[0].deltaTime, rot);
      FrozenStays(n, frames[1..], rot);
    } else {
      StillControllerFreezes(n, frames[1..], rot);
    }
  }

  /* ---------- the stillness detector (UpdateTracker) ---------- */

  /** A rotation change of at least this many degrees counts as movement. */
  const MovementThreshold: real := 0.3
  /** Maximum static time: unmoved this long, the tracker is non-moveable. */
  const StillTime: real := 3.0
  /** A non-moveable tracker refreshes its reference on every 30th frame. */
  const RefreshFrames: nat := 30

  /** The movement fields of a tracker. */
  datatype Motion = Motion(moveable: bool, noMovementTimer: real, movementRotation: Quat)

  /** The movement branch of UpdateTracker: `rotation` is the tracker's
      rotation, `angle` its angle to the reference rotation. */
  function MotionStep(m: Motion, rotation: Quat, angle: real, trigger: bool,
                      deltaTime: real, frameCount: nat): Motion
  {
    if angle >= MovementThreshold || trigger then Motion(true, 0.0, rotation)
    else if m.moveable then
      var timer := m.noMovementTimer + deltaTime;
      if timer >= StillTime then Motion(false, timer, rotation)
      else Motion(true, timer, m.movementRotation)
    else if frameCount % RefreshFrames == 0 then m.(movementRotation := rotation)
    else m
  }

  /** A move or a held trigger wakes the tracker; otherwise it stays (or
      becomes) non-moveable exactly when the still time is reached, and a
      non-moveable tracker touches only its reference, on every 30th
      frame. */
  lemma MotionStepCases(m: Motion, rotation: Quat, angle: real, trigger: bool,
                        deltaTime: real, frameCount: nat)
    ensures var n := MotionStep(m, rotation, angle, trigger, deltaTime, frameCount);
            && (angle >= MovementThreshold || trigger ==> n == Motion(true, 0.0, rotation))
            && (n.moveable <==> angle >= MovementThreshold || trigger
                                || (m.moveable && m.noMovementTimer + deltaTime < StillTime))
            && (!n.moveable ==> n.noMovementTimer == (if m.moveable then m.noMovementTimer + deltaTime else m.noMovementTimer))
            && (!m.moveable && !n.moveable ==>
                  n.movementRotation == (if frameCount % RefreshFrames == 0 then rotation else m.movementRotation))
  { }

  /** One frame of the tracker's own rotation reaching the detector. */
  datatype Tick = Tick(rotation: Quat, deltaTime: real, frameCount: nat)

  function MotionRun(m: Motion, ticks: seq<Tick>, rot: Rotations): Motion
    decreases |ticks|
  {
    if ticks == [] then m
    else
      var t := ticks[0];
      MotionRun(MotionStep(m, t.rotation, rot.angle(t.rotation, m.movementRotation), false,
                           t.deltaTime, t.frameCount), ticks[1..], rot)
  }

  /** No frame moves the tracker 0.3 degrees away from its reference and
      time does not run backwards. */
  ghost predicate Unmoved(m: Motion, ticks: seq<Tick>, rot: Rotations)
    decreases |ticks|
  {
    ticks != [] ==>
      var t := ticks[0];
      var a := rot.angle(t.rotation, m.movementRotation);
      && a < MovementThreshold && t.deltaTime >= 0.0
      && Unmoved(MotionStep(m, t.rotation, a, false, t.deltaTime, t.frameCount), ticks[1..], rot)
  }

  function Elapsed(ticks: seq<Tick>): real
  {
    if ticks == [] then 0.0 else ticks[0].deltaTime + Elapsed(ticks[1..])
  }

  /** Left unmoved, a non-moveable tracker stays non-moveable. */
  lemma {:induction false} StillStaysStill(m: Motion, ticks: seq<Tick>, rot: Rotations)
    requires !m.moveable && Unmoved(m, ticks, rot)
    ensures !MotionRun(m, ticks, rot).moveable
    decreases |ticks|
  {
    if ticks != [] {
      var t := ticks[0];
      var a := rot.angle(t.rotation, m.movementRotation);
      MotionStepCases(m, t.rotation, a, false, t.deltaTime, t.frameCount);
      StillStaysStill(MotionStep(m, t.rotation, a, false, t.deltaTime, t.frameCount), ticks[1..], rot);
    }
  }

  /** Left unmoved for StillTime seconds (counted from its current timer),
      a tracker becomes non-moveable and so hides its raycaster. */
  lemma {:induction false} UnmovedGoesStill(m: Motion, ticks: seq<Tick>, rot: Rotations)
    requires Unmoved(m, ticks, rot)
    requires ticks != [] && m.noMovementTimer + Elapsed(ticks) >= StillTime
    ensures !MotionRun(m, ticks, rot).moveable
    decreases |ticks|
  {
    var t := ticks[0];
    var a := rot.angle(t.rotation, m.movementRotation);
    var n := MotionStep(m, t.rotation, a, false, t.deltaTime, t.frameCount);
    MotionStepCases(m, t.rotation, a, false, t.deltaTime, t.frameCount);
    if !n.moveable {
      StillStaysStill(n, ticks[1..], rot);
    } else {
      assert n.noMovementTimer == m.noMovementTimer + t.deltaTime;
      UnmovedGoesStill(n, ticks[1..], rot);
    }
  }

  /* ---------- the tracker ---------- */

  datatype RaycastMode = Gaze | Laser

  /** What UpdateTracker reads from NRInput and Time in one call. */
  datatype Input = Input(cameraCenter: bool, controllerAvailable: bool, handsRunning: bool,
                         raycastersActive: bool, mode: RaycastMode, updatePose: bool,
                         controllerRotation: Quat, trigger: bool,
                         deltaTime: real, frameCount: nat)

  /** The GameObjects UpdateTracker switches on or off. */
  datatype Activation = Activation(raycaster: bool, modelAnchor: bool)

  /** The raycaster shows iff the tracker is enabled (its controller is
      available and hand tracking is not running), raycasters are active,
      the mode is Laser, and the tracker is (still) moveable. */
  predicate RaycasterShown(inp: Input, moveable: bool)
  {
    inp.controllerAvailable && !inp.handsRunning && inp.raycastersActive
    && inp.mode == Laser && moveable
  }

  /** All the fields UpdateTracker reads or writes. */
  datatype TrackerState = TrackerState(isEnabled: bool, rotation: Quat, debounce: Debounce, motion: Motion)

  /** TrackPose, as far as the rotation goes: the debounced or the raw
      controller rotation, transformed. */
  function PoseStep(s: TrackerState, inp: Input, debounceMode: bool, rot: Rotations): TrackerState
  {
    if debounceMode then
      var (d, q) := DebounceStep(s.debounce, inp.controllerRotation, inp.deltaTime, rot);
      s.(debounce := d, rotation := rot.place(q))
    else s.(rotation := rot.place(inp.controllerRotation))
  }

  /** One UpdateTracker call: the new fields and, unless the camera is
      missing, the activations set. */
  function TrackerStep(s: TrackerState, inp: Input, debounceMode: bool, rot: Rotations)
    : (TrackerState, Option<Activation>)
  {
    if !inp.cameraCenter then (s, None)
    else
      var enabled := inp.controllerAvailable && !inp.handsRunning;
      var act := Activation(RaycasterShown(inp, s.motion.moveable), enabled);
      if !enabled then (s.(isEnabled := false), Some(act))
      else
        var p := if inp.updatePose then PoseStep(s, inp, debounceMode, rot) else s;
        var angle := rot.angle(p.rotation, p.motion.movementRotation);
        var m := MotionStep(p.motion, p.rotation, angle, inp.trigger, inp.deltaTime, inp.frameCount);
        (p.(isEnabled := true, motion := m), Some(act))
  }

  /** Without a camera nothing happens; a disabled tracker hides its
      model and raycaster and keeps its fields; the raycaster follows
      RaycasterShown on the moveable flag from before the call. */
  lemma TrackerStepGates(s: TrackerState, inp: Input, debounceMode: bool, rot: Rotations)
    ensures var (n, act) := TrackerStep(s, inp, debounceMode, rot);
            && (!inp.cameraCenter ==> n == s && act == None)
            && (inp.cameraCenter ==>
                  && act.Some?
                  && (act.value.raycaster <==> n.isEnabled && inp.raycastersActive && inp.mode == Laser && s.motion.moveable)
                  && act.value.modelAnchor == n.isEnabled
                  && (n.isEnabled <==> inp.controllerAvailable && !inp.handsRunning))
            && (!n.isEnabled ==> n.debounce == s.debounce && n.motion == s.motion && n.rotation == s.rotation)
            && (!debounceMode || !inp.updatePose ==> n.debounce == s.debounce)
  { }

  class ControllerTracker {
    var debounceMode: bool
    var isEnabled: bool
    /** transform.rotation */
    var rotation: Quat
    var noMovementTimer: real
    var movementRotation: Quat
    var moveable: bool
    var lastHandRotation: Quat
    var lerpSpeed: real
    var slowDownTimer: real
    var debouncing: bool

    function Debouncer(): Debounce
      reads this
    {
      Debounce(debouncing, slowDownTimer, lerpSpeed, lastHandRotation)
    }

    function Mover(): Motion
      reads this
    {
      Motion(moveable, noMovementTimer, movementRotation)
    }

    function State(): TrackerState
      reads this
    {
      TrackerState(isEnabled, rotation, Debouncer(), Mover())
    }

    /** The field initialisers: moveable, not debouncing, lerp speed 5,
        identity rotations. */
    constructor (debounceMode: bool)
      ensures this.debounceMode == debounceMode
      ensures State() == TrackerState(false, Identity, Debounce(false, 0.0, 5.0, Identity),
                                       Motion(true, 0.0, Identity))
    {
      this.debounceMode := debounceMode;
      isEnabled := false;
      rotation := Identity;
      noMovementTimer := 0.0;
      movementRotation := Identity;
      moveable := true;
      lastHandRotation := Identity;
      lerpSpeed := 5.0;
      slowDownTimer := 0.0;
      debouncing := false;
    }

    method GetLerpRotation(input: Quat, deltaTime: real, rot: Rotations) returns (result: Quat)
      modifies this
      ensures (Debouncer(), result) == DebounceStep(old(Debouncer()), input, deltaTime, rot)
      ensures isEnabled == old(isEnabled) && rotation == old(rotation) && Mover() == old(Mover())
      ensures debounceMode == old(debounceMode)
    {
      ghost var s := Debouncer();
      var angle := rot.angle(lastHandRotation, input);
      if debouncing && angle > DebounceExit {
        debouncing := false;
      }
      if debouncing {
        lerpSpeed := angle * angle * 3.2;
        lerpSpeed := Clamp(lerpSpeed, 1.5, 50.0);
        assert lerpSpeed == DebounceSpeed(angle);
      } else {
        lerpSpeed := FreeSpeed;
      }
      result := rot.lerp(lastHandRotation, input, LerpTime(deltaTime, lerpSpeed));
      if angle < SlowDownAngle {
        slowDownTimer := slowDownTimer + deltaTime;
        if slowDownTimer >= SlowDownTime {
          debouncing := true;
          return lastHandRotation;
        }
      } else {
        slowDownTimer := 0.0;
      }
      lastHandRotation := result;
    }

    method TrackPose(inp: Input, rot: Rotations)
      modifies this
      ensures State() == PoseStep(old(State()), inp, debounceMode, rot)
      ensures debounceMode == old(debounceMode)
    {
      var q;
      if debounceMode {
        q := GetLerpRotation(inp.controllerRotation, inp.deltaTime, rot);
      } else {
        q := inp.controllerRotation;
      }
      rotation := rot.place(q);
    }

    method UpdateTracker(inp: Input, rot: Rotations) returns (act: Option<Activation>)
      modifies this
      ensures (State(), act) == TrackerStep(old(State()), inp, debounceMode, rot)
      ensures debounceMode == old(debounceMode)
    {
      if !inp.cameraCenter {
        return None;
      }
      isEnabled := inp.controllerAvailable && !inp.handsRunning;
      act := Some(Activation(isEnabled && inp.raycastersActive && inp.mode == Laser && moveable, isEnabled));
      if isEnabled {
        if inp.updatePose {
          TrackPose(inp, rot);
        }
        if rot.angle(rotation, movementRotation) >= MovementThreshold || inp.trigger {
          movementRotation := rotation;
          moveable := true;
          noMovementTimer := 0.0;
        } else {
          if moveable {
            noMovementTimer := noMovementTimer + inp.deltaTime;
            if noMovementTimer >= StillTime {
              moveable := false;
              movementRotation := rotation;
            }
          } else if inp.frameCount % RefreshFrames == 0 {
            movementRotation := rotation;
          }
        }
      }
    }
  }
}
