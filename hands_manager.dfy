/**
 * The hands manager (NRHandsManager): the registry of hand objects, the two
 * hand states, and the per-frame pointer stabiliser that drives one
 * One-Euro filter per hand from angle thresholds.
 *
 * The joint geometry that produces the pointer ray is not modelled: each
 * frame receives the ray (position and direction) and the wrist angle as
 * inputs.  Quaternion.LookRotation, Quaternion.Angle and Vector3.magnitude
 * are parameters (see Optics).
 */
module Hands {
  import opened Geometry
  import opened OneEuro

  datatype HandEnum = None | RightHand | LeftHand

  /** Only Pinch is ever tested, so all other gestures are one value here. */
  datatype HandGesture = NoGesture | Pinch | OtherGesture

  /** The unity functions the pointer computation calls. */
  datatype Optics = Optics(look: Vec3 -> Quat, angle: (Quat, Quat) -> real, mag: Vec3 -> real)

  /** Quaternion.Angle and a vector magnitude are never negative. */
  ghost predicate Sound(o: Optics)
  {
    (forall v :: o.mag(v) >= 0.0) && (forall p, q :: o.angle(p, q) >= 0.0)
  }

  /** What the joint geometry yields in one frame for one hand: the angle
      between the camera's and the wrist's forward directions, and the
      pointer ray. */
  datatype HandRay = HandRay(wristAngle: real, position: Vec3, direction: Vec3)

  /** The wrist has to face away from the camera less than this for the
      pointer to be valid. */
  const MaxWristAngle: real := 110.0

  /* ---------- the stabiliser's bookkeeping and decisions ---------- */

  /** The four fields of a hand state the stabiliser keeps across frames. */
  datatype Latch = Latch(lockRotation: bool, pinchNonMovable: bool,
                         nonMovableTimer: real, pinchingTimer: real)

  /** The filter presets the stabiliser selects. */
  const Frozen: Coeffs := Coeffs(0.0, 0.0, 0.0)
  const Responsive: Coeffs := Coeffs(1.0, 1.0, 5.0)
  const PinchDrift: Coeffs := Coeffs(0.1, 0.4, 2.0)
  const LockedDrift: Coeffs := Coeffs(0.2, 0.5, 2.0)
  const LockedSteady: Coeffs := Coeffs(0.1, 0.2, 1.0)
  const SettleIn: Coeffs := Coeffs(0.15, 0.5, 1.0)
  const Moving: Coeffs := Coeffs(0.2, 1.0, 5.0)

  /** The stabiliser's decision for one valid frame: the new bookkeeping,
      the SetEuroParam calls made (in order), and whether the rest pose is
      re-based on the current pointer. */
  datatype Decision = Decision(next: Latch, retunes: seq<Retune>, rebase: bool)

  /** The lock checks of a pinching hand: past 6.5 degrees the lock breaks,
      past 3 degrees a non-movable pinch starts to drift, and below half a
      degree it becomes non-movable again. */
  function PinchLock(s: Latch, angle: real): (Latch, seq<Retune>)
  {
    if !s.lockRotation then (s, [])
    else if angle > 6.5 then (s.(lockRotation := false, pinchNonMovable := false), [Retune(Responsive, true)])
    else if s.pinchNonMovable && angle > 3.0 then (s.(pinchNonMovable := false), [Retune(PinchDrift, true)])
    else if angle < 0.5 && !s.pinchNonMovable then (s.(pinchNonMovable := true), [Retune(Frozen, false)])
    else (s, [])
  }

  /** The gesture branch of CalculatePointerPose for a tracked hand whose
      pointer is valid.  `angle` is the angle between the new hand rotation
      and the previous pointer rotation, `restAngle` the angle between the
      rest pose and the new hand rotation, `frameTime` Time.deltaTime. */
  function Decide(cur: HandGesture, pre: HandGesture, s: Latch, angle: real,
                  restAngle: real, frameTime: real): Decision
  {
    if cur == Pinch then
      var s0 := if pre != Pinch then s.(pinchingTimer := 0.0, lockRotation := true, pinchNonMovable := true)
                else s;
      var r0 := if pre != Pinch then [Retune(Frozen, false)] else [];
      var step := PinchLock(s0, angle);
      Decision(step.0.(pinchingTimer := step.0.pinchingTimer + frameTime), r0 + step.1, false)
    else if pre == Pinch then
      Decision(s.(lockRotation := false, nonMovableTimer := 0.0),
               [Retune(if angle > 5.0 then Responsive else Frozen, false)], false)
    else if s.lockRotation then
      if angle > 4.0 then Decision(s.(lockRotation := false, nonMovableTimer := 0.0), [], false)
      else if angle > 1.5 then Decision(s, [Retune(LockedDrift, true)], false)
      else Decision(s, [Retune(LockedSteady, false)], false)
    else if restAngle < 2.0 then
      var t := s.nonMovableTimer + frameTime;
      if t >= 0.25 then Decision(s.(nonMovableTimer := t, lockRotation := true), [Retune(SettleIn, true)], false)
      else Decision(s.(nonMovableTimer := t), [], false)
    else
      Decision(s.(nonMovableTimer := 0.0), [Retune(Moving, true)], true)
  }

  /** What the stabiliser decides, case by case. */
  lemma DecideSpec(cur: HandGesture, pre: HandGesture, s: Latch, angle: real,
                   restAngle: real, frameTime: real)
    ensures var d := Decide(cur, pre, s, angle, restAngle, frameTime);
            && |d.retunes| <= 2
            && (forall k :: 0 <= k < |d.retunes| ==> NonNegative(d.retunes[k].to))
            // Pinch entry: the filter is frozen at once; the rotation stays
            // locked unless the pointer already moved more than 6.5 degrees,
            // and stays non-movable unless it moved more than 3.
            && (cur == Pinch && pre != Pinch ==>
                  d.retunes != [] && d.retunes[0] == Retune(Frozen, false) &&
                  d.next.pinchingTimer == frameTime &&
                  (d.next.lockRotation <==> angle <= 6.5) &&
                  (d.next.pinchNonMovable <==> angle <= 3.0) &&
                  (angle <= 3.0 ==> d.retunes == [Retune(Frozen, false)]) &&
                  (3.0 < angle <= 6.5 ==>
                     d.retunes == [Retune(Frozen, false), Retune(PinchDrift, true)]) &&
                  (angle > 6.5 ==>
                     d.retunes == [Retune(Frozen, false), Retune(Responsive, true)]) &&
                  d.next.nonMovableTimer == s.nonMovableTimer && !d.rebase)
            // A sustained pinch only counts time, never locks, and unlocks for
            // good past 6.5 degrees with a smooth return to the responsive
            // preset.
            && (cur == Pinch && pre == Pinch ==>
                  d.next.pinchingTimer == s.pinchingTimer + frameTime &&
                  d.next.nonMovableTimer == s.nonMovableTimer && !d.rebase &&
                  (d.next.lockRotation ==> s.lockRotation) &&
                  (!s.lockRotation ==> d.next == s.(pinchingTimer := s.pinchingTimer + frameTime) &&
                                       d.retunes == []) &&
                  (s.lockRotation && angle > 6.5 ==>
                     !d.next.lockRotation && !d.next.pinchNonMovable &&
                     d.retunes == [Retune(Responsive, true)]) &&
                  // Still locked: past 3 degrees the filter drifts smoothly
                  // once, and back under half a degree it freezes at once.
                  (s.lockRotation && angle <= 6.5 && s.pinchNonMovable && angle > 3.0 ==>
                     d.next == s.(pinchNonMovable := false,
                                  pinchingTimer := s.pinchingTimer + frameTime) &&
                     d.retunes == [Retune(PinchDrift, true)]) &&
                  (s.lockRotation && angle < 0.5 && !s.pinchNonMovable ==>
                     d.next == s.(pinchNonMovable := true,
                                  pinchingTimer := s.pinchingTimer + frameTime) &&
                     d.retunes == [Retune(Frozen, false)]) &&
                  (s.lockRotation && angle <= 6.5 && !(s.pinchNonMovable && angle > 3.0) &&
                   !(angle < 0.5 && !s.pinchNonMovable) ==>
                     d.next == s.(pinchingTimer := s.pinchingTimer + frameTime) &&
                     d.retunes == []))
            // Pinch exit: unlock, restart the rest timer, and retune instantly.
            && (cur != Pinch && pre == Pinch ==>
                  !d.next.lockRotation && d.next.nonMovableTimer == 0.0 &&
                  d.next.pinchNonMovable == s.pinchNonMovable &&
                  d.next.pinchingTimer == s.pinchingTimer && !d.rebase &&
                  d.retunes == [Retune(if angle > 5.0 then Responsive else Frozen, false)])
            // No pinch, locked: the lock breaks past 4 degrees.
            && (cur != Pinch && pre != Pinch && s.lockRotation ==>
                  !d.rebase && d.next.pinchNonMovable == s.pinchNonMovable &&
                  d.next.pinchingTimer == s.pinchingTimer &&
                  (d.next.lockRotation <==> angle <= 4.0) &&
                  (angle > 4.0 ==> d.next.nonMovableTimer == 0.0 && d.retunes == []) &&
                  (angle <= 4.0 ==> d.next == s && |d.retunes| == 1))
            // No pinch, unlocked, near the rest pose: the rest timer
            // accumulates and the rotation locks exactly when it reaches a
            // quarter second.
            && (cur != Pinch && pre != Pinch && !s.lockRotation && restAngle < 2.0 ==>
                  !d.rebase && d.next.pinchNonMovable == s.pinchNonMovable &&
                  d.next.pinchingTimer == s.pinchingTimer &&
                  d.next.nonMovableTimer == s.nonMovableTimer + frameTime &&
                  (d.next.lockRotation <==> d.next.nonMovableTimer >= 0.25) &&
                  (d.retunes == [] <==> !d.next.lockRotation))
            // No pinch, unlocked, away from the rest pose: re-base and restart.
            && (cur != Pinch && pre != Pinch && !s.lockRotation && restAngle >= 2.0 ==>
                  d.rebase && !d.next.lockRotation && d.next.nonMovableTimer == 0.0 &&
                  d.next.pinchNonMovable == s.pinchNonMovable &&
                  d.next.pinchingTimer == s.pinchingTimer &&
                  d.retunes == [Retune(Moving, true)])
            // Only a rebase happens away from the rest pose.
            && (d.rebase ==> cur != Pinch && pre != Pinch && !s.lockRotation && restAngle >= 2.0)
  { }

  /** The frame time handed to SyncParam: Time.deltaTime scaled by the
      square of the rotation change when that change is positive. */
  function ScaledDeltaTime(deltaTime: real, angle: real): (r: real)
    ensures angle > 0.0 ==> r == deltaTime * (angle * angle)
    ensures angle <= 0.0 ==> r == deltaTime
    ensures deltaTime >= 0.0 ==> r >= 0.0
  {
    if angle > 0.0 then deltaTime * (angle * angle) else deltaTime
  }

  /** Whatever state the filter is in, the frame on which a pinch starts
      with the pointer within 3 degrees of its previous rotation keeps the
      filtered direction exactly where it was. */
  lemma PinchEntryHoldsPointer(f: FilterState, pre: HandGesture, s: Latch, angle: real,
                               restAngle: real, frameTime: real, deltaTime: real,
                               t: real, x: Vec3, mag: Vec3 -> real)
    requires pre != Pinch && angle <= 3.0
    requires NonNegative(f.active) && NonNegative(f.target)
    requires forall v :: mag(v) >= 0.0
    ensures FilterTick(f, Decide(Pinch, pre, s, angle, restAngle, frameTime).retunes,
                       deltaTime, t, x, mag).prev.x == f.prev.x
  {
    DecideSpec(Pinch, pre, s, angle, restAngle, frameTime);
    var d := Decide(Pinch, pre, s, angle, restAngle, frameTime);
    assert d.retunes == [Retune(Frozen, false)];
    var r := Retuned(f, d.retunes);
    assert r == ApplyRetune(f, Retune(Frozen, false));
    assert r.active == Frozen && r.target == Frozen;
    assert Synced(r.active, r.target, deltaTime) == Frozen;
  }

  /* ---------- one whole frame, as values ---------- */

  /** The part of a hand state (and its filter) that one frame rewrites. */
  datatype Pointer = Pointer(latch: Latch, nonMovablePose: Pose, pointerPose: Pose,
                             valid: bool, filter: FilterState)

  /** The manager-level pointer ray, shared by both hands. */
  datatype Shared = Shared(position: Vec3, direction: Vec3, rotation: Quat)

  /** The valid-pointer branch: decide, retune, sync the coefficients over
      the angle-scaled frame time, filter the ray direction, and point along
      the filtered direction from the ray position. */
  function ValidStep(p: Pointer, cur: HandGesture, pre: HandGesture, ray: HandRay,
                     deltaTime: real, now: real, o: Optics): (q: Pointer)
    requires Sound(o) && NonNegative(p.filter.active) && NonNegative(p.filter.target)
    ensures q.valid == p.valid
    ensures NonNegative(q.filter.active) && NonNegative(q.filter.target)
    ensures q.pointerPose == Pose(ray.position, o.look(q.filter.prev.x))
    ensures q.filter.prev == StepSample(p.filter.prev, q.filter.active, now, ray.direction, o.mag)
    // the first pinch frame within 3 degrees keeps the pointer where it was
    ensures cur == Pinch && pre != Pinch &&
            o.angle(o.look(ray.direction), p.pointerPose.rotation) <= 3.0 ==>
              q.pointerPose.rotation == o.look(p.filter.prev.x)
  {
    var rotation := o.look(ray.direction);
    var angle := o.angle(rotation, p.pointerPose.rotation);
    var restAngle := o.angle(p.nonMovablePose.rotation, rotation);
    var d := Decide(cur, pre, p.latch, angle, restAngle, deltaTime);
    DecideSpec(cur, pre, p.latch, angle, restAngle, deltaTime);
    var f := FilterTick(p.filter, d.retunes, ScaledDeltaTime(deltaTime, angle), now, ray.direction, o.mag);
    var q := Pointer(d.next,
                     if d.rebase then Pose(ray.position, p.pointerPose.rotation) else p.nonMovablePose,
                     Pose(ray.position, o.look(f.prev.x)), p.valid, f);
    if cur == Pinch && pre != Pinch && angle <= 3.0 then
      PinchEntryHoldsPointer(p.filter, pre, p.latch, angle, restAngle, deltaTime,
                             ScaledDeltaTime(deltaTime, angle), now, ray.direction, o.mag);
      q
    else
      q
  }

  /** ValidStep, spelled out from the decision it takes. */
  lemma ValidStepUnfold(p: Pointer, cur: HandGesture, pre: HandGesture, ray: HandRay,
                        deltaTime: real, now: real, o: Optics, angle: real, restAngle: real,
                        d: Decision, f: FilterState)
    requires Sound(o) && NonNegative(p.filter.active) && NonNegative(p.filter.target)
    requires angle == o.angle(o.look(ray.direction), p.pointerPose.rotation)
    requires restAngle == o.angle(p.nonMovablePose.rotation, o.look(ray.direction))
    requires d == Decide(cur, pre, p.latch, angle, restAngle, deltaTime)
    requires f == FilterTick(p.filter, d.retunes, ScaledDeltaTime(deltaTime, angle), now, ray.direction, o.mag)
    ensures ValidStep(p, cur, pre, ray, deltaTime, now, o) ==
              Pointer(d.next, if d.rebase then Pose(ray.position, p.pointerPose.rotation) else p.nonMovablePose,
                      Pose(ray.position, o.look(f.prev.x)), p.valid, f)
  {
    DecideSpec(cur, pre, p.latch, angle, restAngle, deltaTime);
  }

  /** One frame of CalculatePointerPose for one hand. */
  function PointerFrame(p: Pointer, sh: Shared, tracked: bool, cur: HandGesture, pre: HandGesture,
                        ray: HandRay, deltaTime: real, now: real, o: Optics): (r: (Pointer, Shared))
    requires Sound(o) && NonNegative(p.filter.active) && NonNegative(p.filter.target)
    ensures NonNegative(r.0.filter.active) && NonNegative(r.0.filter.target)
    // validity: an untracked hand never keeps a valid pointer; a tracked
    // one has a valid pointer iff its wrist faces the camera
    ensures !tracked ==> !r.0.valid
    ensures tracked ==> (r.0.valid <==> ray.wristAngle < MaxWristAngle)
    // only a valid frame moves the stabiliser's bookkeeping and rest pose
    ensures !r.0.valid ==> r.0.latch == p.latch && r.0.nonMovablePose == p.nonMovablePose
    // the shared ray is recomputed exactly on tracked frames that are valid
    // or follow a pinch
    ensures tracked && (r.0.valid || pre == Pinch) ==>
              r.1 == Shared(ray.position, ray.direction, o.look(ray.direction))
    ensures !(tracked && (r.0.valid || pre == Pinch)) ==> r.1 == sh
    // the filter and the pointer pose are left alone on invalid frames
    // that do not end a pinch
    ensures !r.0.valid && !(pre == Pinch && (tracked || p.valid)) ==>
              r.0.filter == p.filter && r.0.pointerPose == p.pointerPose
    // losing a pinching hand takes one last step along the shared ray,
    // whichever hand last wrote it
    ensures !tracked && p.valid && pre == Pinch ==>
              r.0.pointerPose.position == sh.position &&
              r.0.filter.prev == StepSample(p.filter.prev, p.filter.active, now, sh.direction, o.mag) &&
              r.0.filter.target == Responsive && r.0.filter.active == p.filter.active
    // a tracked hand turned away right after a pinch jumps to the responsive
    // preset without syncing
    ensures tracked && !r.0.valid && pre == Pinch ==>
              r.0.filter.active == Responsive && r.0.filter.target == Responsive &&
              r.0.pointerPose == Pose(ray.position, o.look(r.0.filter.prev.x))
    // the first pinch frame within 3 degrees keeps the pointer where it was
    ensures tracked && r.0.valid && cur == Pinch && pre != Pinch &&
            o.angle(o.look(ray.direction), p.pointerPose.rotation) <= 3.0 ==>
              r.0.pointerPose.rotation == o.look(p.filter.prev.x)
  {
    if tracked then
      if ray.wristAngle < MaxWristAngle then
        (ValidStep(p.(valid := true), cur, pre, ray, deltaTime, now, o),
         Shared(ray.position, ray.direction, o.look(ray.direction)))
      else if pre == Pinch then
        (ReleaseStep(p.(valid := false), ray.position, ray.direction, now, o),
         Shared(ray.position, ray.direction, o.look(ray.direction)))
      else
        (p.(valid := false), sh)
    else if p.valid && pre == Pinch then
      (LostStep(p, sh, now, o).(valid := false), sh)
    else
      (p.(valid := false), sh)
  }

  /** A tracked hand whose pointer turned invalid right after a pinch: an
      instant responsive preset, then a step along the new ray, no sync. */
  function ReleaseStep(p: Pointer, position: Vec3, direction: Vec3, now: real, o: Optics): (q: Pointer)
    requires Sound(o) && NonNegative(p.filter.active) && NonNegative(p.filter.target)
    ensures q.latch == p.latch && q.nonMovablePose == p.nonMovablePose && q.valid == p.valid
    ensures q.filter.active == Responsive && q.filter.target == Responsive
    ensures q.filter.prev == StepSample(p.filter.prev, Responsive, now, direction, o.mag)
    ensures q.pointerPose == Pose(position, o.look(q.filter.prev.x))
  {
    var f := Stepped(ApplyRetune(p.filter, Retune(Responsive, false)), now, direction, o.mag);
    p.(filter := f, pointerPose := Pose(position, o.look(f.prev.x)))
  }

  /** A hand lost while pinching with a valid pointer: one last step along
      the shared ray, then a smooth return to the responsive preset. */
  function LostStep(p: Pointer, sh: Shared, now: real, o: Optics): (q: Pointer)
    requires Sound(o) && NonNegative(p.filter.active) && NonNegative(p.filter.target)
    ensures q.latch == p.latch && q.nonMovablePose == p.nonMovablePose && q.valid == p.valid
    ensures q.filter.active == p.filter.active && q.filter.target == Responsive
    ensures q.filter.prev == StepSample(p.filter.prev, p.filter.active, now, sh.direction, o.mag)
    ensures q.pointerPose == Pose(sh.position, o.look(q.filter.prev.x))
  {
    var f := ApplyRetune(Stepped(p.filter, now, sh.direction, o.mag), Retune(Responsive, true));
    p.(filter := f, pointerPose := Pose(sh.position, o.look(f.prev.x)))
  }

  /** The release branch of CalculatePointerPose, in place. */
  method ReleaseFrame(hs: HandState, filter: OneEuroFilter, position: Vec3, direction: Vec3,
                      now: real, o: Optics)
    requires filter.Valid() && Sound(o)
    modifies hs, filter
    ensures filter.Valid()
    ensures hs.Gesture() == old(hs.Gesture())
    ensures PointerView(hs, filter) == ReleaseStep(old(PointerView(hs, filter)), position, direction, now, o)
  {
    filter.SetEuroParam(1.0, 1.0, 5.0, false);
    var out := filter.Step(now, direction, o.mag);
    hs.pointerPose := Pose(position, o.look(out));
  }

  /** The lost-hand branch of CalculatePointerPose, in place. */
  method LostFrame(hs: HandState, filter: OneEuroFilter, sh: Shared, now: real, o: Optics)
    requires filter.Valid() && Sound(o)
    modifies hs, filter
    ensures filter.Valid()
    ensures hs.Gesture() == old(hs.Gesture())
    ensures PointerView(hs, filter) == LostStep(old(PointerView(hs, filter)), sh, now, o)
  {
    var out := filter.Step(now, sh.direction, o.mag);
    filter.SetEuroParam(1.0, 1.0, 5.0, true);
    hs.pointerPose := Pose(sh.position, o.look(out));
  }

  /* ---------- the stillness lock over many frames ---------- */

  /** One frame of a hand that is tracked, valid and not pinching (before,
      now, or in between). */
  datatype Frame = Frame(angle: real, restAngle: real, frameTime: real)

  /** The bookkeeping after a run of such frames. */
  function Settle(s: Latch, frames: seq<Frame>): Latch
    decreases |frames|
  {
    if frames == [] then s
    else
      var last := frames[|frames| - 1];
      Decide(NoGesture, NoGesture, Settle(s, frames[..|frames| - 1]),
             last.angle, last.restAngle, last.frameTime).next
  }

  /** The total frame time of a run. */
  function Elapsed(frames: seq<Frame>): real
    decreases |frames|
  {
    if frames == [] then 0.0
    else Elapsed(frames[..|frames| - 1]) + frames[|frames| - 1].frameTime
  }

  /** Starting unlocked, a hand that keeps within 2 degrees of its rest pose
      accumulates the frame times in its rest timer and locks exactly when
      that timer reaches a quarter second: never on an earlier frame. */
  lemma {:induction false} StillHandLocksAfterQuarterSecond(s: Latch, frames: seq<Frame>)
    requires !s.lockRotation && 0.0 <= s.nonMovableTimer < 0.25
    requires forall k :: 0 <= k < |frames| ==> frames[k].restAngle < 2.0 && frames[k].frameTime >= 0.0
    requires frames != [] ==> s.nonMovableTimer + Elapsed(frames[..|frames| - 1]) < 0.25
    ensures Settle(s, frames).nonMovableTimer == s.nonMovableTimer + Elapsed(frames)
    ensures Settle(s, frames).lockRotation <==> s.nonMovableTimer + Elapsed(frames) >= 0.25
    ensures forall n :: 0 <= n < |frames| ==> !Settle(s, frames[..n]).lockRotation
    decreases |frames|
  {
    if frames != [] {
      var init := frames[..|frames| - 1];
      var last := frames[|frames| - 1];
      assert last.restAngle < 2.0 && last.frameTime >= 0.0;
      assert forall k :: 0 <= k < |init| ==> init[k] == frames[k];
      if init != [] {
        assert init[|init| - 1].frameTime >= 0.0;
        assert Elapsed(init) == Elapsed(init[..|init| - 1]) + init[|init| - 1].frameTime;
      }
      StillHandLocksAfterQuarterSecond(s, init);
      var before := Settle(s, init);
      assert !before.lockRotation;
      assert Settle(s, frames) == Decide(NoGesture, NoGesture, before, last.angle, last.restAngle, last.frameTime).next;
      assert Elapsed(frames) == Elapsed(init) + last.frameTime;
      forall n | 0 <= n < |frames|
        ensures !Settle(s, frames[..n]).lockRotation
      {
        if n < |init| {
          assert frames[..n] == init[..n];
        } else {
          assert frames[..n] == init;
        }
      }
    }
  }

  /* ---------- hands and hand states ---------- */

  class Hand {
    const handEnum: HandEnum

    constructor (e: HandEnum)
      ensures handEnum == e
    {
      handEnum := e;
    }
  }

  class HandState {
    const handEnum: HandEnum
    var isTracked: bool
    var currentGesture: HandGesture
    var preGesture: HandGesture
    var isPinching: bool
    var pointerPose: Pose
    var pointerPoseValid: bool
    var lockRotation: bool
    var pinchNonMovable: bool
    var nonMovablePose: Pose
    var nonMovableTimer: real
    var pinchingTimer: real

    /** A new hand state: untracked, no gesture, no valid pointer, no lock
        and both timers at zero. */
    constructor (e: HandEnum)
      ensures handEnum == e && AtStart()
    {
      handEnum := e;
      isTracked, isPinching, pointerPoseValid := false, false, false;
      currentGesture, preGesture := NoGesture, NoGesture;
      pointerPose, nonMovablePose := Pose(Zero, Identity), Pose(Zero, Identity);
      lockRotation, pinchNonMovable := false, false;
      nonMovableTimer, pinchingTimer := 0.0, 0.0;
    }

    predicate AtStart()
      reads this
    {
      !isTracked && !isPinching && !pointerPoseValid &&
      currentGesture == NoGesture && preGesture == NoGesture &&
      !lockRotation && !pinchNonMovable && nonMovableTimer == 0.0 && pinchingTimer == 0.0
    }

    function LatchState(): Latch
      reads this
    {
      Latch(lockRotation, pinchNonMovable, nonMovableTimer, pinchingTimer)
    }

    /** The fields the native tracker writes and the stabiliser only reads. */
    function Gesture(): (bool, HandGesture, HandGesture, bool)
      reads this
    {
      (isTracked, currentGesture, preGesture, isPinching)
    }

    /** The fields the stabiliser's decision branch does not write. */
    function Readings(): (bool, HandGesture, HandGesture, bool, Pose, bool)
      reads this
    {
      (isTracked, currentGesture, preGesture, isPinching, pointerPose, pointerPoseValid)
    }
  }

  /** The fields of a hand state and of its filter that one frame rewrites. */
  function PointerView(hs: HandState, filter: OneEuroFilter): Pointer
    reads hs, filter
  {
    Pointer(hs.LatchState(), hs.nonMovablePose, hs.pointerPose, hs.pointerPoseValid, filter.State())
  }

  /* ---------- the decision branch of CalculatePointerPose, in place ---------- */

  /** The pinch branch: entry resets, then the lock and non-movable checks,
      then the pinch timer. */
  method PinchFrame(hs: HandState, filter: OneEuroFilter, angle: real, restAngle: real,
                    position: Vec3, deltaTime: real)
    requires filter.Valid() && hs.currentGesture == Pinch
    modifies hs, filter
    ensures filter.Valid()
    ensures hs.Readings() == old(hs.Readings())
    ensures var d := Decide(hs.currentGesture, hs.preGesture, old(hs.LatchState()), angle, restAngle, deltaTime);
            hs.LatchState() == d.next &&
            filter.State() == Retuned(old(filter.State()), d.retunes) &&
            hs.nonMovablePose == old(hs.nonMovablePose)
  {
    ghost var f0 := filter.State();
    ghost var first := [];
    if hs.preGesture != Pinch {
      hs.pinchingTimer := 0.0;
      hs.lockRotation := true;
      hs.pinchNonMovable := true;
      filter.SetEuroParam(0.0, 0.0, 0.0, false);
      first := [Retune(Frozen, false)];
    }
    ghost var s0 := hs.LatchState();
    ghost var f1 := filter.State();
    assert f1 == Retuned(f0, first);
    PinchLockFrame(hs, filter, angle);
    ghost var second := PinchLock(s0, angle).1;
    hs.pinchingTimer := hs.pinchingTimer + deltaTime;
    RetunedConcat(f0, first, second);
  }

  /** The lock checks of the pinch branch, in place. */
  method PinchLockFrame(hs: HandState, filter: OneEuroFilter, angle: real)
    requires filter.Valid()
    modifies hs, filter
    ensures filter.Valid()
    ensures hs.Readings() == old(hs.Readings()) && hs.nonMovablePose == old(hs.nonMovablePose)
    ensures hs.LatchState() == PinchLock(old(hs.LatchState()), angle).0
    ensures filter.State() == Retuned(old(filter.State()), PinchLock(old(hs.LatchState()), angle).1)
  {
    ghost var f0 := filter.State();
    if hs.lockRotation {
      if angle > 6.5 {
        hs.lockRotation := false;
        hs.pinchNonMovable := false;
        filter.SetEuroParam(1.0, 1.0, 5.0, true);
        RetunedConcat(f0, [Retune(Responsive, true)], []);
      } else if hs.pinchNonMovable && angle > 3.0 {
        filter.SetEuroParam(0.1, 0.4, 2.0, true);
        hs.pinchNonMovable := false;
        RetunedConcat(f0, [Retune(PinchDrift, true)], []);
      } else if angle < 0.5 && !hs.pinchNonMovable {
        hs.pinchNonMovable := true;
        filter.SetEuroParam(0.0, 0.0, 0.0, false);
        RetunedConcat(f0, [Retune(Frozen, false)], []);
      }
    }
  }

  /** The valid-pointer branch of CalculatePointerPose, in place. */
  method ValidFrame(hs: HandState, filter: OneEuroFilter, ray: HandRay,
                    deltaTime: real, now: real, o: Optics)
    requires filter.Valid() && Sound(o)
    modifies hs, filter
    ensures filter.Valid()
    ensures hs.Gesture() == old(hs.Gesture())
    ensures PointerView(hs, filter) ==
              ValidStep(old(PointerView(hs, filter)), hs.currentGesture, hs.preGesture, ray, deltaTime, now, o)
  {
    var rotation := o.look(ray.direction);
    var angle := o.angle(rotation, hs.pointerPose.rotation);
    var dt := deltaTime;
    if angle > 0.0 {
      dt := dt * (angle * angle);
    }
    assert dt == ScaledDeltaTime(deltaTime, angle);
    var restAngle := o.angle(hs.nonMovablePose.rotation, rotation);
    ghost var d := Decide(hs.currentGesture, hs.preGesture, hs.LatchState(), angle, restAngle, deltaTime);
    DecideSpec(hs.currentGesture, hs.preGesture, hs.LatchState(), angle, restAngle, deltaTime);
    ghost var f0 := filter.State();
    DecisionFrame(hs, filter, angle, restAngle, ray.position, deltaTime);
    ghost var f1 := filter.State();
    assert f1 == Retuned(f0, d.retunes);
    filter.SyncParam(dt);
    assert filter.State() == f1.(active := Synced(f1.active, f1.target, dt));
    ghost var f2 := filter.State();
    var out := filter.Step(now, ray.direction, o.mag);
    assert filter.State() == Stepped(f2, now, ray.direction, o.mag);
    assert filter.State() == FilterTick(f0, d.retunes, dt, now, ray.direction, o.mag);
    hs.pointerPose := Pose(ray.position, o.look(out));
    ValidStepUnfold(old(PointerView(hs, filter)), hs.currentGesture, hs.preGesture, ray, deltaTime, now, o,
                    angle, restAngle, d, filter.State());
  }

  /** The gesture branch of CalculatePointerPose, in place. */
  method DecisionFrame(hs: HandState, filter: OneEuroFilter, angle: real, restAngle: real,
                       position: Vec3, deltaTime: real)
    requires filter.Valid()
    modifies hs, filter
    ensures filter.Valid()
    ensures hs.Readings() == old(hs.Readings())
    ensures var d := Decide(hs.currentGesture, hs.preGesture, old(hs.LatchState()), angle, restAngle, deltaTime);
            hs.LatchState() == d.next &&
            filter.State() == Retuned(old(filter.State()), d.retunes) &&
            hs.nonMovablePose == (if d.rebase then Pose(position, old(hs.pointerPose.rotation))
                                  else old(hs.nonMovablePose))
  {
    if hs.currentGesture == Pinch {
      PinchFrame(hs, filter, angle, restAngle, position, deltaTime);
    } else if hs.preGesture == Pinch {
      PinchExitFrame(hs, filter, angle, restAngle, position, deltaTime);
    } else {
      SteadyFrame(hs, filter, angle, restAngle, position, deltaTime);
    }
  }

  /** The branch for the first frame after a pinch. */
  method PinchExitFrame(hs: HandState, filter: OneEuroFilter, angle: real, restAngle: real,
                        position: Vec3, deltaTime: real)
    requires filter.Valid() && hs.currentGesture != Pinch && hs.preGesture == Pinch
    modifies hs, filter
    ensures filter.Valid()
    ensures hs.Readings() == old(hs.Readings())
    ensures var d := Decide(hs.currentGesture, hs.preGesture, old(hs.LatchState()), angle, restAngle, deltaTime);
            hs.LatchState() == d.next &&
            filter.State() == Retuned(old(filter.State()), d.retunes) &&
            hs.nonMovablePose == old(hs.nonMovablePose)
  {
    ghost var f0 := filter.State();
    if angle > 5.0 {
      filter.SetEuroParam(1.0, 1.0, 5.0, false);
    } else {
      filter.SetEuroParam(0.0, 0.0, 0.0, false);
    }
    hs.lockRotation := false;
    hs.nonMovableTimer := 0.0;
    RetunedConcat(f0, [Retune(if angle > 5.0 then Responsive else Frozen, false)], []);
  }

  /** The branch for frames without a pinch, before or now: hold a lock, or
      time how long the pointer stays near its rest pose. */
  method SteadyFrame(hs: HandState, filter: OneEuroFilter, angle: real, restAngle: real,
                     position: Vec3, deltaTime: real)
    requires filter.Valid() && hs.currentGesture != Pinch && hs.preGesture != Pinch
    modifies hs, filter
    ensures filter.Valid()
    ensures hs.Readings() == old(hs.Readings())
    ensures var d := Decide(hs.currentGesture, hs.preGesture, old(hs.LatchState()), angle, restAngle, deltaTime);
            hs.LatchState() == d.next &&
            filter.State() == Retuned(old(filter.State()), d.retunes) &&
            hs.nonMovablePose == (if d.rebase then Pose(position, old(hs.pointerPose.rotation))
                                  else old(hs.nonMovablePose))
  {
    ghost var f0 := filter.State();
    if hs.lockRotation {
      if angle > 4.0 {
        hs.lockRotation := false;
        hs.nonMovableTimer := 0.0;
      } else if angle > 1.5 {
        filter.SetEuroParam(0.2, 0.5, 2.0, true);
        RetunedConcat(f0, [Retune(LockedDrift, true)], []);
      } else {
        filter.SetEuroParam(0.1, 0.2, 1.0, false);
        RetunedConcat(f0, [Retune(LockedSteady, false)], []);
      }
    } else if restAngle < 2.0 {
      hs.nonMovableTimer := hs.nonMovableTimer + deltaTime;
      if hs.nonMovableTimer >= 0.25 {
        filter.SetEuroParam(0.15, 0.5, 1.0, true);
        hs.lockRotation := true;
        RetunedConcat(f0, [Retune(SettleIn, true)], []);
      }
    } else {
      hs.nonMovablePose := Pose(position, hs.pointerPose.rotation);
      hs.nonMovableTimer := 0.0;
      filter.SetEuroParam(0.2, 1.0, 5.0, true);
      RetunedConcat(f0, [Retune(Moving, true)], []);
    }
  }

  /** At most one hand per enum value, never under None, each filed under
      its own enum value. */
  ghost predicate RegistryValid(dict: map<HandEnum, Hand>)
  {
    forall e | e in dict :: e != None && dict[e].handEnum == e
  }

  /** The registry after RegistHand(hand). */
  function Registered(dict: map<HandEnum, Hand>, hand: Hand?): (r: map<HandEnum, Hand>)
    ensures RegistryValid(dict) ==> RegistryValid(r)
    ensures hand == null || hand.handEnum == None ==> r == dict
    ensures hand != null && hand.handEnum != None ==>
              hand.handEnum in r && r[hand.handEnum] == hand &&
              r.Keys == dict.Keys + {hand.handEnum} &&
              forall e | e in dict && e != hand.handEnum :: r[e] == dict[e]
  {
    if hand == null || hand.handEnum == None then dict
    else dict[hand.handEnum := hand]
  }

  /** The registry after UnRegistHand(hand): the entry under the hand's enum
      value goes, whichever hand is filed there. */
  function Unregistered(dict: map<HandEnum, Hand>, hand: Hand?): (r: map<HandEnum, Hand>)
    ensures RegistryValid(dict) ==> RegistryValid(r)
    ensures hand == null ==> r == dict
    ensures hand != null ==>
              hand.handEnum !in r && r.Keys == dict.Keys - {hand.handEnum} &&
              forall e | e in r :: r[e] == dict[e]
  {
    if hand == null then dict else dict - {hand.handEnum}
  }

  class HandsManager {
    var handsDict: map<HandEnum, Hand>
    /** Slot 0 is the right hand, slot 1 the left hand. */
    const handStates: array<HandState>
    /** One filter per hand, indexed by the hand's enum value. */
    const filters: array<OneEuroFilter>
    /** The last pointer ray computed, shared by both hands. */
    var pointerPosition: Vec3
    var pointerDirection: Vec3
    var handRotation: Quat

    ghost predicate Valid()
      reads this, handStates, filters, filters[..]
    {
      handStates.Length == 2 && filters.Length == 2 &&
      handStates[0].handEnum == RightHand && handStates[1].handEnum == LeftHand &&
      filters[0] != filters[1] && filters[0].Valid() && filters[1].Valid() &&
      RegistryValid(handsDict)
    }

    constructor ()
      ensures Valid()
      ensures handsDict == map[]
      ensures fresh(handStates) && fresh(filters)
      ensures fresh(handStates[0]) && fresh(handStates[1])
      ensures fresh(filters[0]) && fresh(filters[1])
      ensures handStates[0].AtStart() && handStates[1].AtStart()
      ensures filters[0].State() == FilterState(Coeffs(1.0, 1.0, 10.0), Coeffs(1.0, 1.0, 10.0), InitialSample)
      ensures filters[1].State() == FilterState(Coeffs(1.0, 1.0, 10.0), Coeffs(1.0, 1.0, 10.0), InitialSample)
    {
      handsDict := map[];
      var right := new HandState(RightHand);
      var left := new HandState(LeftHand);
      handStates := new HandState[2] [right, left];
      var f0 := new OneEuroFilter();
      var f1 := new OneEuroFilter();
      filters := new OneEuroFilter[2] [f0, f1];
      pointerPosition, pointerDirection, handRotation := Zero, Zero, Identity;
    }

    method RegistHand(hand: Hand?)
      requires Valid()
      modifies this
      ensures Valid()
      ensures handsDict == Registered(old(handsDict), hand)
      ensures pointerPosition == old(pointerPosition) && pointerDirection == old(pointerDirection)
      ensures handRotation == old(handRotation)
    {
      if hand == null || hand.handEnum == None {
        return;
      }
      var handEnum := hand.handEnum;
      if handEnum in handsDict {
        handsDict := handsDict[handEnum := hand];
      } else {
        handsDict := handsDict[handEnum := hand];
      }
    }

    method UnRegistHand(hand: Hand?)
      requires Valid()
      modifies this
      ensures Valid()
      ensures handsDict == Unregistered(old(handsDict), hand)
      ensures pointerPosition == old(pointerPosition) && pointerDirection == old(pointerDirection)
      ensures handRotation == old(handRotation)
    {
      if hand == null {
        return;
      }
      handsDict := handsDict - {hand.handEnum};
    }

    /** The state of the given hand: right in slot 0, left in slot 1, none
        for HandEnum.None. */
    function GetHandState(handEnum: HandEnum): (s: HandState?)
      requires Valid()
      reads this, handStates, filters, filters[..]
      ensures s == null <==> handEnum == None
      ensures s != null ==> s.handEnum == handEnum
      ensures handEnum == RightHand ==> s == handStates[0]
      ensures handEnum == LeftHand ==> s == handStates[1]
    {
      match handEnum
      case RightHand => handStates[0]
      case LeftHand => handStates[1]
      case None => null
    }

    /** The hand registered under the given enum value, if any. */
    function GetHand(handEnum: HandEnum): (h: Hand?)
      requires Valid()
      reads this, handStates, filters, filters[..]
      ensures h != null <==> handEnum in handsDict
      ensures h != null ==> h.handEnum == handEnum && handEnum != None
    {
      if handEnum in handsDict then handsDict[handEnum] else null
    }

    function SharedRay(): Shared
      reads this
    {
      Shared(pointerPosition, pointerDirection, handRotation)
    }

    /** One frame of the pointer stabiliser for the hand in slot `i` (whose
        filter is filters[i], the slot number being the hand's enum value).
        `deltaTime` is Time.deltaTime and `now` Time.realtimeSinceStartup. */
    method CalculatePointerPose(i: int, ray: HandRay, deltaTime: real, now: real, o: Optics)
      requires Valid() && 0 <= i < 2 && Sound(o)
      modifies this, handStates[i], filters[i]
      ensures Valid()
      ensures handsDict == old(handsDict)
      ensures handStates[i].Gesture() == old(handStates[i].Gesture())
      ensures (PointerView(handStates[i], filters[i]), SharedRay()) ==
                PointerFrame(old(PointerView(handStates[i], filters[i])), old(SharedRay()),
                             handStates[i].isTracked, handStates[i].currentGesture,
                             handStates[i].preGesture, ray, deltaTime, now, o)
    {
      if handStates[i].isTracked {
        TrackedFrame(i, ray, deltaTime, now, o);
      } else {
        UntrackedFrame(i, now, o);
      }
    }

    /** The tracked half of CalculatePointerPose. */
    method TrackedFrame(i: int, ray: HandRay, deltaTime: real, now: real, o: Optics)
      requires Valid() && 0 <= i < 2 && Sound(o) && handStates[i].isTracked
      modifies this, handStates[i], filters[i]
      ensures Valid()
      ensures handsDict == old(handsDict)
      ensures handStates[i].Gesture() == old(handStates[i].Gesture())
      ensures (PointerView(handStates[i], filters[i]), SharedRay()) ==
                PointerFrame(old(PointerView(handStates[i], filters[i])), old(SharedRay()),
                             true, handStates[i].currentGesture,
                             handStates[i].preGesture, ray, deltaTime, now, o)
    {
      var hs := handStates[i];
      var filter := filters[i];
      hs.pointerPoseValid := ray.wristAngle < MaxWristAngle;
      if hs.pointerPoseValid {
        pointerPosition := ray.position;
        pointerDirection := ray.direction;
        handRotation := o.look(pointerDirection);
        ValidFrame(hs, filter, ray, deltaTime, now, o);
      } else if hs.preGesture == Pinch {
        pointerPosition := ray.position;
        pointerDirection := ray.direction;
        handRotation := o.look(pointerDirection);
        ReleaseFrame(hs, filter, pointerPosition, pointerDirection, now, o);
      }
    }

    /** The untracked half of CalculatePointerPose. */
    method UntrackedFrame(i: int, now: real, o: Optics)
      requires Valid() && 0 <= i < 2 && Sound(o) && !handStates[i].isTracked
      modifies handStates[i], filters[i]
      ensures Valid()
      ensures handStates[i].Gesture() == old(handStates[i].Gesture())
      ensures var p := old(PointerView(handStates[i], filters[i]));
              PointerView(handStates[i], filters[i]) ==
                (if p.valid && handStates[i].preGesture == Pinch then LostStep(p, SharedRay(), now, o)
                 else p).(valid := false)
    {
      var hs := handStates[i];
      var filter := filters[i];
      if hs.pointerPoseValid && hs.preGesture == Pinch {
        LostFrame(hs, filter, SharedRay(), now, o);
      }
      hs.pointerPoseValid := false;
    }
  }
}
