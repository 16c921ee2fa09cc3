/**
 * The hand controller provider (NRHandControllerProvider): it presents the
 * two tracked hands as two controllers, projecting each hand's pointer
 * pose and pinch into a controller state, and turns a recenter request
 * into a one-shot flag reported by the next update of that controller.
 *
 * The native hand-tracking update that refreshes the hand states is not
 * modelled; the hand states are read as they are.  The controller-state
 * parser the update consults (ControllerStateParseUtility is not part of
 * this model) is a parameter that may rewrite the buttons word only.
 */
module HandController {
  import opened Geometry
  import opened Results
  import Hands

  /** Two controllers: index 0 is the right hand, index 1 the left. */
  const ControllerCount: nat := 2

  datatype ControllerType = HandController | OtherController
  datatype Feature = RotationFeature | PositionFeature
  datatype Connection = Connected | NotConnected

  /** A ControllerState, field by field; `buttons` stands for the button
      state the parser fills in. */
  datatype ControllerState = ControllerState(
    controllerType: ControllerType, availableFeature: set<Feature>, connectionState: Connection,
    rotation: Quat, position: Vec3, gyro: Vec3, accel: Vec3, mag: Vec3, touchPos: Vec3,
    isTouching: bool, recentered: bool, isCharging: bool, batteryLevel: int, buttons: nat)

  /** What a parser computes from a state: its new buttons word. */
  type Parser = Option<ControllerState -> nat>

  /** The parser lookup for a hand controller: the parser (or none)
      registered for the hand controller type at each index. */
  type ParserLookup = nat -> Parser

  /** The hand-state fields the projection reads. */
  datatype HandView = HandView(pointerPose: Pose, pointerPoseValid: bool, isPinching: bool)

  /** UpdateControllerState's writes, before the parser and the recenter
      flag. */
  function Projected(old_: ControllerState, h: HandView): ControllerState
  {
    old_.(controllerType := HandController, availableFeature := {RotationFeature, PositionFeature},
          connectionState := Connected, rotation := h.pointerPose.rotation,
          position := h.pointerPose.position, gyro := Zero, accel := Zero, mag := Zero,
          touchPos := Zero, isTouching := h.pointerPoseValid && h.isPinching,
          recentered := false, isCharging := false, batteryLevel := 0)
  }

  /** One UpdateControllerState: the new state, given whether a recenter
      was pending. */
  function Updated(old_: ControllerState, h: HandView, parser: Parser, pending: bool): ControllerState
  {
    var s := Projected(old_, h);
    var p := match parser
      case Some(f) => s.(buttons := f(s))
      case None => s;
    if pending then p.(recentered := true) else p
  }

  /** The projection copies the pointer pose unchanged, touches exactly
      when the pointer is valid and the hand pinches, reports a connected
      hand controller with rotation and position, no motion sensors, no
      charging and an empty battery, and reports a recenter exactly when
      one was pending. */
  lemma UpdatedFields(old_: ControllerState, h: HandView, parser: Parser, pending: bool)
    ensures var s := Updated(old_, h, parser, pending);
            && s.rotation == h.pointerPose.rotation && s.position == h.pointerPose.position
            && (s.isTouching <==> h.pointerPoseValid && h.isPinching)
            && s.controllerType == HandController && s.connectionState == Connected
            && s.availableFeature == {RotationFeature, PositionFeature}
            && s.gyro == Zero && s.accel == Zero && s.mag == Zero && s.touchPos == Zero
            && !s.isCharging && s.batteryLevel == 0
            && (s.recentered <==> pending)
            && (parser.None? ==> s.buttons == old_.buttons)
  { }

  /** Which hand feeds controller `index`: the right hand for 0, the left
      hand for every other index. */
  function HandFor(index: int): (e: Hands.HandEnum)
    ensures e != Hands.None
    ensures e == Hands.RightHand <==> index == 0
  {
    if index == 0 then Hands.RightHand else Hands.LeftHand
  }

  datatype ProviderError = IndexOutOfRange

  class HandControllerProvider {
    const states: array<ControllerState>
    /** m_NeedRecenter */
    const needRecenter: array<bool>

    ghost predicate Valid()
      reads this
    {
      needRecenter.Length == ControllerCount
    }

    constructor (states: array<ControllerState>)
      ensures Valid() && this.states == states && fresh(needRecenter)
      ensures needRecenter[..] == [false, false]
    {
      this.states := states;
      needRecenter := new bool[2] [false, false];
    }

    /** Sets the pending flag for an index below ControllerCount; a negative
        index fails on the array access, like the source's indexer. */
    method Recenter(index: int) returns (r: Result<(), ProviderError>)
      requires Valid()
      modifies needRecenter
      ensures r.Err? <==> index < 0
      ensures 0 <= index < ControllerCount ==>
                needRecenter[..] == old(needRecenter[..])[index := true]
      ensures !(0 <= index < ControllerCount) ==> needRecenter[..] == old(needRecenter[..])
    {
      if index < ControllerCount {
        if index < 0 {
          return Err(IndexOutOfRange);
        }
        needRecenter[index] := true;
      }
      return Ok(());
    }

    function View(hs: Hands.HandState): HandView
      reads hs
    {
      HandView(hs.pointerPose, hs.pointerPoseValid, hs.isPinching)
    }

    /** `parser` is the one looked up for the hand controller type at
        `index`.  A pending recenter is reported once and cleared; every other entry
        stays as it was.  Past the last recenter flag the entry is still
        rewritten, but reading its flag fails. */
    method UpdateControllerState(index: nat, hs: Hands.HandState, parser: Parser)
      returns (r: Result<(), ProviderError>)
      requires Valid() && index < states.Length
      modifies states, needRecenter
      ensures r.Err? <==> index >= ControllerCount
      ensures index < ControllerCount ==>
                states[..] == old(states[..])[index := Updated(old(states[index]), View(hs), parser, old(needRecenter[index]))]
      ensures index >= ControllerCount ==>
                states[..] == old(states[..])[index := Updated(old(states[index]), View(hs), parser, false)]
      ensures index < ControllerCount ==> needRecenter[..] == old(needRecenter[..])[index := false]
      ensures index >= ControllerCount ==> needRecenter[..] == old(needRecenter[..])
    {
      var s := Projected(states[index], View(hs));
      states[index] := s;
      match parser {
        case Some(f) =>
          states[index] := states[index].(buttons := f(states[index]));
        case None =>
      }
      if index >= needRecenter.Length {
        return Err(IndexOutOfRange);
      }
      if needRecenter[index] {
        states[index] := states[index].(recentered := true);
        needRecenter[index] := false;
      }
      return Ok(());
    }

    /** Update, after the native hand-tracking refresh: every controller
        state is projected from its hand, right for 0 and left for every
        other index.  A states array longer than ControllerCount has its
        first extra entry rewritten and then fails on the recenter flags. */
    method Update(hands: Hands.HandsManager, parsers: ParserLookup) returns (r: Result<(), ProviderError>)
      requires Valid() && hands.Valid()
      modifies states, needRecenter
      ensures r.Err? <==> states.Length > ControllerCount
      ensures forall i | 0 <= i < states.Length && i < ControllerCount ::
                states[i] == Updated(old(states[i]), View(hands.GetHandState(HandFor(i))), parsers(i), old(needRecenter[i]))
      ensures states.Length > ControllerCount ==>
                states[ControllerCount] == Updated(old(states[ControllerCount]),
                                                   View(hands.GetHandState(HandFor(ControllerCount))), parsers(ControllerCount), false)
      ensures forall i | ControllerCount < i < states.Length :: states[i] == old(states[i])
      ensures forall i | 0 <= i < states.Length && i < ControllerCount :: !needRecenter[i]
      ensures forall i | states.Length <= i < ControllerCount :: needRecenter[i] == old(needRecenter[i])
    {
      var i := 0;
      while i < states.Length
        invariant 0 <= i <= states.Length && i <= ControllerCount
        invariant forall k | 0 <= k < i ::
                    states[k] == Updated(old(states[k]), View(hands.GetHandState(HandFor(k))), parsers(k), old(needRecenter[k]))
        invariant forall k | i <= k < states.Length :: states[k] == old(states[k])
        invariant forall k | 0 <= k < i :: !needRecenter[k]
        invariant forall k | i <= k < ControllerCount :: needRecenter[k] == old(needRecenter[k])
      {
        var hs := hands.GetHandState(HandFor(i));
        var u := UpdateControllerState(i, hs, parsers(i));
        if u.Err? {
          return Err(IndexOutOfRange);
        }
        i := i + 1;
      }
      return Ok(());
    }
  }
}
