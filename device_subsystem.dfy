/**
 * The glasses device subsystem (NRDeviceSubsystem): the plug-out flag the
 * disconnect actions raise and a requested resume clears, the dispatch of
 * glasses actions to events, the availability gate in front of every
 * HMD query, the brightness calls and the device-type capabilities.
 *
 * The subsystem's static state is the state of the one DeviceSubsystem
 * object.  Native calls are inputs: what the glasses report (the action,
 * the device type, a brightness reading) is passed in, and the native
 * calls made (destroying an action, writing the brightness) are recorded.
 * Work queued on the main thread is the list of events it will raise.
 */
module Device {
  import opened Results
  import opened Text

  /* ---------- unsigned parameters and their casts ---------- */

  const UInt32Limit: int := 0x1_0000_0000

  type UInt32 = x: int | 0 <= x < UInt32Limit

  /** The unchecked C# cast (int)u: values past Int32.MaxValue wrap to
      negative ones. */
  function AsInt32(u: UInt32): (r: Int32)
    ensures r % UInt32Limit == u
  {
    if u <= Int32Max then u else u - UInt32Limit
  }

  /** The cast back, (uint)i. */
  function AsUInt32(i: Int32): UInt32
  {
    if i >= 0 then i else i + UInt32Limit
  }

  /** The cast loses nothing: every unsigned parameter can be read back. */
  lemma AsInt32RoundTrip(u: UInt32)
    ensures AsUInt32(AsInt32(u)) == u
    ensures AsInt32(u) < 0 <==> u > Int32Max
  { }

  /* ---------- actions (NRActionType) ---------- */

  const CLICK: int := 1
  const DOUBLE_CLICK: int := 2
  const LONG_PRESS: int := 3
  const INCREASE_BRIGHTNESS: int := 6
  const DECREASE_BRIGHTNESS: int := 7
  const INCREASE_VOLUME: int := 8
  const DECREASE_VOLUME: int := 9
  const NEXT_EC_LEVEL: int := 12
  const DISCONNECT: int := 2000
  const FORCE_QUIT: int := 2001
  const EVENT: int := 2002
  const KEY_STATE: int := 2023
  const PROXIMITY_WEARING_STATE: int := 2024
  const RGB_CAMERA_PLUGIN_STATE: int := 2025
  const TEMPERATURE_STATE: int := 2028

  /** An action as the glasses report it: its handle, its type and its
      three parameters. */
  datatype Action = Action(handle: nat, actionType: int, param1: UInt32, param2: UInt32, param3: real)

  datatype DisconnectReason = GlassesDeviceDisconnect | NotifyToQuitApp

  /** The events the subsystem raises.  Enum-typed payloads carry the
      unsigned parameter itself; the C# cast to the int-backed enum maps it
      one-to-one (AsInt32RoundTrip), turning values above Int32.MaxValue
      negative. */
  datatype Event =
    | Glasses(actionType: int, param1: UInt32, param2: UInt32, param3: real)
    | KeyClick(clickType: int, keyType: UInt32)
    | KeyState(keyType: UInt32, keyState: UInt32)
    | WearingState(status: UInt32)
    | Brightness(level: Int32)
    | Volume(volume: Int32)
    | NextECLevel(ecLevel: Int32)
    | RgbCameraPlugState(state: UInt32)
    | TemperatureState(temperature: UInt32)
    | Hardware(actionHandle: nat)
    | Disconnect(reason: DisconnectReason)

  predicate IsClick(t: int)
  {
    t == CLICK || t == DOUBLE_CLICK || t == LONG_PRESS
  }

  predicate IsDisconnect(t: int)
  {
    t == DISCONNECT || t == FORCE_QUIT
  }

  /** The GlassesEventType values PutOn and PutOff. */
  datatype Wearing = Wearing(putOn: UInt32, putOff: UInt32)

  /** The events the main-thread task queued for a non-disconnect action
      will raise, after the generic glasses event. */
  function Classified(a: Action, w: Wearing): (es: seq<Event>)
    ensures |es| <= 1
  {
    var t := a.actionType;
    if IsClick(t) then [KeyClick(t, a.param1)]
    else if t == KEY_STATE then [KeyState(a.param1, a.param2)]
    else if t == PROXIMITY_WEARING_STATE then
      (if a.param1 == w.putOn || a.param1 == w.putOff then [WearingState(a.param1)] else [])
    else if t == INCREASE_BRIGHTNESS || t == DECREASE_BRIGHTNESS then [Brightness(AsInt32(a.param1))]
    else if t == INCREASE_VOLUME || t == DECREASE_VOLUME then [Volume(AsInt32(a.param1))]
    else if t == NEXT_EC_LEVEL then [NextECLevel(AsInt32(a.param1))]
    else if t == RGB_CAMERA_PLUGIN_STATE then [RgbCameraPlugState(a.param1)]
    else if t == TEMPERATURE_STATE then [TemperatureState(a.param1)]
    else if t == EVENT then [Hardware(a.handle)]
    else []
  }

  /** What one OnGlassesActionCallback does: the new plug-out flag, the
      events queued for the main thread, the events raised at once, and
      whether the action handle is destroyed. */
  datatype Outcome = Outcome(plugOut: bool, queued: seq<Event>, raised: seq<Event>, destroyed: bool)

  function Dispatch(plugOut: bool, a: Action, w: Wearing): Outcome
  {
    var generic := Glasses(a.actionType, a.param1, a.param2, a.param3);
    if IsDisconnect(a.actionType) then
      if plugOut then Outcome(true, [generic], [], false)
      else if a.actionType == DISCONNECT then Outcome(true, [generic], [Disconnect(GlassesDeviceDisconnect)], true)
      else Outcome(false, [generic], [Disconnect(NotifyToQuitApp)], true)
    else Outcome(plugOut, [generic] + Classified(a, w), [], true)
  }

  /** Every action queues the generic glasses event first.  A disconnect
      or quit arriving while plugged out does nothing more: no disconnect
      event and the handle is not destroyed.  Otherwise DISCONNECT plugs
      out and reports the device disconnect, FORCE_QUIT only asks the app
      to quit, and no other action touches the flag or raises anything at
      once. */
  lemma DispatchCases(plugOut: bool, a: Action, w: Wearing)
    ensures var o := Dispatch(plugOut, a, w);
            && o.queued != [] && o.queued[0] == Glasses(a.actionType, a.param1, a.param2, a.param3)
            && (plugOut && IsDisconnect(a.actionType) ==> o == Outcome(true, o.queued, [], false) && |o.queued| == 1)
            && (!(plugOut && IsDisconnect(a.actionType)) ==> o.destroyed)
            && (!plugOut && a.actionType == DISCONNECT ==> o.plugOut && o.raised == [Disconnect(GlassesDeviceDisconnect)])
            && (!plugOut && a.actionType == FORCE_QUIT ==> !o.plugOut && o.raised == [Disconnect(NotifyToQuitApp)])
            && (!IsDisconnect(a.actionType) ==> o.plugOut == plugOut && o.raised == [])
  { }

  /** A click, double click or long press reports a key click whose click
      type is the action's own number and whose key is the first
      parameter; a wearing-state action reports only PutOn and PutOff. */
  lemma ClickAndWearing(plugOut: bool, a: Action, w: Wearing)
    ensures var o := Dispatch(plugOut, a, w);
            && (IsClick(a.actionType) ==>
                  o.queued == [Glasses(a.actionType, a.param1, a.param2, a.param3), KeyClick(a.actionType, a.param1)])
            && (a.actionType == PROXIMITY_WEARING_STATE ==>
                  (|o.queued| == 2 <==> a.param1 == w.putOn || a.param1 == w.putOff)
                  && (|o.queued| == 2 ==> o.queued[1] == WearingState(a.param1)))
  { }

  /* ---------- a run of callbacks ---------- */

  function DeviceDisconnects(es: seq<Event>): nat
  {
    if es == [] then 0
    else (if es[0] == Disconnect(GlassesDeviceDisconnect) then 1 else 0) + DeviceDisconnects(es[1..])
  }

  lemma {:induction false} DeviceDisconnectsConcat(p: seq<Event>, q: seq<Event>)
    ensures DeviceDisconnects(p + q) == DeviceDisconnects(p) + DeviceDisconnects(q)
    decreases |p|
  {
    if p != [] {
      assert (p + q)[1..] == p[1..] + q;
      DeviceDisconnectsConcat(p[1..], q);
    } else {
      assert p + q == q;
    }
  }

  /** Callbacks in a row with no resume in between: the final flag and the
      events raised at once, in order. */
  function DispatchAll(plugOut: bool, actions: seq<Action>, w: Wearing): (bool, seq<Event>)
    decreases |actions|
  {
    if actions == [] then (plugOut, [])
    else
      var o := Dispatch(plugOut, actions[0], w);
      var (p, es) := DispatchAll(o.plugOut, actions[1..], w);
      (p, o.raised + es)
  }

  /** Between two resumes the device disconnect is reported at most once,
      and not at all once the glasses are plugged out; after it has been
      reported the glasses stay plugged out. */
  lemma {:induction false} DisconnectOnce(plugOut: bool, actions: seq<Action>, w: Wearing)
    ensures var (p, es) := DispatchAll(plugOut, actions, w);
            && DeviceDisconnects(es) <= (if plugOut then 0 else 1)
            && (plugOut ==> p)
            && (DeviceDisconnects(es) == 1 ==> p)
    decreases |actions|
  {
    if actions != [] {
      var o := Dispatch(plugOut, actions[0], w);
      DispatchCases(plugOut, actions[0], w);
      DisconnectOnce(o.plugOut, actions[1..], w);
      var (p, es) := DispatchAll(o.plugOut, actions[1..], w);
      DeviceDisconnectsConcat(o.raised, es);
      assert DeviceDisconnects(o.raised) == (if !plugOut && actions[0].actionType == DISCONNECT then 1 else 0);
    }
  }

  /* ---------- device types ---------- */

  datatype DeviceType =
    | XrealLight | XrealAir | XrealAir2 | XrealOne | XrealOneProL | XrealOneProM
    | OtherDevice(code: int)

  /** Everything but the Light, the Air and the Air 2 has electrochromic
      dimming. */
  predicate Electrochromic(t: DeviceType)
  {
    !(t == XrealLight || t == XrealAir || t == XrealAir2)
  }

  /** Only the Xreal One family has colour-temperature control. */
  predicate ColorTemperature(t: DeviceType)
  {
    t == XrealOne || t == XrealOneProL || t == XrealOneProM
  }

  /** Colour-temperature control comes only on glasses with
      electrochromic dimming. */
  lemma ColorTemperatureIsElectrochromic(t: DeviceType)
    ensures ColorTemperature(t) ==> Electrochromic(t)
    ensures !Electrochromic(t) ==> !ColorTemperature(t)
  { }

  datatype DeviceError = GlassesNotAvailable

  /** The brightness levels before the glasses report their count. */
  const DefaultBrightnessMax: Int32 := 7
  const BrightnessMin: int := 0

  class DeviceSubsystem {
    /** m_IsGlassesPlugOut */
    var plugOut: bool
    /** m_ResetStateOnNextResume */
    var resetOnResume: bool
    /** the base subsystem's running flag: set by its Start and Resume,
        cleared by its Pause and Destroy */
    var running: bool
    /** m_InitException != null */
    var initFailed: bool
    /** m_Brightness_Max */
    var brightnessMax: Int32
    /** the main thread's queue, as the events its tasks raise */
    var queued: seq<Event>
    /** the disconnect events raised on the callback's own thread */
    var raised: seq<Event>
    /** the action handles given back to the native side */
    var destroyedActions: seq<nat>
    /** the brightness writes handed to the background executor */
    var brightnessWrites: seq<int>
    const wearing: Wearing

    /** A created subsystem is not running until Start. */
    constructor (initFailed: bool, wearing: Wearing)
      ensures !running && !IsAvailable()
      ensures this.initFailed == initFailed && this.wearing == wearing
      ensures !plugOut && !resetOnResume && brightnessMax == DefaultBrightnessMax
      ensures queued == [] && raised == [] && destroyedActions == [] && brightnessWrites == []
    {
      running := false;
      this.initFailed := initFailed;
      this.wearing := wearing;
      plugOut := false;
      resetOnResume := false;
      brightnessMax := DefaultBrightnessMax;
      queued := [];
      raised := [];
      destroyedActions := [];
      brightnessWrites := [];
    }

    /** The glasses answer queries: not plugged out, running, and created
        without error. */
    predicate IsAvailable()
      reads this
    {
      !plugOut && running && !initFailed
    }

    /** Any HMD query (device type, category, feature support, resolution,
        field of view, distortion, intrinsics, projection, pose, system
        version): the native answer when available, an error otherwise. */
    function HmdQuery<T>(native: T): (r: Result<T, DeviceError>)
      reads this
      ensures r.Ok? <==> IsAvailable()
      ensures r.Ok? ==> r.value == native
    {
      if !IsAvailable() then Err(GlassesNotAvailable) else Ok(native)
    }

    function SupportElectrochromic(native: DeviceType): (r: Result<bool, DeviceError>)
      reads this
      ensures r.Ok? <==> IsAvailable()
      ensures r.Ok? ==> (r.value <==> !(native in {XrealLight, XrealAir, XrealAir2}))
    {
      var t :- HmdQuery(native);
      Ok(Electrochromic(t))
    }

    function SupportColorTemperature(native: DeviceType): (r: Result<bool, DeviceError>)
      reads this
      ensures r.Ok? <==> IsAvailable()
      ensures r.Ok? ==> (r.value <==> native in {XrealOne, XrealOneProL, XrealOneProM})
    {
      var t :- HmdQuery(native);
      Ok(ColorTemperature(t))
    }

    /** `reading` is the native call's answer: a level, or None when it
        fails. */
    function GetBrightness(reading: Option<Int32>): (r: Int32)
      reads this
      ensures !IsAvailable() || reading.None? ==> r == -1
      ensures IsAvailable() && reading.Some? ==> r == reading.value
    {
      if !IsAvailable() then -1
      else match reading
        case Some(level) => level
        case None => -1
    }

    method SetBrightness(brightness: Int32)
      modifies this
      ensures brightnessWrites == old(brightnessWrites) + (if old(IsAvailable()) then [brightness] else [])
      ensures plugOut == old(plugOut) && resetOnResume == old(resetOnResume) && running == old(running)
      ensures initFailed == old(initFailed) && brightnessMax == old(brightnessMax)
      ensures queued == old(queued) && raised == old(raised) && destroyedActions == old(destroyedActions)
    {
      if !IsAvailable() {
        return;
      }
      brightnessWrites := brightnessWrites + [brightness];
    }

    /** Start: `levels` is the level count the glasses report, None when
        the native call fails; the top level is one less, wrapping like
        unchecked C# arithmetic. */
    method Start(levels: Option<Int32>)
      modifies this
      ensures running && (IsAvailable() <==> !plugOut && !initFailed)
      ensures brightnessMax == (if levels.Some? then Dec32(levels.value) else old(brightnessMax))
      ensures plugOut == old(plugOut) && resetOnResume == old(resetOnResume)
      ensures initFailed == old(initFailed) && brightnessWrites == old(brightnessWrites)
      ensures queued == old(queued) && raised == old(raised) && destroyedActions == old(destroyedActions)
    {
      running := true;
      if levels.Some? {
        brightnessMax := Dec32(levels.value);
      }
    }

    method OnGlassesActionCallback(a: Action)
      modifies this
      ensures var o := Dispatch(old(plugOut), a, wearing);
              && plugOut == o.plugOut
              && queued == old(queued) + o.queued
              && raised == old(raised) + o.raised
              && destroyedActions == old(destroyedActions) + (if o.destroyed then [a.handle] else [])
      ensures resetOnResume == old(resetOnResume) && running == old(running) && initFailed == old(initFailed)
      ensures brightnessMax == old(brightnessMax) && brightnessWrites == old(brightnessWrites)
    {
      var t := a.actionType;
      queued := queued + [Glasses(t, a.param1, a.param2, a.param3)];
      if t == DISCONNECT || t == FORCE_QUIT {
        if plugOut {
          return;
        }
        if t != FORCE_QUIT {
          plugOut := true;
        }
        if t == DISCONNECT {
          raised := raised + [Disconnect(GlassesDeviceDisconnect)];
        } else if t == FORCE_QUIT {
          raised := raised + [Disconnect(NotifyToQuitApp)];
        }
      } else {
        QueueClassified(a);
      }
      destroyedActions := destroyedActions + [a.handle];
    }

    /** The callback's branches for the actions other than DISCONNECT and
        FORCE_QUIT, each of which only queues a main-thread task. */
    method QueueClassified(a: Action)
      requires !IsDisconnect(a.actionType)
      modifies this`queued
      ensures queued == old(queued) + Classified(a, wearing)
    {
      var t := a.actionType;
      if IsClick(t) {
        queued := queued + [KeyClick(t, a.param1)];
      } else if t == KEY_STATE {
        queued := queued + [KeyState(a.param1, a.param2)];
      } else if t == PROXIMITY_WEARING_STATE {
        if a.param1 == wearing.putOn || a.param1 == wearing.putOff {
          queued := queued + [WearingState(a.param1)];
        }
      } else if t == INCREASE_BRIGHTNESS || t == DECREASE_BRIGHTNESS {
        queued := queued + [Brightness(AsInt32(a.param1))];
      } else if t == INCREASE_VOLUME || t == DECREASE_VOLUME {
        queued := queued + [Volume(AsInt32(a.param1))];
      } else if t == NEXT_EC_LEVEL {
        queued := queued + [NextECLevel(AsInt32(a.param1))];
      } else if t == RGB_CAMERA_PLUGIN_STATE {
        queued := queued + [RgbCameraPlugState(a.param1)];
      } else if t == TEMPERATURE_STATE {
        queued := queued + [TemperatureState(a.param1)];
      } else if t == EVENT {
        queued := queued + [Hardware(a.handle)];
      }
    }

    method ResetStateOnNextResume()
      modifies this
      ensures resetOnResume
      ensures plugOut == old(plugOut) && running == old(running) && initFailed == old(initFailed)
      ensures brightnessMax == old(brightnessMax) && brightnessWrites == old(brightnessWrites)
      ensures queued == old(queued) && raised == old(raised) && destroyedActions == old(destroyedActions)
    {
      resetOnResume := true;
    }

    /** A requested reset is consumed by the next resume and clears the
        plug-out flag; an unrequested resume leaves the flag alone. */
    method Resume()
      modifies this
      ensures !resetOnResume
      ensures plugOut == (old(plugOut) && !old(resetOnResume))
      ensures running && (IsAvailable() <==> !plugOut && !initFailed)
      ensures initFailed == old(initFailed)
      ensures brightnessMax == old(brightnessMax) && brightnessWrites == old(brightnessWrites)
      ensures queued == old(queued) && raised == old(raised) && destroyedActions == old(destroyedActions)
    {
      running := true;
      if resetOnResume {
        resetOnResume := false;
        plugOut := false;
      }
    }

    /** Pause: the base subsystem stops running, so the glasses stop
        answering until the next Resume; nothing else is kept here. */
    method Pause()
      modifies this
      ensures !running && !IsAvailable()
      ensures plugOut == old(plugOut) && resetOnResume == old(resetOnResume) && initFailed == old(initFailed)
      ensures brightnessMax == old(brightnessMax) && brightnessWrites == old(brightnessWrites)
      ensures queued == old(queued) && raised == old(raised) && destroyedActions == old(destroyedActions)
    {
      running := false;
    }

    /** Destroy: the base subsystem stops running, and the plug-out flag is
        cleared for a later Start. */
    method Destroy()
      modifies this
      ensures !plugOut && !running && !IsAvailable()
      ensures resetOnResume == old(resetOnResume) && initFailed == old(initFailed)
      ensures brightnessMax == old(brightnessMax) && brightnessWrites == old(brightnessWrites)
      ensures queued == old(queued) && raised == old(raised) && destroyedActions == old(destroyedActions)
    {
      running := false;
      plugOut := false;
    }
  }
}
