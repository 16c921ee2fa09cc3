# NRSDK input, device and meshing core, in Dafny

This project models six parts of the NRSDK (Xreal glasses) Unity SDK and
proves properties of the model.

- **Hand-pointer stabiliser** (`hands_manager.dfy`, `one_euro_filter.dfy`).
  - The One-Euro filter is a class. It has three active coefficients, three
    target coefficients and a `(t, x, dx)` history.
  - `CalculatePointerPose` is a per-hand state machine over the gesture, the
    rotation lock, the non-movable flag and two timers. It chooses the
    filter's presets from angle thresholds.
  - The hands manager keeps the hand registry and the two hand states.
- **OBJ mesh text** (`mesh_save.dfy`, `mesh_roundtrip.dfy`, `info_roundtrip.dfy`,
  with `text.dfy` for splitting, lines and integer text).
  - `MeshToString`/`StringToMesh` and `MeshInfoToString`/`StringToMeshInfo`
    write and read a line-oriented subset of Wavefront OBJ.
  - Reading back what was written gives back the triangles, the identifier,
    the state and the labels exactly. The vertex and normal coordinates come
    back only as far as the float text reads back as the same float.
- **Controller tracker** (`controller_tracker.dfy`): the debounce filter of
  `GetLerpRotation` and the stillness detector of `UpdateTracker`.
- **Device subsystem** (`device_subsystem.dfy`).
  - The plug-out and reset-on-resume flags.
  - The dispatch of glasses actions to events.
  - The availability gate, the brightness calls and the device-type
    capabilities.
- **XR display listener proxy** (`display_listener.dfy`).
  - A duplicate-free listener list.
  - A native registration whenever the list turns from empty to non-empty,
    and an unregistration the other way.
  - In-order forwarding of display notifications.
- **Hand controller provider** (`hand_controller_provider.dfy`).
  - The hands become two controllers.
  - A recenter request is a one-shot flag.

Floats are `real`. Shared types are in `geometry.dfy` and `results.dfy`:
vectors, quaternions, poses, and `Mathf.Lerp` and `Mathf.Clamp` with their
clamping. Unity's quaternion functions are passed in as function-valued
parameters: `Quaternion.Angle`, `Quaternion.LookRotation`, `Quaternion.Lerp`
and `Vector3.magnitude`. So are float and enum text (a `Codec`), and every
native call's answer.

The model follows the code as written:

- `OneEuroFilter.Step` has no first-sample pass-through. The history starts
  at time 0 with zero vectors, and the first sample is filtered against it.
- The pinch-exit presets are applied instantly (`lerp = false`).
- Two preset groups use the default `lerp = true`, so they are approached
  smoothly:
  - the sustained-pinch presets `(1, 1, 5)` and `(0.1, 0.4, 2)`;
  - the locked-drift preset `(0.2, 0.5, 2)`.

The model assumes `(int)HandEnum.RightHand == 0` and
`(int)HandEnum.LeftHand == 1`, the slots the hands manager's comment gives,
and indexes the filter array by that value.

## Model

| member | source | states |
|---|---|---|
| Geometry.Clamp | Assets/NRSDK/Scripts/Input/Controller/ControllerTracker.cs:185 | `Mathf.Clamp` lies in `[lo, hi]` and is the identity inside the range |
| Geometry.LerpStaysBetween | Assets/NRSDK/Scripts/Input/Hands/NRHandsManager.cs:508-513 | `Mathf.Lerp` stays between its ends, giving the start for t ≤ 0 and the end for t ≥ 1 |
| Geometry.LerpApproaches | Assets/NRSDK/Scripts/Input/Hands/NRHandsManager.cs:508-513 | a lerp never moves away from its target: the remaining gap is the old gap scaled by `1 - clamp01(t)` |
| OneEuro.Alpha | Assets/NRSDK/Scripts/Input/Hands/NRHandsManager.cs:533-537 | for a positive interval and a non-negative cutoff, the smoothing factor lies in [0, 1) and is 0 exactly when the cutoff is 0 |
| OneEuro.AlphaMonotonic | Assets/NRSDK/Scripts/Input/Hands/NRHandsManager.cs:533-537 | a larger cutoff never gives a smaller smoothing factor |
| OneEuro.Advance | Assets/NRSDK/Scripts/Input/Hands/NRHandsManager.cs:522-530 | a real step stamps the new time, and the filtered value lies between the previous output and the sample; with zero min-cutoff and beta the output does not move, and with zero derivative cutoff the derivative does not move |
| OneEuro.StepSample | Assets/NRSDK/Scripts/Input/Hands/NRHandsManager.cs:515-531 | an interval under 1e-5 (negative included) leaves the history untouched; otherwise the output lies between the previous output and the sample; zero min-cutoff and beta freeze the output |
| OneEuro.Synced | Assets/NRSDK/Scripts/Input/Hands/NRHandsManager.cs:508-513 | each synced coefficient lies between its current value and its target, stays non-negative, reaches the target for dt ≥ 1, and stays put once it is there |
| OneEuro.ApplyRetune | Assets/NRSDK/Scripts/Input/Hands/NRHandsManager.cs:495-506 | a retune always sets the targets, sets the active coefficients only without lerp, and keeps the history |
| OneEuro.Retuned | Assets/NRSDK/Scripts/Input/Hands/NRHandsManager.cs:495-506 | after several retunes the target is the last one's, the history is kept, smoothed-only retunes keep the active coefficients, and non-negativity is preserved |
| OneEuro.RetunedConcat | Assets/NRSDK/Scripts/Input/Hands/NRHandsManager.cs:495-506 | retuning with `p + q` is retuning with `p` and then with `q` |
| OneEuro.Stepped | Assets/NRSDK/Scripts/Input/Hands/NRHandsManager.cs:515-531 | a step changes only the history, by one filter step on the active coefficients |
| OneEuro.FilterTick | Assets/NRSDK/Scripts/Input/Hands/NRHandsManager.cs:435-436 | retune, sync, then step: coefficients stay non-negative, the target is the last retune's, the active min-cutoff, derivative cutoff and beta move toward it, and the history takes one step on the synced coefficients |
| OneEuro.OneEuroFilter.constructor | Assets/NRSDK/Scripts/Input/Hands/NRHandsManager.cs:487-494 | the initial coefficients are (1, 1, 10) active and target, and the history is time 0 with zero vectors |
| OneEuro.OneEuroFilter.SetEuroParam | Assets/NRSDK/Scripts/Input/Hands/NRHandsManager.cs:495-506 | the three targets are always overwritten; the active coefficients are overwritten exactly when `lerp` is false; the history is kept |
| OneEuro.OneEuroFilter.SyncParam | Assets/NRSDK/Scripts/Input/Hands/NRHandsManager.cs:508-513 | the active coefficients become their lerp toward the targets by `deltaTime` |
| OneEuro.OneEuroFilter.Step | Assets/NRSDK/Scripts/Input/Hands/NRHandsManager.cs:515-531 | the history takes one filter step and the result is the new filtered value; a too-short interval returns the previous output unchanged |
| Hands.DecideSpec | Assets/NRSDK/Scripts/Input/Hands/NRHandsManager.cs:356-434 | case by case for the stabiliser. Pinch entry freezes the filter at once, locks unless past 6.5°, stays non-movable unless past 3°, and restarts the pinch timer at this frame's time; between 3° and 6.5° the freeze is followed by a smooth drift preset (0.1, 0.4, 2), past 6.5° by a smooth (1, 1, 5). A sustained pinch never locks; while locked it unlocks with a smooth (1, 1, 5) past 6.5°, drifts smoothly once past 3°, and freezes instantly again under 0.5°. Pinch exit unlocks and resets the rest timer, with an instant preset of (1,1,5) past 5° or else (0,0,0). A lock breaks past 4°. Near the rest pose (under 2°) the rest timer accumulates and the lock comes exactly when it reaches 0.25 s; otherwise the rest pose is re-based and the timer reset. Every preset is non-negative |
| Hands.ScaledDeltaTime | Assets/NRSDK/Scripts/Input/Hands/NRHandsManager.cs:352-355 | the sync time is the frame time scaled by the squared angle when the angle is positive, and stays non-negative |
| Hands.PinchEntryHoldsPointer | Assets/NRSDK/Scripts/Input/Hands/NRHandsManager.cs:356-364 | on the frame a pinch starts within 3° of the previous pointer, the filtered direction does not move, whatever state the filter was in |
| Hands.ValidStep | Assets/NRSDK/Scripts/Input/Hands/NRHandsManager.cs:334-438 | the valid-pointer frame keeps the coefficients non-negative, points from the ray position along the filtered direction, steps the history on the synced coefficients, and keeps the pointer still on a gentle pinch entry |
| Hands.PointerFrame | Assets/NRSDK/Scripts/Input/Hands/NRHandsManager.cs:326-474 | an untracked hand ends invalid; a tracked one is valid iff its wrist angle is under 110°. Only valid frames touch the lock bookkeeping and the rest pose. The shared ray is recomputed exactly on tracked frames that are valid or follow a pinch. Invalid frames not ending a pinch leave the filter and pose alone. Release and loss after a pinch take one last step, instantly or smoothly back to (1,1,5) |
| Hands.ReleaseStep | Assets/NRSDK/Scripts/Input/Hands/NRHandsManager.cs:439-462 | a tracked hand turned away after a pinch jumps instantly to (1,1,5) and steps along the new ray |
| Hands.LostStep | Assets/NRSDK/Scripts/Input/Hands/NRHandsManager.cs:466-471 | a hand lost while pinching steps along the shared ray on its old coefficients, then targets (1,1,5) smoothly |
| Hands.ReleaseFrame | Assets/NRSDK/Scripts/Input/Hands/NRHandsManager.cs:459-461 | in place, the hand state and filter become ReleaseStep of their old values |
| Hands.LostFrame | Assets/NRSDK/Scripts/Input/Hands/NRHandsManager.cs:466-471 | in place, the hand state and filter become LostStep of their old values |
| Hands.StillHandLocksAfterQuarterSecond | Assets/NRSDK/Scripts/Input/Hands/NRHandsManager.cs:418-426 | over frames near the rest pose without a pinch, the rest timer is the sum of the frame times and the lock comes exactly when it reaches 0.25 s, never earlier |
| Hands.PinchFrame | Assets/NRSDK/Scripts/Input/Hands/NRHandsManager.cs:356-386 | in place, the pinch branch leaves the bookkeeping and filter as the stabiliser's decision says |
| Hands.PinchLockFrame | Assets/NRSDK/Scripts/Input/Hands/NRHandsManager.cs:366-384 | in place, the pinch lock checks match their decision |
| Hands.PinchExitFrame | Assets/NRSDK/Scripts/Input/Hands/NRHandsManager.cs:387-399 | in place, the pinch-exit branch matches the decision |
| Hands.SteadyFrame | Assets/NRSDK/Scripts/Input/Hands/NRHandsManager.cs:400-434 | in place, the no-pinch branch matches the decision, including the rest-pose re-base |
| Hands.DecisionFrame | Assets/NRSDK/Scripts/Input/Hands/NRHandsManager.cs:356-434 | in place, the gesture branch matches the decision and changes neither the gesture readings nor the pointer pose |
| Hands.ValidFrame | Assets/NRSDK/Scripts/Input/Hands/NRHandsManager.cs:334-438 | in place, the hand state and filter become ValidStep of their old values |
| Hands.Registered | Assets/NRSDK/Scripts/Input/Hands/NRHandsManager.cs:59-72 | null hands and `None` are ignored; otherwise the hand is filed under its own enum value and replaces an earlier one, every other entry is kept, and at most one hand per value is kept |
| Hands.Unregistered | Assets/NRSDK/Scripts/Input/Hands/NRHandsManager.cs:78-83 | a null hand is ignored; otherwise the entry under its enum value goes, whichever hand it was, and the rest is kept |
| Hands.HandState.constructor | Assets/NRSDK/Scripts/Input/Hands/NRHandsManager.cs:51 | a new hand state carries its hand's enum value and starts untracked, with no gesture, no pinch, no valid pointer, no lock and both timers at 0 |
| Hands.HandsManager.constructor | Assets/NRSDK/Scripts/Input/Hands/NRHandsManager.cs:48-53 | an empty registry, the right hand's state in slot 0 and the left's in slot 1, both at their start values, and two distinct fresh filters, each with (1, 1, 10) as active and target coefficients and the time-0 zero history |
| Hands.HandsManager.RegistHand | Assets/NRSDK/Scripts/Input/Hands/NRHandsManager.cs:59-72 | the registry becomes Registered of the old one |
| Hands.HandsManager.UnRegistHand | Assets/NRSDK/Scripts/Input/Hands/NRHandsManager.cs:78-83 | the registry becomes Unregistered of the old one |
| Hands.HandsManager.GetHandState | Assets/NRSDK/Scripts/Input/Hands/NRHandsManager.cs:167-179 | slot 0 for the right hand, slot 1 for the left, and null exactly for `None` |
| Hands.HandsManager.GetHand | Assets/NRSDK/Scripts/Input/Hands/NRHandsManager.cs:186-194 | the registered hand, non-null exactly when one is filed under that value |
| Hands.HandsManager.CalculatePointerPose | Assets/NRSDK/Scripts/Input/Hands/NRHandsManager.cs:326-474 | in place, the hand's state, its filter and the shared ray become PointerFrame of their old values |
| Hands.HandsManager.TrackedFrame | Assets/NRSDK/Scripts/Input/Hands/NRHandsManager.cs:328-463 | the tracked half of CalculatePointerPose, against PointerFrame |
| Hands.HandsManager.UntrackedFrame | Assets/NRSDK/Scripts/Input/Hands/NRHandsManager.cs:464-473 | the untracked half: a valid pinching hand takes LostStep, and every untracked hand ends invalid |
| MeshSave.MeshToString | Assets/NRSDK/Demos/Meshing/Scripts/MeshSaveUtility.cs:109-136 | the text is MeshText: the `# ` header, `v` lines in order, a blank line, `vn` lines in order, a blank line, one `f k/k/k` line per triple with 1-based indices, a blank line; a triangle count not divisible by 3 throws |
| MeshSave.AppendVectors | Assets/NRSDK/Demos/Meshing/Scripts/MeshSaveUtility.cs:114-118 | the builder gains one vector line per vector, in order |
| MeshSave.AppendFaces | Assets/NRSDK/Demos/Meshing/Scripts/MeshSaveUtility.cs:128-133 | one face line per index triple, or an out-of-range error when the count is not a multiple of 3 |
| MeshSave.AppendTail | Assets/NRSDK/Demos/Meshing/Scripts/MeshSaveUtility.cs:119-135 | the blank line, the normals, the blank line, the faces and the final blank line, or the faces' error |
| MeshSave.StringToMesh | Assets/NRSDK/Demos/Meshing/Scripts/MeshSaveUtility.cs:138-172 | the parse is ParseMesh: the lines are folded in order, and the first exception is returned |
| MeshSave.ReadToken | Assets/NRSDK/Demos/Meshing/Scripts/MeshSaveUtility.cs:151 | a missing token is an out-of-range error, and a present one is read by the codec or fails with the given exception |
| MeshSave.MeshLineEffect | Assets/NRSDK/Demos/Meshing/Scripts/MeshSaveUtility.cs:147-163 | a line whose first token is not `v`, `vn` or `f` is ignored; other lines only append, and add one vertex (normal) exactly for a `v` (`vn`) line |
| MeshSave.MeshInfoToString | Assets/NRSDK/Demos/Meshing/Scripts/MeshSaveUtility.cs:174-207 | the text is InfoText: header, `#id`, `#state`, each vertex followed by its `#l` label, then the normals and faces as for a mesh |
| MeshSave.InfoLinePlain | Assets/NRSDK/Demos/Meshing/Scripts/MeshSaveUtility.cs:220-246 | a line that is not `#id`, `#state` or `#l` is read as StringToMesh reads it |
| MeshSave.StringToMeshInfo | Assets/NRSDK/Demos/Meshing/Scripts/MeshSaveUtility.cs:208-260 | the parse is ParseMeshInfo, whose mesh is named with the identifier's decimal digits |
| MeshRoundTrip.VectorLineRead | Assets/NRSDK/Demos/Meshing/Scripts/MeshSaveUtility.cs:117-154 | a written `v`/`vn` line reads back as exactly its vector, appended to the right list |
| MeshRoundTrip.FaceLineRead | Assets/NRSDK/Demos/Meshing/Scripts/MeshSaveUtility.cs:131-159 | a written face line reads back as exactly its three indices, including across the 32-bit wrap of `+ 1` and `- 1` |
| MeshRoundTrip.MeshTextRoundTrip | Assets/NRSDK/Demos/Meshing/Scripts/MeshSaveUtility.cs:109-172 | writing succeeds iff the triangle count is a multiple of 3, and then StringToMesh gives back the vertices, normals and triangles |
| InfoRoundTrip.InfoTextRoundTrip | Assets/NRSDK/Demos/Meshing/Scripts/MeshSaveUtility.cs:174-260 | writing succeeds iff every vertex has a label and the triangle count is a multiple of 3; then StringToMeshInfo gives back the identifier, the state, the labels of the vertices and the mesh named with the identifier |
| Text.SplitLines | Assets/NRSDK/Demos/Meshing/Scripts/MeshSaveUtility.cs:140 | splitting newline-terminated lines on `\n` gives the lines and one trailing empty string |
| Text.SplitGlue | Assets/NRSDK/Demos/Meshing/Scripts/MeshSaveUtility.cs:147 | splitting on the separators gives back the separator-free tokens that were glued |
| Text.Int32RoundTrip | Assets/NRSDK/Demos/Meshing/Scripts/MeshSaveUtility.cs:157 | `int.Parse` reads the decimal text of every 32-bit integer back as itself |
| Text.UInt64RoundTrip | Assets/NRSDK/Demos/Meshing/Scripts/MeshSaveUtility.cs:235 | `ulong.Parse` reads the decimal text of every identifier back as itself |
| Text.IncDec | Assets/NRSDK/Demos/Meshing/Scripts/MeshSaveUtility.cs:132-157 | unchecked `+ 1` and `- 1` undo each other on every 32-bit integer, at both ends of the range |
| Tracker.DebounceSpeed | Assets/NRSDK/Scripts/Input/Controller/ControllerTracker.cs:184-185 | the debouncing lerp speed lies in [1.5, 50] and is 3.2·angle² inside that range |
| Tracker.DebounceSpeedChoice | Assets/NRSDK/Scripts/Input/Controller/ControllerTracker.cs:177-188 | the speed is the clamped square while debouncing and 100 otherwise; an angle past 2.78° ends debouncing and resets the slow-down timer |
| Tracker.SlowDownFreezes | Assets/NRSDK/Scripts/Input/Controller/ControllerTracker.cs:191-198 | held within 0.74° until the slow-down timer reaches 0.4, debouncing starts and the last rotation is returned and kept |
| Tracker.MoveFollows | Assets/NRSDK/Scripts/Input/Controller/ControllerTracker.cs:190-204 | a move of at least 0.74° resets the slow-down timer, and the lerped rotation is returned and stored |
| Tracker.FrozenStays | Assets/NRSDK/Scripts/Input/Controller/ControllerTracker.cs:175-205 | once frozen, a controller held still returns the frozen rotation on every frame and stays frozen |
| Tracker.StillControllerFreezes | Assets/NRSDK/Scripts/Input/Controller/ControllerTracker.cs:175-205 | a controller held still for 0.4 s in total freezes the pointer |
| Tracker.MotionStepCases | Assets/NRSDK/Scripts/Input/Controller/ControllerTracker.cs:120-141 | a move of at least 0.3° or a held trigger wakes the tracker and resets its timer and reference. Otherwise it is moveable exactly while the accumulated still time is under 3 s. A non-moveable tracker refreshes its reference only on frames divisible by 30 |
| Tracker.StillStaysStill | Assets/NRSDK/Scripts/Input/Controller/ControllerTracker.cs:126-141 | left unmoved, a non-moveable tracker stays non-moveable |
| Tracker.UnmovedGoesStill | Assets/NRSDK/Scripts/Input/Controller/ControllerTracker.cs:49-136 | left unmoved for 3 s in total, a tracker becomes non-moveable |
| Tracker.TrackerStepGates | Assets/NRSDK/Scripts/Input/Controller/ControllerTracker.cs:108-143 | with no camera nothing changes. The tracker is enabled iff its controller is available and hand tracking is off. The raycaster is shown iff the tracker is enabled, raycasters are active, the mode is Laser and the tracker was moveable. A disabled tracker keeps its fields |
| Tracker.ControllerTracker.constructor | Assets/NRSDK/Scripts/Input/Controller/ControllerTracker.cs:51-69 | the field initialisers: moveable, not debouncing, lerp speed 5, identity rotations |
| Tracker.ControllerTracker.GetLerpRotation | Assets/NRSDK/Scripts/Input/Controller/ControllerTracker.cs:175-205 | in place, the debounce fields and the result are DebounceStep of the old fields |
| Tracker.ControllerTracker.TrackPose | Assets/NRSDK/Scripts/Input/Controller/ControllerTracker.cs:146-173 | the rotation becomes the placed debounced rotation or the placed raw one |
| Tracker.ControllerTracker.UpdateTracker | Assets/NRSDK/Scripts/Input/Controller/ControllerTracker.cs:108-143 | in place, the fields and the activations are TrackerStep of the old fields |
| Device.AsInt32 | Assets/NRSDK/Scripts/Subsystems/Device/NRDeviceSubsystem.cs:232 | the unchecked `(int)` cast of an unsigned parameter agrees with it modulo 2³² |
| Device.AsInt32RoundTrip | Assets/NRSDK/Scripts/Subsystems/Device/NRDeviceSubsystem.cs:232-248 | the cast loses nothing, and gives a negative value exactly above Int32.MaxValue |
| Device.Classified | Assets/NRSDK/Scripts/Subsystems/Device/NRDeviceSubsystem.cs:192-292 | each non-disconnect action queues at most one specific event |
| Device.DispatchCases | Assets/NRSDK/Scripts/Subsystems/Device/NRDeviceSubsystem.cs:176-295 | the generic event is always queued first. A disconnect or quit while plugged out does nothing more, not even destroying the handle. DISCONNECT plugs out and reports the device disconnect; FORCE_QUIT reports a quit without plugging out. Other actions change neither the flag nor the immediate events |
| Device.ClickAndWearing | Assets/NRSDK/Scripts/Subsystems/Device/NRDeviceSubsystem.cs:192-227 | a click, double click or long press reports a key click with the action's own number and `param1` as the key; a wearing state is reported only for PutOn and PutOff |
| Device.DisconnectOnce | Assets/NRSDK/Scripts/Subsystems/Device/NRDeviceSubsystem.cs:253-269 | between resumes the device disconnect is reported at most once, never once plugged out, and the glasses stay plugged out after it |
| Device.ColorTemperatureIsElectrochromic | Assets/NRSDK/Scripts/Subsystems/Device/NRDeviceSubsystem.cs:566-580 | every device with colour temperature control also has electrochromic dimming |
| Device.DeviceSubsystem.constructor | Assets/NRSDK/Scripts/Subsystems/Device/NRDeviceSubsystem.cs:75-87 | not running and so not available until Start, not plugged out, no reset requested, 7 as the top brightness level, nothing queued |
| Device.DeviceSubsystem.HmdQuery | Assets/NRSDK/Scripts/Subsystems/Device/NRDeviceSubsystem.cs:387-399 | an HMD query answers iff the device is available (not plugged out, running, initialised), and otherwise fails |
| Device.DeviceSubsystem.SupportElectrochromic | Assets/NRSDK/Scripts/Subsystems/Device/NRDeviceSubsystem.cs:566-572 | fails when unavailable; otherwise true exactly for devices other than the Light, the Air and the Air 2 |
| Device.DeviceSubsystem.SupportColorTemperature | Assets/NRSDK/Scripts/Subsystems/Device/NRDeviceSubsystem.cs:574-580 | fails when unavailable; otherwise true exactly for the One, One Pro L and One Pro M |
| Device.DeviceSubsystem.GetBrightness | Assets/NRSDK/Scripts/Subsystems/Device/NRDeviceSubsystem.cs:532-546 | -1 when unavailable or when the native read fails, the reading otherwise |
| Device.DeviceSubsystem.SetBrightness | Assets/NRSDK/Scripts/Subsystems/Device/NRDeviceSubsystem.cs:550-563 | a brightness write is issued exactly when the device is available, and nothing else changes |
| Device.DeviceSubsystem.Start | Assets/NRSDK/Scripts/Subsystems/Device/NRDeviceSubsystem.cs:134-147 | the base Start makes the subsystem run, so it is available exactly when not plugged out and initialised; on a successful read the top brightness level is the level count minus one, with 32-bit wrap-around |
| Device.DeviceSubsystem.OnGlassesActionCallback | Assets/NRSDK/Scripts/Subsystems/Device/NRDeviceSubsystem.cs:176-295 | in place, the flag, queued events, raised events and destroyed handles follow Dispatch |
| Device.DeviceSubsystem.QueueClassified | Assets/NRSDK/Scripts/Subsystems/Device/NRDeviceSubsystem.cs:192-292 | the branches other than disconnect queue exactly the classified event |
| Device.DeviceSubsystem.ResetStateOnNextResume | Assets/NRSDK/Scripts/Subsystems/Device/NRDeviceSubsystem.cs:297-300 | the reset request is set and nothing else changes |
| Device.DeviceSubsystem.Pause | Assets/NRSDK/Scripts/Subsystems/Device/NRDeviceSubsystem.cs:317-319 | the base Pause stops the subsystem, so it answers no queries; nothing else changes |
| Device.DeviceSubsystem.Resume | Assets/NRSDK/Scripts/Subsystems/Device/NRDeviceSubsystem.cs:336-344 | the base Resume makes the subsystem run again; the plug-out flag is cleared only if a reset was requested, and the request is consumed; it is then available exactly when not plugged out and initialised |
| Device.DeviceSubsystem.Destroy | Assets/NRSDK/Scripts/Subsystems/Device/NRDeviceSubsystem.cs:363-383 | the base Destroy stops the subsystem, so it answers no queries, and the plug-out flag is cleared |
| DisplayListeners.InsertedSpec | Assets/NRSDK/Scripts/Android/NRXRDisplayListenerProxy.cs:47-48 | adding keeps the list duplicate-free, contains the listener, keeps the others in order, and changes nothing for a listener already present |
| DisplayListeners.RemoveFirstSpec | Assets/NRSDK/Scripts/Android/NRXRDisplayListenerProxy.cs:55 | removing from a duplicate-free list takes out exactly that listener at its position, keeping the others in order, shortens the list iff it was present, and changes nothing otherwise |
| DisplayListeners.DeliveriesInOrder | Assets/NRSDK/Scripts/Android/NRXRDisplayListenerProxy.cs:71-91 | each listener receives the notice once, with the same arguments, in list order |
| DisplayListeners.XRDisplayProxy.constructor | Assets/NRSDK/Scripts/Android/NRXRDisplayListenerProxy.cs:29-33 | no list yet and no native call |
| DisplayListeners.XRDisplayProxy.AddListener | Assets/NRSDK/Scripts/Android/NRXRDisplayListenerProxy.cs:35-49 | creates the list, registers natively exactly when the list was empty, and never inserts twice; the Android side holds the proxy exactly while there is a listener |
| DisplayListeners.XRDisplayProxy.RemoveListener | Assets/NRSDK/Scripts/Android/NRXRDisplayListenerProxy.cs:51-69 | does nothing on a missing or empty list; otherwise removes the listener and unregisters exactly when the list becomes empty; an absent listener changes nothing |
| DisplayListeners.XRDisplayProxy.Notify | Assets/NRSDK/Scripts/Android/NRXRDisplayListenerProxy.cs:71-91 | the loop delivers the notice to every listener in order, and to none before the list exists |
| DisplayListeners.XRDisplayProxy.OnXRDisplayAdded | Assets/NRSDK/Scripts/Android/NRXRDisplayListenerProxy.cs:71-80 | forwards the display-added arguments to every listener in order |
| DisplayListeners.XRDisplayProxy.OnXRDisplayRemoved | Assets/NRSDK/Scripts/Android/NRXRDisplayListenerProxy.cs:82-91 | forwards the display-removed id to every listener in order |
| HandController.UpdatedFields | Assets/NRSDK/Scripts/Input/Hands/NRHandControllerProvider.cs:110-137 | the pose is copied from the pointer pose. Touching is exactly a valid pointer with a pinch. The controller is a connected hand with rotation and position, zero motion sensors, not charging and battery 0. A recenter is reported exactly when one was pending |
| HandController.HandFor | Assets/NRSDK/Scripts/Input/Hands/NRHandControllerProvider.cs:105-108 | index 0 reads the right hand and every other index the left hand |
| HandController.HandControllerProvider.constructor | Assets/NRSDK/Scripts/Input/Hands/NRHandControllerProvider.cs:26-38 | two recenter flags, both clear |
| HandController.HandControllerProvider.Recenter | Assets/NRSDK/Scripts/Input/Hands/NRHandControllerProvider.cs:139-147 | sets the flag only for an index below ControllerCount (2); a negative index fails like the array access |
| HandController.HandControllerProvider.UpdateControllerState | Assets/NRSDK/Scripts/Input/Hands/NRHandControllerProvider.cs:110-137 | the entry becomes Updated of its old value, a pending recenter is reported once and cleared, and nothing else changes; past the flags the entry is rewritten and the call fails |
| HandController.HandControllerProvider.Update | Assets/NRSDK/Scripts/Input/Hands/NRHandControllerProvider.cs:40-55 | every entry is updated from its hand, with the parser looked up for its index, and all flags read are cleared; a longer states array fails after rewriting its first extra entry |

## Left out

- Floating point: floats are `real`, so rounding, NaN and infinities are not modelled. The thresholds are the source's decimal constants.
- Unity math is passed in as parameters, not modelled: `Quaternion.Angle`, `Quaternion.LookRotation`, `Quaternion.Lerp`, `Vector3.magnitude`, and the rotation chain TrackPose applies. The hand-joint geometry (`GetHandRayDirection`, the neck and shoulder positions, the joint offsets) is an input ray.
- Float and enum text formatting and parsing (`string.Format`, `float.Parse`, `Enum.Parse`) are a `Codec` parameter. Only its round trip is assumed, and only by the round-trip lemmas. The default `string.Format` of a float keeps about 7 significant digits (on Mono, `1.0000001f` is written as `1`), so the program does not guarantee that round trip. Coordinates come back exactly only for floats that their text reproduces.
- MeshSave.StringToMesh: returns the parsed lists as the mesh. Unity's `Mesh` setters reject a `normals` array whose length differs from the vertex count, and a `triangles` array that indexes past the vertices. They log an error and leave that channel unassigned. The model does not apply these checks, so for such text it promises lists that the program's mesh does not hold.
- MeshSave.StringToMeshInfo: its mesh is built the same way, with the same unmodelled `Mesh` setter checks.
- Device.DeviceSubsystem.constructor: `m_ResetStateOnNextResume` and `m_Brightness_Max` are static in the source, and `Destroy` clears neither. A re-created subsystem therefore inherits a pending reset request and the last brightness maximum. The model keeps them per instance and assumes one subsystem per process, so its constructor starts them at false and 7.
- File I/O (`Save`, `Clear`, the save path), MeshSaver's thread and lock, and the mesh's Unity-side recalculations are not modelled.
- The main-thread dispatcher and the background executor are modelled as the list of events their tasks raise (`queued`) and the list of brightness writes. Their timing relative to other callbacks is not modelled.
- Device.Classified: a wearing-state action whose value is neither PutOn nor PutOff queues a task that raises nothing; the model queues nothing.
- The GlassesEventType values PutOn and PutOff are a constructor parameter: GlassesEventType is not part of this model.
- The key-state event carries the key type and state, without `hmd_time_nanos_device`. The hardware event carries only the action handle.
- The base class `IntegratedSubsystem` is not part of this model. Its `Start` and `Resume` are taken to set `running`, and its `Pause` and `Destroy` to clear it. The init exception is a constructor input. `OnDisplaySubSystemStart` and the native start, pause and stop calls are not modelled.
- The other HMD queries are modelled as one gated query, HmdQuery, which covers device category, feature support, resolution, field of view, distortion, intrinsics, projection, pose and system version.
- The JNI calls of XRDisplayProxy are modelled as a log of Register and Unregister values. A listener's callback re-entering the proxy during a notification is not modelled.
- HandController.HandControllerProvider.Update: a null states array is not modelled.
- The native hand-tracking update, `EnableHandTracking`, `Start`, `Stop`, `Pause` and `Resume` of the provider are left out. So is the base class's `Recenter`.
- `ControllerStateParseUtility.GetControllerStateParser` is a parameter: a lookup from the controller index to a parser for the hand controller type. A parser may rewrite only the buttons word, and the states array is not aliased elsewhere.
- The class `HandState` is not part of this model. Its new instances are taken to start with C# default fields. Its initial pointer and rest poses are not stated.
- The hands manager's `Init`, `UnInit`, `StartHandTracking`, `StopHandTracking`, `IsRunning`, the system-gesture queries and the `UpdateHandPointer` loop over both hands are left out. The loop is two CalculatePointerPose calls.
- ControllerTracker's recentering (`SyncRecenter`, `OnRecentering`, the revise, pitch and roll rotations) and its position handling are left out. TrackPose keeps only the rotation it writes.
