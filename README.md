# ReverseGoGo interaction techniques and user study, in Dafny

This project models a Unity VR study application, and proves properties of the model. The application compares two ways of reaching distant objects:

- **Traditional GoGo.** The virtual hand travels along the HMD-to-controller ray. It follows the controller 1:1 up to a threshold distance, and moves quadratically farther beyond it.
- **ReverseGoGo.** A ray selector picks a distant object once the controller is stretched beyond a calibrated threshold. The trigger then *attaches* the object, which follows the controller's translation. The grip instead *pulls* it toward the controller as the controller retracts; the pull turns into an attach when the object comes within 0.15 of the controller.

A button toggles between the two techniques. The study harness works per participant:

- four coloured objects are placed into coloured zones ("bubbles");
- every attempt is counted, and the time and number of pick-ups of each correct placement are recorded;
- after the fourth correct placement, one CSV row of four metrics is appended to a log file;
- the harness then starts over with the next participant ID, which is read back from that file.

Modules follow the application's scripts:

| module | file | models |
|---|---|---|
| `Common` | common.dfy | vectors, input edges, `Mathf` helpers |
| `Scene` | scene.dfy | game objects (`Body`): position, rigidbody, material |
| `DepthScaling` | depth_scale.dfy | `HandCalibrationDepthScale` |
| `GoGo` | gogo.dfy | `TraditionalGoGoInteraction` |
| `Selection` | selector.dfy | `RaycastObjectSelector` |
| `ReverseGoGo` | virtual_hand_attach.dfy | `VirtualHandAttach` |
| `ReverseGoGoGrabbing` | reverse_gogo_grab.dfy | `ReverseGoGoGrab` |
| `ModeToggle` | mode_toggle.dfy | `GoGoModeToggle` |
| `Text` | text.dfy | the .NET string operations used: `Contains`, `ToLower`, `Split`, digit strings, trimming |
| `Bubble` | bubble.dfy | `BubbleTarget` |
| `Trial` | trial_data.dfy | `TrialData` and its CSV row |
| `Logging` | data_logger.dfy | `DataLogger`, with the file as a list of lines |
| `Study` | user_study.dfy | `UserStudyManager` |

How the scripts appear in the model:

- Every MonoBehaviour whose fields change is a class:
  - inspector settings are `const` fields;
  - private state is a `var` field;
  - each per-frame `Update` is a method.
- What the engine supplies each frame is a parameter of these methods:
  - input edges (`WasPressedThisFrame` / `WasReleasedThisFrame`);
  - transform positions, with `None` for an unassigned reference;
  - the raycast hit;
  - `Time.time` and `Time.deltaTime` (always positive);
  - the wall clock.
- `Vector3.Distance` is a function parameter, because the model does not define square roots. So is `Mathf.Pow` with the fractional exponent `1 / exponentialPower`.
- Floats are exact reals. The exponent `exponentialPower` is a natural number.

Where the code and its comments or design notes disagree, the model follows the code:

- The depth multiplier is clamped only from above. Beyond the threshold it *falls* as the controller moves farther out, and can drop below 1 (`DepthScaling.FactorNonIncreasing`, `DepthScaling.FactorFallsBelowOne`).
- The GoGo near-HMD fallback uses the literal 0.3, not the threshold.
- GoGo's "the virtual hand is never nearer than the real one" fails once the real distance exceeds `maxExtension` (`GoGo.ClampAttenuates`).
- The remote pull reads the *current* distance beyond the threshold every frame, not the one at grab start. Once the controller is inside the threshold, the target jumps back to the start position (`ReverseGoGo.PullTargetEnds`).
- A zone's success look is reset when its occupant leaves.
- Switching modes only enables one component and disables the other: a grab in progress is not released.
- The participant ID is incremented as a 32-bit `int`. After 2147483647 it wraps to "-2147483648" (`Logging.NextIDWrapsAtMaximum`).

Some members are plain field reads and carry no contract, so they have no row below:

- `GoGo.TraditionalGoGoInteraction.GetCurrentObject` and `GetTouchingObject`;
- `ReverseGoGo.VirtualHandAttach.GetSelector`;
- `Bubble.BubbleTarget.GetCurrentObject`.

`GoGo.TraditionalGoGoInteraction.GetCurrentObject` is related to `IsGrabbing` by that accessor's contract.

## Model

| member | source | states |
|---|---|---|
| DepthScaling.ScalingFactor | Assets/HandCalibrationDepthScale.cs:65-88 | exactly 1 up to the threshold; beyond it, never above `maxScalingFactor` |
| DepthScaling.FactorNonIncreasing | Assets/HandCalibrationDepthScale.cs:76-83 | beyond the threshold, a farther controller never gets a larger multiplier |
| DepthScaling.FactorFallsBelowOne | Assets/HandCalibrationDepthScale.cs:76-83 | no lower clamp: threshold 0.3, power 2, distance 0.6 gives a multiplier below 1 |
| DepthScaling.FactorClampedAtMaximum | Assets/HandCalibrationDepthScale.cs:76-83 | just past the threshold (0.35 against 0.3, power 2), the power 14.0625 is clamped to the maximum 10 |
| DepthScaling.HandCalibrationDepthScale.constructor | Assets/HandCalibrationDepthScale.cs:15-28 | before the first update the multiplier is 1 and the controller is not beyond the threshold |
| DepthScaling.HandCalibrationDepthScale.Update | Assets/HandCalibrationDepthScale.cs:56-89 | a missing HMD or controller changes nothing; otherwise the distance beyond the threshold is `distance - threshold` (possibly negative), the flag holds iff `distance > threshold`, and the multiplier is `ScalingFactor` of that distance; the three fields stay consistent |
| DepthScaling.HandCalibrationDepthScale.GetDepthScalingFactor | Assets/HandCalibrationDepthScale.cs:94-97 | the stored multiplier: 1 while not beyond, at most the maximum while beyond |
| DepthScaling.HandCalibrationDepthScale.IsControllerBeyondThreshold | Assets/HandCalibrationDepthScale.cs:102-105 | true iff the distance beyond the threshold is positive |
| DepthScaling.HandCalibrationDepthScale.GetDistanceBeyondThreshold | Assets/HandCalibrationDepthScale.cs:110-113 | the unclamped distance beyond the threshold: positive exactly while beyond, and the stored multiplier is the one for that distance |
| DepthScaling.HandCalibrationDepthScale.ApplyDepthScaling | Assets/HandCalibrationDepthScale.cs:118-121 | the delta times the stored multiplier; the identity while not beyond the threshold |
| GoGo.VirtualDistance | Assets/TraditionalGoGoInteraction.cs:158-174 | 1:1 up to the threshold; beyond it at most `maxExtension`, and at least the real distance when `k >= 0` and the real distance is within `maxExtension` |
| GoGo.VirtualDistanceMonotone | Assets/TraditionalGoGoInteraction.cs:158-174 | with `k >= 0` and `maxExtension >= threshold`, a larger real distance never gives a smaller virtual one |
| GoGo.ClampAttenuates | Assets/TraditionalGoGoInteraction.cs:163-174 | above `maxExtension` the virtual hand is nearer than the real one (real 12, maximum 10) |
| GoGo.VirtualHandInsideThreshold | Assets/TraditionalGoGoInteraction.cs:141-162 | nearer than 0.05 the hand is parked 0.3 along the HMD's forward; from 0.05 up to the threshold it is exactly at the controller |
| GoGo.VirtualHandPosition | Assets/TraditionalGoGoInteraction.cs:141-180 | `CalculateVirtualHandPosition`: parked 0.3 along the HMD's forward when the controller is nearer than 0.05, otherwise on the HMD-to-controller ray at `VirtualDistance`; its properties are the contracts of `VirtualHandInsideThreshold` and `VirtualHandOnRay` |
| GoGo.VirtualHandOnRay | Assets/TraditionalGoGoInteraction.cs:152-177 | from 0.05 on, the hand lies on the HMD-to-controller ray, `virtual / real` times as far as the controller |
| GoGo.TraditionalGoGoInteraction.constructor | Assets/TraditionalGoGoInteraction.cs:23-33 | starts with nothing touched, nothing grabbed |
| GoGo.TraditionalGoGoInteraction.IsGrabbing | Assets/TraditionalGoGoInteraction.cs:37-39 | grabbing exactly while an object is held |
| GoGo.TraditionalGoGoInteraction.OnVirtualHandTouchObject | Assets/TraditionalGoGoInteraction.cs:185-193 | the touched object is remembered iff its layer bit is set in the selectable mask |
| GoGo.TraditionalGoGoInteraction.OnVirtualHandLeaveObject | Assets/TraditionalGoGoInteraction.cs:198-205 | only the touched object itself clears the touch; any other leave changes nothing |
| GoGo.TraditionalGoGoInteraction.GrabObject | Assets/TraditionalGoGoInteraction.cs:210-229 | holds the object, with `hand + offset == object position`; a dynamic body loses gravity and is stopped, any other is untouched |
| GoGo.TraditionalGoGoInteraction.MoveGrabbedObject | Assets/TraditionalGoGoInteraction.cs:235-267 | drives the held object to `hand + offset`: by velocity `diff / dt` (rotation frozen) for a dynamic body, by position otherwise |
| GoGo.TraditionalGoGoInteraction.ReleaseObject | Assets/TraditionalGoGoInteraction.cs:272-291 | nothing held afterwards; a dynamic body gets gravity back at rest and unfrozen; the touched object is unaffected |
| GoGo.TraditionalGoGoInteraction.Update | Assets/TraditionalGoGoInteraction.cs:94-136 | without hand, HMD or controller nothing changes; otherwise the hand is placed by `VirtualHandPosition`, a grab starts only on a press while idle with a touched object, a press while grabbing grabs nothing new, a release ends the grab and gives a dynamic body its gravity back at rest with rotation free; on the first frame the object is driven to where it already is, and on every later holding frame it is driven to the virtual hand plus the grab offset, by position or by velocity with rotation frozen |
| Selection.RaycastObjectSelector.constructor | Assets/RaycastObjectSelector.cs:8-17 | nothing targeted, nothing highlighted, not grabbed |
| Selection.RaycastObjectSelector.GetCurrentTarget | Assets/RaycastObjectSelector.cs:40-43 | the current target |
| Selection.RaycastObjectSelector.ClearHighlight | Assets/RaycastObjectSelector.cs:118-130 | the highlighted object gets its saved material back and nothing is highlighted; with nothing highlighted it changes nothing, so a second call is a no-op |
| Selection.RaycastObjectSelector.ApplyHighlight | Assets/RaycastObjectSelector.cs:100-116 | a no-op for the object already highlighted or without a highlight material; otherwise the old highlight is removed first and the target (if it has a renderer) wears the highlight with its own material saved, so at most one object is highlighted |
| Selection.RaycastObjectSelector.SetGrabbedState | Assets/RaycastObjectSelector.cs:45-54 | sets the flag; grabbing also removes the highlight, releasing changes nothing else |
| Selection.RaycastObjectSelector.OnDisable | Assets/RaycastObjectSelector.cs:132-135 | disabling removes the highlight and restores the saved material |
| Selection.RaycastObjectSelector.Update | Assets/RaycastObjectSelector.cs:56-98 | while grabbed nothing changes (the selection is frozen); otherwise the target is the hit when beyond the threshold and none when not (or without a depth scaler), the target wears the highlight, and a former highlight is restored; hovering the same object again changes nothing |
| ReverseGoGo.ClampedRatio | Assets/VirtualHandAttach.cs:148-155 | `Clamp01(num / den)`: in [0, 1], the quotient when it already is, 1 for a positive numerator over a zero denominator (an infinite quotient), and 0 for a negative ratio; 0/0 is listed under Left out |
| ReverseGoGo.SpeedFactor | Assets/VirtualHandAttach.cs:160-163 | the pull's speed multiplier is never below 0.1 and is the scaled root whenever that is at least 0.1 |
| ReverseGoGo.PullTarget | Assets/VirtualHandAttach.cs:145-169 | the pull's target: the start position interpolated toward the controller by the clamped retraction progress raised to the exponent; `PullTargetEnds` and `PullTargetOnSegment` state where it lies |
| ReverseGoGo.PullTargetEnds | Assets/VirtualHandAttach.cs:141-169 | a retraction of at least the current range gives the controller as target; a negative range (controller inside the threshold) gives the start position |
| ReverseGoGo.PullTargetOnSegment | Assets/VirtualHandAttach.cs:145-169 | the pull target always lies on the segment from the object's start to the controller |
| ReverseGoGo.VirtualHandAttach.constructor | Assets/VirtualHandAttach.cs:13-15 | starts idle: neither mode, nothing held |
| ReverseGoGo.VirtualHandAttach.IsAttached | Assets/VirtualHandAttach.cs:24 | attached implies an object is held and no pull is on |
| ReverseGoGo.VirtualHandAttach.IsRemotePulling | Assets/VirtualHandAttach.cs:25 | pulling implies an object is held |
| ReverseGoGo.VirtualHandAttach.GetCurrentObject | Assets/VirtualHandAttach.cs:26 | an object is held exactly while one of the two modes is on |
| ReverseGoGo.VirtualHandAttach.AttachHand | Assets/VirtualHandAttach.cs:225-257 | holds the object in attach mode, anchors controller and object start positions, locks the selector and drops its highlight |
| ReverseGoGo.VirtualHandAttach.StartRemotePull | Assets/VirtualHandAttach.cs:290-311 | holds the object in pull mode, records both start positions and their initial distance, locks the selector |
| ReverseGoGo.VirtualHandAttach.ReleaseHeld | Assets/VirtualHandAttach.cs:261-279 | nothing held afterwards, the selector unlocked when something was held, a dynamic body stopped and unfrozen, any other body untouched |
| ReverseGoGo.VirtualHandAttach.ReleaseHand | Assets/VirtualHandAttach.cs:259-288 | attach mode off, nothing held, selector unlocked, a dynamic body stopped |
| ReverseGoGo.VirtualHandAttach.StopRemotePull | Assets/VirtualHandAttach.cs:313-342 | pull mode off, nothing held, selector unlocked, a dynamic body stopped |
| ReverseGoGo.VirtualHandAttach.ApplyHandAttachmentMovement | Assets/VirtualHandAttach.cs:103-126 | the object's target is its start position plus the controller's translation since the grab: velocity `diff / dt` for a dynamic body, position otherwise |
| ReverseGoGo.VirtualHandAttach.ApplyRemotePullMovement | Assets/VirtualHandAttach.cs:136-207 | without a depth scaler nothing changes; otherwise the object is driven to `PullTarget` (velocity times the speed factor for a dynamic body), and when it was within 0.15 of the controller pull mode becomes attach mode with both start positions re-anchored, else pull mode stays |
| ReverseGoGo.VirtualHandAttach.Update | Assets/VirtualHandAttach.cs:51-101 | the modes stay mutually exclusive and the selector is locked exactly while an object is held; a grab starts only from idle, on a press, with the selector's target; attach mode never turns into a pull and ends only on a trigger release; a pull keeps its object until a grip release; a trigger press from idle with a target attaches that target, anchored at this frame's controller and object positions; a grip press from idle with a target pulls it (or has already attached it), recording the pull's start and the initial distance; each attach frame drives the object, by position or by velocity with rotation frozen, to its start position translated by the controller's movement; each pull frame drives it toward `PullTarget`, scaled by `SpeedFactor` for a dynamic body, and switches to attach mode with fresh anchors once it was within 0.15 of the controller; without hand or selector nothing changes |
| ReverseGoGoGrabbing.DepthRatio | Assets/ReverseGoGoGrab.cs:62 | the denominator is at least `minScaleDistance`: the ratio is bounded by `initial / minScaleDistance`, and is exactly `initial / hand` once the hand is at least that far |
| ReverseGoGoGrabbing.GrabbedPosition | Assets/ReverseGoGoGrab.cs:56-67 | the object's position: the camera position plus the hand's lateral offset and its depth scaled by `DepthRatio`; `LateralOneToOne` and `ObjectAtHandWhenDistancesMatch` state its properties |
| ReverseGoGoGrabbing.DepthRatioNonIncreasing | Assets/ReverseGoGoGrab.cs:62 | reverse scaling: pulling the hand in never shrinks the ratio |
| ReverseGoGoGrabbing.LateralOneToOne | Assets/ReverseGoGoGrab.cs:56-67 | with the camera facing +z, x and y follow the hand 1:1 and only the depth offset is scaled |
| ReverseGoGoGrabbing.ObjectAtHandWhenDistancesMatch | Assets/ReverseGoGoGrab.cs:56-67 | a hand as far from the camera as the object was at grab time holds the object at the hand |
| ReverseGoGoGrabbing.ReverseGoGoGrab.constructor | Assets/ReverseGoGoGrab.cs:14-18 | starts not grabbing |
| ReverseGoGoGrabbing.ReverseGoGoGrab.Update | Assets/ReverseGoGoGrab.cs:20-44 | a missing hand or target changes nothing; a press while idle starts a grab and records the camera-to-object distance (a press while grabbing does not restart); every grabbing frame, the release frame included, places the object at `GrabbedPosition`; the grab ends on a release or a hand nearer than `minGrabDistance` |
| ReverseGoGoGrabbing.ReverseGoGoGrab.StartGrab | Assets/ReverseGoGoGrab.cs:46-50 | grabbing, with the camera-to-object distance recorded |
| ReverseGoGoGrabbing.ReverseGoGoGrab.HandleObjectMovement | Assets/ReverseGoGoGrab.cs:52-68 | the object is placed at `GrabbedPosition` |
| ReverseGoGoGrabbing.ReverseGoGoGrab.EndGrab | Assets/ReverseGoGoGrab.cs:70-73 | only the flag changes: the distance and the object's position stay |
| ModeToggle.GoGoModeToggle.constructor | Assets/GoGoModeToggle.cs:18 | the configured starting mode |
| ModeToggle.GoGoModeToggle.SetMode | Assets/GoGoModeToggle.cs:54-68 | each assigned component is enabled exactly as the mode says |
| ModeToggle.GoGoModeToggle.Start | Assets/GoGoModeToggle.cs:20-42 | applies the starting mode: exactly the chosen technique is enabled |
| ModeToggle.GoGoModeToggle.Update | Assets/GoGoModeToggle.cs:44-52 | a press flips the mode and keeps the components in step, so two presses restore it; without a press or without a toggle action nothing changes |
| ModeToggle.GoGoModeToggle.SwitchToTraditionalGoGo | Assets/GoGoModeToggle.cs:73-77 | traditional mode, in step; the same state whatever came before, so it is idempotent |
| ModeToggle.GoGoModeToggle.SwitchToReverseGoGo | Assets/GoGoModeToggle.cs:82-86 | reverse mode, in step; idempotent |
| ModeToggle.GoGoModeToggle.GetCurrentModeName | Assets/GoGoModeToggle.cs:91-94 | "Traditional GoGo" iff traditional mode, "ReverseGoGo" iff not |
| Text.ContainsIffOccurs | Assets/BubbleTarget.cs:28-33 | the ordinal `Contains` holds exactly when the text occurs at some offset |
| Text.MissingFirstChar | Assets/BubbleTarget.cs:33 | a text lacking the first character of a pattern does not contain it |
| Text.ToLower | Assets/BubbleTarget.cs:33 | same length, each character lower-cased, no upper-case letter left |
| Text.ToLowerIdempotent | Assets/BubbleTarget.cs:33 | lower-casing twice is lower-casing once |
| Text.Split | Assets/DataLogger.cs:68 | one piece more than there are separators, and no piece holds a separator |
| Text.SplitJoin | Assets/DataLogger.cs:68 | splitting the join of separator-free pieces gives the pieces back |
| Text.SplitFirst | Assets/DataLogger.cs:68 | the first piece is the text before the first separator |
| Text.NatToString | Assets/DataLogger.cs:73 | a non-empty digit string |
| Text.DigitsValueOfNatToString | Assets/DataLogger.cs:70-73 | the value of a number's decimal spelling is the number |
| Text.LeadingZerosValue | Assets/DataLogger.cs:73 | leading zeros do not change a digit string's value |
| Text.TrimStart | Assets/DataLogger.cs:70 | a suffix of the text that starts with no white space, and everything removed before it is white space |
| Text.TrimEnd | Assets/DataLogger.cs:70 | a prefix of the text that ends with no white space, and everything removed after it is white space |
| Bubble.CorrectIffColourOccurs | Assets/BubbleTarget.cs:33 | a placement is correct iff the lower-cased colour occurs in the lower-cased name |
| Bubble.Eligible | Assets/BubbleTarget.cs:28 | an object counts when its name contains "Phantom" (ordinal, case-sensitive) or it is tagged "Grabbable"; `NameTestCaseSensitive` and `PhantomRedInRedZone` exhibit both tests |
| Bubble.IsCorrectPlacement | Assets/BubbleTarget.cs:33 | the lower-cased name contains the lower-cased colour; `CorrectIffColourOccurs` states it as an occurrence |
| Bubble.PhantomRedInRedZone | Assets/BubbleTarget.cs:28-33 | "PhantomRed" is eligible by name and correct in the "Red" zone |
| Bubble.PhantomRedInBlueZone | Assets/BubbleTarget.cs:33 | "PhantomRed" is incorrect in the "Blue" zone |
| Bubble.NameTestCaseSensitive | Assets/BubbleTarget.cs:28 | the "Phantom" test is case-sensitive: "phantomRed" is eligible only by the "Grabbable" tag |
| Bubble.BubbleTarget.constructor | Assets/BubbleTarget.cs:6-14 | the configured colour and materials, no occupant |
| Bubble.BubbleTarget.NormalLook | Assets/BubbleTarget.cs:63-69 | the normal material when renderer and material exist, else the material unchanged |
| Bubble.BubbleTarget.SuccessLook | Assets/BubbleTarget.cs:55-61 | the success material when renderer and material exist, else the material unchanged |
| Bubble.BubbleTarget.Start | Assets/BubbleTarget.cs:16-23 | the zone starts with its normal look |
| Bubble.BubbleTarget.OnTriggerEnter | Assets/BubbleTarget.cs:25-44 | an ineligible object changes nothing and raises nothing; an eligible one becomes the occupant and raises exactly one event (object, colour, correctness), and only a correct one shows success |
| Bubble.BubbleTarget.OnTriggerExit | Assets/BubbleTarget.cs:46-53 | the occupant's exit clears it and resets the look; any other exit changes nothing |
| Bubble.BubbleTarget.ShowSuccess | Assets/BubbleTarget.cs:55-61 | the success look, or nothing without renderer or material |
| Bubble.BubbleTarget.ResetVisual | Assets/BubbleTarget.cs:63-69 | the normal look, or nothing without renderer or material |
| Trial.TwoDigits | Assets/TrialData.cs:16 | a zero-padded field of digits that reads back as the number, two characters for values below 100 |
| Trial.FormatTimestamp | Assets/TrialData.cs:16 | the `yyyy-MM-dd HH:mm:ss` stamp holds no comma and is 19 characters for in-range fields; its layout is `FormatTimestampLayout` |
| Trial.FormatTimestampLayout | Assets/TrialData.cs:16 | for in-range fields the stamp is `yyyy-MM-dd HH:mm:ss`: separators at positions 4, 7, 10, 13 and 16, and each field's digits read back as the timestamp's field |
| Trial.NewTrialData | Assets/TrialData.cs:14-21 | every metric 0, the current time stamped, no ID |
| Trial.RoundHalfAway | Assets/TrialData.cs:26 | the nearest integer with the value's sign: within one half, and strictly above `y - 0.5` for a non-negative `y` (below `y + 0.5` for a non-positive one), so halves go away from zero |
| Trial.HalvesAwayFromZero | Assets/TrialData.cs:26 | an exact half rounds away from zero: `m + 0.5` to `m + 1` and `-(m + 0.5)` to `-(m + 1)` |
| Trial.FormatF2 | Assets/TrialData.cs:26 | the `F2` text holds no comma and has a point before exactly two digits |
| Trial.FormatF2Value | Assets/TrialData.cs:26 | the `F2` text reads back as the value rounded to hundredths (`ShowsHundredths`): a minus sign exactly for a negative rounding, the whole units, a point, and the two-digit remainder |
| Trial.ToCSV | Assets/TrialData.cs:24-27 | the first comma-separated field of the row is the participant ID |
| Trial.ToCSVSplitsIntoCells | Assets/TrialData.cs:24-27 | a row whose ID and time hold no comma splits back into exactly its six cells, in header order |
| Trial.GetCSVHeader | Assets/TrialData.cs:30-33 | the header splits into the six column names |
| Logging.Increment32 | Assets/DataLogger.cs:72 | the unchecked `int` increment stays in the 32-bit range: one more below the maximum, and the maximum wraps to the minimum (`x + 1 - 2^32`) |
| Logging.FormatD3 | Assets/DataLogger.cs:73 | at least three characters, no comma, digits only for a non-negative value, exactly three below 1000 |
| Logging.TryParseInt32 | Assets/DataLogger.cs:70 | a parsed value is within the 32-bit range; `ParseFormatD3` states what it accepts and `ParseRejectsForeignChar` what it rejects |
| Logging.ParseFormatD3 | Assets/DataLogger.cs:70-73 | parsing what `D3` prints gives the number back |
| Logging.NextParticipantID | Assets/DataLogger.cs:49-82 | at least three characters and no comma; "001" without a file or with only a header; the last row's case is stated by `NextIDOfParsedRow` and `NextIDOfUnparsableRow` |
| Logging.NextIDAfterLoggedRow | Assets/DataLogger.cs:67-74 | round trip: after appending a row whose ID is `k` in `D3` form, the next ID is `k + 1` in `D3` form |
| Logging.NextIDOfLoggedRow | Assets/DataLogger.cs:67-74 | after a row whose ID is `k` in `D3` form is appended, the next ID is `Increment32(k)` in `D3` form, wrap included |
| Logging.NextIDOfParsedRow | Assets/DataLogger.cs:67-74 | whenever the last row's first field parses as `n`, the next ID is `n + 1` (wrapping at 32 bits) in `D3` form |
| Logging.NextIDOfUnparsableRow | Assets/DataLogger.cs:70-81 | whenever the last row's first field does not parse, the next ID falls back to "001" |
| Logging.ParseRejectsForeignChar | Assets/DataLogger.cs:70 | a text holding a character that is neither white space, a sign nor a digit does not parse |
| Logging.NextIDAfterForeignID | Assets/DataLogger.cs:70-81 | "abc" does not parse, and a log whose last ID is "abc" restarts at "001" |
| Logging.NextIDWrapsAtMaximum | Assets/DataLogger.cs:70-73 | after ID 2147483647 the next ID is the most negative `int`, with a minus sign |
| Logging.DataLogger.constructor | Assets/DataLogger.cs:7-8 | no path chosen yet |
| Logging.DataLogger.InitializeSession | Assets/DataLogger.cs:10-33 | the header line is written only when the file is absent; existing content is untouched |
| Logging.DataLogger.LogParticipantData | Assets/DataLogger.cs:35-47 | exactly one row is appended after the earlier lines; on a write failure nothing changes and nothing escapes |
| Logging.DataLogger.GetNextParticipantID | Assets/DataLogger.cs:49-82 | "001" before a path is chosen, else `NextParticipantID` of the file |
| Study.SuccessRateBounds | Assets/UserStudyManager.cs:110 | the success rate, an integer ratio scaled to a percentage, lies in [0, 100] and equals 100 exactly when every attempt succeeded |
| Study.MetricsBounds | Assets/UserStudyManager.cs:110-137 | success rate in [0, 100] and 100 iff every attempt succeeded, non-negative error count, non-negative mean time, and accuracy in [0, 120], at most 100 when every object was picked up |
| Study.Metrics | Assets/UserStudyManager.cs:110-138 | the record of a finished study: the success rate as a percentage, the number of wrong placements as the error rate, the mean task time and the pulling accuracy; `MetricsBounds`, `AccuracyBounds` and `MetricsExample` state its properties |
| Study.AccuracyBounds | Assets/UserStudyManager.cs:126-138 | pulling accuracy is in [0, 120], and at most 100 when every count is at least 1 |
| Study.MetricsExample | Assets/UserStudyManager.cs:110-146 | times 2.0, 1.5, 3.0, 2.5 with one pick-up each and no wrong attempt give 100, 0, 2.25 and 100 |
| Study.UserStudyManager.constructor | Assets/UserStudyManager.cs:19-28 | nothing counted: no attempts, successes, times, counts, pick-ups, current object or last selection, and no ID or record yet |
| Study.UserStudyManager.Start | Assets/UserStudyManager.cs:30-49 | opens the log (a new one gets the header line and its first participant is "001"; an existing one is kept), takes the next participant ID and starts the first task's clock |
| Study.UserStudyManager.Update | Assets/UserStudyManager.cs:51-70 | a pick-up counts iff the held object differs from the last one; putting it down forgets the last one, so picking it up again counts again |
| Study.UserStudyManager.HandleObjectPlaced | Assets/UserStudyManager.cs:72-105 | every event is an attempt, so successes never exceed attempts; an incorrect one changes nothing else; a correct one appends one time and one count and moves to the next object, keeping the participant's ID and record; the fourth logs exactly one record of `Metrics` and resets |
| Study.UserStudyManager.FinishStudy | Assets/UserStudyManager.cs:107-160 | the accumulation loops compute `Metrics`; that one record is logged, then the study resets |
| Study.UserStudyManager.ComputeMetrics | Assets/UserStudyManager.cs:109-148 | the record `FinishStudy` builds equals `Metrics` of the study's counters, times and counts |
| Study.UserStudyManager.MeanTaskTime | Assets/UserStudyManager.cs:115-122 | the accumulation loop gives `AverageTaskTime`: the sum of the times over their number, 0 for none |
| Study.UserStudyManager.AccuracyOf | Assets/UserStudyManager.cs:126-138 | the accumulation loop gives `PullingAccuracy` of the counts |
| Study.UserStudyManager.ResetStudy | Assets/UserStudyManager.cs:162-184 | every counter zero, both lists empty, no last object, the next ID taken, the clock restarted and every zone back to its normal look |
| Study.UserStudyManager.ResetBubbles | Assets/UserStudyManager.cs:177-181 | every zone, even one listed twice, ends with its normal look |

## Left out

- Engine services: rendering, physics simulation, trigger detection, the raycast itself (its hit is a parameter), and `Camera.main` (the camera pose is a parameter).
- `controllerTransform` and `Camera.main` are assumed assigned. The source only logs an error for an unassigned `controllerTransform` and `Update` does not test it. `AttachHand` would then hold the object and lock the selector before throwing, and every later attach frame would throw before moving it; a missing main camera throws after the start positions are stored. These null-reference paths are not modelled.
- `DepthScaling.HandCalibrationDepthScale.constructor`: requires `thresholdDistance > 0`, which its `Valid` keeps. The source accepts any inspector value; zero or negative thresholds (a division by zero in the scaling factor) are not modelled.
- `ReverseGoGoGrabbing.ReverseGoGoGrab.constructor`: requires `minScaleDistance > 0`, which its `Valid` keeps. The source accepts any inspector value; a zero or negative floor is not modelled.
- `ReverseGoGo.ClampedRatio`: 0/0 is NaN in the source, and `Mathf.Clamp01` passes NaN through, so the pull target and a dynamic body's velocity become NaN. This happens when a pull starts with the object exactly at the controller, or with no retraction while the distance beyond the threshold is exactly 0. The model returns 0 there instead, and `SpeedFactor` then stays at least 0.1.
- Set-up code with no state to reason about:
  - the `Start` methods of `HandCalibrationDepthScale`, `TraditionalGoGoInteraction`, `RaycastObjectSelector` and `VirtualHandAttach`, which find transforms, add colliders, create the line renderer and enable input actions;
  - `OnDestroy`;
  - the subscription of `HandleObjectPlaced` to the zones' `OnObjectPlaced` event. The zone returns its `Placement`, and the caller passes it to `HandleObjectPlaced`.
- Presentation: debug logs, gizmos, `DrawDebugInfo`, the ray's line renderer, and the virtual hand's visual placement. That placement covers the hand offset from the renderer bounds, `LookAt`, `normalized` directions toward the camera, and parking at (1000, 1000, 1000).
- Orientation: rotations and `RigidbodyConstraints` other than freezing rotation.
- `GoGo.TraditionalGoGoInteraction.GetVirtualHandPosition`: modelled by the function `GoGo.VirtualHandPosition` rather than as a member.
- `Logging.DataLogger.GetDataFilePath`, and the folder creation in `InitializeSession`: paths are not modelled. The file is a list of lines, `None` when it does not exist.
- `Logging.NextParticipantID`: a failing `File.ReadAllLines` is not modelled. Lines are assumed to hold no line break.
- `ReverseGoGo.VirtualHandAttach.Update`: the exception raised when a grip pull starts without a depth scaler is modelled as ending that frame's update, after the pull has started.
- `ReverseGoGo.VirtualHandAttach.AttachHand`, `StartRemotePull`, `ReleaseHand`, `StopRemotePull`: they require a selector. Their only caller, `Update`, has already returned without one.
- `ReverseGoGoGrabbing.ReverseGoGoGrab.HandleObjectMovement`: requires a target object. Its caller, `Update`, has already returned without one.
- Numbers:
  - IEEE single-precision rounding is not modelled; values are exact reals.
  - `Mathf.Pow` with a real exponent is the host's function parameter, and `exponentialPower` is a natural number.
  - `Vector3.Distance` is a parameter.
  - `F2` rounds half away from zero in the model; .NET Core rounds the exact binary value instead.
- `Study.UserStudyManager.HandleObjectPlaced`: `totalAttempts` and the selection counts are unbounded integers. Only the participant ID's 32-bit wrap-around is modelled.
- `Study.AccuracyBounds`: with a selection count of 0, the accuracy can exceed 100, up to 120. Counts are 0 when an object is placed without being picked up through `VirtualHandAttach`.
- Text handling uses the invariant culture only:
  - `ToLower` folds ASCII letters only;
  - `int.TryParse` takes ASCII white space, an optional sign and decimal digits, and does not accept trailing NUL characters.
- The `enabled` flag: Unity does not call `Update` on a disabled component, so the models' `Update` methods do not test it.
- Changes made to inspector settings while the application runs.
- The scripts `HoverHighlight`, `VirtualHandVisualSetup`, `VirtualHandCollisionDetector` and `XRReverseGoGo`. The collision detector only forwards its enter and exit events to `OnVirtualHandTouchObject` and `OnVirtualHandLeaveObject`, which are modelled.
