# MasterCamera camera-service state machine

This project models the small state machine inside MasterCamera's `CameraService`. It covers:

- the flash mode's three-state cycle (`toggleFlash`);
- the front/back facing flip (`switchCamera`);
- zoom clamping to `[1, min(deviceMax, 10)]` (`zoom`, `getMaxZoom`);
- the fixed rotation that flags a compensating exposure parameter (`updateExposure`);
- the resets of the manual-exposure fields (`resetToAuto`, `setupManualControls`);
- the choice of form for the shutter-speed label (`shutterSpeedText`).

Everything is in `camera_service.dfy`, module `MasterCamera`, and is written at two levels:

- **Values.** `State` holds every published field together with the device behind the current input. Each operation has one specification function, `After<Operation>(state, …)`. The lemmas are about these functions. `Call`, `Step` and `Run` describe any sequence of calls starting from the declared initial values.
- **Object.** The class `CameraService` has the same fields. Its methods assign them the way the Swift code does, and each one promises `Snapshot() == After<Operation>(old(Snapshot()), …)` and the class invariant `Valid()`. The exception is `CalculateEV`, a helper the other methods call: it promises only that `currentEV` becomes `ev` of the current aperture, shutter and ISO and that nothing else changes.

How the environment is modelled:

- **Device.** The optional `Device` record stands for `deviceInput?.device`. It carries `hasFlash`, `videoMaxZoomFactor`, `supportsCustomExposure`, the ISO bounds, the exposure-duration bounds in seconds, and `lockSucceeds`, which says whether `lockForConfiguration` succeeds on it.
- **Main-queue updates.** The updates the source sends to the main queue (`zoom`, `resetToAuto`) take effect at once.
- **EV formula.** Dafny has no `log2` on reals, so the EV formula is a parameter: the class constant `ev(aperture, shutter, iso)`. The model only states when `currentEV` is recomputed and from which three fields.
- **Camera switch.** `switchCamera`'s lookups become a parameter `found: Option<Device>`. It is `Some(d)` when a device exists for the new position, an input can be made from it, and the session accepts it. Otherwise it is `None`. In that case the source keeps the old input in `deviceInput` even though it has been removed from the session, and the model does the same.
- **Camera setup.** `setupCamera`'s success path (store the input, then call `setupManualControls`) becomes `AttachInput`.

Notes on the code, which the model follows:

- The shutter label's denominator is `Int(1.0 / t)`, which truncates rather than rounds. For example, 0.0015 s shows as 1/666, not 1/667.
- `updateExposure` changes the suggestion only when an input exists, the lock succeeds and the device supports custom exposure. It recomputes EV whenever an input exists, even if the lock then fails.
- `resetToAuto` resets nothing when there is no input or the lock fails.
- `setupManualControls` leaves `suggestedParameter` as it was.

## Model

| member | source | states |
|---|---|---|
| MasterCamera.Initial | MasterCamera/CameraService.swift:16-30 | the declared initial values satisfy the invariant (zoom in [1, 10], maximum shutter ≤ 1 s), with no input and no suggestion |
| MasterCamera.NextFlashMode | MasterCamera/CameraService.swift:200-211 | one press never leaves the flash mode where it was |
| MasterCamera.FlashCycleHasPeriodThree | MasterCamera/CameraService.swift:200-211 | three presses restore the mode, and two never do: the cycle has period exactly three |
| MasterCamera.FlashPressesModThree | MasterCamera/CameraService.swift:200-211 | after n presses the mode depends only on n mod 3 |
| MasterCamera.AfterToggleFlash | MasterCamera/CameraService.swift:200-211 | toggleFlash advances the flash mode one step in the cycle and changes no other field |
| MasterCamera.ToggleFlashThriceRestores | MasterCamera/CameraService.swift:200-211 | three toggleFlash calls give back exactly the original state |
| MasterCamera.RunFlashMode | MasterCamera/CameraService.swift:200-211 | n consecutive toggleFlash calls change only the flash mode, and a multiple of three restores the state |
| MasterCamera.CameraService.ToggleFlash | MasterCamera/CameraService.swift:200-211 | the object's new state is AfterToggleFlash of its old state, and the invariant holds |
| MasterCamera.AfterSwitchCamera | MasterCamera/CameraService.swift:171-198 | switchCamera flips the facing in every case, replaces the input only when a new one was added, and changes nothing else |
| MasterCamera.SwitchCameraTwiceRestoresFacing | MasterCamera/CameraService.swift:178-185 | two switchCamera calls restore the facing, whether or not either found a device |
| MasterCamera.CameraService.SwitchCamera | MasterCamera/CameraService.swift:171-198 | the object's new state is AfterSwitchCamera of its old state |
| MasterCamera.ZoomLimit | MasterCamera/CameraService.swift:246 | the zoom limit is at most 10 and at most the device maximum, and equals one of them |
| MasterCamera.ClampZoom | MasterCamera/CameraService.swift:246-247 | the applied zoom lies in [1, 10] and within the limit unless it is 1; an in-range factor is kept; a factor below 1 gives 1; a factor above the limit gives max(1, limit) |
| MasterCamera.ClampZoomIdempotent | MasterCamera/CameraService.swift:246-247 | clamping an already clamped factor changes nothing |
| MasterCamera.ClampZoomMonotone | MasterCamera/CameraService.swift:246-247 | a larger requested factor never gives a smaller zoom |
| MasterCamera.MaxZoomOf | MasterCamera/CameraService.swift:261-264 | getMaxZoom is 1 with no input, and otherwise min(device maximum, 10): at most both, and equal to one of them |
| MasterCamera.AfterZoom | MasterCamera/CameraService.swift:240-259 | zoom changes only zoomFactor, does nothing with no input or a failed lock, otherwise sets zoomFactor to ClampZoom(factor, device maximum), and keeps the invariant |
| MasterCamera.ZoomWithinMaxZoom | MasterCamera/CameraService.swift:246-264 | after a successful zoom the factor is at most getMaxZoom when that is at least 1, and exactly 1 otherwise |
| MasterCamera.ZoomKeepsInRangeFactor | MasterCamera/CameraService.swift:246-254 | a factor already in [1, getMaxZoom] is applied unchanged |
| MasterCamera.CameraService.Zoom | MasterCamera/CameraService.swift:240-259 | the object's new state is AfterZoom of its old state |
| MasterCamera.Suggest | MasterCamera/CameraService.swift:283-298 | the suggested parameter is never the one that was changed |
| MasterCamera.SuggestIsThreeCycle | MasterCamera/CameraService.swift:283-298 | the rotation iso→shutter→aperture→iso is a three-cycle, so it is injective in both directions |
| MasterCamera.AfterUpdateExposure | MasterCamera/CameraService.swift:268-310 | only currentEV and suggestedParameter change; with no input nothing changes; with an input EV is recomputed from aperture, shutter and ISO; with a successful lock and custom exposure the suggestion is the rotation of the changed parameter, never that parameter itself; otherwise the suggestion stays |
| MasterCamera.UpdateExposureKeepsSettings | MasterCamera/CameraService.swift:268-310 | updateExposure never changes ISO, shutter time or aperture |
| MasterCamera.CameraService.CalculateEV | MasterCamera/CameraService.swift:312-318 | currentEV becomes the EV formula of the current aperture, shutter and ISO, and nothing else changes |
| MasterCamera.CameraService.UpdateExposure | MasterCamera/CameraService.swift:268-310 | the object's new state is AfterUpdateExposure of its old state |
| MasterCamera.AfterResetToAuto | MasterCamera/CameraService.swift:320-343 | with an input and a successful lock: ISO 100, 1/100 s, f/1.8, no suggestion, EV of those values; otherwise nothing changes; no other field ever changes |
| MasterCamera.ResetToAutoIdempotent | MasterCamera/CameraService.swift:333-338 | resetting twice is the same as resetting once |
| MasterCamera.ResetToAutoIgnoresPriorExposure | MasterCamera/CameraService.swift:333-338 | the result of a reset does not depend on the exposure fields before it |
| MasterCamera.CameraService.ResetToAuto | MasterCamera/CameraService.swift:320-343 | the object's new state is AfterResetToAuto of its old state |
| MasterCamera.CapShutter | MasterCamera/CameraService.swift:357 | the stored maximum shutter time is at most 1 s and at most the device's; it is the device's when that is at most 1 s |
| MasterCamera.AfterSetupManualControls | MasterCamera/CameraService.swift:345-364 | with an input: ISO bounds copied, shutter bounds from the device with the maximum capped, ISO 100, 1/100 s, f/1.8, EV recomputed; with none nothing changes; suggestion, flash, facing, zoom and input untouched |
| MasterCamera.SetupManualControlsIdempotent | MasterCamera/CameraService.swift:345-364 | running setupManualControls twice is the same as once |
| MasterCamera.CameraService.SetupManualControls | MasterCamera/CameraService.swift:345-364 | the object's new state is AfterSetupManualControls of its old state |
| MasterCamera.AfterAttachInput | MasterCamera/CameraService.swift:120-141 | after setupCamera succeeds the input is the new device, the ISO and shutter bounds come from it (maximum shutter capped at 1 s), ISO, shutter and aperture are reset to 100, 0.01 s and f/1.8 with EV recomputed, and flash, facing, zoom and suggestion are untouched; the invariant is kept |
| MasterCamera.CameraService.AttachInput | MasterCamera/CameraService.swift:120-141 | the object's new state is AfterAttachInput of its old state |
| MasterCamera.CameraService.constructor | MasterCamera/CameraService.swift:13-30 | a new service holds the declared initial values and satisfies the invariant; when camera access is already granted, `init()` runs `setupCamera()` at once (lines 79-88), and when `setupCamera` succeeds that service corresponds to the constructor followed by `AttachInput`; when no device or input is available (lines 109-115, 118-127, 143-146) it is the constructor alone, and when the output cannot be added (lines 129-136) `deviceInput` is set but `setupManualControls` never runs |
| MasterCamera.CameraService.HasFlash | MasterCamera/CameraService.swift:213-216 | false without an input, otherwise the device's own `hasFlash`; by `RunKeepsDevice` its value changes only through a successful camera switch or a camera setup |
| MasterCamera.HasFlashOf | MasterCamera/CameraService.swift:213-216 | hasFlash() on the device behind the input: true only with an input, and then the device's own flag |
| MasterCamera.RunKeepsDevice | MasterCamera/CameraService.swift:213-216 | over any sequence of calls with no successful camera switch and no camera setup, the device behind the input stays the same, so hasFlash() (lines 213-216) and getMaxZoom() (lines 261-264) keep reporting the same values |
| MasterCamera.CameraService.GetMaxZoom | MasterCamera/CameraService.swift:261-264 | 1 without an input, otherwise min(device maximum, 10); never above 10 |
| MasterCamera.CameraService.ShutterSpeedText | MasterCamera/CameraService.swift:36-42 | the seconds form exactly when the current shutter time is ≥ 1 s; for 0 < t < 1 the truncated denominator N ≥ 1 with N·t ≤ 1 < (N+1)·t; t = 0 traps |
| MasterCamera.StepKeepsInvariant | MasterCamera/CameraService.swift:246-357 | every single operation keeps zoom in [1, 10] and the maximum shutter time at most 1 s |
| MasterCamera.RunKeepsInvariant | MasterCamera/CameraService.swift:246-357 | any sequence of operations keeps that invariant |
| MasterCamera.ReachableStatesKeepInvariant | MasterCamera/CameraService.swift:18-30 | every state reachable from the declared initial values has zoom in [1, 10] and maximum shutter ≤ 1 s |
| MasterCamera.Truncate | MasterCamera/CameraService.swift:40 | `Int(x)` truncates toward zero: the result has x's sign and differs from x by less than one |
| MasterCamera.ShutterSpeedLabel | MasterCamera/CameraService.swift:36-42 | the seconds form is chosen exactly when t ≥ 1 s; for 0 < t < 1 the denominator N ≥ 1 satisfies N·t ≤ 1 < (N+1)·t; t = 0 traps |
| MasterCamera.ShutterSpeedLabelExamples | MasterCamera/CameraService.swift:36-42 | 1 s gives the seconds form, 0.01 s gives 1/100, 0.0005 s gives 1/2000, and 0.0015 s gives 1/666 (truncated, not rounded) |

## Left out

- `Run` and `ReachableStatesKeepInvariant`: the calls cover the service's own operations only. The sliders also write `currentISO`, `currentShutterSpeed` and `currentAperture` directly (ManualControlsView.swift:58, 85, 112), and in the source each `lockForConfiguration` call can fail on its own, while here the lock outcome is fixed per device. Neither touches the invariant (zoom and maximum shutter time), so it still holds of every state the app can reach.
- EV formula: `calculateEV` uses `log2` on floating-point values. Here it is the parameter `ev`, and only the moments at which `currentEV` is recomputed, and from which fields, are modelled.
- Floating point: ISO is a `Float`, times are `Double`s and zoom is a `CGFloat` in the source. The model uses exact reals, so it has no rounding, NaN or infinities. A shutter time that is not finite is not modelled.
- ShutterSpeedLabel: the `%.1f` text formatting is not modelled; the seconds form carries the raw time. Swift's trap when `1.0 / t` exceeds the `Int` range is not modelled either, because integers are unbounded here.
- Device-side configuration: the writes into the device (`videoZoomFactor`, `setExposureModeCustom`, `exposureMode = .continuousAutoExposure`, unlocking) are not modelled. They are calls into AVFoundation and do not touch the service's fields.
- `@unknown default` in `toggleFlash`: the model's flash mode has only the three known cases, so that branch cannot arise.
- Permission handling, session configuration, the error paths of `setupCamera`, photo capture and its delegate, `focus`, and the preview layer: these are calls into AVFoundation. Only `setupCamera`'s success path is kept, as `AttachInput`.
- `start`/`stop`: background dispatch around the session, which is concurrency glue.
- The views (CameraView.swift, ManualControlsView.swift), CameraPreview.swift and MasterCameraApp.swift are SwiftUI/UIKit layout and app wiring, so they are not part of this model.
