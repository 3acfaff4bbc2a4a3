/** A model of the state machine inside MasterCamera's camera service: flash mode,
    camera facing, zoom clamping, the manual-exposure suggestion rotation and the
    resets of the manual-exposure fields.

    The published fields are modelled twice, on purpose:
    - as the value `State`, with one specification function `After...` per
      operation and the lemmas about those functions;
    - as the class `CameraService`, whose methods assign to its fields the way
      the source does and promise that the new state is the specification
      function applied to the old one.
    Quantities are `real`: the logic only compares and clamps them. */
module MasterCamera {

  datatype Option<T> = None | Some(value: T)

  /** AVCaptureDevice.FlashMode, restricted to the three cases the service uses. */
  datatype FlashMode = Off | On | Auto

  /** CameraService.ExposureParameter. */
  datatype ExposureParameter = Iso | Shutter | Aperture

  /** What the service reads of a capture device. `lockSucceeds` says whether
      `lockForConfiguration` succeeds on it; exposure durations are in seconds. */
  datatype Device = Device(
    hasFlash: bool,
    videoMaxZoomFactor: real,
    supportsCustomExposure: bool,
    minISO: real,
    maxISO: real,
    minExposureDuration: real,
    maxExposureDuration: real,
    lockSucceeds: bool)

  const ZoomCap: real := 10.0
  const ShutterCap: real := 1.0
  const DefaultISO: real := 100.0
  const DefaultShutterSpeed: real := 0.01
  const DefaultAperture: real := 1.8

  /** The published fields of the service, together with the device behind its
      current input (`deviceInput?.device`). */
  datatype State = State(
    flashMode: FlashMode,
    isFrontCamera: bool,
    zoomFactor: real,
    currentISO: real,
    currentShutterSpeed: real,
    currentAperture: real,
    currentEV: real,
    suggestedParameter: Option<ExposureParameter>,
    minISO: real,
    maxISO: real,
    minShutterSpeed: real,
    maxShutterSpeed: real,
    device: Option<Device>)

  function Min(a: real, b: real): (r: real) { if b < a then b else a }
  function Max(a: real, b: real): (r: real) { if a < b then b else a }

  /** The field values as declared, before any camera input is attached. */
  function Initial(): (s: State)
    ensures Invariant(s) && s.device.None? && s.suggestedParameter.None?
  {
    State(Off, false, 1.0, DefaultISO, DefaultShutterSpeed, DefaultAperture, 0.0, None,
          50.0, 3200.0, 0.0001, ShutterCap, None)
  }

  /** What every operation keeps: the zoom factor lies in [1, 10] and the
      longest selectable shutter time is at most one second. */
  predicate Invariant(s: State) {
    1.0 <= s.zoomFactor <= ZoomCap && s.maxShutterSpeed <= ShutterCap
  }

  // ---------------------------------------------------------------- flash

  /** The flash button's cycle off -> on -> auto -> off. */
  function NextFlashMode(m: FlashMode): (r: FlashMode)
    ensures r != m
  {
    match m
    case Off => On
    case On => Auto
    case Auto => Off
  }

  /** The flash mode after `n` presses of the flash button. */
  function FlashAfterPresses(m: FlashMode, n: nat): (r: FlashMode)
  {
    if n == 0 then m else NextFlashMode(FlashAfterPresses(m, n - 1))
  }

  /** The cycle has period exactly three. */
  lemma FlashCycleHasPeriodThree(m: FlashMode)
    ensures NextFlashMode(NextFlashMode(NextFlashMode(m))) == m
    ensures NextFlashMode(NextFlashMode(m)) != m
  {
  }

  /** Only the number of presses modulo three matters. */
  lemma {:induction false} FlashPressesModThree(m: FlashMode, n: nat)
    ensures FlashAfterPresses(m, n) == FlashAfterPresses(m, n % 3)
  {
    if n >= 3 {
      FlashPressesModThree(m, n - 3);
      var before := FlashAfterPresses(m, n - 3);
      FlashCycleHasPeriodThree(before);
      assert FlashAfterPresses(m, n - 2) == NextFlashMode(before);
      assert FlashAfterPresses(m, n - 1) == NextFlashMode(NextFlashMode(before));
      assert FlashAfterPresses(m, n) == before;
      assert (n - 3) % 3 == n % 3;
    }
  }

  /** toggleFlash: the flash mode advances one step and nothing else changes. */
  function AfterToggleFlash(s: State): (r: State)
    ensures r.flashMode == NextFlashMode(s.flashMode)
    ensures r.(flashMode := s.flashMode) == s
  {
    s.(flashMode := NextFlashMode(s.flashMode))
  }

  lemma ToggleFlashThriceRestores(s: State)
    ensures AfterToggleFlash(AfterToggleFlash(AfterToggleFlash(s))) == s
  {
    FlashCycleHasPeriodThree(s.flashMode);
  }

  // --------------------------------------------------------------- facing

  /** switchCamera. `found` is the input for the new position when a device
      exists for it, an input can be created from it and the session accepts
      it; otherwise it is None and the old, already removed input stays in
      place. The facing flips in every case. */
  function AfterSwitchCamera(s: State, found: Option<Device>): (r: State)
    ensures r.isFrontCamera == !s.isFrontCamera
    ensures r.device == (if found.Some? then found else s.device)
    ensures r.(isFrontCamera := s.isFrontCamera, device := s.device) == s
  {
    s.(isFrontCamera := !s.isFrontCamera, device := if found.Some? then found else s.device)
  }

  lemma SwitchCameraTwiceRestoresFacing(s: State, first: Option<Device>, second: Option<Device>)
    ensures AfterSwitchCamera(AfterSwitchCamera(s, first), second).isFrontCamera == s.isFrontCamera
  {
  }

  // ----------------------------------------------------------------- zoom

  /** The largest usable zoom: the device's own maximum, capped at ten. */
  function ZoomLimit(deviceMax: real): (r: real)
    ensures r <= ZoomCap && r <= deviceMax
    ensures r == deviceMax || r == ZoomCap
  {
    Min(deviceMax, ZoomCap)
  }

  /** The zoom factor `zoom(factor:)` applies. */
  function ClampZoom(factor: real, deviceMax: real): (r: real)
    ensures 1.0 <= r <= ZoomCap
    ensures r <= ZoomLimit(deviceMax) || r == 1.0
    ensures 1.0 <= factor <= ZoomLimit(deviceMax) ==> r == factor
    ensures factor < 1.0 ==> r == 1.0
    ensures factor > ZoomLimit(deviceMax) ==> r == Max(1.0, ZoomLimit(deviceMax))
  {
    Max(1.0, Min(factor, ZoomLimit(deviceMax)))
  }

  lemma ClampZoomIdempotent(factor: real, deviceMax: real)
    ensures ClampZoom(ClampZoom(factor, deviceMax), deviceMax) == ClampZoom(factor, deviceMax)
  {
  }

  /** A larger requested factor never gives a smaller zoom. */
  lemma ClampZoomMonotone(f1: real, f2: real, deviceMax: real)
    requires f1 <= f2
    ensures ClampZoom(f1, deviceMax) <= ClampZoom(f2, deviceMax)
  {
  }

  /** getMaxZoom. */
  function MaxZoomOf(device: Option<Device>): (r: real)
    ensures r <= ZoomCap
    ensures device.None? ==> r == 1.0
    ensures device.Some? ==> r <= device.value.videoMaxZoomFactor
    ensures device.Some? ==> r == device.value.videoMaxZoomFactor || r == ZoomCap
  {
    match device
    case None => 1.0
    case Some(d) => ZoomLimit(d.videoMaxZoomFactor)
  }

  /** hasFlash(): false without an input, otherwise what the device reports. */
  function HasFlashOf(device: Option<Device>): (r: bool)
    ensures r ==> device.Some?
    ensures device.Some? ==> r == device.value.hasFlash
  {
    match device
    case None => false
    case Some(d) => d.hasFlash
  }

  /** zoom(factor:): nothing happens without an input or when the lock fails. */
  function AfterZoom(s: State, factor: real): (r: State)
    ensures Invariant(s) ==> Invariant(r)
    ensures r.(zoomFactor := s.zoomFactor) == s
    ensures s.device.None? || !s.device.value.lockSucceeds ==> r == s
    ensures s.device.Some? && s.device.value.lockSucceeds
            ==> r.zoomFactor == ClampZoom(factor, s.device.value.videoMaxZoomFactor)
  {
    match s.device
    case None => s
    case Some(d) =>
      if d.lockSucceeds then s.(zoomFactor := ClampZoom(factor, d.videoMaxZoomFactor)) else s
  }

  /** A successful zoom stays within what getMaxZoom reports, as long as the
      device reports a maximum of at least one (otherwise the zoom is 1). */
  lemma ZoomWithinMaxZoom(s: State, factor: real)
    requires s.device.Some? && s.device.value.lockSucceeds
    ensures MaxZoomOf(s.device) >= 1.0 ==> AfterZoom(s, factor).zoomFactor <= MaxZoomOf(s.device)
    ensures MaxZoomOf(s.device) < 1.0 ==> AfterZoom(s, factor).zoomFactor == 1.0
  {
  }

  /** A factor already in range is applied unchanged. */
  lemma ZoomKeepsInRangeFactor(s: State, factor: real)
    requires s.device.Some? && s.device.value.lockSucceeds
    requires 1.0 <= factor <= MaxZoomOf(s.device)
    ensures AfterZoom(s, factor).zoomFactor == factor
  {
  }

  // ------------------------------------------------------------- exposure

  /** The fixed rotation of updateExposure: the parameter flagged for
      compensation after `changed` was edited. */
  function Suggest(changed: ExposureParameter): (r: ExposureParameter)
    ensures r != changed
  {
    match changed
    case Iso => Shutter
    case Shutter => Aperture
    case Aperture => Iso
  }

  /** The rotation is a three-cycle, hence a bijection on the three parameters. */
  lemma SuggestIsThreeCycle(p: ExposureParameter, q: ExposureParameter)
    ensures Suggest(Suggest(Suggest(p))) == p
    ensures Suggest(Suggest(p)) != p
    ensures Suggest(p) == Suggest(q) <==> p == q
  {
  }

  /** calculateEV applied to a state: `ev(aperture, shutter, iso)`. */
  function EvOf(s: State, ev: (real, real, real) -> real): (r: real)
  {
    ev(s.currentAperture, s.currentShutterSpeed, s.currentISO)
  }

  /** updateExposure(changedParameter:). With an input, EV is recomputed first
      (even if the lock then fails); the suggestion is set only when the lock
      succeeds and the device supports custom exposure. */
  function AfterUpdateExposure(s: State, changed: ExposureParameter, ev: (real, real, real) -> real): (r: State)
    ensures r.(currentEV := s.currentEV, suggestedParameter := s.suggestedParameter) == s
    ensures s.device.None? ==> r == s
    ensures s.device.Some? ==> r.currentEV == EvOf(s, ev)
    ensures s.device.Some? && s.device.value.lockSucceeds && s.device.value.supportsCustomExposure
            ==> r.suggestedParameter == Some(Suggest(changed)) && r.suggestedParameter != Some(changed)
    ensures s.device.Some? && !(s.device.value.lockSucceeds && s.device.value.supportsCustomExposure)
            ==> r.suggestedParameter == s.suggestedParameter
  {
    match s.device
    case None => s
    case Some(d) =>
      var t := s.(currentEV := EvOf(s, ev));
      if d.lockSucceeds && d.supportsCustomExposure then t.(suggestedParameter := Some(Suggest(changed))) else t
  }

  /** The manual-exposure settings are never touched by updateExposure. */
  lemma UpdateExposureKeepsSettings(s: State, changed: ExposureParameter, ev: (real, real, real) -> real)
    ensures var r := AfterUpdateExposure(s, changed, ev);
      r.currentISO == s.currentISO && r.currentShutterSpeed == s.currentShutterSpeed
      && r.currentAperture == s.currentAperture
  {
  }

  /** resetToAuto: with an input and a successful lock, the defaults ISO 100,
      1/100 s and f/1.8, no suggestion, and EV recomputed from the defaults. */
  function AfterResetToAuto(s: State, ev: (real, real, real) -> real): (r: State)
    ensures s.device.None? || !s.device.value.lockSucceeds ==> r == s
    ensures s.device.Some? && s.device.value.lockSucceeds ==>
      r.currentISO == DefaultISO && r.currentShutterSpeed == DefaultShutterSpeed
      && r.currentAperture == DefaultAperture && r.suggestedParameter.None? && r.currentEV == EvOf(r, ev)
    ensures r.(currentISO := s.currentISO, currentShutterSpeed := s.currentShutterSpeed,
               currentAperture := s.currentAperture, currentEV := s.currentEV,
               suggestedParameter := s.suggestedParameter) == s
  {
    match s.device
    case None => s
    case Some(d) =>
      if !d.lockSucceeds then s
      else s.(currentISO := DefaultISO, currentShutterSpeed := DefaultShutterSpeed,
              currentAperture := DefaultAperture, suggestedParameter := None,
              currentEV := ev(DefaultAperture, DefaultShutterSpeed, DefaultISO))
  }

  lemma ResetToAutoIdempotent(s: State, ev: (real, real, real) -> real)
    ensures AfterResetToAuto(AfterResetToAuto(s, ev), ev) == AfterResetToAuto(s, ev)
  {
  }

  /** The result of a reset does not depend on the exposure state before it. */
  lemma ResetToAutoIgnoresPriorExposure(s: State, t: State, ev: (real, real, real) -> real)
    requires s.device.Some? && s.device.value.lockSucceeds
    requires t == s.(currentISO := t.currentISO, currentShutterSpeed := t.currentShutterSpeed,
                     currentAperture := t.currentAperture, currentEV := t.currentEV,
                     suggestedParameter := t.suggestedParameter)
    ensures AfterResetToAuto(s, ev) == AfterResetToAuto(t, ev)
  {
  }

  /** The maximum shutter time setupManualControls stores. */
  function CapShutter(deviceMaxSeconds: real): (r: real)
    ensures r <= ShutterCap && r <= deviceMaxSeconds
    ensures deviceMaxSeconds <= ShutterCap ==> r == deviceMaxSeconds
    ensures deviceMaxSeconds > ShutterCap ==> r == ShutterCap
  {
    Min(deviceMaxSeconds, ShutterCap)
  }

  /** setupManualControls: copy the device's bounds (maximum shutter capped at
      one second) and reset the settings; the suggestion is left alone. */
  function AfterSetupManualControls(s: State, ev: (real, real, real) -> real): (r: State)
    ensures Invariant(s) ==> Invariant(r)
    ensures s.device.None? ==> r == s
    ensures s.device.Some? ==>
      r.minISO == s.device.value.minISO && r.maxISO == s.device.value.maxISO
      && r.minShutterSpeed == s.device.value.minExposureDuration
      && r.maxShutterSpeed == CapShutter(s.device.value.maxExposureDuration)
      && r.currentISO == DefaultISO && r.currentShutterSpeed == DefaultShutterSpeed
      && r.currentAperture == DefaultAperture && r.currentEV == EvOf(r, ev)
    ensures r.suggestedParameter == s.suggestedParameter && r.flashMode == s.flashMode
      && r.isFrontCamera == s.isFrontCamera && r.zoomFactor == s.zoomFactor && r.device == s.device
  {
    match s.device
    case None => s
    case Some(d) =>
      s.(minISO := d.minISO, maxISO := d.maxISO,
         minShutterSpeed := d.minExposureDuration,
         maxShutterSpeed := CapShutter(d.maxExposureDuration),
         currentISO := DefaultISO, currentShutterSpeed := DefaultShutterSpeed,
         currentAperture := DefaultAperture,
         currentEV := ev(DefaultAperture, DefaultShutterSpeed, DefaultISO))
  }

  lemma SetupManualControlsIdempotent(s: State, ev: (real, real, real) -> real)
    ensures AfterSetupManualControls(AfterSetupManualControls(s, ev), ev) == AfterSetupManualControls(s, ev)
  {
  }

  /** The success path of setupCamera: the new input is stored, then the
      manual controls are set up from its device. */
  function AfterAttachInput(s: State, d: Device, ev: (real, real, real) -> real): (r: State)
    ensures Invariant(s) ==> Invariant(r)
    ensures r.device == Some(d)
    ensures r.minISO == d.minISO && r.maxISO == d.maxISO
      && r.minShutterSpeed == d.minExposureDuration
      && r.maxShutterSpeed == CapShutter(d.maxExposureDuration)
    ensures r.currentISO == DefaultISO && r.currentShutterSpeed == DefaultShutterSpeed
      && r.currentAperture == DefaultAperture && r.currentEV == EvOf(r, ev)
    ensures r.suggestedParameter == s.suggestedParameter && r.flashMode == s.flashMode
      && r.isFrontCamera == s.isFrontCamera && r.zoomFactor == s.zoomFactor
  {
    AfterSetupManualControls(s.(device := Some(d)), ev)
  }

  // --------------------------------------------------- sequences of calls

  /** One call into the service. */
  datatype Call =
    | ToggleFlash
    | SwitchCamera(found: Option<Device>)
    | Zoom(factor: real)
    | UpdateExposure(changed: ExposureParameter)
    | ResetToAuto
    | SetupManualControls
    | AttachInput(input: Device)

  function Step(s: State, c: Call, ev: (real, real, real) -> real): (r: State)
  {
    match c
    case ToggleFlash => AfterToggleFlash(s)
    case SwitchCamera(found) => AfterSwitchCamera(s, found)
    case Zoom(factor) => AfterZoom(s, factor)
    case UpdateExposure(changed) => AfterUpdateExposure(s, changed, ev)
    case ResetToAuto => AfterResetToAuto(s, ev)
    case SetupManualControls => AfterSetupManualControls(s, ev)
    case AttachInput(d) => AfterAttachInput(s, d, ev)
  }

  function Run(s: State, calls: seq<Call>, ev: (real, real, real) -> real): (r: State)
    decreases |calls|
  {
    if calls == [] then s else Run(Step(s, calls[0], ev), calls[1..], ev)
  }

  lemma StepKeepsInvariant(s: State, c: Call, ev: (real, real, real) -> real)
    requires Invariant(s)
    ensures Invariant(Step(s, c, ev))
  {
  }

  /** Whatever the calls, the zoom factor stays in [1, 10] and the maximum
      shutter time at most one second. */
  lemma {:induction false} RunKeepsInvariant(s: State, calls: seq<Call>, ev: (real, real, real) -> real)
    requires Invariant(s)
    ensures Invariant(Run(s, calls, ev))
    decreases |calls|
  {
    if calls != [] {
      StepKeepsInvariant(s, calls[0], ev);
      RunKeepsInvariant(Step(s, calls[0], ev), calls[1..], ev);
    }
  }

  /** A call that stores a new input: a switch that found one, or a setup. */
  predicate ReplacesInput(c: Call) {
    (c.SwitchCamera? && c.found.Some?) || c.AttachInput?
  }

  /** Without a call that stores a new input, the device behind the input stays
      the same, so hasFlash() and getMaxZoom() report the same values. */
  lemma {:induction false} RunKeepsDevice(s: State, calls: seq<Call>, ev: (real, real, real) -> real)
    requires forall i :: 0 <= i < |calls| ==> !ReplacesInput(calls[i])
    ensures Run(s, calls, ev).device == s.device
    ensures MaxZoomOf(Run(s, calls, ev).device) == MaxZoomOf(s.device)
    ensures HasFlashOf(Run(s, calls, ev).device) == HasFlashOf(s.device)
    decreases |calls|
  {
    if calls != [] {
      assert !ReplacesInput(calls[0]);
      assert Step(s, calls[0], ev).device == s.device;
      RunKeepsDevice(Step(s, calls[0], ev), calls[1..], ev);
    }
  }

  /** Every state the service can reach from its declared initial values. */
  lemma ReachableStatesKeepInvariant(calls: seq<Call>, ev: (real, real, real) -> real)
    ensures var r := Run(Initial(), calls, ev); 1.0 <= r.zoomFactor <= ZoomCap && r.maxShutterSpeed <= ShutterCap
  {
    RunKeepsInvariant(Initial(), calls, ev);
  }

  /** n consecutive flash presses change only the flash mode, and a multiple
      of three presses restores the whole state. */
  lemma {:induction false} RunFlashMode(s: State, n: nat, ev: (real, real, real) -> real)
    ensures Run(s, seq(n, _ => ToggleFlash), ev) == s.(flashMode := FlashAfterPresses(s.flashMode, n))
    ensures n % 3 == 0 ==> Run(s, seq(n, _ => ToggleFlash), ev) == s
  {
    var presses := seq(n, _ => ToggleFlash);
    if n > 0 {
      var rest := seq(n - 1, _ => ToggleFlash);
      assert presses == rest + [ToggleFlash];
      RunAppend(s, rest, [ToggleFlash], ev);
      RunFlashMode(s, n - 1, ev);
    }
    FlashPressesModThree(s.flashMode, n);
  }

  lemma {:induction false} RunAppend(s: State, a: seq<Call>, b: seq<Call>, ev: (real, real, real) -> real)
    ensures Run(s, a + b, ev) == Run(Run(s, a, ev), b, ev)
    decreases |a|
  {
    if a != [] {
      assert (a + b)[0] == a[0];
      assert (a + b)[1..] == a[1..] + b;
      RunAppend(Step(s, a[0], ev), a[1..], b, ev);
    } else {
      assert a + b == b;
    }
  }

  // -------------------------------------------------------- shutter label

  /** What shutterSpeedText shows, short of the text formatting: the seconds
      form for one second or more, otherwise "1/N" with N the reciprocal
      truncated toward zero. A zero time makes `Int(1.0 / 0)` trap. */
  datatype ShutterLabel = Seconds(seconds: real) | Reciprocal(denominator: int) | Trap

  /** Swift's `Int(x)` for a finite `x`: truncation toward zero. */
  function Truncate(x: real): (r: int)
    ensures x >= 0.0 ==> 0 <= r && r as real <= x < r as real + 1.0
    ensures x < 0.0 ==> r <= 0 && r as real - 1.0 < x <= r as real
  {
    if x >= 0.0 then x.Floor else -((-x).Floor)
  }

  function ShutterSpeedLabel(t: real): (r: ShutterLabel)
    ensures t >= 1.0 <==> r.Seconds?
    ensures r.Seconds? ==> r.seconds == t
    ensures 0.0 < t < 1.0 ==>
              r.Reciprocal? && r.denominator >= 1
              && r.denominator as real * t <= 1.0 < (r.denominator as real + 1.0) * t
    ensures r.Trap? <==> t == 0.0
  {
    if t >= 1.0 then Seconds(t)
    else if t == 0.0 then Trap
    else
      var n := Truncate(1.0 / t);
      assert 0.0 < t ==> n as real * t <= 1.0 < (n as real + 1.0) * t by {
        if 0.0 < t {
          ReciprocalBracket(t, n as real);
        }
      }
      Reciprocal(n)
  }

  /** If n <= 1/t < n + 1 for a positive t, then n t <= 1 < (n + 1) t. */
  lemma ReciprocalBracket(t: real, n: real)
    requires 0.0 < t && n <= 1.0 / t < n + 1.0
    ensures n * t <= 1.0
    ensures 1.0 < (n + 1.0) * t
  {
    var x := 1.0 / t;
    assert x * t == 1.0;
    MulLe(n, x, t);
    MulLt(x, n + 1.0, t);
    OneBelow(x * t, (n + 1.0) * t);
  }

  lemma MulLe(a: real, b: real, t: real)
    requires a <= b && 0.0 < t
    ensures a * t <= b * t
  {
    assert b * t - a * t == (b - a) * t;
  }

  lemma MulLt(a: real, b: real, t: real)
    requires a < b && 0.0 < t
    ensures a * t < b * t
  {
    assert b * t - a * t == (b - a) * t;
  }

  lemma OneBelow(one: real, hi: real)
    requires one == 1.0 && one < hi
    ensures 1.0 < hi
  {
  }

  /** The label truncates rather than rounds: 1/0.0015 = 666.67 shows as 1/666. */
  lemma ShutterSpeedLabelExamples()
    ensures ShutterSpeedLabel(1.0) == Seconds(1.0)
    ensures ShutterSpeedLabel(0.01) == Reciprocal(100)
    ensures ShutterSpeedLabel(0.0005) == Reciprocal(2000)
    ensures ShutterSpeedLabel(0.0015) == Reciprocal(666)
  {
    assert 1.0 / 0.01 == 100.0;
    assert 1.0 / 0.0005 == 2000.0;
    assert 666.0 <= 1.0 / 0.0015 < 667.0;
  }

  // ---------------------------------------------------------------- class

  /** The service object. `deviceInput` stands for `deviceInput?.device`; `ev`
      stands for the EV formula of calculateEV, as a function of aperture,
      shutter time and ISO. */
  class CameraService {
    var flashMode: FlashMode
    var isFrontCamera: bool
    var zoomFactor: real
    var currentISO: real
    var currentShutterSpeed: real
    var currentAperture: real
    var currentEV: real
    var suggestedParameter: Option<ExposureParameter>
    var minISO: real
    var maxISO: real
    var minShutterSpeed: real
    var maxShutterSpeed: real
    var deviceInput: Option<Device>
    const ev: (real, real, real) -> real

    function Snapshot(): (r: State)
      reads this
    {
      State(flashMode, isFrontCamera, zoomFactor, currentISO, currentShutterSpeed,
            currentAperture, currentEV, suggestedParameter, minISO, maxISO,
            minShutterSpeed, maxShutterSpeed, deviceInput)
    }

    ghost predicate Valid()
      reads this
    {
      Invariant(Snapshot())
    }

    constructor (ev: (real, real, real) -> real)
      ensures Valid() && Snapshot() == Initial() && this.ev == ev
    {
      flashMode := Off;
      isFrontCamera := false;
      zoomFactor := 1.0;
      currentISO := 100.0;
      currentShutterSpeed := 0.01;
      currentAperture := 1.8;
      currentEV := 0.0;
      suggestedParameter := None;
      minISO := 50.0;
      maxISO := 3200.0;
      minShutterSpeed := 0.0001;
      maxShutterSpeed := 1.0;
      deviceInput := None;
      this.ev := ev;
    }

    /** hasFlash(): false without an input, otherwise what the device reports. */
    function HasFlash(): (r: bool)
      reads this
      ensures deviceInput.None? ==> !r
      ensures deviceInput.Some? ==> r == deviceInput.value.hasFlash
    {
      HasFlashOf(deviceInput)
    }

    /** getMaxZoom(): 1 without an input, otherwise min(device maximum, 10). */
    function GetMaxZoom(): (r: real)
      reads this
      ensures r <= ZoomCap
      ensures deviceInput.None? ==> r == 1.0
      ensures deviceInput.Some? ==> r == ZoomLimit(deviceInput.value.videoMaxZoomFactor)
    {
      MaxZoomOf(deviceInput)
    }

    /** shutterSpeedText, short of the text formatting. */
    function ShutterSpeedText(): (r: ShutterLabel)
      reads this
      ensures r.Seconds? <==> currentShutterSpeed >= 1.0
      ensures r.Seconds? ==> r.seconds == currentShutterSpeed
      ensures 0.0 < currentShutterSpeed < 1.0 ==>
                r.Reciprocal? && r.denominator >= 1
                && r.denominator as real * currentShutterSpeed <= 1.0
                < (r.denominator as real + 1.0) * currentShutterSpeed
      ensures r.Trap? <==> currentShutterSpeed == 0.0
    {
      ShutterSpeedLabel(currentShutterSpeed)
    }

    method ToggleFlash()
      requires Valid()
      modifies this
      ensures Valid() && Snapshot() == AfterToggleFlash(old(Snapshot()))
    {
      match flashMode
      case Off => flashMode := On;
      case On => flashMode := Auto;
      case Auto => flashMode := Off;
    }

    method SwitchCamera(found: Option<Device>)
      requires Valid()
      modifies this
      ensures Valid() && Snapshot() == AfterSwitchCamera(old(Snapshot()), found)
    {
      isFrontCamera := !isFrontCamera;
      if found.None? {
        return;
      }
      deviceInput := found;
    }

    method Zoom(factor: real)
      requires Valid()
      modifies this
      ensures Valid() && Snapshot() == AfterZoom(old(Snapshot()), factor)
    {
      if deviceInput.None? {
        return;
      }
      var device := deviceInput.value;
      if !device.lockSucceeds {
        return;
      }
      var maxZoom := Min(device.videoMaxZoomFactor, 10.0);
      var newZoom := Max(1.0, Min(factor, maxZoom));
      zoomFactor := newZoom;
    }

    method CalculateEV()
      modifies this
      ensures Snapshot() == old(Snapshot()).(currentEV := EvOf(old(Snapshot()), ev))
    {
      currentEV := ev(currentAperture, currentShutterSpeed, currentISO);
    }

    method UpdateExposure(changed: ExposureParameter)
      requires Valid()
      modifies this
      ensures Valid() && Snapshot() == AfterUpdateExposure(old(Snapshot()), changed, ev)
    {
      if deviceInput.None? {
        return;
      }
      var device := deviceInput.value;
      CalculateEV();
      if !device.lockSucceeds {
        return;
      }
      if device.supportsCustomExposure {
        match changed
        case Iso => suggestedParameter := Some(Shutter);
        case Shutter => suggestedParameter := Some(Aperture);
        case Aperture => suggestedParameter := Some(Iso);
      }
    }

    method ResetToAuto()
      requires Valid()
      modifies this
      ensures Valid() && Snapshot() == AfterResetToAuto(old(Snapshot()), ev)
    {
      if deviceInput.None? {
        return;
      }
      if !deviceInput.value.lockSucceeds {
        return;
      }
      currentISO := 100.0;
      currentShutterSpeed := 0.01;
      currentAperture := 1.8;
      suggestedParameter := None;
      CalculateEV();
    }

    method SetupManualControls()
      requires Valid()
      modifies this
      ensures Valid() && Snapshot() == AfterSetupManualControls(old(Snapshot()), ev)
    {
      if deviceInput.None? {
        return;
      }
      var device := deviceInput.value;
      minISO := device.minISO;
      maxISO := device.maxISO;
      minShutterSpeed := device.minExposureDuration;
      maxShutterSpeed := Min(device.maxExposureDuration, 1.0);
      currentISO := 100.0;
      currentShutterSpeed := 0.01;
      currentAperture := 1.8;
      CalculateEV();
    }

    method AttachInput(input: Device)
      requires Valid()
      modifies this
      ensures Valid() && Snapshot() == AfterAttachInput(old(Snapshot()), input, ev)
    {
      deviceInput := Some(input);
      SetupManualControls();
    }
  }
}
