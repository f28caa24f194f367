/**
 * The air-conditioner controller (src/lib/controllers/ACController.ts): the state it reads out
 * of the device snapshot, and the guarded setters that dispatch a command and then write the same
 * values back into the snapshot.
 *
 * Each setter is specified by a `...Step` function of the snapshot before the call; the
 * `ACController` methods change the device and the command log exactly as that function says.
 */
module ACControl {
  import opened Wrappers
  import opened JsValues
  import opened Appliance
  import opened ThinQClient

  // Snapshot keys
  const OPERATION := "airState.operation"
  const LIGHT := "airState.lightingState.displayControl"
  const WIND_STRENGTH := "airState.windStrength"
  const V_STEP := "airState.wDir.vStep"
  const H_STEP := "airState.wDir.hStep"
  const CURRENT_TEMP := "airState.tempState.current"
  const TARGET_TEMP := "airState.tempState.target"
  const SLEEP_TIME := "airState.reservation.sleepTime"
  const JET := "airState.wMode.jet"
  const OP_MODE := "airState.opMode"

  /** The operating modes the controller names. */
  const OP_AUTO := 6
  const OP_COOL := 0
  const OP_HEAT := 4

  /** The fan speeds. */
  const FAN_LOW := 2
  const FAN_LOW_MEDIUM := 3
  const FAN_MEDIUM := 4
  const FAN_MEDIUM_HIGH := 5
  const FAN_HIGH := 6
  const FAN_AUTO := 8

  /** What the thermostat reports. */
  datatype CurrentMode = Cool | Heat | Off

  /** `WindMode`: one bit per swing axis. */
  type WindMode = bv2
  const WIND_NONE: WindMode := 0
  const WIND_VERTICAL: WindMode := 1
  const WIND_HORIZONTAL: WindMode := 2
  const WIND_BOTH: WindMode := 3

  const LEFT_RIGHT_OPTION := "WIND_DIRECTION_STEP_LEFT_RIGHT"
  const UP_DOWN_OPTION := "WIND_DIRECTION_STEP_UP_DOWN"

  const SWING_ON := 100
  const SLEEP_MINUTES := 420

  // ---------------------------------------------------------------------------------------------
  // Getters

  /** `!!operation`: on for any non-zero stored number, off when nothing is stored. */
  predicate IsPowerOn(data: Snapshot)
    ensures forall n :: Get(data, OPERATION) == Num(n) ==> (IsPowerOn(data) <==> n != 0)
    ensures OPERATION !in data ==> !IsPowerOn(data)
  {
    Truthy(Get(data, OPERATION))
  }

  /** `!!displayControl`. */
  predicate IsLightOn(data: Snapshot)
    ensures forall n :: Get(data, LIGHT) == Num(n) ==> (IsLightOn(data) <==> n != 0)
    ensures LIGHT !in data ==> !IsLightOn(data)
  {
    Truthy(Get(data, LIGHT))
  }

  function WindStrength(data: Snapshot): Value {
    Get(data, WIND_STRENGTH)
  }

  function OpModeOf(data: Snapshot): Value {
    Get(data, OP_MODE)
  }

  function CurrentTemperature(data: Snapshot): Value {
    Get(data, CURRENT_TEMP)
  }

  function TargetTemperature(data: Snapshot): Value {
    Get(data, TARGET_TEMP)
  }

  /** `Math.floor((x || 0) / 100)`, with `None` for NaN. */
  function StepUnits(x: Value): Option<int> {
    var n := ToNumber(Or(x, Num(0)));
    if n.Some? then Some(n.value / 100) else None
  }

  /** `!!(vStep + hStep)` over the two axes' step units; NaN is falsy. */
  predicate IsSwingOn(data: Snapshot)
    ensures V_STEP !in data && H_STEP !in data ==> !IsSwingOn(data)
    ensures forall v :: Get(data, V_STEP) == Num(v) && H_STEP !in data ==> (IsSwingOn(data) <==> v >= SWING_ON || v < 0)
  {
    var v, h := StepUnits(Get(data, V_STEP)), StepUnits(Get(data, H_STEP));
    v.Some? && h.Some? && v.value + h.value != 0
  }

  /** `sleepTime > 0`: a missing or non-numeric reservation is not comfort mode. */
  predicate ComfortMode(data: Snapshot)
    ensures forall n :: Get(data, SLEEP_TIME) == Num(n) ==> (ComfortMode(data) <==> n > 0)
    ensures SLEEP_TIME !in data ==> !ComfortMode(data)
  {
    Positive(Get(data, SLEEP_TIME))
  }

  /** `!!jet`. */
  predicate JetMode(data: Snapshot)
    ensures forall n :: Get(data, JET) == Num(n) ==> (JetMode(data) <==> n != 0)
    ensures JET !in data ==> !JetMode(data)
  {
    Truthy(Get(data, JET))
  }

  /**
   * Off when powered off; HEAT or COOL as the operating mode says when it is one of them;
   * otherwise COOL when the room is no warmer than the target, else HEAT.
   */
  function CurrentModeOf(data: Snapshot): (m: CurrentMode)
    ensures m == Off <==> !IsPowerOn(data)
    ensures IsPowerOn(data) && OpModeOf(data) == Num(OP_HEAT) ==> m == Heat
    ensures IsPowerOn(data) && OpModeOf(data) == Num(OP_COOL) ==> m == Cool
    ensures IsPowerOn(data) && OpModeOf(data) != Num(OP_HEAT) && OpModeOf(data) != Num(OP_COOL) ==>
      (m == Cool <==> LooseLessEq(CurrentTemperature(data), TargetTemperature(data)))
  {
    if !IsPowerOn(data) then Off
    else
      var op :=
        if Includes([Num(OP_HEAT), Num(OP_COOL)], OpModeOf(data)) then OpModeOf(data)
        else if LooseLessEq(CurrentTemperature(data), TargetTemperature(data)) then Num(OP_COOL)
        else Num(OP_HEAT);
      if op == Num(OP_HEAT) then Heat
      else if op == Num(OP_COOL) then Cool
      else assert false; Off
  }

  /** Missing step keys count as 0, and a stored step counts by its hundreds. */
  lemma SwingOfStoredSteps(data: Snapshot, v: int, h: int)
    requires Or(Get(data, V_STEP), Num(0)) == Num(v) && Or(Get(data, H_STEP), Num(0)) == Num(h)
    ensures IsSwingOn(data) <==> v / 100 + h / 100 != 0
  {
  }

  /** Whether some sub-mode option mentions `word`. */
  predicate HasOption(options: seq<string>, word: string) {
    exists i :: 0 <= i < |options| && Contains(options[i], word)
  }

  /** The swing axes the device model allows: horizontal for a left-right option, vertical for an up-down one. */
  function Directions(options: seq<string>): WindMode {
    (if HasOption(options, LEFT_RIGHT_OPTION) then WIND_HORIZONTAL else WIND_NONE)
    | (if HasOption(options, UP_DOWN_OPTION) then WIND_VERTICAL else WIND_NONE)
  }

  lemma DirectionBits(options: seq<string>)
    ensures (Directions(options) & WIND_HORIZONTAL != 0) <==> HasOption(options, LEFT_RIGHT_OPTION)
    ensures (Directions(options) & WIND_VERTICAL != 0) <==> HasOption(options, UP_DOWN_OPTION)
    ensures Directions(options) == WIND_BOTH <==>
      HasOption(options, LEFT_RIGHT_OPTION) && HasOption(options, UP_DOWN_OPTION)
  {
  }

  // ---------------------------------------------------------------------------------------------
  // Setters, as functions of the snapshot before the call

  /** `setLight(isOn)`: powered on and different from the current state, write 1 or 0. */
  function LightStep(id: string, data: Snapshot, isOn: bool): (r: Step)
    ensures r.data == Replay(data, r.sent)
    ensures r.sent == [] <==> !IsPowerOn(data) || isOn == IsLightOn(data)
    ensures r.sent != [] ==> r.sent == [SetCommand(id, LIGHT, Num(Flag(isOn)))]
    ensures r.sent == [] ==> r.data == data
    ensures IsPowerOn(data) ==> IsLightOn(r.data) == isOn
    ensures OnlyChanged(data, r.data, {LIGHT})
  {
    if !IsPowerOn(data) || isOn == IsLightOn(data) then NoOp(data)
    else WriteOne(id, data, LIGHT, Num(Flag(isOn)))
  }

  /** `setOpMode(mode)`: unless already in it, write the mode and then turn the light off. */
  function OpModeStep(id: string, data: Snapshot, mode: int): (r: Step)
    ensures r.data == Replay(data, r.sent)
    ensures OpModeOf(data) == Num(mode) ==> r == NoOp(data)
    ensures OpModeOf(data) != Num(mode) ==> 1 <= |r.sent| <= 2 && r.sent[0] == SetCommand(id, OP_MODE, Num(mode))
    ensures OpModeOf(r.data) == Num(mode)
    ensures OpModeOf(data) != Num(mode) && IsPowerOn(data) ==> !IsLightOn(r.data)
    ensures IsPowerOn(r.data) == IsPowerOn(data)
    ensures OnlyChanged(data, r.data, {OP_MODE, LIGHT})
  {
    if OpModeOf(data) == Num(mode) then NoOp(data)
    else
      var w := WriteOne(id, data, OP_MODE, Num(mode));
      var l := LightStep(id, w.data, false);
      ThenReplays(data, w, l);
      Then(w, l)
  }

  /** `ensureAutoMode`. */
  function AutoModeStep(id: string, data: Snapshot): (r: Step)
    ensures r.data == Replay(data, r.sent)
    ensures OpModeOf(r.data) == Num(OP_AUTO)
    ensures OpModeOf(data) == Num(OP_AUTO) ==> r == NoOp(data)
    ensures IsPowerOn(r.data) == IsPowerOn(data)
    ensures OnlyChanged(data, r.data, {OP_MODE, LIGHT})
  {
    if OpModeOf(data) != Num(OP_AUTO) then OpModeStep(id, data, OP_AUTO) else NoOp(data)
  }

  /** The guard in `ensureAutoMode` repeats the one in `setOpMode`. */
  lemma AutoModeIsOpModeAuto(id: string, data: Snapshot)
    ensures AutoModeStep(id, data) == OpModeStep(id, data, OP_AUTO)
  {
  }

  /** The `Operation` command that switches the unit on or off. */
  function OperationCommand(id: string, isOn: int): Command {
    Command(id, SingleWrite(OPERATION, Num(isOn)), Operation, BASIC_CTRL)
  }

  /**
   * `setActive(isOn)`: nothing when already on and asked to be on; otherwise send the operation
   * and write it back, and after switching on drive the mode to AUTO.
   */
  function ActiveStep(id: string, data: Snapshot, isOn: int): (r: Step)
    ensures r.data == Replay(data, r.sent)
    ensures IsPowerOn(data) && isOn != 0 ==> r == NoOp(data)
    ensures !(IsPowerOn(data) && isOn != 0) ==> r.sent != [] && r.sent[0] == OperationCommand(id, isOn)
    ensures IsPowerOn(r.data) == (isOn != 0)
    ensures Get(r.data, OPERATION) == if IsPowerOn(data) && isOn != 0 then Get(data, OPERATION) else Num(isOn)
    ensures !IsPowerOn(data) && isOn != 0 ==> OpModeOf(r.data) == Num(OP_AUTO)
    ensures isOn == 0 ==> |r.sent| == 1
    ensures OnlyChanged(data, r.data, {OPERATION, OP_MODE, LIGHT})
  {
    if IsPowerOn(data) && isOn != 0 then NoOp(data)
    else
      var c := OperationCommand(id, isOn);
      assert Writes(c) == map[OPERATION := Num(isOn)];
      assert data + Writes(c) == data[OPERATION := Num(isOn)];
      var w := Step([c], data[OPERATION := Num(isOn)]);
      if isOn != 0 then
        var m := OpModeStep(id, w.data, OP_AUTO);
        ThenReplays(data, w, m);
        Then(w, m)
      else w
  }

  /**
   * `setTargetTemperature(t)`: powered on and a new target only; the unit is put in AUTO first,
   * then the target is written.
   */
  function TargetTemperatureStep(id: string, data: Snapshot, t: int): (r: Step)
    ensures r.data == Replay(data, r.sent)
    ensures r.sent == [] <==> !IsPowerOn(data) || TargetTemperature(data) == Num(t)
    ensures r.sent == [] ==> r.data == data
    ensures r.sent != [] ==>
      TargetTemperature(r.data) == Num(t) && OpModeOf(r.data) == Num(OP_AUTO)
      && r.sent[|r.sent| - 1] == SetCommand(id, TARGET_TEMP, Num(t))
    ensures IsPowerOn(r.data) == IsPowerOn(data)
    ensures OnlyChanged(data, r.data, {OP_MODE, LIGHT, TARGET_TEMP})
  {
    if !IsPowerOn(data) || TargetTemperature(data) == Num(t) then NoOp(data)
    else
      var a := AutoModeStep(id, data);
      var w := WriteOne(id, a.data, TARGET_TEMP, Num(t));
      ThenReplays(data, a, w);
      Then(a, w)
  }

  /** `setFanSpeed(level)`: powered on and a new level only. */
  function FanSpeedStep(id: string, data: Snapshot, level: Value): (r: Step)
    ensures r.data == Replay(data, r.sent)
    ensures r.sent == [] <==> !IsPowerOn(data) || WindStrength(data) == level
    ensures r.sent != [] ==> r.sent == [SetCommand(id, WIND_STRENGTH, level)]
    ensures IsPowerOn(data) ==> WindStrength(r.data) == level
    ensures r.sent == [] ==> r.data == data
    ensures OnlyChanged(data, r.data, {WIND_STRENGTH})
  {
    if !IsPowerOn(data) || WindStrength(data) == level then NoOp(data)
    else WriteOne(id, data, WIND_STRENGTH, level)
  }

  /** The batched write of both swing axes. */
  function BothAxesCommand(id: string, v: Value): Command {
    Command(id, BatchWrite(map[V_STEP := v, H_STEP := v]), Set, FAVORITE_CTRL)
  }

  /**
   * `setSwingMode(isOn)` for the allowed axes `allowed`: powered on only; both axes in one
   * batched command, or the one allowed axis, at 100 for on and 0 for off; no axis, no command.
   */
  function SwingStep(id: string, data: Snapshot, allowed: WindMode, isOn: bool): (r: Step)
    ensures r.data == Replay(data, r.sent)
    ensures r.sent == [] <==> !IsPowerOn(data) || allowed == WIND_NONE
    ensures r.sent == [] ==> r.data == data
    ensures |r.sent| <= 1
    ensures IsPowerOn(data) && allowed == WIND_BOTH ==>
      r.sent == [BothAxesCommand(id, Num(if isOn then SWING_ON else 0))] && IsSwingOn(r.data) == isOn
    ensures IsPowerOn(data) && allowed == WIND_VERTICAL ==>
      r.sent == [SetCommand(id, V_STEP, Num(if isOn then SWING_ON else 0))] && OnlyChanged(data, r.data, {V_STEP})
    ensures IsPowerOn(data) && allowed == WIND_HORIZONTAL ==>
      r.sent == [SetCommand(id, H_STEP, Num(if isOn then SWING_ON else 0))] && OnlyChanged(data, r.data, {H_STEP})
    ensures IsPowerOn(data) && allowed != WIND_NONE ==>
      var v := Num(if isOn then SWING_ON else 0);
      (allowed & WIND_VERTICAL != 0 ==> Get(r.data, V_STEP) == v) && (allowed & WIND_HORIZONTAL != 0 ==> Get(r.data, H_STEP) == v)
    ensures OnlyChanged(data, r.data, {V_STEP, H_STEP})
  {
    if !IsPowerOn(data) then NoOp(data)
    else
      var v := Num(if isOn then SWING_ON else 0);
      if allowed == WIND_BOTH then
        var c := BothAxesCommand(id, v);
        assert Writes(c) == map[V_STEP := v, H_STEP := v];
        assert data + Writes(c) == data[V_STEP := v][H_STEP := v];
        Step([c], data[V_STEP := v][H_STEP := v])
      else if allowed == WIND_VERTICAL then WriteOne(id, data, V_STEP, v)
      else if allowed == WIND_HORIZONTAL then WriteOne(id, data, H_STEP, v)
      else NoOp(data)
  }

  /** The batched comfort-sleep command. */
  function ComfortSleepCommand(id: string, isOn: bool): Command {
    Command(id, BatchWrite(map[SLEEP_TIME := Num(if isOn then SLEEP_MINUTES else 0), V_STEP := Num(Flag(isOn))]),
      Set, FAVORITE_CTRL)
  }

  /** `setComfortSleep(isOn)`: unguarded; one batched command for the sleep timer and the vertical step. */
  function ComfortSleepStep(id: string, data: Snapshot, isOn: bool): (r: Step)
    ensures r.data == Replay(data, r.sent)
    ensures r.sent == [ComfortSleepCommand(id, isOn)]
    ensures ComfortMode(r.data) == isOn
    ensures Get(r.data, V_STEP) == Num(Flag(isOn))
    ensures OnlyChanged(data, r.data, {SLEEP_TIME, V_STEP})
  {
    var c := ComfortSleepCommand(id, isOn);
    var sleep, step := Num(if isOn then SLEEP_MINUTES else 0), Num(Flag(isOn));
    assert Writes(c) == map[SLEEP_TIME := sleep, V_STEP := step];
    assert data + Writes(c) == data[SLEEP_TIME := sleep][V_STEP := step];
    Step([c], data[SLEEP_TIME := sleep][V_STEP := step])
  }

  /** `setJetMode(isOn)`: unguarded; write 1 or 0. */
  function JetStep(id: string, data: Snapshot, isOn: bool): (r: Step)
    ensures r.data == Replay(data, r.sent)
    ensures r.sent == [SetCommand(id, JET, Num(Flag(isOn)))]
    ensures JetMode(r.data) == isOn
    ensures OnlyChanged(data, r.data, {JET})
  {
    WriteOne(id, data, JET, Num(Flag(isOn)))
  }

  // ---------------------------------------------------------------------------------------------
  // The controller object

  class ACController {
    const thinq: ThinQ
    const device: Device

    constructor (thinq: ThinQ, device: Device)
      ensures this.thinq == thinq && this.device == device
    {
      this.thinq := thinq;
      this.device := device;
    }

    /** Dispatch `c` for this device and write its values back into the snapshot. */
    method Dispatch(c: Command)
      requires c.deviceId == device.id
      modifies device`snapshot, thinq`sent, thinq`calls
      ensures thinq.sent == old(thinq.sent) + [c]
      ensures device.snapshot == old(device.snapshot) + Writes(c)
    {
      var _ := thinq.DeviceControl(DeviceId(device.id), c.values, c.command, c.ctrlKey);
      device.snapshot := device.snapshot + Writes(c);
    }

    /**
     * `windDirectionAllowed`, given the values of the sub-mode option record: OR in one bit for
     * each option naming an axis.
     */
    method WindDirectionAllowed(options: seq<string>) returns (allowed: WindMode)
      ensures allowed == Directions(options)
      ensures (allowed & WIND_HORIZONTAL != 0) <==> HasOption(options, LEFT_RIGHT_OPTION)
      ensures (allowed & WIND_VERTICAL != 0) <==> HasOption(options, UP_DOWN_OPTION)
    {
      allowed := WIND_NONE;
      for i := 0 to |options|
        invariant (allowed & WIND_HORIZONTAL != 0) <==> HasOption(options[..i], LEFT_RIGHT_OPTION)
        invariant (allowed & WIND_VERTICAL != 0) <==> HasOption(options[..i], UP_DOWN_OPTION)
      {
        assert forall j :: 0 <= j < i ==> options[..i + 1][j] == options[..i][j];
        assert options[..i + 1][i] == options[i];
        if Contains(options[i], LEFT_RIGHT_OPTION) {
          allowed := allowed | WIND_HORIZONTAL;
        }
        if Contains(options[i], UP_DOWN_OPTION) {
          allowed := allowed | WIND_VERTICAL;
        }
      }
      assert options[..|options|] == options;
      DirectionBits(options);
    }

    method SetLight(isOn: bool)
      modifies device`snapshot, thinq`sent, thinq`calls
      ensures device.snapshot == LightStep(device.id, old(device.snapshot), isOn).data
      ensures thinq.sent == old(thinq.sent) + LightStep(device.id, old(device.snapshot), isOn).sent
    {
      if !IsPowerOn(device.snapshot) || isOn == IsLightOn(device.snapshot) {
        return;
      }
      Dispatch(SetCommand(device.id, LIGHT, Num(Flag(isOn))));
    }

    method SetOpMode(mode: int)
      modifies device`snapshot, thinq`sent, thinq`calls
      ensures device.snapshot == OpModeStep(device.id, old(device.snapshot), mode).data
      ensures thinq.sent == old(thinq.sent) + OpModeStep(device.id, old(device.snapshot), mode).sent
    {
      if OpModeOf(device.snapshot) == Num(mode) {
        return;
      }
      Dispatch(SetCommand(device.id, OP_MODE, Num(mode)));
      SetLight(false);
    }

    method EnsureAutoMode()
      modifies device`snapshot, thinq`sent, thinq`calls
      ensures device.snapshot == AutoModeStep(device.id, old(device.snapshot)).data
      ensures thinq.sent == old(thinq.sent) + AutoModeStep(device.id, old(device.snapshot)).sent
    {
      if OpModeOf(device.snapshot) != Num(OP_AUTO) {
        SetOpMode(OP_AUTO);
      }
    }

    method SetActive(isOn: int)
      modifies device`snapshot, thinq`sent, thinq`calls
      ensures device.snapshot == ActiveStep(device.id, old(device.snapshot), isOn).data
      ensures thinq.sent == old(thinq.sent) + ActiveStep(device.id, old(device.snapshot), isOn).sent
    {
      if IsPowerOn(device.snapshot) && isOn != 0 {
        return;
      }
      ghost var before := device.snapshot;
      var c := OperationCommand(device.id, isOn);
      assert Writes(c) == map[OPERATION := Num(isOn)];
      Dispatch(c);
      assert device.snapshot == before[OPERATION := Num(isOn)];
      if isOn != 0 {
        SetOpMode(OP_AUTO);
      }
    }

    method SetTargetTemperature(t: int)
      modifies device`snapshot, thinq`sent, thinq`calls
      ensures device.snapshot == TargetTemperatureStep(device.id, old(device.snapshot), t).data
      ensures thinq.sent == old(thinq.sent) + TargetTemperatureStep(device.id, old(device.snapshot), t).sent
    {
      if !IsPowerOn(device.snapshot) || TargetTemperature(device.snapshot) == Num(t) {
        return;
      }
      EnsureAutoMode();
      Dispatch(SetCommand(device.id, TARGET_TEMP, Num(t)));
    }

    method SetFanSpeed(level: Value)
      modifies device`snapshot, thinq`sent, thinq`calls
      ensures device.snapshot == FanSpeedStep(device.id, old(device.snapshot), level).data
      ensures thinq.sent == old(thinq.sent) + FanSpeedStep(device.id, old(device.snapshot), level).sent
    {
      if !IsPowerOn(device.snapshot) || WindStrength(device.snapshot) == level {
        return;
      }
      Dispatch(SetCommand(device.id, WIND_STRENGTH, level));
    }

    /** `setSwingMode(isOn)`; `options` are the values of the device model's sub-mode options. */
    method SetSwingMode(isOn: bool, options: seq<string>)
      modifies device`snapshot, thinq`sent, thinq`calls
      ensures device.snapshot == SwingStep(device.id, old(device.snapshot), Directions(options), isOn).data
      ensures thinq.sent == old(thinq.sent) + SwingStep(device.id, old(device.snapshot), Directions(options), isOn).sent
    {
      if !IsPowerOn(device.snapshot) {
        return;
      }
      var v := Num(if isOn then SWING_ON else 0);
      var allowed := WindDirectionAllowed(options);
      if allowed == WIND_BOTH {
        Dispatch(BothAxesCommand(device.id, v));
      } else if allowed == WIND_VERTICAL {
        Dispatch(SetCommand(device.id, V_STEP, v));
      } else if allowed == WIND_HORIZONTAL {
        Dispatch(SetCommand(device.id, H_STEP, v));
      }
    }

    method SetComfortSleep(isOn: bool)
      modifies device`snapshot, thinq`sent, thinq`calls
      ensures device.snapshot == ComfortSleepStep(device.id, old(device.snapshot), isOn).data
      ensures thinq.sent == old(thinq.sent) + ComfortSleepStep(device.id, old(device.snapshot), isOn).sent
    {
      Dispatch(ComfortSleepCommand(device.id, isOn));
    }

    method SetJetMode(isOn: bool)
      modifies device`snapshot, thinq`sent, thinq`calls
      ensures device.snapshot == JetStep(device.id, old(device.snapshot), isOn).data
      ensures thinq.sent == old(thinq.sent) + JetStep(device.id, old(device.snapshot), isOn).sent
    {
      Dispatch(SetCommand(device.id, JET, Num(Flag(isOn))));
    }
  }
}
