/**
 * The fan accessory of an air conditioner (src/devices/AirConditioner/FanUnit.ts): the
 * speed-index mapping, the debounced rotation-speed handler, the AUTO/MANUAL handler with the
 * remembered manual speed, and what an update reports.
 *
 * The 1000 ms timer is an event: `FireTimer` is the moment the pending callback runs.
 */
module FanUnitModel {
  import opened Wrappers
  import opened JsValues
  import opened Appliance
  import opened ACControl

  /** `fanSpeeds`: rotation-speed index to fan speed. */
  const FAN_SPEEDS: seq<int> := [FAN_LOW, FAN_LOW_MEDIUM, FAN_MEDIUM, FAN_MEDIUM_HIGH, FAN_HIGH]
  const FAN_SPEED_VALUES: seq<Value> := [Num(FAN_LOW), Num(FAN_LOW_MEDIUM), Num(FAN_MEDIUM), Num(FAN_MEDIUM_HIGH), Num(FAN_HIGH)]

  /** The HomeKit values of the target fan state. */
  const TARGET_MANUAL := 0
  const TARGET_AUTO := 1

  /** `fanSpeeds[index]`: `undefined` outside the list. */
  function FanSpeedAt(index: int): (v: Value)
    ensures 0 <= index < |FAN_SPEEDS| ==> v == Num(FAN_SPEEDS[index]) && v != Num(FAN_AUTO)
    ensures !(0 <= index < |FAN_SPEEDS|) ==> v == Undef
  {
    if 0 <= index < |FAN_SPEEDS| then Num(FAN_SPEEDS[index]) else Undef
  }

  datatype FanState = Inactive | BlowingAir
  datatype TargetFanState = Manual | Auto

  /** What `update` pushes to HomeKit. `rotation` is reported in manual mode only. */
  datatype FanReport = FanReport(current: FanState, target: TargetFanState, rotation: Option<int>, swing: bool)

  function CurrentFanState(data: Snapshot): (s: FanState)
    ensures s == BlowingAir <==> IsPowerOn(data)
  {
    if IsPowerOn(data) then BlowingAir else Inactive
  }

  /** The report for a snapshot: AUTO exactly when the wind strength is AUTO, else the speed's index. */
  function ReportOf(data: Snapshot): (r: FanReport)
    ensures r.current == BlowingAir <==> IsPowerOn(data)
    ensures r.target == Auto <==> WindStrength(data) == Num(FAN_AUTO)
    ensures r.rotation.Some? <==> r.target == Manual
    ensures r.rotation.Some? ==> -1 <= r.rotation.value < |FAN_SPEEDS|
    ensures r.rotation.Some? && r.rotation.value >= 0 ==> Num(FAN_SPEEDS[r.rotation.value]) == WindStrength(data)
    ensures r.swing == IsSwingOn(data)
  {
    IndexOfBounds(FAN_SPEED_VALUES, WindStrength(data));
    var auto := WindStrength(data) == Num(FAN_AUTO);
    FanReport(CurrentFanState(data), if auto then Auto else Manual,
      if auto then None else Some(IndexOf(FAN_SPEED_VALUES, WindStrength(data))), IsSwingOn(data))
  }

  /** The speed an update remembers: every wind strength but AUTO. */
  function NextLastSpeed(lastSpeed: Value, windStrength: Value): (r: Value)
    ensures lastSpeed != Num(FAN_AUTO) ==> r != Num(FAN_AUTO)
    ensures windStrength != Num(FAN_AUTO) ==> r == windStrength
    ensures windStrength == Num(FAN_AUTO) ==> r == lastSpeed
  {
    if windStrength == Num(FAN_AUTO) then lastSpeed else windStrength
  }

  /** The level the target-fan-state handler asks for; `None` for a value it ignores. */
  function TargetLevel(value: int, lastSpeed: Value): (r: Option<Value>)
    ensures value == TARGET_AUTO ==> r == Some(Num(FAN_AUTO))
    ensures value == TARGET_MANUAL && lastSpeed != Undef && lastSpeed != Null ==> r == Some(lastSpeed)
    ensures value == TARGET_MANUAL && (lastSpeed == Undef || lastSpeed == Null) ==> r == Some(Num(FAN_MEDIUM))
    ensures value == TARGET_MANUAL && lastSpeed != Num(FAN_AUTO) ==> r.value != Num(FAN_AUTO)
    ensures value != TARGET_AUTO && value != TARGET_MANUAL ==> r == None
  {
    if value == TARGET_AUTO then Some(Num(FAN_AUTO))
    else if value == TARGET_MANUAL then Some(Coalesce(lastSpeed, Num(FAN_MEDIUM)))
    else None
  }

  /**
   * Index to speed to index: a powered-on unit set to speed index `v` reports rotation `v` at
   * the next update.
   */
  lemma RotationRoundTrip(id: string, data: Snapshot, v: int)
    requires 0 <= v < |FAN_SPEEDS| && IsPowerOn(data)
    ensures ReportOf(FanSpeedStep(id, data, FanSpeedAt(v)).data).rotation == Some(v)
  {
    var after := FanSpeedStep(id, data, FanSpeedAt(v)).data;
    assert WindStrength(after) == FAN_SPEED_VALUES[v];
    IndexOfDistinct(FAN_SPEED_VALUES, v);
  }

  // ---------------------------------------------------------------------------------------------
  // The debounce

  /** `SpeedSet(v)`: the rotation-speed handler runs with index `v`; `TimerFires`: 1000 ms pass. */
  datatype FanEvent = SpeedSet(index: int) | TimerFires

  /** The indices whose callbacks run, in order, when `events` happen with `pending` scheduled. */
  function Fired(pending: Option<int>, events: seq<FanEvent>): (r: seq<int>)
    ensures |r| <= |events|
    ensures forall x :: x in r ==> pending == Some(x) || SpeedSet(x) in events
    decreases |events|
  {
    if events == [] then []
    else
      match events[0]
      case SpeedSet(v) => Fired(Some(v), events[1..])
      case TimerFires => (if pending.Some? then [pending.value] else []) + Fired(None, events[1..])
  }

  function SpeedSets(vs: seq<int>): (es: seq<FanEvent>)
    ensures |es| == |vs| && forall i :: 0 <= i < |vs| ==> es[i] == SpeedSet(vs[i])
  {
    if vs == [] then [] else [SpeedSet(vs[0])] + SpeedSets(vs[1..])
  }

  /** A burst of speed changes inside one window fires once, with the last index. */
  lemma {:induction false} LastCallWins(pending: Option<int>, vs: seq<int>)
    requires vs != []
    ensures Fired(pending, SpeedSets(vs) + [TimerFires]) == [vs[|vs| - 1]]
    decreases |vs|
  {
    var es := SpeedSets(vs) + [TimerFires];
    assert es[0] == SpeedSet(vs[0]);
    if |vs| == 1 {
      assert es[1..] == [TimerFires];
      assert Fired(Some(vs[0]), [TimerFires]) == [vs[0]] + Fired(None, []);
    } else {
      assert es[1..] == SpeedSets(vs[1..]) + [TimerFires];
      LastCallWins(Some(vs[0]), vs[1..]);
    }
  }

  function TimerCount(events: seq<FanEvent>): nat {
    if events == [] then 0 else (if events[0].TimerFires? then 1 else 0) + TimerCount(events[1..])
  }

  /** At most one callback is pending, so each window fires at most once. */
  lemma {:induction false} FiredAtMostOncePerWindow(pending: Option<int>, events: seq<FanEvent>)
    ensures |Fired(pending, events)| <= TimerCount(events)
    decreases |events|
  {
    if events != [] {
      match events[0]
      case SpeedSet(v) => FiredAtMostOncePerWindow(Some(v), events[1..]);
      case TimerFires => FiredAtMostOncePerWindow(None, events[1..]);
    }
  }

  // ---------------------------------------------------------------------------------------------
  // The accessory object

  class FanUnit {
    const controller: ACController
    /** The last manual speed seen; `Undef` when not known. Never AUTO. */
    var lastSpeed: Value
    /** The index of the throttled callback waiting for its timer, if any. */
    var pending: Option<int>

    ghost predicate Valid()
      reads this
    {
      lastSpeed != Num(FAN_AUTO)
    }

    constructor (controller: ACController)
      ensures this.controller == controller && pending == None && Valid()
      ensures lastSpeed == if WindStrength(controller.device.snapshot) != Num(FAN_AUTO)
        then WindStrength(controller.device.snapshot) else Undef
    {
      this.controller := controller;
      lastSpeed := if WindStrength(controller.device.snapshot) != Num(FAN_AUTO)
        then WindStrength(controller.device.snapshot) else Undef;
      pending := None;
    }

    /** The rotation-speed handler: throttle, replacing any callback still pending. */
    method OnRotationSpeed(index: int)
      modifies this`pending
      ensures pending == Some(index)
    {
      pending := Some(index);
    }

    /** The throttle timer runs the pending callback, if any. */
    method FireTimer()
      modifies this`pending, controller.device`snapshot, controller.thinq`sent, controller.thinq`calls
      ensures pending == None
      ensures old(pending).None? ==>
        controller.device.snapshot == old(controller.device.snapshot) && controller.thinq.sent == old(controller.thinq.sent)
      ensures old(pending).Some? ==>
        var step := FanSpeedStep(controller.device.id, old(controller.device.snapshot), FanSpeedAt(old(pending).value));
        controller.device.snapshot == step.data && controller.thinq.sent == old(controller.thinq.sent) + step.sent
    {
      if pending.Some? {
        var index := pending.value;
        pending := None;
        controller.SetFanSpeed(FanSpeedAt(index));
      }
    }

    /** The target-fan-state handler. */
    method OnTargetFanState(value: int)
      modifies controller.device`snapshot, controller.thinq`sent, controller.thinq`calls
      ensures TargetLevel(value, lastSpeed).None? ==>
        controller.device.snapshot == old(controller.device.snapshot) && controller.thinq.sent == old(controller.thinq.sent)
      ensures TargetLevel(value, lastSpeed).Some? ==>
        var step := FanSpeedStep(controller.device.id, old(controller.device.snapshot), TargetLevel(value, lastSpeed).value);
        controller.device.snapshot == step.data && controller.thinq.sent == old(controller.thinq.sent) + step.sent
    {
      if value == TARGET_AUTO {
        controller.SetFanSpeed(Num(FAN_AUTO));
      } else if value == TARGET_MANUAL {
        controller.SetFanSpeed(Coalesce(lastSpeed, Num(FAN_MEDIUM)));
      }
    }

    /** The swing handler; `options` are the device model's sub-mode option values. */
    method OnSwingMode(value: Value, options: seq<string>)
      modifies controller.device`snapshot, controller.thinq`sent, controller.thinq`calls
      ensures var step := SwingStep(controller.device.id, old(controller.device.snapshot), Directions(options), Truthy(value));
        controller.device.snapshot == step.data && controller.thinq.sent == old(controller.thinq.sent) + step.sent
    {
      controller.SetSwingMode(Truthy(value), options);
    }

    /** `update`: report the state and remember a manual speed. */
    method Update() returns (report: FanReport)
      requires Valid()
      modifies this`lastSpeed
      ensures Valid()
      ensures report == ReportOf(controller.device.snapshot)
      ensures lastSpeed == NextLastSpeed(old(lastSpeed), WindStrength(controller.device.snapshot))
    {
      var ws := WindStrength(controller.device.snapshot);
      if ws != Num(FAN_AUTO) {
        lastSpeed := ws;
      }
      report := ReportOf(controller.device.snapshot);
    }
  }
}
