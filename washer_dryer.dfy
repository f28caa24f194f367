/**
 * The washer/dryer accessory (src/devices/WasherDryer.ts): the status read from the
 * `washerDryer` part of the snapshot, and the start/finish detection that `update` runs on each
 * pushed snapshot with the `isRunning` field as its memory.
 *
 * The merge of a pushed snapshot into the device's snapshot is not part of this model: `update`
 * is given the merged result. The device model's `lookupMonitorName` is a given value.
 */
module WasherDryerModel {
  import opened Wrappers
  import opened JsValues
  import opened Appliance
  import opened ThinQClient

  const NOT_RUNNING_STATUS: seq<string> :=
    ["COOLDOWN", "POWEROFF", "POWERFAIL", "INITIAL", "PAUSE", "AUDIBLE_DIAGNOSIS", "FIRMWARE",
     "COURSE_DOWNLOAD", "ERROR", "END"]

  /** The tub-clean counter saturates here, and the reminder fires at it. */
  const TCL_LIMIT := 30

  /** `NOT_RUNNING_STATUS.includes(v)`: only a string can be included. */
  predicate IsNotRunningStatus(v: Value) {
    v.Str? && v.s in NOT_RUNNING_STATUS
  }

  // ---------------------------------------------------------------------------------------------
  // Status, over the `washerDryer` object (possibly undefined)

  /** `data?.state`: undefined when the washer part is missing or has no state. */
  function State(data: Value): (v: Value)
    ensures data.Undef? || data.Null? ==> v == Undef
    ensures data.Obj? && "state" in data.fields ==> v == data.fields["state"]
  {
    Field(data, "state")
  }

  /** Powered on unless the state is one of the two power-off states; a missing part counts as on. */
  predicate IsPowerOn(data: Value)
    ensures data.Undef? ==> IsPowerOn(data)
    ensures forall s :: State(data) == Str(s) ==> (IsPowerOn(data) <==> s != "POWEROFF" && s != "POWERFAIL")
  {
    !(State(data) in [Str("POWEROFF"), Str("POWERFAIL")])
  }

  predicate IsRunning(data: Value)
    ensures IsRunning(data) ==> IsPowerOn(data) && !IsNotRunningStatus(State(data))
  {
    IsPowerOn(data) && !IsNotRunningStatus(State(data))
  }

  predicate IsError(data: Value)
    ensures IsError(data) ==> IsPowerOn(data)
    ensures data.Undef? ==> !IsError(data)
  {
    State(data) == Str("ERROR")
  }

  /** `isPowerOn` is false exactly in the two power states; `isError` exactly in 'ERROR'. */
  lemma PowerAndErrorStates(data: Value)
    ensures !IsPowerOn(data) <==> State(data) == Str("POWEROFF") || State(data) == Str("POWERFAIL")
    ensures IsError(data) ==> !IsRunning(data)
    ensures State(data) == Str("END") || State(data) == Str("COOLDOWN") ==> IsPowerOn(data) && !IsRunning(data)
  {
    assert NOT_RUNNING_STATUS[8] == "ERROR" && NOT_RUNNING_STATUS[9] == "END" && NOT_RUNNING_STATUS[0] == "COOLDOWN";
  }

  /**
   * `data.remoteStart === on` (and `doorLock` likewise), where `on` is the device model's name for
   * the enabled state. Reading a property of missing data throws.
   */
  function MonitorFlag(data: Value, key: string, on: Value): (r: Result<bool, TypeError>)
    ensures r.Err? <==> data.Undef? || data.Null?
    ensures r.Ok? ==> (r.value <==> Field(data, key) == on)
  {
    match Prop(data, key)
    case Ok(v) => Ok(v == on)
    case Err(e) => Err(e)
  }

  function IsRemoteStartEnable(data: Value, on: Value): (r: Result<bool, TypeError>)
    ensures r.Err? <==> data.Undef? || data.Null?
    ensures r.Ok? ==> (r.value <==> Field(data, "remoteStart") == on)
  {
    MonitorFlag(data, "remoteStart", on)
  }

  function IsDoorLocked(data: Value, on: Value): (r: Result<bool, TypeError>)
    ensures r.Err? <==> data.Undef? || data.Null?
    ensures r.Ok? ==> (r.value <==> Field(data, "doorLock") == on)
  {
    MonitorFlag(data, "doorLock", on)
  }

  /** `x * k` for a JavaScript value `x`; `None` is NaN. */
  function Times(x: Value, k: int): Option<int> {
    var n := ToNumber(x);
    if n.Some? then Some(n.value * k) else None
  }

  /**
   * `remainDuration`: the remaining hours and minutes in seconds while running (a missing part
   * counts 0), and 0 otherwise.
   */
  function RemainDuration(data: Value): (r: Option<int>)
    ensures !IsRunning(data) ==> r == Some(0)
    ensures IsRunning(data) && Field(data, "remainTimeHour").Undef? && Field(data, "remainTimeMinute").Undef? ==>
      r == Some(0)
    ensures forall h, m ::
      IsRunning(data) && Field(data, "remainTimeHour") == Num(h) && Field(data, "remainTimeMinute") == Num(m) ==>
        r == Some(h * 3600 + m * 60)
  {
    var hour := Or(Field(data, "remainTimeHour"), Num(0));
    var minute := Or(Field(data, "remainTimeMinute"), Num(0));
    if !IsRunning(data) then Some(0)
    else
      var h, m := Times(hour, 3600), Times(minute, 60);
      if h.Some? && m.Some? then Some(h.value + m.value) else None
  }

  /** `Math.min(parseInt(TCLCount || 0), 30)`; `None` is NaN. */
  function TCLCount(data: Value): (r: Option<int>)
    ensures r.Some? ==> r.value <= TCL_LIMIT
    ensures forall n :: Field(data, "TCLCount") == Num(n) && n != 0 ==> r == Some(if n < TCL_LIMIT then n else TCL_LIMIT)
    ensures !Truthy(Field(data, "TCLCount")) ==> r == Some(0)
  {
    var raw := Field(data, "TCLCount");
    NumberParses(raw);
    NumberParses(Num(0));
    var p := ParseInt(Or(raw, Num(0)));
    if p.Some? then Some(if p.value < TCL_LIMIT then p.value else TCL_LIMIT) else None
  }

  // ---------------------------------------------------------------------------------------------
  // Start/finish detection

  /** The notifications `update` raises. */
  datatype WasherEvent = ProgramFinished | ProgramStarted | TubCleanDue

  /** The detection runs only with the trigger configured, a previous state and the state present. */
  predicate DetectionApplies(trigger: bool, fragment: Value) {
    trigger && (HasKey(fragment, "preState") || HasKey(fragment, "processState")) && HasKey(fragment, "state")
  }

  /**
   * The program just finished: the pushed state is END or COOLDOWN and came from a running
   * state (`preState`, or `processState` when that is falsy), or the unit was running and the
   * merged status no longer is.
   */
  predicate Finishes(running: bool, fragment: Value, merged: Value) {
    (State(fragment) in [Str("END"), Str("COOLDOWN")]
      && !IsNotRunningStatus(Or(Field(fragment, "preState"), Field(fragment, "processState"))))
    || (running && !IsRunning(merged))
  }

  /** The result of one `update`: the new `isRunning` and the notifications raised, in order. */
  datatype Outcome = Outcome(running: bool, events: seq<WasherEvent>)

  /**
   * `update` on a pushed `fragment` (the new `washerDryer` part) with `merged` the device's
   * merged `washerDryer` part. A falsy fragment does nothing; `in` on a truthy primitive throws, and
   * an array has none of the keys looked for.
   */
  function UpdateOutcome(running: bool, trigger: bool, fragment: Value, merged: Value): (r: Result<Outcome, TypeError>)
    ensures !Truthy(fragment) ==> r == Ok(Outcome(running, []))
    ensures r.Err? <==> Truthy(fragment) && !(fragment.Obj? || fragment.Arr?)
    ensures r.Ok? && Truthy(fragment) && !DetectionApplies(trigger, fragment) ==> r.value.running == running
    ensures r.Ok? ==> (ProgramFinished in r.value.events <==>
      Truthy(fragment) && DetectionApplies(trigger, fragment) && Finishes(running, fragment, merged))
    ensures r.Ok? ==> (ProgramStarted in r.value.events <==>
      Truthy(fragment) && DetectionApplies(trigger, fragment) && IsRunning(merged)
      && !(running && !Finishes(running, fragment, merged)))
    ensures r.Ok? ==> (TubCleanDue in r.value.events <==>
      Truthy(fragment) && HasKey(fragment, "TCLCount") && TCLCount(merged) == Some(TCL_LIMIT))
    ensures r.Ok? && Truthy(fragment) && DetectionApplies(trigger, fragment) ==> r.value.running == IsRunning(merged)
  {
    if !Truthy(fragment) then Ok(Outcome(running, []))
    else if !(fragment.Obj? || fragment.Arr?) then Err(TypeError)
    else
      var finished := DetectionApplies(trigger, fragment) && Finishes(running, fragment, merged);
      var afterFinish := if finished then false else running;
      var started := DetectionApplies(trigger, fragment) && IsRunning(merged) && !afterFinish;
      var afterStart := if started then true else afterFinish;
      var tub := HasKey(fragment, "TCLCount") && TCLCount(merged).Some? && TCLCount(merged).value >= TCL_LIMIT;
      Ok(Outcome(afterStart,
        (if finished then [ProgramFinished] else []) + (if started then [ProgramStarted] else [])
        + (if tub then [TubCleanDue] else [])))
  }

  /**
   * When the merged state is the pushed state (what the merge does with a pushed `state`), a
   * push cannot both finish and start the program.
   */
  lemma FinishAndStartExclusive(running: bool, trigger: bool, fragment: Value, merged: Value)
    requires State(merged) == State(fragment)
    requires UpdateOutcome(running, trigger, fragment, merged).Ok?
    ensures var events := UpdateOutcome(running, trigger, fragment, merged).value.events;
      !(ProgramFinished in events && ProgramStarted in events)
  {
    if State(fragment) in [Str("END"), Str("COOLDOWN")] {
      PowerAndErrorStates(merged);
    }
  }

  /** A running program that stops raises the finish notification exactly once. */
  lemma FinishFiresOnce(trigger: bool, fragment: Value, merged: Value)
    requires Truthy(fragment) && DetectionApplies(trigger, fragment) && !IsRunning(merged)
    requires !(State(fragment) in [Str("END"), Str("COOLDOWN")])
    ensures UpdateOutcome(true, trigger, fragment, merged).Ok?
    ensures ProgramFinished in UpdateOutcome(true, trigger, fragment, merged).value.events
    ensures !UpdateOutcome(true, trigger, fragment, merged).value.running
    ensures ProgramFinished !in UpdateOutcome(false, trigger, fragment, merged).value.events
  {
  }

  // ---------------------------------------------------------------------------------------------
  // The accessory object

  class WasherDryer {
    const thinq: ThinQ
    const device: Device
    /** Whether a program was seen running. */
    var isRunning: bool

    constructor (thinq: ThinQ, device: Device)
      ensures this.thinq == thinq && this.device == device && !isRunning
    {
      this.thinq := thinq;
      this.device := device;
      isRunning := false;
    }

    /** The `washerDryer` part of the device's snapshot. */
    function Status(): Value
      reads device
    {
      Get(device.snapshot, "washerDryer")
    }

    /**
     * `setActive`: the characteristic is read-only, so nothing is ever sent; it only reads the
     * remote-start flag (which throws on missing data). `on` is the model's enabled name.
     */
    method SetActive(on: Value) returns (r: Result<(), TypeError>)
      ensures r.Err? <==> Status().Undef? || Status().Null?
    {
      var enabled := IsRemoteStartEnable(Status(), on);
      if enabled.Err? {
        return Err(enabled.error);
      }
      return Ok(());
    }

    /**
     * `update(snapshot)`: store the merged snapshot, then run the detection on the pushed
     * `washerDryer` part against the merged status.
     */
    method Update(snapshot: Snapshot, merged: Snapshot, trigger: bool) returns (r: Result<seq<WasherEvent>, TypeError>)
      modifies this`isRunning, device`snapshot
      ensures device.snapshot == merged
      ensures var o := UpdateOutcome(old(isRunning), trigger, Get(snapshot, "washerDryer"), Get(merged, "washerDryer"));
        (o.Err? ==> r.Err? && isRunning == old(isRunning))
        && (o.Ok? ==> r == Ok(o.value.events) && isRunning == o.value.running)
    {
      device.snapshot := merged;
      var fragment := Get(snapshot, "washerDryer");
      if !Truthy(fragment) {
        return Ok([]);
      }
      if !(fragment.Obj? || fragment.Arr?) {
        return Err(TypeError);
      }
      var status := Status();
      var running := isRunning;
      var events: seq<WasherEvent> := [];
      ghost var finished, started := false, false;
      if trigger && (HasKey(fragment, "preState") || HasKey(fragment, "processState")) && HasKey(fragment, "state") {
        if (State(fragment) in [Str("END"), Str("COOLDOWN")]
            && !IsNotRunningStatus(Or(Field(fragment, "preState"), Field(fragment, "processState"))))
          || (running && !IsRunning(status)) {
          events := events + [ProgramFinished];
          finished := true;
          running := false;
        }
        if IsRunning(status) && !running {
          events := events + [ProgramStarted];
          started := true;
          running := true;
        }
      }
      assert events == (if finished then [ProgramFinished] else []) + (if started then [ProgramStarted] else []);
      var count := TCLCount(status);
      if HasKey(fragment, "TCLCount") && count.Some? && count.value >= TCL_LIMIT {
        events := events + [TubCleanDue];
      }
      isRunning := running;
      r := Ok(events);
      assert status == Get(merged, "washerDryer");
      assert finished == (DetectionApplies(trigger, fragment) && Finishes(old(isRunning), fragment, status));
      assert started == (DetectionApplies(trigger, fragment) && IsRunning(status) && !(if finished then false else old(isRunning)));
      assert running == (if started then true else if finished then false else old(isRunning));
      ghost var o := UpdateOutcome(old(isRunning), trigger, fragment, status);
      assert o.value.running == running;
      assert o.value.events == events;
    }
  }
}
