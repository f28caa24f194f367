/**
 * The air purifier accessory (src/devices/AirPurifier.ts): the status read from the snapshot,
 * the encoding between the HomeKit rotation-speed index and the device's wind strength, and the
 * guarded setters. Each setter is a `...Step` function of the snapshot before the call; the
 * `AirPurifier` methods change the device and the command log exactly as that function says.
 *
 * The status getters return raw snapshot values that every caller uses for their truthiness;
 * they are modelled as predicates on that truthiness.
 */
module AirPurifierModel {
  import opened Wrappers
  import opened JsValues
  import opened Appliance
  import opened ThinQClient

  const OPERATION := "airState.operation"
  const SIGNAL := "airState.lightingState.signal"
  const ROTATE := "airState.circulate.rotate"
  const SENSOR_MON := "airState.quality.sensorMon"
  const OVERALL := "airState.quality.overall"
  const PM2 := "airState.quality.PM2"
  const PM10 := "airState.quality.PM10"
  const WIND_STRENGTH := "airState.windStrength"
  const OP_MODE := "airState.opMode"
  const FILTER_MAX_TIME := "airState.filterMngStates.maxTime"
  const FILTER_USE_TIME := "airState.filterMngStates.useTime"
  const AIR_FAST := "airState.miscFuncState.airFast"

  /** The operating modes: 14 is normal (manual speed), 16 the automatic mode. */
  const MODE_NORMAL := 14
  const MODE_AUTO := 16

  /** `RotateSpeed`: LOW, MEDIUM, HIGH, EXTRA. */
  const ROTATE_VALUES: seq<int> := [2, 4, 6, 7]
  const ROTATE_EXTRA := 7

  /**
   * `Object.keys(RotateSpeed)` of the numeric enum: the reverse-mapping keys in ascending
   * numeric order, then the member names.
   */
  const ROTATE_KEYS: seq<string> := ["2", "4", "6", "7", "LOW", "MEDIUM", "HIGH", "EXTRA"]

  // ---------------------------------------------------------------------------------------------
  // Status

  /** `operation`, read as a condition. */
  predicate IsPowerOn(data: Snapshot)
    ensures forall n :: Get(data, OPERATION) == Num(n) ==> (IsPowerOn(data) <==> n != 0)
    ensures OPERATION !in data ==> !IsPowerOn(data)
  {
    Truthy(Get(data, OPERATION))
  }

  /** `isPowerOn && signal`. */
  predicate IsLightOn(data: Snapshot)
    ensures IsLightOn(data) ==> IsPowerOn(data)
  {
    IsPowerOn(data) && Truthy(Get(data, SIGNAL))
  }

  /** `rotate || 0`. */
  predicate IsSwing(data: Snapshot)
    ensures forall n :: Get(data, ROTATE) == Num(n) ==> (IsSwing(data) <==> n != 0)
    ensures ROTATE !in data ==> !IsSwing(data)
  {
    Truthy(Or(Get(data, ROTATE), Num(0)))
  }

  /** `opMode === 14`: strict, so the string "14" is not normal mode. */
  predicate IsNormalMode(data: Snapshot)
    ensures forall n :: Get(data, OP_MODE) == Num(n) ==> (IsNormalMode(data) <==> n == MODE_NORMAL)
    ensures forall s :: Get(data, OP_MODE) == Str(s) ==> !IsNormalMode(data)
  {
    Get(data, OP_MODE) == Num(MODE_NORMAL)
  }

  /** `airFast || 0`. */
  predicate IsAirFastEnable(data: Snapshot)
    ensures forall n :: Get(data, AIR_FAST) == Num(n) ==> (IsAirFastEnable(data) <==> n != 0)
    ensures AIR_FAST !in data ==> !IsAirFastEnable(data)
  {
    Truthy(Or(Get(data, AIR_FAST), Num(0)))
  }

  /** The air-quality reading; a `None` level is NaN. */
  datatype AirQuality = AirQuality(isOn: bool, overall: Option<int>, pm2: Option<int>, pm10: Option<int>)

  /**
   * The sensor is active when the purifier is on or the always-on sensor flag is set; the
   * overall level is parsed as is, the two densities default to 0 when missing.
   */
  function AirQualityOf(data: Snapshot): (q: AirQuality)
    ensures q.isOn <==> IsPowerOn(data) || Truthy(Get(data, SENSOR_MON))
    ensures q.overall == ParseInt(Get(data, OVERALL))
    ensures !Truthy(Get(data, PM2)) ==> q.pm2 == Some(0)
    ensures !Truthy(Get(data, PM10)) ==> q.pm10 == Some(0)
    ensures Truthy(Get(data, PM2)) ==> q.pm2 == ParseInt(Get(data, PM2))
    ensures Truthy(Get(data, PM10)) ==> q.pm10 == ParseInt(Get(data, PM10))
    ensures forall n :: Get(data, PM2) == Num(n) ==> q.pm2 == Some(n)
    ensures forall n :: Get(data, PM10) == Num(n) ==> q.pm10 == Some(n)
  {
    NumberParses(Get(data, PM2));
    NumberParses(Get(data, PM10));
    AirQuality(IsPowerOn(data) || Truthy(Get(data, SENSOR_MON)),
      ParseInt(Get(data, OVERALL)),
      ParseInt(Or(Get(data, PM2), Str("0"))),
      ParseInt(Or(Get(data, PM10), Str("0"))))
  }

  /** `maxTime || 0` */
  function FilterMaxTime(data: Snapshot): Value {
    Or(Get(data, FILTER_MAX_TIME), Num(0))
  }

  /** `useTime || 0` */
  function FilterUseTime(data: Snapshot): Value {
    Or(Get(data, FILTER_USE_TIME), Num(0))
  }

  /** `Math.round(p / q)` for `q != 0`: the nearest integer, halves rounded up. */
  function RoundQuotient(p: int, q: int): (r: int)
    requires q != 0
    ensures q > 0 ==> 2 * q * r <= 2 * p + q < 2 * q * (r + 1)
  {
    if q > 0 then (2 * p + q) / (2 * q) else (-(2 * p + q)) / (-2 * q)
  }

  /**
   * The remaining filter life in percent, `round((1 - use / max) * 100)`, in exact arithmetic:
   * 0 when the maximum is missing or 0; `None` when the division is not finite (a zero given as
   * a string) or a time is not a number.
   */
  function FilterUsedTimePercent(data: Snapshot): (r: Option<int>)
    ensures !Truthy(FilterMaxTime(data)) ==> r == Some(0)
    ensures Get(data, FILTER_MAX_TIME).Undef? || Get(data, FILTER_MAX_TIME) == Num(0) ==> r == Some(0)
  {
    if !Truthy(FilterMaxTime(data)) then Some(0)
    else
      var u, m := ToNumber(FilterUseTime(data)), ToNumber(FilterMaxTime(data));
      if u.None? || m.None? || m.value == 0 then None
      else Some(RoundQuotient(100 * (m.value - u.value), m.value))
  }

  /** Rounding a quotient that lies between 0 and 100 stays between 0 and 100. */
  lemma RoundQuotientBounds(p: int, q: int)
    requires q > 0 && 0 <= p <= 100 * q
    ensures 0 <= RoundQuotient(p, q) <= 100
    ensures p == 100 * q ==> RoundQuotient(p, q) == 100
    ensures p == 0 ==> RoundQuotient(p, q) == 0
  {
    var r, d := RoundQuotient(p, q), 2 * q;
    assert d * r <= 2 * p + q < d * (r + 1);
    MulCancel(d, 0, r + 1);
    MulCancel(d, r, 101);
    if p == 100 * q {
      MulCancel(d, 100, r + 1);
    }
    if p == 0 {
      MulCancel(d, r, 1);
    }
  }

  lemma MulCancel(d: int, x: int, y: int)
    requires d > 0 && d * x < d * y
    ensures x < y
  {
  }

  /** A used time between 0 and the maximum gives a percentage between 0 and 100. */
  lemma FilterPercentBounds(data: Snapshot, u: int, m: int)
    requires Get(data, FILTER_MAX_TIME) == Num(m) && Get(data, FILTER_USE_TIME) == Num(u)
    requires 0 <= u <= m && m > 0
    ensures FilterUsedTimePercent(data).Some?
    ensures 0 <= FilterUsedTimePercent(data).value <= 100
    ensures u == 0 ==> FilterUsedTimePercent(data).value == 100
    ensures u == m ==> FilterUsedTimePercent(data).value == 0
  {
    assert ToNumber(FilterUseTime(data)) == Some(u);
    assert FilterUsedTimePercent(data) == Some(RoundQuotient(100 * (m - u), m));
    RoundQuotientBounds(100 * (m - u), m);
  }

  /** The parsed form of each key of `RotateSpeed`: the four values, then four names. */
  lemma KeysParse()
    ensures forall k :: 0 <= k < 4 ==> ParseIntString(ROTATE_KEYS[k]) == Some(ROTATE_VALUES[k])
    ensures forall k :: 4 <= k < |ROTATE_KEYS| ==> ParseIntString(ROTATE_KEYS[k]) == None
  {
    forall k | 0 <= k < 4
      ensures ParseIntString(ROTATE_KEYS[k]) == Some(ROTATE_VALUES[k])
    {
      var s := ROTATE_KEYS[k];
      assert |s| == 1 && IsDigit(s[0]) && !IsSpace(s[0]);
      assert TrimStart(s) == s;
      assert DigitPrefix(s[1..]) == [];
      assert DigitPrefix(s) == s;
      assert DigitsValue(s) == DigitsValue([]) * 10 + DigitValue(s[0]);
    }
    forall k | 4 <= k < |ROTATE_KEYS|
      ensures ParseIntString(ROTATE_KEYS[k]) == None
    {
      var s := ROTATE_KEYS[k];
      assert !IsSpace(s[0]) && !IsDigit(s[0]) && s[0] != '-' && s[0] != '+';
      assert TrimStart(s) == s;
    }
  }

  /** Where `String(n)` sits among the keys: one of the four values, or nowhere. */
  lemma KeyIndexOfNumber(n: int)
    ensures -1 <= IndexOf(ROTATE_KEYS, IntToString(n)) < 4
    ensures IndexOf(ROTATE_KEYS, IntToString(n)) >= 0 ==> ROTATE_VALUES[IndexOf(ROTATE_KEYS, IntToString(n))] == n
    ensures IndexOf(ROTATE_KEYS, IntToString(n)) >= 0 <==> n in ROTATE_VALUES
    ensures forall k :: 0 <= k < 4 && n == ROTATE_VALUES[k] ==> IndexOf(ROTATE_KEYS, IntToString(n)) == k
  {
    KeyIndexFound(n);
    forall k | 0 <= k < 4 && n == ROTATE_VALUES[k]
      ensures IndexOf(ROTATE_KEYS, IntToString(n)) == k
    {
      KeyIndexOfValue(k);
    }
  }

  /** A rendering found among the keys is one of the four one-digit values. */
  lemma KeyIndexFound(n: int)
    ensures -1 <= IndexOf(ROTATE_KEYS, IntToString(n)) < 4
    ensures IndexOf(ROTATE_KEYS, IntToString(n)) >= 0 ==> ROTATE_VALUES[IndexOf(ROTATE_KEYS, IntToString(n))] == n
  {
    var s := IntToString(n);
    IndexOfBounds(ROTATE_KEYS, s);
    IntToStringHead(n);
    var i := IndexOf(ROTATE_KEYS, s);
    if i >= 0 {
      IntToStringOneChar(n, ROTATE_KEYS[i][0]);
    }
  }

  /** Each of the four values renders as its own key. */
  lemma KeyIndexOfValue(k: nat)
    requires k < 4
    ensures IndexOf(ROTATE_KEYS, IntToString(ROTATE_VALUES[k])) == k
  {
    assert IntToString(ROTATE_VALUES[k]) == ROTATE_KEYS[k];
    IndexOfDistinct(ROTATE_KEYS, k);
  }

  /** The same, for the rendering of a parse result; "NaN" is not a key. */
  lemma KeyIndexOfParsed(p: Option<int>)
    ensures -1 <= IndexOf(ROTATE_KEYS, NumberToString(p)) < 4
    ensures p.None? ==> IndexOf(ROTATE_KEYS, NumberToString(p)) == -1
    ensures IndexOf(ROTATE_KEYS, NumberToString(p)) >= 0 <==> p.Some? && p.value in ROTATE_VALUES
    ensures IndexOf(ROTATE_KEYS, NumberToString(p)) >= 0 ==> ROTATE_VALUES[IndexOf(ROTATE_KEYS, NumberToString(p))] == p.value
  {
    if p.Some? {
      KeyIndexOfNumber(p.value);
    } else {
      IndexOfBounds(ROTATE_KEYS, "NaN");
    }
  }

  /**
   * `rotationSpeed`: one more than the position of the parsed wind strength among the values,
   * and 4 (half the number of enum keys) for anything else.
   */
  function RotationSpeedOf(data: Snapshot): (r: int)
    ensures 1 <= r <= 4
    ensures var p := ParseInt(Get(data, WIND_STRENGTH));
      p.Some? && p.value in ROTATE_VALUES ==> ROTATE_VALUES[r - 1] == p.value
    ensures var p := ParseInt(Get(data, WIND_STRENGTH));
      !(p.Some? && p.value in ROTATE_VALUES) ==> r == |ROTATE_KEYS| / 2
  {
    var p := ParseInt(Get(data, WIND_STRENGTH));
    var s := NumberToString(p);
    KeyIndexOfParsed(p);
    var index := IndexOf(ROTATE_KEYS, s);
    if index != -1 then index + 1 else |ROTATE_KEYS| / 2
  }

  /** The wind strength `setRotationSpeed(index)` asks for: `parseInt(keys[index - 1]) || EXTRA`. */
  function WindFor(index: int): (w: int)
    ensures 1 <= index <= 4 ==> w == ROTATE_VALUES[index - 1]
    ensures !(1 <= index <= 4) ==> w == ROTATE_EXTRA
  {
    KeysParse();
    var key := if 1 <= index <= |ROTATE_KEYS| then Str(ROTATE_KEYS[index - 1]) else Undef;
    var p := ParseInt(key);
    if p.Some? && p.value != 0 then p.value else ROTATE_EXTRA
  }

  // ---------------------------------------------------------------------------------------------
  // Setters, as functions of the snapshot before the call

  /** A single-property setter that writes `v` under `key` when `guard` holds, and else does nothing. */
  function GuardedWrite(id: string, data: Snapshot, guard: bool, key: string, v: Value): (r: Step)
    ensures r.data == Replay(data, r.sent)
    ensures r.sent == [] <==> !guard
    ensures guard ==> r.sent == [SetCommand(id, key, v)] && r.data == data[key := v]
    ensures !guard ==> r.data == data
    ensures OnlyChanged(data, r.data, {key})
  {
    if guard then WriteOne(id, data, key, v) else NoOp(data)
  }

  /** `setAirFastActive`: powered on only. */
  function AirFastStep(id: string, data: Snapshot, isOn: bool): (r: Step)
    ensures r.data == Replay(data, r.sent)
    ensures r.sent == [] <==> !IsPowerOn(data)
    ensures IsPowerOn(data) ==> r.sent == [SetCommand(id, AIR_FAST, Num(Flag(isOn)))] && IsAirFastEnable(r.data) == isOn
    ensures OnlyChanged(data, r.data, {AIR_FAST})
  {
    GuardedWrite(id, data, IsPowerOn(data), AIR_FAST, Num(Flag(isOn)))
  }

  /** `setLight`: powered on only. */
  function LightStep(id: string, data: Snapshot, isOn: bool): (r: Step)
    ensures r.data == Replay(data, r.sent)
    ensures r.sent == [] <==> !IsPowerOn(data)
    ensures IsPowerOn(data) ==> r.sent == [SetCommand(id, SIGNAL, Num(Flag(isOn)))] && IsLightOn(r.data) == isOn
    ensures OnlyChanged(data, r.data, {SIGNAL})
  {
    GuardedWrite(id, data, IsPowerOn(data), SIGNAL, Num(Flag(isOn)))
  }

  /** `setSwingMode`: powered on and in normal mode only. */
  function SwingStep(id: string, data: Snapshot, isOn: bool): (r: Step)
    ensures r.data == Replay(data, r.sent)
    ensures r.sent == [] <==> !IsPowerOn(data) || !IsNormalMode(data)
    ensures IsPowerOn(data) && IsNormalMode(data) ==>
      r.sent == [SetCommand(id, ROTATE, Num(Flag(isOn)))] && IsSwing(r.data) == isOn
    ensures OnlyChanged(data, r.data, {ROTATE})
  {
    GuardedWrite(id, data, IsPowerOn(data) && IsNormalMode(data), ROTATE, Num(Flag(isOn)))
  }

  /** `setActive`: nothing when on and asked to be on; any other request is sent and written back. */
  function ActiveStep(id: string, data: Snapshot, isOn: bool): (r: Step)
    ensures r.data == Replay(data, r.sent)
    ensures r.sent == [] <==> IsPowerOn(data) && isOn
    ensures !isOn ==> r.sent == [SetCommand(id, OPERATION, Num(0))] && Get(r.data, OPERATION) == Num(0)
    ensures IsPowerOn(r.data) == isOn
    ensures OnlyChanged(data, r.data, {OPERATION})
  {
    GuardedWrite(id, data, !(IsPowerOn(data) && isOn), OPERATION, Num(Flag(isOn)))
  }

  /**
   * `setTargetAirPurifierState(auto)`: powered on, and only when the request leaves the current
   * mode (auto asked in normal mode, manual asked in auto mode); sends 16 or 14 and does not
   * write the snapshot back.
   */
  function TargetStateStep(id: string, data: Snapshot, auto: bool): (r: Step)
    ensures r.data == data
    ensures r.sent == [] <==> !IsPowerOn(data) || auto != IsNormalMode(data)
    ensures r.sent != [] ==> r.sent == [SetCommand(id, OP_MODE, Num(if auto then MODE_AUTO else MODE_NORMAL))]
    ensures r.sent != [] ==> (Writes(r.sent[0])[OP_MODE] == Num(MODE_NORMAL) <==> !IsNormalMode(data))
  {
    if !IsPowerOn(data) || auto != IsNormalMode(data) then NoOp(data)
    else Step([SetCommand(id, OP_MODE, Num(if auto then MODE_AUTO else MODE_NORMAL))], data)
  }

  /** `setRotationSpeed(index)`: powered on and in normal mode only; writes `WindFor(index)`. */
  function RotationSpeedStep(id: string, data: Snapshot, index: int): (r: Step)
    ensures r.data == Replay(data, r.sent)
    ensures r.sent == [] <==> !IsPowerOn(data) || !IsNormalMode(data)
    ensures r.sent != [] ==>
      r.sent == [SetCommand(id, WIND_STRENGTH, Num(WindFor(index)))] && Get(r.data, WIND_STRENGTH) == Num(WindFor(index))
    ensures OnlyChanged(data, r.data, {WIND_STRENGTH})
  {
    GuardedWrite(id, data, IsPowerOn(data) && IsNormalMode(data), WIND_STRENGTH, Num(WindFor(index)))
  }

  /** Index to wind strength to index: for 1..4 the next status reports the index that was set. */
  lemma RotationSpeedRoundTrip(id: string, data: Snapshot, index: int)
    requires 1 <= index <= 4 && IsPowerOn(data) && IsNormalMode(data)
    ensures RotationSpeedOf(RotationSpeedStep(id, data, index).data) == index
  {
    var after := RotationSpeedStep(id, data, index).data;
    var w := WindFor(index);
    ParseIntOfNum(w);
    assert ParseInt(Get(after, WIND_STRENGTH)) == Some(ROTATE_VALUES[index - 1]);
    KeyIndexOfNumber(w);
  }

  /** Index 0 (and every index outside 1..4) asks for EXTRA, which reads back as 4. */
  lemma RotationSpeedOutOfRange(id: string, data: Snapshot, index: int)
    requires !(1 <= index <= 4) && IsPowerOn(data) && IsNormalMode(data)
    ensures RotationSpeedOf(RotationSpeedStep(id, data, index).data) == 4
  {
    ParseIntOfNum(ROTATE_EXTRA);
  }

  // ---------------------------------------------------------------------------------------------
  // The accessory object

  class AirPurifier {
    const thinq: ThinQ
    const device: Device

    constructor (thinq: ThinQ, device: Device)
      ensures this.thinq == thinq && this.device == device
    {
      this.thinq := thinq;
      this.device := device;
    }

    /** Dispatch a single-property `Set` and, once it is done, write the value into the snapshot. */
    method Write(key: string, v: Value)
      modifies device`snapshot, thinq`sent, thinq`calls
      ensures thinq.sent == old(thinq.sent) + [SetCommand(device.id, key, v)]
      ensures device.snapshot == old(device.snapshot)[key := v]
    {
      var c := SetCommand(device.id, key, v);
      var _ := thinq.DeviceControl(DeviceId(device.id), c.values, c.command, c.ctrlKey);
      device.snapshot := device.snapshot[key := v];
    }

    method SetAirFastActive(isOn: bool)
      modifies device`snapshot, thinq`sent, thinq`calls
      ensures device.snapshot == AirFastStep(device.id, old(device.snapshot), isOn).data
      ensures thinq.sent == old(thinq.sent) + AirFastStep(device.id, old(device.snapshot), isOn).sent
    {
      if !IsPowerOn(device.snapshot) {
        return;
      }
      Write(AIR_FAST, Num(Flag(isOn)));
    }

    method SetActive(isOn: bool)
      modifies device`snapshot, thinq`sent, thinq`calls
      ensures device.snapshot == ActiveStep(device.id, old(device.snapshot), isOn).data
      ensures thinq.sent == old(thinq.sent) + ActiveStep(device.id, old(device.snapshot), isOn).sent
    {
      if IsPowerOn(device.snapshot) && isOn {
        return;
      }
      Write(OPERATION, Num(Flag(isOn)));
    }

    method SetTargetAirPurifierState(auto: bool)
      modifies thinq`sent, thinq`calls
      ensures thinq.sent == old(thinq.sent) + TargetStateStep(device.id, device.snapshot, auto).sent
    {
      if !IsPowerOn(device.snapshot) || auto != IsNormalMode(device.snapshot) {
        return;
      }
      var c := SetCommand(device.id, OP_MODE, Num(if auto then MODE_AUTO else MODE_NORMAL));
      var _ := thinq.DeviceControl(DeviceId(device.id), c.values, c.command, c.ctrlKey);
    }

    method SetRotationSpeed(index: int)
      modifies device`snapshot, thinq`sent, thinq`calls
      ensures device.snapshot == RotationSpeedStep(device.id, old(device.snapshot), index).data
      ensures thinq.sent == old(thinq.sent) + RotationSpeedStep(device.id, old(device.snapshot), index).sent
    {
      if !IsPowerOn(device.snapshot) || !IsNormalMode(device.snapshot) {
        return;
      }
      Write(WIND_STRENGTH, Num(WindFor(index)));
    }

    method SetSwingMode(isOn: bool)
      modifies device`snapshot, thinq`sent, thinq`calls
      ensures device.snapshot == SwingStep(device.id, old(device.snapshot), isOn).data
      ensures thinq.sent == old(thinq.sent) + SwingStep(device.id, old(device.snapshot), isOn).sent
    {
      if !IsPowerOn(device.snapshot) || !IsNormalMode(device.snapshot) {
        return;
      }
      Write(ROTATE, Num(Flag(isOn)));
    }

    method SetLight(isOn: bool)
      modifies device`snapshot, thinq`sent, thinq`calls
      ensures device.snapshot == LightStep(device.id, old(device.snapshot), isOn).data
      ensures thinq.sent == old(thinq.sent) + LightStep(device.id, old(device.snapshot), isOn).sent
    {
      if !IsPowerOn(device.snapshot) {
        return;
      }
      Write(SIGNAL, Num(Flag(isOn)));
    }
  }
}
