/**
 * The legacy (first-generation protocol) air purifier (src/v1/devices/AirPurifier.ts): the same
 * setters as the current one, each a guard and one `thinq1DeviceControl(device, key, value)`
 * with the value as a decimal string. No legacy setter writes the snapshot back: each is a
 * function of the snapshot that yields the command to send, if any.
 */
module AirPurifierLegacy {
  import opened Wrappers
  import opened JsValues
  import opened Appliance
  import opened AirPurifierModel

  /** One first-generation control request: a control key and its string value. */
  datatype LegacyCommand = LegacyCommand(key: string, value: string)

  /** `isOn ? '1' : '0'` */
  function FlagString(isOn: bool): (s: string)
    ensures s == IntToString(Flag(isOn))
    ensures StringToNumber(s) == Some(Flag(isOn))
  {
    if isOn then "1" else "0"
  }

  /** `setActive`: no guard at all, every request is sent. */
  function LegacyActive(isOn: bool): (c: LegacyCommand)
    ensures c.key == "Operation" && StringToNumber(c.value) == Some(Flag(isOn))
  {
    LegacyCommand("Operation", FlagString(isOn))
  }

  /** `setTargetAirPurifierState`: the current variant's guard, then 'OpMode' as '16' or '14'. */
  function LegacyTargetState(data: Snapshot, auto: bool): (c: Option<LegacyCommand>)
    ensures c.Some? <==> IsPowerOn(data) && auto == IsNormalMode(data)
    ensures c.Some? ==>
      c.value.key == "OpMode" && StringToNumber(c.value.value) == Some(if auto then MODE_AUTO else MODE_NORMAL)
  {
    assert "16"[..1] == "1" && "14"[..1] == "1" && "1"[..0] == [];
    if !IsPowerOn(data) || auto != IsNormalMode(data) then None
    else Some(LegacyCommand("OpMode", if auto then "16" else "14"))
  }

  /** `setRotationSpeed`: powered on and normal mode, then 'WindStrength' as `String(WindFor(index))`. */
  function LegacyRotationSpeed(data: Snapshot, index: int): (c: Option<LegacyCommand>)
    ensures c.Some? <==> IsPowerOn(data) && IsNormalMode(data)
    ensures c.Some? ==> c.value.key == "WindStrength" && ParseIntString(c.value.value) == Some(WindFor(index))
  {
    ParseIntOfIntToString(WindFor(index));
    if !IsPowerOn(data) || !IsNormalMode(data) then None
    else Some(LegacyCommand("WindStrength", IntToString(WindFor(index))))
  }

  /** `setSwingMode`: powered on and normal mode, then 'CirculateDir'. */
  function LegacySwing(data: Snapshot, isOn: bool): (c: Option<LegacyCommand>)
    ensures c.Some? <==> IsPowerOn(data) && IsNormalMode(data)
    ensures c.Some? ==> c.value.key == "CirculateDir" && StringToNumber(c.value.value) == Some(Flag(isOn))
  {
    if !IsPowerOn(data) || !IsNormalMode(data) then None
    else Some(LegacyCommand("CirculateDir", FlagString(isOn)))
  }

  /** `setLight`: powered on, then 'SignalLighting'. */
  function LegacyLight(data: Snapshot, isOn: bool): (c: Option<LegacyCommand>)
    ensures c.Some? <==> IsPowerOn(data)
    ensures c.Some? ==> c.value.key == "SignalLighting" && StringToNumber(c.value.value) == Some(Flag(isOn))
  {
    if !IsPowerOn(data) then None else Some(LegacyCommand("SignalLighting", FlagString(isOn)))
  }

  /** `setAirFastActive`: powered on, then 'AirFast'. */
  function LegacyAirFast(data: Snapshot, isOn: bool): (c: Option<LegacyCommand>)
    ensures c.Some? <==> IsPowerOn(data)
    ensures c.Some? ==> c.value.key == "AirFast" && StringToNumber(c.value.value) == Some(Flag(isOn))
  {
    if !IsPowerOn(data) then None else Some(LegacyCommand("AirFast", FlagString(isOn)))
  }

  // ---------------------------------------------------------------------------------------------
  // The two variants side by side

  /** The value the current variant writes with its single command. */
  function SentValue(s: Step): Value
    requires |s.sent| == 1
  {
    Get(s.sent[0].values, "dataValue")
  }

  /**
   * Every guarded legacy setter sends exactly when the current variant sends, and its string is
   * the decimal rendering of the number the current variant sends.
   */
  lemma GuardedSettersAgree(id: string, data: Snapshot, isOn: bool, index: int)
    ensures LegacyTargetState(data, isOn).Some? <==> TargetStateStep(id, data, isOn).sent != []
    ensures LegacyTargetState(data, isOn).Some? ==>
      LegacyTargetState(data, isOn).value.value == IntToString(SentValue(TargetStateStep(id, data, isOn)).n)
    ensures LegacyRotationSpeed(data, index).Some? <==> RotationSpeedStep(id, data, index).sent != []
    ensures LegacyRotationSpeed(data, index).Some? ==>
      LegacyRotationSpeed(data, index).value.value == IntToString(SentValue(RotationSpeedStep(id, data, index)).n)
    ensures LegacySwing(data, isOn).Some? <==> SwingStep(id, data, isOn).sent != []
    ensures LegacySwing(data, isOn).Some? ==>
      LegacySwing(data, isOn).value.value == IntToString(SentValue(SwingStep(id, data, isOn)).n)
    ensures LegacyLight(data, isOn).Some? <==> LightStep(id, data, isOn).sent != []
    ensures LegacyLight(data, isOn).Some? ==>
      LegacyLight(data, isOn).value.value == IntToString(SentValue(LightStep(id, data, isOn)).n)
    ensures LegacyAirFast(data, isOn).Some? <==> AirFastStep(id, data, isOn).sent != []
    ensures LegacyAirFast(data, isOn).Some? ==>
      LegacyAirFast(data, isOn).value.value == IntToString(SentValue(AirFastStep(id, data, isOn)).n)
  {
    assert IntToString(16) == "16" && IntToString(14) == "14";
  }

  /** Unlike the current variant, the legacy `setActive` also sends "on" to a purifier that is on. */
  lemma ActiveIsUnguarded(id: string, data: Snapshot)
    requires IsPowerOn(data)
    ensures ActiveStep(id, data, true).sent == []
    ensures LegacyActive(true) == LegacyCommand("Operation", "1")
  {
  }

  /** The legacy rotation speed sends one of the four enum keys for 1..4, and "7" otherwise. */
  lemma LegacyRotationKeys(data: Snapshot, index: int)
    requires IsPowerOn(data) && IsNormalMode(data)
    ensures 1 <= index <= 4 ==> LegacyRotationSpeed(data, index).value.value == ROTATE_KEYS[index - 1]
    ensures !(1 <= index <= 4) ==> LegacyRotationSpeed(data, index).value.value == "7"
  {
    assert IntToString(2) == "2" && IntToString(4) == "4" && IntToString(6) == "6" && IntToString(7) == "7";
  }
}
