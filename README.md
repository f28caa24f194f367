# homebridge-lg-ac: a Dafny model of the device-state core

This project models the core of the homebridge-lg-ac plugin. The plugin bridges LG ThinQ
appliances to HomeKit. It keeps each appliance's raw property snapshot, a map from dotted keys
such as `airState.operation` to JSON values. From it the plugin derives semantic state: power,
mode, swing, air quality and the washer's program state. Guarded setters send a control command to
the LG cloud and then write the sent keys back into the snapshot.

The model covers these parts:

- the air-conditioner controller (`ACControl`);
- the fan accessory of an air conditioner (`FanUnitModel`);
- the current air purifier (`AirPurifierModel`) and the first-generation one (`AirPurifierLegacy`);
- the washer/dryer (`WasherDryerModel`);
- the request pipeline: transport retry and error classification (`HttpPolicy`), and the
  per-call retry, headers, command bodies and caches of the API client (`ThinQApi`);
- the client helpers (`ThinQClient`): control-result mapping, MQTT start-up retry, root-CA choice,
  CSR stripping and the device-model cache.

Supporting modules:

- `Wrappers` holds `Option` and `Result`.
- `JsValues` gives JavaScript values and the operators the source relies on: truthiness, `||`,
  `??`, `?.`, `parseInt`, `String(n)`, the conversion of arrays and objects to primitives, loose `<=`
  (strings in UTF-16 code-unit order), `indexOf` and `includes`.
- `Appliance` holds the shared `Device` object, the `Command` record, and a `Step`. A `Step` is
  the commands a setter sends together with the snapshot it leaves. `Replay` re-applies sent
  commands to a snapshot.

Each setter is specified twice:

- A pure `...Step` function gives the commands and the new snapshot. Its contract is proved: the
  guard as an if-and-only-if, what the derived getters read afterwards, that the new snapshot is
  the old one with exactly the sent commands replayed, and that no other key changes.
- The class method (`ACController.SetActive`, `AirPurifier.SetLight`, ...) changes
  `device.snapshot` and the client's command log `thinq.sent`. It is proved to leave exactly the
  state its `Step` function describes.

Modelling choices:

- The cloud dispatcher is a command log that always completes. `deviceControl` and `request` never
  reject, so the write-back after a dispatch always runs.
- Numbers are integers, and a missing key reads as `undefined`.
- I/O becomes parameters:
  - a transport attempt is an oracle `nat -> Attempt`;
  - the token-refresh outcome and the server's error codes are fields of an `Env`;
  - the MQTT connection attempt is `connect: nat -> bool`;
  - each home's device-list response is `respond`;
  - the random draws of the message id are a sequence of indices;
  - the downloaded device model is an `Option`;
  - the deep-merged washer snapshot is passed in.
- `lookupMonitorName` (the device model's remote-start and door-lock "on" value) is a parameter.
- A device's swing sub-mode options are a parameter, because the device model's schema is not
  part of this model.

## Model

| member | source | states |
|---|---|---|
| ACControl.IsPowerOn | src/lib/controllers/ACController.ts:45-47 | A stored number means power on iff it is non-zero. A missing operation key means off. |
| ACControl.IsLightOn | src/lib/controllers/ACController.ts:49-51 | A stored number means the display light is on iff it is non-zero. A missing key means off. |
| ACControl.IsSwingOn | src/lib/controllers/ACController.ts:58-62 | With neither step stored, swing is off. With only a vertical step v stored, swing is on iff `Math.floor(v / 100)` is non-zero, that is iff v >= 100 or v < 0. |
| ACControl.ComfortMode | src/lib/controllers/ACController.ts:72-74 | A stored sleep time n means comfort mode iff n > 0. A missing sleep time means no comfort mode. |
| ACControl.JetMode | src/lib/controllers/ACController.ts:76-78 | A stored number means jet mode iff it is non-zero. A missing key means no jet mode. |
| ACControl.CurrentModeOf | src/lib/controllers/ACController.ts:84-102 | OFF exactly when power is off. When powered on, a HEAT or COOL opMode gives that mode, and any other opMode gives COOL iff the current temperature is loosely `<=` the target: both sides go through `ToPrimitive`, two strings (arrays and objects included, through their string form) compare in UTF-16 order, and anything else compares as numbers. The `Unreachable` branch is proved dead. |
| JsValues.ToPrimitive | src/lib/controllers/ACController.ts:91 | An array or object becomes the string `String(v)` gives (elements joined by commas, `[object Object]`), and a primitive stays as it is. |
| JsValues.CodeUnits | src/lib/controllers/ACController.ts:91 | A string's UTF-16 code units: at least one per character, and exactly the characters' codes when every character is in the Basic Multilingual Plane. |
| JsValues.LooseLessEqNumbers | src/lib/controllers/ACController.ts:91 | On two numbers, loose `<=` is integer `<=`. |
| JsValues.ArrayAgainstStringIsTextual | src/lib/controllers/ACController.ts:91 | `[10] <= "9"` holds: the array becomes the string "10", which sorts before "9". |
| JsValues.NumberAgainstStringIsNumeric | src/lib/controllers/ACController.ts:91 | `10 <= "9"` fails: a number against a string compares as numbers. |
| JsValues.ObjectAgainstStringIsTextual | src/lib/controllers/ACController.ts:91 | `{} <= "x"` holds: the object becomes "[object Object]", which starts with `[`. |
| JsValues.SupplementaryBeforeLastBmp | src/lib/controllers/ACController.ts:91 | U+10000 sorts before U+FFFF, because its first UTF-16 code unit is a surrogate 0xD800. |
| ACControl.SwingOfStoredSteps | src/lib/controllers/ACController.ts:58-62 | Swing is on iff vStep/100 + hStep/100 is non-zero, with missing steps read as 0. |
| ACControl.DirectionBits | src/lib/controllers/ACController.ts:112-125 | The HORIZONTAL bit is set iff some option matches LEFT_RIGHT, and the VERTICAL bit iff some option matches UP_DOWN. The result is BOTH iff both are set, so it is always NONE, VERTICAL, HORIZONTAL or BOTH. |
| ACControl.ACController.WindDirectionAllowed | src/lib/controllers/ACController.ts:112-125 | The bit-OR loop returns the directions of the option list, with each bit tied to its option. |
| ACControl.LightStep | src/lib/controllers/ACController.ts:183-199 | Sends nothing iff power is off or the light already has the requested state. Otherwise it sends and writes the display key as 1/0. Afterwards a powered unit reads the requested light state, and no other key changes. |
| ACControl.OpModeStep | src/lib/controllers/ACController.ts:270-284 | A no-op when the mode is unchanged. Otherwise it sends the opMode first and then turns the light off, so a powered unit has its light off. Afterwards opMode is the requested mode and power is unchanged. Only opMode and the light key change. |
| ACControl.AutoModeStep | src/lib/controllers/ACController.ts:286-290 | Leaves opMode AUTO, and is a no-op when it already is. Power is unchanged, and only opMode and light change. |
| ACControl.AutoModeIsOpModeAuto | src/lib/controllers/ACController.ts:286-290 | `ensureAutoMode` is exactly `setOpMode(AUTO)`. |
| ACControl.ActiveStep | src/lib/controllers/ACController.ts:127-143 | Nothing is sent when the unit is already on and `isOn` is non-zero. Otherwise the operation command comes first, and afterwards power equals `isOn != 0`. Turning on a unit that was off drives opMode to AUTO. Turning off sends one command. Only operation, opMode and light change. |
| ACControl.TargetTemperatureStep | src/lib/controllers/ACController.ts:145-163 | Sends nothing iff power is off or the target is already `t`. Otherwise opMode ends up AUTO, the last command writes the target, and the target reads `t`. Power is unchanged. Only opMode, light and target change. |
| ACControl.FanSpeedStep | src/lib/controllers/ACController.ts:165-181 | Sends nothing iff power is off or the wind strength already equals the level. Otherwise it sends the single wind-strength command. A powered unit reads the level afterwards, and no other key changes. |
| ACControl.SwingStep | src/lib/controllers/ACController.ts:201-239 | Sends nothing iff power is off or no direction is allowed. BOTH sends one batched favoriteCtrl command writing both steps, and swing then reads as requested. VERTICAL or HORIZONTAL writes only that axis. The written value is 100 or 0. |
| ACControl.ComfortSleepStep | src/lib/controllers/ACController.ts:241-258 | Always sends one batched command of sleepTime 420/0 and vStep 1/0. Afterwards comfortMode equals the request, and only those two keys change. |
| ACControl.JetStep | src/lib/controllers/ACController.ts:260-268 | Always sends the jet key as 1/0. Afterwards jetMode equals the request, and only that key changes. |
| ACControl.ACController.Dispatch | src/lib/ThinQ.ts:75-85 | A dispatched command is appended to the log, and its keys are written into the snapshot. |
| ACControl.ACController.SetLight | src/lib/controllers/ACController.ts:183-199 | The new snapshot and command log are those of `LightStep`. |
| ACControl.ACController.SetOpMode | src/lib/controllers/ACController.ts:270-284 | The new snapshot and command log are those of `OpModeStep`. |
| ACControl.ACController.EnsureAutoMode | src/lib/controllers/ACController.ts:286-290 | The new snapshot and command log are those of `AutoModeStep`. |
| ACControl.ACController.SetActive | src/lib/controllers/ACController.ts:127-143 | The new snapshot and command log are those of `ActiveStep`. |
| ACControl.ACController.SetTargetTemperature | src/lib/controllers/ACController.ts:145-163 | The new snapshot and command log are those of `TargetTemperatureStep`. |
| ACControl.ACController.SetFanSpeed | src/lib/controllers/ACController.ts:165-181 | The new snapshot and command log are those of `FanSpeedStep`. |
| ACControl.ACController.SetSwingMode | src/lib/controllers/ACController.ts:201-239 | The new snapshot and command log are those of `SwingStep` for the allowed directions. |
| ACControl.ACController.SetComfortSleep | src/lib/controllers/ACController.ts:241-258 | The new snapshot and command log are those of `ComfortSleepStep`. |
| ACControl.ACController.SetJetMode | src/lib/controllers/ACController.ts:260-268 | The new snapshot and command log are those of `JetStep`. |
| ACControl.ACController.constructor | src/lib/controllers/ACController.ts:37-43 | Binds the client and the device. |
| Appliance.ReplayAppend | src/lib/controllers/ACController.ts:135-141 | Replaying two command lists in turn equals replaying their concatenation, as chained setters do. |
| Appliance.ReplayKeepsUnwritten | src/lib/controllers/ACController.ts:192-197 | The write-back of sent commands never drops a property, and a property none of them writes keeps its old value. |
| Appliance.ReplayLastWriteWins | src/lib/controllers/ACController.ts:192-197 | After the write-back, each property the last command writes holds that command's value. |
| Appliance.ThenReplays | src/lib/controllers/ACController.ts:283 | Chaining two steps that each replay their own commands gives a step that replays all of them. |
| Appliance.WriteOne | src/lib/controllers/ACController.ts:174-180 | A single-key control sends one command that writes exactly that key, and the new snapshot is its replay. |
| Appliance.Device.constructor | src/lib/ThinQ.ts:48 | A device starts with its id and snapshot, and no device model. |
| FanUnitModel.FanSpeedAt | src/devices/AirConditioner/FanUnit.ts:14 | Indices 0..4 select LOW..HIGH and never AUTO. Any other index reads `undefined`. |
| FanUnitModel.CurrentFanState | src/devices/AirConditioner/FanUnit.ts:39-42 | BLOWING_AIR iff the controller is powered on. |
| FanUnitModel.ReportOf | src/devices/AirConditioner/FanUnit.ts:93-110 | Current state is BLOWING_AIR iff powered on, and the target is AUTO iff wind strength is AUTO. Rotation is reported only in manual mode: it is `indexOf` in -1..4, and a found index selects the current strength. The swing flag mirrors `isSwingOn`. |
| FanUnitModel.NextLastSpeed | src/devices/AirConditioner/FanUnit.ts:98-102 | Every non-AUTO wind strength is remembered. AUTO keeps the old value, so a non-AUTO `lastSpeed` stays non-AUTO. |
| FanUnitModel.TargetLevel | src/devices/AirConditioner/FanUnit.ts:44-54 | AUTO requests FanSpeed.AUTO. MANUAL requests `lastSpeed`, or MEDIUM when unset, and never AUTO while `lastSpeed` is not AUTO. Other values request nothing. |
| FanUnitModel.RotationRoundTrip | src/devices/AirConditioner/FanUnit.ts:56-66 | Setting a powered unit to speed index v in 0..4 makes the next update report rotation v. |
| FanUnitModel.Fired | src/devices/AirConditioner/FanUnit.ts:74-83 | The throttle never runs more callbacks than there are events. Every index it runs was pending at the start or was passed to some handler call. |
| FanUnitModel.SpeedSets | src/devices/AirConditioner/FanUnit.ts:62-66 | A run of rotation-speed handler calls, in order. |
| FanUnitModel.LastCallWins | src/devices/AirConditioner/FanUnit.ts:74-83 | Any burst of speed calls followed by the timer fires exactly one callback, with the last index. |
| FanUnitModel.FiredAtMostOncePerWindow | src/devices/AirConditioner/FanUnit.ts:74-83 | At most one callback is pending, so callbacks never outnumber timer expiries. |
| FanUnitModel.FanUnit.constructor | src/devices/AirConditioner/FanUnit.ts:38 | `lastSpeed` starts as the wind strength unless that is AUTO, and nothing is pending. |
| FanUnitModel.FanUnit.OnRotationSpeed | src/devices/AirConditioner/FanUnit.ts:62-66 | The new call replaces whatever callback was pending. |
| FanUnitModel.FanUnit.FireTimer | src/devices/AirConditioner/FanUnit.ts:80-82 | The pending index, if any, is sent through `setFanSpeed(fanSpeeds[i])`, and then nothing is pending. With nothing pending, no state changes. |
| FanUnitModel.FanUnit.OnTargetFanState | src/devices/AirConditioner/FanUnit.ts:44-54 | The controller does exactly the `FanSpeedStep` of `TargetLevel`, and does nothing for other values. |
| FanUnitModel.FanUnit.OnSwingMode | src/devices/AirConditioner/FanUnit.ts:68-71 | The controller does exactly the `SwingStep` for `!!value`. |
| FanUnitModel.FanUnit.Update | src/devices/AirConditioner/FanUnit.ts:85-111 | The report is `ReportOf` the snapshot. `lastSpeed` follows `NextLastSpeed`, so it is never AUTO. |
| AirPurifierModel.IsPowerOn | src/devices/AirPurifier.ts:234-236 | A stored number means power on iff it is non-zero. A missing operation key means off. |
| AirPurifierModel.IsSwing | src/devices/AirPurifier.ts:242-244 | `rotate \|\| 0` as a condition: a stored number means swing iff it is non-zero, and a missing key means no swing. |
| AirPurifierModel.IsNormalMode | src/devices/AirPurifier.ts:260-262 | A stored number means normal mode iff it is 14. A stored string, even "14", is never normal mode, since the comparison is strict. |
| AirPurifierModel.IsAirFastEnable | src/devices/AirPurifier.ts:280-282 | `airFast \|\| 0` as a condition: a stored number means enabled iff it is non-zero, and a missing key means disabled. |
| AirPurifierModel.IsLightOn | src/devices/AirPurifier.ts:238-240 | A lit signal light implies power on. |
| AirPurifierModel.AirQualityOf | src/devices/AirPurifier.ts:246-253 | The sensor is on iff power is on or sensorMon is truthy. Overall is `parseInt` of the stored value. For each of PM2 and PM10: a missing or falsy reading is 0, a truthy reading (a string such as "12" included) is its `parseInt`, and a stored number is itself. |
| AirPurifierModel.RoundQuotient | src/devices/AirPurifier.ts:269 | The quotient rounded half up: 2qr <= 2p+q < 2q(r+1). |
| AirPurifierModel.FilterUsedTimePercent | src/devices/AirPurifier.ts:264-270 | 0 when the maximum filter time is missing or 0. |
| AirPurifierModel.RoundQuotientBounds | src/devices/AirPurifier.ts:269 | For 0 <= p <= 100q the rounded quotient lies in 0..100, with 100 at p = 100q and 0 at p = 0. |
| AirPurifierModel.FilterPercentBounds | src/devices/AirPurifier.ts:264-278 | With 0 <= use <= max and max > 0 the remaining percentage lies in 0..100, with 100 for an unused filter and 0 for a used-up one. |
| AirPurifierModel.KeysParse | src/devices/AirPurifier.ts:6-11 | The four numeric enum keys parse to 2, 4, 6 and 7. The four name keys do not parse. |
| AirPurifierModel.KeyIndexFound | src/devices/AirPurifier.ts:255-258 | The decimal string of a number is among the enum keys only if the number is 2, 4, 6 or 7. |
| AirPurifierModel.KeyIndexOfValue | src/devices/AirPurifier.ts:255-258 | The decimal string of 2, 4, 6 and 7 is found at positions 0, 1, 2 and 3 of the enum keys. |
| AirPurifierModel.KeyIndexOfNumber | src/devices/AirPurifier.ts:255-258 | A wind strength's decimal string is found among the enum keys iff it is 2, 4, 6 or 7, and then at that value's position. |
| AirPurifierModel.KeyIndexOfParsed | src/devices/AirPurifier.ts:255-258 | The same for a parsed wind strength, with NaN never found. |
| AirPurifierModel.RotationSpeedOf | src/devices/AirPurifier.ts:255-258 | Always in 1..4. It is index+1 for wind strength 2/4/6/7, and 4 (half the key count) otherwise. |
| AirPurifierModel.WindFor | src/devices/AirPurifier.ts:150-156 | Index 1..4 maps to 2/4/6/7, and any other index to EXTRA (7). |
| AirPurifierModel.AirFastStep | src/devices/AirPurifier.ts:97-111 | Sends iff powered on. It then sends and writes only the air-fast key as 1/0, which then reads as requested. |
| AirPurifierModel.LightStep | src/devices/AirPurifier.ts:177-191 | Sends iff powered on. It then sends and writes only the signal-light key as 1/0, which then reads as requested. |
| AirPurifierModel.SwingStep | src/devices/AirPurifier.ts:161-175 | Sends iff powered on and in normal mode. It then writes only the rotate key as 1/0, which then reads as requested. |
| AirPurifierModel.ActiveStep | src/devices/AirPurifier.ts:113-128 | Skips only an "on" request to a purifier that is on. Every "off" request is sent and written back as 0. Power afterwards equals the request, and only the operation key changes. |
| AirPurifierModel.TargetStateStep | src/devices/AirPurifier.ts:130-141 | Sends iff powered on and `!!value == isNormalMode`. It sends 16 for auto and 14 otherwise, so 14 is sent iff the purifier is not in normal mode. The snapshot is left untouched. |
| AirPurifierModel.RotationSpeedStep | src/devices/AirPurifier.ts:143-159 | Sends iff powered on and in normal mode. It then sends and writes `WindFor(index)` under the wind-strength key only. |
| AirPurifierModel.GuardedWrite | src/devices/AirPurifier.ts:97-159 | A guarded single-property write sends iff the guard holds, writes exactly that value under its key and changes nothing else. |
| AirPurifierModel.RotationSpeedRoundTrip | src/devices/AirPurifier.ts:143-159 | Setting index 1..4 on a powered purifier in normal mode reads back that index. |
| AirPurifierModel.RotationSpeedOutOfRange | src/devices/AirPurifier.ts:150-156 | Any other index writes EXTRA, which reads back as 4. |
| AirPurifierModel.AirPurifier.constructor | src/devices/AirPurifier.ts:21-25 | Binds the client and the device. |
| AirPurifierModel.AirPurifier.Write | src/devices/AirPurifier.ts:104-110 | One control is logged, and its key is written into the snapshot. |
| AirPurifierModel.AirPurifier.SetAirFastActive | src/devices/AirPurifier.ts:97-111 | The new snapshot and command log are those of `AirFastStep`. |
| AirPurifierModel.AirPurifier.SetActive | src/devices/AirPurifier.ts:113-128 | The new snapshot and command log are those of `ActiveStep`. |
| AirPurifierModel.AirPurifier.SetTargetAirPurifierState | src/devices/AirPurifier.ts:130-141 | The command log grows by the `TargetStateStep` commands, and the snapshot is not modified. |
| AirPurifierModel.AirPurifier.SetRotationSpeed | src/devices/AirPurifier.ts:143-159 | The new snapshot and command log are those of `RotationSpeedStep`. |
| AirPurifierModel.AirPurifier.SetSwingMode | src/devices/AirPurifier.ts:161-175 | The new snapshot and command log are those of `SwingStep`. |
| AirPurifierModel.AirPurifier.SetLight | src/devices/AirPurifier.ts:177-191 | The new snapshot and command log are those of `LightStep`. |
| AirPurifierLegacy.FlagString | src/v1/devices/AirPurifier.ts:14-17 | '1'/'0' is the decimal string of the flag, and reads back as it. |
| AirPurifierLegacy.LegacyActive | src/v1/devices/AirPurifier.ts:14-17 | Always sends 'Operation' with the flag, with no guard. |
| AirPurifierLegacy.LegacyTargetState | src/v1/devices/AirPurifier.ts:19-26 | Sends iff powered on and `!!value == isNormalMode`, as 'OpMode' with '16' or '14'. |
| AirPurifierLegacy.LegacyRotationSpeed | src/v1/devices/AirPurifier.ts:28-37 | Sends iff powered on and in normal mode, as 'WindStrength' with the decimal string of `WindFor(index)`. |
| AirPurifierLegacy.LegacySwing | src/v1/devices/AirPurifier.ts:39-46 | Sends iff powered on and in normal mode, as 'CirculateDir' '1'/'0'. |
| AirPurifierLegacy.LegacyLight | src/v1/devices/AirPurifier.ts:48-55 | Sends iff powered on, as 'SignalLighting' '1'/'0'. |
| AirPurifierLegacy.LegacyAirFast | src/v1/devices/AirPurifier.ts:57-64 | Sends iff powered on, as 'AirFast' '1'/'0'. |
| AirPurifierLegacy.GuardedSettersAgree | src/v1/devices/AirPurifier.ts:19-64 | Each guarded legacy setter sends exactly when the current variant sends. Its string is the decimal rendering of the number the current variant sends. |
| AirPurifierLegacy.ActiveIsUnguarded | src/v1/devices/AirPurifier.ts:14-17 | For a purifier that is on, the current variant skips "on" while the legacy one still sends it. |
| AirPurifierLegacy.LegacyRotationKeys | src/v1/devices/AirPurifier.ts:28-37 | Index 1..4 sends the enum key '2'/'4'/'6'/'7', and any other index sends '7'. |
| WasherDryerModel.State | src/devices/WasherDryer.ts:186-196 | `data?.state`: undefined for a missing or null washer part, and the stored state for an object that has one. |
| WasherDryerModel.IsPowerOn | src/devices/WasherDryer.ts:186-188 | A missing washer part counts as powered on. A string state means power on iff it is neither POWEROFF nor POWERFAIL. |
| WasherDryerModel.IsError | src/devices/WasherDryer.ts:194-196 | An error state is a powered-on state. A missing washer part is not an error. |
| WasherDryerModel.IsRemoteStartEnable | src/devices/WasherDryer.ts:198-200 | A TypeError iff the washer part is nullish. Otherwise enabled iff `remoteStart` equals the model's "on" value. |
| WasherDryerModel.IsDoorLocked | src/devices/WasherDryer.ts:202-204 | A TypeError iff the washer part is nullish. Otherwise locked iff `doorLock` equals the model's "on" value. |
| WasherDryerModel.IsRunning | src/devices/WasherDryer.ts:190-192 | Running implies powered on and a state outside NOT_RUNNING_STATUS. |
| WasherDryerModel.PowerAndErrorStates | src/devices/WasherDryer.ts:186-196 | Power is off iff the state is POWEROFF or POWERFAIL. An error state is not running. END and COOLDOWN are powered but not running. |
| WasherDryerModel.MonitorFlag | src/devices/WasherDryer.ts:198-204 | A TypeError iff the status is nullish. Otherwise the flag holds iff the field equals the model's "on" value. |
| WasherDryerModel.RemainDuration | src/devices/WasherDryer.ts:206-216 | 0 when not running. When running it is hours·3600 + minutes·60, with a missing field as 0. |
| WasherDryerModel.TCLCount | src/devices/WasherDryer.ts:218-220 | Never above 30. A non-zero stored count n gives min(n, 30), and a missing count gives 0. |
| WasherDryerModel.UpdateOutcome | src/devices/WasherDryer.ts:137-179 | A falsy status fragment changes nothing. A truthy fragment throws iff it is a primitive: `in` works on objects and arrays, and an array has none of the keys, so it raises nothing and keeps the field. "Finished" fires iff detection applies and either END/COOLDOWN follows a running prior state, or the field was set and the merged status no longer runs. The field then becomes whether the merged status runs. Tub-clean fires iff the count key is present and the count is 30. |
| WasherDryerModel.FinishAndStartExclusive | src/devices/WasherDryer.ts:157-173 | For one fragment, "finished" and a fresh start never both happen. |
| WasherDryerModel.FinishFiresOnce | src/devices/WasherDryer.ts:157-167 | A program seen running that stops fires "finished" and clears the field. Once cleared, the same stop fires nothing. |
| WasherDryerModel.WasherDryer.constructor | src/devices/WasherDryer.ts:12 | The running field starts false. |
| WasherDryerModel.WasherDryer.SetActive | src/devices/WasherDryer.ts:106-112 | Never dispatches. It throws only when the status is nullish. |
| WasherDryerModel.WasherDryer.Update | src/devices/WasherDryer.ts:137-179 | The snapshot becomes the merged one. The events and the new running field are those of `UpdateOutcome`. Only a truthy primitive fragment throws, and the TypeError leaves the field unchanged. |
| HttpPolicy.RetryCondition | src/lib/request.ts:18-24 | An error code starting with `ECONN` is always retried. Without an error code, or with any other code, an error is retried iff it has a response with status 500..504. |
| HttpPolicy.RetryDelay | src/lib/request.ts:15-17 | The wait before a retry is at least 2000 ms and, within the two allowed retries, at most 4000 ms. |
| HttpPolicy.Transport | src/lib/request.ts:12-25 | Makes 1..3 attempts with 2000·n ms before the n-th retry. Every attempt before the last failed with a retryable error, and a final failure before the third attempt is not retryable. |
| HttpPolicy.RetryFrom | src/lib/request.ts:13-25 | The same, counted from any retry number. |
| HttpPolicy.TransportDurationBound | src/lib/request.ts:12-25 | The timeouts and waits of one transfer total at most 3·60000 + 6000 ms. |
| HttpPolicy.Classify | src/lib/request.ts:27-38 | NotConnected iff no response or code '9999'. Otherwise TokenExpired iff the token-expired code, then ManualProcessNeeded iff the manual-process code, else the error unchanged. |
| HttpPolicy.Reclassify | src/lib/request.ts:13-38 | The classifier runs again on what a retried request delivers. An error it already classified has no response, so it becomes NotConnected. An unclassified error is classified as the first time. |
| HttpPolicy.DeliveredClass | src/lib/request.ts:13-38 | What reaches the caller after n attempts: the raw classification for one attempt. After a retry, an unclassified error stays as it is, and every other class becomes NotConnected. |
| ThinQApi.Request | src/lib/API.ts:49-91 | At most two transport calls, and one with `retry` set. Each call's error class is the one delivered after its transport retries (`Delivered`). The result is the last call's body, or `{}`. Two calls happen iff the first failed unretried with TokenExpired and the refresh succeeded, or with ManualProcessNeeded. A token refresh happens exactly when the first call failed with TokenExpired and `retry` was not set. The new-terms handler runs once for each executed call that failed with ManualProcessNeeded. |
| ThinQApi.ExpiredTokenIsRefreshedOnce | src/lib/API.ts:58-64 | An expired token, as delivered after transport retries, leads to one refresh and one retry, whose body is the result. |
| ThinQApi.ExpiredTwiceGivesEmpty | src/lib/API.ts:58-64 | A second delivered expiry on the retry yields `{}` after one refresh. |
| ThinQApi.ManualProcessTwiceGivesEmpty | src/lib/API.ts:65-80 | When both calls deliver ManualProcessNeeded, the new-terms handler runs on both, and then `{}`. |
| ThinQApi.UnrecoverableGivesEmpty | src/lib/API.ts:81-89 | Any other delivered error yields `{}` after one call, so `request` never rejects. |
| ThinQApi.RetriedFailureIsNotRecovered | src/lib/API.ts:58-89 | A call whose raw error is the token-expired or manual-process code, but which reached it only after a transport retry, does no refresh, runs no handler and yields `{}` after one call: the classifier turned it into NotConnected (request.ts 13-38). |
| ThinQApi.FirstAttemptClass | src/lib/request.ts:27-38 | A call that failed on its first attempt delivers the raw classification. |
| ThinQApi.CharactersAreAlphanumeric | src/lib/API.ts:94-102 | Every character of the alphabet is in [A-Za-z0-9]. |
| ThinQApi.RandomString | src/lib/API.ts:94-102 | The string has the requested length, and each character is the drawn alphabet character, so it is alphanumeric. |
| ThinQApi.BaseHeaders | src/lib/API.ts:115-131 | Carries the message id, API key, country and language. It has no account headers. |
| ThinQApi.AccountHeaders | src/lib/API.ts:104-113 | `x-emp-token` is present iff the access token is non-empty, and `x-user-no` iff a user number is set. `x-client-id` is always present. |
| ThinQApi.Api.DefaultHeaders | src/lib/API.ts:93-134 | Together: the token and user-number iffs, the client id falling back to the constant, a 22-character alphanumeric message id, and the base keys. |
| ThinQApi.ControlSync | src/lib/API.ts:162-168 | Posts to `service/devices/{id}/control-sync`. The body has the values' keys plus ctrlKey and command, and the values override those two. |
| ThinQApi.HomesOutcome | src/lib/API.ts:154-160 | A truthy cache is returned as is. Otherwise the result is `result.item`, with a TypeError iff the response or its `result` is nullish. |
| ThinQApi.Indexed | src/lib/API.ts:145-149 | Iterating a nullish value throws, and an array yields its items. |
| ThinQApi.Spread | src/lib/API.ts:147 | Spreading succeeds iff the value is iterable, and an array yields its items. |
| ThinQApi.AllDevices | src/lib/API.ts:144-151 | Listing throws iff some home's page has no device list. |
| ThinQApi.ListDevices | src/lib/API.ts:140-160 | A cached home array is listed as is. A failed home fetch makes the listing throw. Without a truthy cache, a fetched `result.item` array is listed. |
| ThinQApi.ConcatAssociative | src/lib/API.ts:144-151 | Concatenation of per-home results, errors included, is associative. |
| ThinQApi.AllDevicesAppend | src/lib/API.ts:144-151 | The device list of two runs of homes is the concatenation of their lists, in home order. |
| ThinQApi.AllDevicesOfOneHome | src/lib/API.ts:144-151 | One home contributes exactly its own devices. |
| ThinQApi.Api.constructor | src/lib/API.ts:34-39 | Starts with an empty session and account data, and no cached homes or gateway. |
| ThinQApi.Api.GetListHomes | src/lib/API.ts:154-160 | Returns `HomesOutcome` and caches the value it returns. |
| ThinQApi.Api.CollectDevices | src/lib/API.ts:144-151 | The push loop over the homes yields their concatenated device lists. |
| ThinQApi.AllDevicesStep | src/lib/API.ts:145-149 | One more home appends that home's devices to the list so far. |
| ThinQApi.AllDevicesFailsEarly | src/lib/API.ts:144-151 | Once a prefix of the homes throws, the whole listing throws with the same error. |
| ThinQApi.Api.GetListDevices | src/lib/API.ts:140-152 | Returns the concatenated devices of the listed homes, updating the homes cache as `GetListHomes` does. |
| ThinQApi.Api.Gateway | src/lib/API.ts:179-186 | A cached gateway is returned without fetching. Otherwise the fetched `result` is returned and cached, and a rejected or malformed fetch caches nothing. |
| ThinQApi.Api.SetRefreshToken | src/lib/API.ts:170-172 | The session becomes a fresh one holding only the refresh token. |
| ThinQApi.Api.SetUsernamePassword | src/lib/API.ts:174-177 | Stores the credentials. |
| ThinQClient.TargetId | src/lib/ThinQ.ts:76 | A Device targets its id, and a string targets itself. |
| ThinQClient.ControlResult | src/lib/ThinQ.ts:75-85 | The reply body on success. After a rejection it is `false` iff the code is '0103', else `undefined`. |
| ThinQClient.ThinQ.DeviceControl | src/lib/ThinQ.ts:75-85 | Appends the command for the target's id to the log. It resolves to what `request` resolves to for the next call, which is the reply body or `{}`, never the `false` of the rejection handler. The transport calls it made are counted. |
| ThinQClient.RootCAUrl | src/lib/ThinQ.ts:147-160 | Amazon iff the ATS pattern matches, else Comodo iff the LG pattern matches, else VeriSign. Exactly one is chosen. |
| ThinQClient.Lits | src/lib/ThinQ.ts:150-153 | A literal pattern has one literal per character. |
| ThinQClient.AtsHostMatches | src/lib/ThinQ.ts:150 | The ATS pattern accepts any character where the hostname has its unescaped dots. |
| ThinQClient.AtsEndpointUsesAmazonRoot | src/lib/ThinQ.ts:150-152 | A real `<account>-ats.iot.<region>.amazonaws.com` host gets the Amazon root. |
| ThinQClient.MatchAppend | src/lib/ThinQ.ts:150-153 | A string matching `p` followed by one matching `q` matches `p + q`. |
| ThinQClient.MatchSplit | src/lib/ThinQ.ts:150-153 | Conversely, a string matching `p + q` splits into a part matching `p` and a part matching `q`. |
| ThinQClient.MatchFixedLength | src/lib/ThinQ.ts:150-153 | A pattern without `[^.]+` runs matches only strings of its own length. |
| ThinQClient.TailMatch | src/lib/ThinQ.ts:150-153 | When a pattern ends in a fixed tail starting with a literal, every string it matches has that literal at the tail's distance from its end. |
| ThinQClient.LgHostMatches | src/lib/ThinQ.ts:153 | Every `<account>.iot.ruic.lgthinq.com` host with a dot-free account matches the LG pattern. |
| ThinQClient.LgEndpointUsesComodoRoot | src/lib/ThinQ.ts:150-155 | Such an LG host gets the Comodo root: it does not end in `amazonaws?com`, so the Amazon pattern is not matched first. |
| ThinQClient.AmazonMatchHasDash | src/lib/ThinQ.ts:150 | The Amazon pattern's first run cannot cross a dot, so a host it matches has a `-` inside its first label. |
| ThinQClient.LegacyHostIsNotAts | src/lib/ThinQ.ts:150 | An `<account>.iot.<region>.amazonaws.com` host whose account has no `-` does not match the Amazon pattern. |
| ThinQClient.LegacyHostIsNotLg | src/lib/ThinQ.ts:153 | No `….amazonaws.com` host matches the LG pattern. |
| ThinQClient.LegacyEndpointUsesVeriSignRoot | src/lib/ThinQ.ts:150-160 | Every legacy `<account>.iot.<region>.amazonaws.com` host, with any region and an account without `-`, gets the VeriSign root. |
| ThinQClient.StripMarkers | src/lib/ThinQ.ts:143 | Removing the BEGIN and END markers never lengthens the text. |
| ThinQClient.RemoveLineBreaks | src/lib/ThinQ.ts:143 | The result contains no CR or LF. |
| ThinQClient.CsrForSubmission | src/lib/ThinQ.ts:143 | The submitted CSR contains no CR or LF. |
| ThinQClient.StripPem | src/lib/ThinQ.ts:143 | A BEGIN marker, a body, an END marker and a tail strip to the body and tail. |
| ThinQClient.PemRequestIsUnwrapped | src/lib/ThinQ.ts:143 | A PEM request submits its unbroken base64 body, with no BEGIN or END marker. |
| ThinQClient.StripMarkersWithoutMarkers | src/lib/ThinQ.ts:143 | Text without markers is not changed by stripping. |
| ThinQClient.BrokenMarkerSurvives | src/lib/ThinQ.ts:143 | Markers are removed before line breaks, so a BEGIN marker split by a newline survives. |
| ThinQClient.ThinQ.constructor | src/lib/ThinQ.ts:16-41 | Starts with an empty command log and no loaded models. |
| ThinQClient.ThinQ.Devices | src/lib/ThinQ.ts:43-49 | The listed device records, or none when listing throws. |
| ThinQClient.ThinQ.LoadDeviceModel | src/lib/ThinQ.ts:64-73 | A cache hit does not fetch. A miss fetches and stores under the device id. The model is recorded in the model map and on the device. |
| ThinQClient.ThinQ.RegisterMQTTListener | src/lib/ThinQ.ts:87-104 | 1..5 attempts, stopping at the first success after failures only. Five failed attempts end it. It waits 5 s after each failure. |

## Left out

- Floating point: the `Math.round` in the filter percentage is exact rational rounding half up. `Math.round` on the HomeKit rotation value is an integer index taken as given.
- AirPurifierModel.FilterUsedTimePercent: promises only the zero-maximum default. The range is stated by `FilterPercentBounds` for integer times, because a non-integer or negative time has no integer model.
- ThinQClient.CsrForSubmission: the promise that the submitted CSR has no BEGIN/END marker is proved only for PEM-shaped input (`PemRequestIsUnwrapped`). `BrokenMarkerSurvives` shows it fails for arbitrary text.
- `targetTemperatureRange` (ACController.ts 104-110): it reads the device model's schema, which is not part of this model.
- The device model's swing sub-mode options and `lookupMonitorName` are parameters, for the same reason.
- `getSingleDevice`, `ready` and `refreshNewToken` (API.ts): they are login and token internals of `Auth`, `Session` and `Gateway`, which are not part of this model. The refresh outcome and the error codes are parameters.
- `thinq1DeviceControl`, `Persist` and `mergeDeep`: they are not part of this model. The legacy setters return the command they would pass, and the merged washer snapshot is a parameter.
- MQTT connection, TLS, the IoT SDK, key generation and CSR signing: these are network I/O, crypto and foreign libraries. Only the root-CA choice and the CSR stripping are modelled.
- axios and axios-retry: the transport is an oracle, and the timeout is a constant bounding each attempt. The classifier's own errors are taken to carry no `response`, because their classes (errors.ts) are not part of this model.
- `Math.random`: the message-id draws are given indices.
- HomeKit UI wiring and the `UPDATE` events: these are presentation glue.
- The washer's 10-minute occupancy reset and the fan unit's `setTimeout`: timers are discrete events or left out.
- Async interleaving: calls run one at a time. The un-awaited `setLight` in `setOpMode` completes before the call returns.
- Concurrent token refreshes: there is no deduplication to model.
- `Number(...)` on strings: surrounding white space, a sign and decimal digits are handled. Hexadecimal, binary and octal literals, exponents, fractions and `Infinity` are not, and such strings read as NaN.
- `parseInt(...)` on strings: a `0x` prefix is not read as base 16, so `parseInt("0x1A")` is 0 here where JavaScript gives 26. Other strings follow JavaScript: leading white space, a sign, then the longest run of decimal digits.
- Objects with their own `toString` or `valueOf`: an object converts to NaN, and an array converts through its single element. A custom conversion method is not modelled.
- The network behind `deviceControl`: each control request is answered by the client's fixed `network` oracle, counted by the number of calls made so far.

## Notes on the source

- `deviceControl`'s '0103' branch (ThinQ.ts 79-81) is unreachable in practice: `request` catches every error and resolves `{}`, so `deviceControl` resolves to the request's own result (`ThinQ.DeviceControl`).
- The host patterns in ThinQ.ts 150 and 153 leave their dots unescaped, so a dot position matches any character (`AtsHostMatches`).
- Unlike the air-conditioner setters, the current purifier's light, swing and air-fast setters send even when the value is unchanged.
- `getListHomes` caches only a truthy item. A missing, null or otherwise falsy item is fetched again on the next call. An empty list `[]` is truthy, so it stays cached.
- axios's timeout error code `ECONNABORTED` starts with `ECONN`, so a timed-out attempt is retried.
