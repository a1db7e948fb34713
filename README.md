# Daikin climate entity — a Dafny model

This project models `DaikinClimate`, the climate entity of the `daikin_br` smart-home
integration. The entity mirrors the state of a Daikin air conditioner and keeps it in
step with the unit. The mirrored state is power, HVAC mode, target and room temperature,
fan speed, swing and preset, plus a skip-poll flag and availability. The entity:

- translates between the device's integer codes and the platform's mode names in both
  directions (module `ModeTables`);
- decides whether a user action becomes a device command, and builds its payload
  (module `Commands`);
- rebuilds the mirrored state from a polled status (`update_entity_properties`) or from
  the response to a command (`set_thing_state`), and runs the skip-poll protocol of
  `async_update`, by which the poll after a command does not overwrite the state the
  command's response just wrote (module `Sync`);
- does all of this on its own fields, which the class `Climate.DaikinClimate` updates in
  place, each method proved to do exactly what the matching `Sync` or `Commands`
  function says.

Module `Effects` ties the two directions of each table together. A command that the
device applies and echoes back reads back, on either sync path, as exactly what the user
asked for.

The network calls are parameters. `send: Payload -> Response` answers a command as
`send_operation_data` would. `answer: Response` is what `get_thing_info` gives to a poll
that calls it. Either call may fail (`Failed`); the exception classes the source tells
apart are one outcome here, since every handler does the same thing.

Where the code and its comments differ, the model follows the code. `async_set_temperature`
comments that it "reverts the dial to the previous value" when it refuses a set point, but
it writes the refused value to `_target_temperature`; `Commands.TemperatureCommand` and
`Climate.DaikinClimate.SetTemperature` model the assignment.

One disagreement between the two sync paths is proved rather than hidden. When a report
carries both `econo` = 1 and `powerchill` = 1, a polled status shows ECO (an `if/elif`),
while a command response shows BOOST (three successive `if`s, the last match winning).
A report whose flags are neither 0 nor 1 leaves the preset unchanged on the response path
and shows NONE on the polled path.

## Model

| member | source | states |
|---|---|---|
| `ModeTables.HvacModeOfCode` | custom_components/daikin_br/climate.py:270-282 | every code reads as some mode; a code in the table reads as the mode whose code it is, and any other code, or none, reads as OFF |
| `ModeTables.HvacCode` | custom_components/daikin_br/climate.py:302-309 | every mode is written as one of the six table codes, and code 0 is written for OFF and only OFF |
| `ModeTables.HvacCodeRoundTrip` | custom_components/daikin_br/climate.py:270-309 | reading back the code written for any of the six modes gives that mode |
| `ModeTables.HvacCodeOfModeRoundTrip` | custom_components/daikin_br/climate.py:270-309 | writing the mode read from any table code gives that code back, so the table is a bijection |
| `ModeTables.HvacModeOfName` | custom_components/daikin_br/climate.py:302-316 | a request string is accepted exactly when it is the name of one of the six modes, and then as that mode |
| `ModeTables.FanModeOfCode` | custom_components/daikin_br/climate.py:284-297 | a code in the fan table reads as the speed whose code it is; any other code, or none, reads as "auto" |
| `ModeTables.FanCode` | custom_components/daikin_br/climate.py:333-341 | every fan speed is written as one of the seven table codes, and 17 is written for "auto" only |
| `ModeTables.FanCodeRoundTrip` | custom_components/daikin_br/climate.py:284-341 | reading back the code written for any of the seven speeds gives that speed |
| `ModeTables.FanCodeOfModeRoundTrip` | custom_components/daikin_br/climate.py:284-341 | writing the speed read from any table code gives that code back, so the fan table is a bijection |
| `ModeTables.FanModeOfName` | custom_components/daikin_br/climate.py:333-360 | a request string is accepted exactly when it names one of the seven fan speeds |
| `ModeTables.SwingModeOfName` | custom_components/daikin_br/climate.py:450-454 | a request string is accepted exactly when it is "off" or "vertical" |
| `ModeTables.SwingCode` | custom_components/daikin_br/climate.py:456-462 | `v_swing` is 1 for vertical swing and 0 for off |
| `ModeTables.SwingModeOfCode` | custom_components/daikin_br/climate.py:498-499 | a report shows vertical swing exactly when `v_swing` is 1 (missing reads as 0) |
| `ModeTables.PresetModeOfName` | custom_components/daikin_br/climate.py:414-428 | a request string is a preset exactly when it is "none", "eco" or "boost" |
| `ModeTables.PresetOfFlags` | custom_components/daikin_br/climate.py:549-558 | a polled status shows ECO exactly when `econo` is 1, and BOOST exactly when `powerchill` is 1 and `econo` is not |
| `Commands.HvacCommand` | custom_components/daikin_br/climate.py:299-328 | a command is built exactly for a supported mode; OFF sends only `power` 0; any other mode sends only `power` 1 and a `mode` code that reads back as the requested mode |
| `Commands.FanCommand` | custom_components/daikin_br/climate.py:330-369 | a command is built exactly when the HVAC mode is not DRY and the speed is known; it holds only the table code of the requested speed (17 for "auto"), which reads back as that speed |
| `Commands.TemperatureCommand` | custom_components/daikin_br/climate.py:371-408 | no temperature does nothing; a set point is refused exactly in FAN_ONLY or DRY mode, or in COOL mode outside 16..32; a refused set point is the one shown; anything else is sent unchanged as the only key |
| `Commands.PresetCommand` | custom_components/daikin_br/climate.py:410-448 | nothing is sent unless the power state is exactly 1; an unknown name with power 1 sends nothing; a known preset sends only `econo` and `powerchill`, each 0 or 1 and never both 1, which read back as that preset |
| `Commands.SwingCommand` | custom_components/daikin_br/climate.py:450-471 | a command is built exactly for "off" or "vertical"; it holds only `v_swing`, 1 for "vertical" and 0 for "off", which reads back as the requested setting |
| `Sync.SyncFromStatus` | custom_components/daikin_br/climate.py:527-564 | the polled status rebuilds every mirrored field; the power value is stored as reported, 0 when missing; power missing or 0 forces OFF whatever the mode, otherwise the mode is read through the table; swing is vertical exactly when `v_swing` is 1; the skip flag is set; availability is kept; the invariant holds after |
| `Sync.ResponsePreset` | custom_components/daikin_br/climate.py:501-511 | after a response, both flags 0 give NONE, `powerchill` 1 gives BOOST, `econo` 1 without `powerchill` 1 gives ECO, and any other pair keeps the old preset |
| `Sync.SyncFromResponse` | custom_components/daikin_br/climate.py:487-519 | a response stores its power value as given; a missing or 0 power forces OFF; the other fields are read as on a poll, except the preset; the skip flag is set; the invariant holds after |
| `Sync.AfterCommand` | custom_components/daikin_br/climate.py:473-525 | a failed command changes no state at all; an answered one sets the skip flag and keeps availability and the invariant |
| `Sync.PollStep` | custom_components/daikin_br/climate.py:566-598 | a pending skip is cleared and nothing else changes; an answer syncs the state, sets the skip flag and marks the entity available; a failure marks it unavailable and changes nothing else |
| `Sync.Reached` | custom_components/daikin_br/climate.py:568-571 | one entry per poll, the first telling whether the first poll calls the device (no skip pending) |
| `Sync.PollsAlternate` | custom_components/daikin_br/climate.py:563-586 | a poll calls the device exactly when the poll before it did not get an answer from it: an answered fetch is always followed by a skipped poll |
| `Sync.AnsweredPollsFetchEveryOtherTime` | custom_components/daikin_br/climate.py:566-586 | with a device that always answers, ceil(n/2) of n polls call it when no skip is pending at the start, floor(n/2) when one is |
| `Sync.RunKeepsConsistent` | custom_components/daikin_br/climate.py:534-540 | any sequence of polls keeps the invariant that a unit not on shows OFF |
| `Sync.CommandStateSurvivesNextPoll` | custom_components/daikin_br/climate.py:518-571 | a poll that starts after an answered command's response was taken in keeps every field the response wrote, whatever the device would report, and only clears the skip flag |
| `Sync.PresetFollowsFlags` | custom_components/daikin_br/climate.py:501-558 | with 0/1 flags not both 1, both paths show NONE exactly when neither flag is 1, ECO exactly when `econo` is, BOOST exactly when `powerchill` is |
| `Sync.SyncPathsDisagreeOnBothFlags` | custom_components/daikin_br/climate.py:502-558 | with both flags 1, a polled status shows ECO and a command response shows BOOST |
| `Sync.SyncPathsAgree` | custom_components/daikin_br/climate.py:487-558 | on a report that carries its power and 0/1 flags not both 1, a poll and a command response produce the same state |
| `Effects.HvacCommandTakesEffect` | custom_components/daikin_br/climate.py:312-328 | an HVAC command that the device echoes back shows the requested mode on either sync path |
| `Effects.FanCommandTakesEffect` | custom_components/daikin_br/climate.py:356-369 | a fan command that the device echoes back shows the requested speed on either sync path |
| `Effects.TemperatureCommandTakesEffect` | custom_components/daikin_br/climate.py:401-408 | a temperature command that the device echoes back shows the requested set point on either sync path |
| `Effects.PresetCommandTakesEffect` | custom_components/daikin_br/climate.py:413-448 | a preset command that the device echoes back shows the requested preset on either sync path, whatever was shown before |
| `Effects.SwingCommandTakesEffect` | custom_components/daikin_br/climate.py:456-471 | a swing command that the device echoes back shows the requested setting on either sync path |
| `Climate.DaikinClimate.constructor` | custom_components/daikin_br/climate.py:99-154 | a new entity is available, powered off (power 0, OFF), fan auto, swing off, preset none, temperatures unknown, no skip pending |
| `Climate.DaikinClimate.SetThingState` | custom_components/daikin_br/climate.py:473-525 | the fields become `AfterCommand` of the old state and the device's response; the invariant is kept |
| `Climate.DaikinClimate.UpdateEntityProperties` | custom_components/daikin_br/climate.py:527-564 | the fields become `SyncFromStatus` of the old state and the status; the invariant is kept |
| `Climate.DaikinClimate.AsyncUpdate` | custom_components/daikin_br/climate.py:566-598 | the device is called exactly when no skip was pending, and the fields become `PollStep` of the old state and the answer |
| `Climate.DaikinClimate.SetHvacMode` | custom_components/daikin_br/climate.py:299-328 | the command sent is `HvacCommand` of the request; with none the state is unchanged, otherwise it is the state after the command |
| `Climate.DaikinClimate.SetFanMode` | custom_components/daikin_br/climate.py:330-369 | the command sent is `FanCommand` of the current HVAC mode and the request; with none the state is unchanged |
| `Climate.DaikinClimate.SetTemperature` | custom_components/daikin_br/climate.py:371-408 | only a set point `TemperatureCommand` accepts is sent; a refused one is written to the target temperature and nothing else changes; a missing one changes nothing |
| `Climate.DaikinClimate.SetPresetMode` | custom_components/daikin_br/climate.py:410-448 | only a preset `PresetCommand` accepts is sent; the preset is set before sending and stays if the command fails; otherwise nothing changes |
| `Climate.DaikinClimate.SetSwingMode` | custom_components/daikin_br/climate.py:450-471 | the command sent is `SwingCommand` of the request; with none the state is unchanged |

## Left out

- Network transport: `get_thing_info` and `send_operation_data` belong to an external device library. They are parameters here, and their exception classes are one failure outcome.
- JSON serialisation and logging: payloads are the `Payload` record, compared field by field; log messages are not modelled.
- Host-platform plumbing: `async_write_ha_state`, `schedule_update_ha_state`, the executor hand-off, the timer registered in `async_added_to_hass` and cancelled in `async_will_remove_from_hass`, the property getters that only return a field, `device_info` and `translation_key`.
- `async_setup_entry`: config-entry and entity registration glue, including its rule that an entity whose first status has an empty `port1` starts unavailable.
- Construction without a device key: `__init__` then returns before setting the mirrored fields; the model's constructor is the one with a key.
- Malformed replies: every reported field is an integer or missing. Other shapes behave as follows in the source.
  - A reply, or a `port1`, that is not a dictionary raises before any field is written, so it acts as a failed call (`Failed`): a command changes nothing, and a poll marks the entity unavailable.
  - A `sensors` value that is not a dictionary raises part-way through a command response, after `_power_state`, `_hvac_mode` and `_target_temperature` are written and before the skip flag is set. The model does not represent that partial write.
  - On a poll, the same `sensors` value raises before the first write, so the entity is only marked unavailable, as on `Failed`.
  - An unhashable `mode` or `fan` value raises part-way through either sync path, leaving the earlier fields written. The model does not represent that partial write either.
  - `"power": null` on a poll is stored as `None`, because `get("power", 0)` returns the null. The mode is then read from the table, so a unit that is not on can show a mode other than OFF. `Sync.Consistent` and `Sync.RunKeepsConsistent` hold only for the integer-or-missing reports the model represents.
- Interleaving at `await` points: each operation runs as one uninterrupted step. In the source a command can complete while `async_update` waits on `get_thing_info`; the stale status then overwrites the command's state and re-arms the skip flag. `Sync.CommandStateSurvivesNextPoll` covers only polls that start after the command's response.
- Floating-point temperatures: temperatures are integers (the entity's step is 1 degree). `min_temp` and `max_temp` are constants that no operation reads.
- Coordinator, `__init__.py`, `entity.py` and `const.py`: framework glue and constants with no state of their own.
