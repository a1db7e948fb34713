/**
 * The entity's mirrored state as a value, and how the device's reports change
 * it: `update_entity_properties` (a polled status), `set_thing_state` (the
 * response to a command) and `async_update` (one poll, with the skip-poll
 * flag). The class `DaikinClimate` is proved to update its fields exactly as
 * these functions say; the lemmas here state what that means.
 */
module Sync {
  import opened Wrappers
  import opened ModeTables
  import opened Protocol

  /** The fields of `DaikinClimate` that its operations read and write. */
  datatype Entity = Entity(
    power: Option<int>,      // `_power_state`; absent after a response without "power"
    hvac: HvacMode,          // `_hvac_mode`
    target: Option<int>,     // `_target_temperature`
    current: Option<int>,    // `_current_temperature`
    fan: FanMode,            // `_fan_mode`
    swing: SwingMode,        // `_attr_swing_mode`
    preset: PresetMode,      // `_attr_preset_mode`
    skipUpdate: bool,        // `_skip_update`
    available: bool)         // `_attr_available`

  /** The state `__init__` gives a new entity: powered off, nothing known yet. */
  const Initial := Entity(Some(0), Off, None, None, FanAuto, SwingOff, PresetNone, false, true)

  /** Python truthiness of a power value: present and not 0. */
  predicate PoweredOn(power: Option<int>) {
    power.Some? && power.value != 0
  }

  /** The entity invariant: a unit that is not on shows HVAC mode OFF. */
  predicate Consistent(e: Entity) {
    !PoweredOn(e.power) ==> e.hvac == Off
  }

  /** The two states agree on every field mirrored from the device. */
  predicate SameMirror(a: Entity, b: Entity) {
    a.(skipUpdate := false, available := false) == b.(skipUpdate := false, available := false)
  }

  // ------------------------------------------------------------ the two sync paths

  /**
   * `update_entity_properties`: every mirrored field is rebuilt from the status
   * (a missing power reads as 0, a missing mode as 0); power 0 forces OFF
   * whatever the mode; economy wins over boost; the next poll is to be skipped.
   */
  function SyncFromStatus(e: Entity, port: PortStatus): (r: Entity)
    ensures r.skipUpdate && r.available == e.available
    ensures r.power == Some(port.power.GetOr(0))
    ensures PoweredOn(r.power) == PoweredOn(port.power)
    ensures !PoweredOn(port.power) ==> r.hvac == Off
    ensures PoweredOn(port.power) ==> r.hvac == HvacModeOfCode(port.mode)
    ensures r.target == port.temperature && r.current == port.roomTemp
    ensures r.fan == FanModeOfCode(port.fan)
    ensures r.swing == SwingVertical <==> port.vSwing == Some(1)
    ensures r.preset == PresetOfFlags(port.econo, port.powerchill)
    ensures Consistent(r)
  {
    var power := port.power.GetOr(0);
    e.(
      target := port.temperature,
      current := port.roomTemp,
      power := Some(power),
      hvac := if power == 0 then Off else HvacModeOfCode(Some(port.mode.GetOr(0))),
      fan := FanModeOfCode(port.fan),
      swing := SwingModeOfCode(port.vSwing),
      preset := PresetOfFlags(port.econo, port.powerchill),
      skipUpdate := true)
  }

  /**
   * The preset after `set_thing_state`'s three successive checks of the flags
   * (missing reads as 0): `econo` 1 sets economy, then `powerchill` 1 overwrites
   * it with boost, then both at 0 set none. Any other pair keeps the old preset.
   */
  function ResponsePreset(prior: PresetMode, econo: Option<int>, powerchill: Option<int>): (p: PresetMode)
    ensures econo.GetOr(0) == 0 && powerchill.GetOr(0) == 0 ==> p == PresetNone
    ensures powerchill == Some(1) ==> p == PresetBoost
    ensures econo == Some(1) && powerchill != Some(1) ==> p == PresetEco
    ensures (econo.GetOr(0) != 1 && powerchill.GetOr(0) != 1 &&
             !(econo.GetOr(0) == 0 && powerchill.GetOr(0) == 0)) ==> p == prior
  {
    var econoValue := econo.GetOr(0);
    var powerchillValue := powerchill.GetOr(0);
    var afterEcono := if econoValue == 1 then PresetEco else prior;
    var afterPowerchill := if powerchillValue == 1 then PresetBoost else afterEcono;
    if econoValue == 0 && powerchillValue == 0 then PresetNone else afterPowerchill
  }

  /**
   * `set_thing_state` after a response: the power value is stored as reported
   * (possibly absent), a power that is absent or 0 forces OFF, the preset
   * follows `ResponsePreset`, and the next poll is to be skipped.
   */
  function SyncFromResponse(e: Entity, port: PortStatus): (r: Entity)
    ensures r.skipUpdate && r.available == e.available
    ensures r.power == port.power
    ensures !PoweredOn(port.power) ==> r.hvac == Off
    ensures PoweredOn(port.power) ==> r.hvac == HvacModeOfCode(port.mode)
    ensures r.target == port.temperature && r.current == port.roomTemp
    ensures r.fan == FanModeOfCode(port.fan)
    ensures r.swing == SwingVertical <==> port.vSwing == Some(1)
    ensures r.preset == ResponsePreset(e.preset, port.econo, port.powerchill)
    ensures Consistent(r)
  {
    e.(
      power := port.power,
      hvac := if PoweredOn(port.power) then HvacModeOfCode(port.mode) else Off,
      target := port.temperature,
      current := port.roomTemp,
      fan := FanModeOfCode(port.fan),
      swing := SwingModeOfCode(port.vSwing),
      preset := ResponsePreset(e.preset, port.econo, port.powerchill),
      skipUpdate := true)
  }

  /**
   * The state after `set_thing_state` sent a command and the device gave
   * `response`: a failed call changes nothing at all.
   */
  function AfterCommand(e: Entity, response: Response): (r: Entity)
    ensures response.Failed? ==> r == e
    ensures response.Answered? ==> r.skipUpdate && r.available == e.available
    ensures Consistent(e) ==> Consistent(r)
  {
    match response
    case Failed => e
    case Answered(reply) => SyncFromResponse(e, PortOf(reply))
  }

  // ------------------------------------------------------------ polling

  /**
   * `async_update` with `answer` as what `get_thing_info` gives if it is called:
   * a pending skip is consumed and nothing else changes; otherwise an answer
   * syncs the state, marks the entity available and arms the skip again, and a
   * failure marks it unavailable and leaves every mirrored field as it was.
   */
  function PollStep(e: Entity, answer: Response): (r: Entity)
    ensures e.skipUpdate ==> r == e.(skipUpdate := false)
    ensures !e.skipUpdate && answer.Failed? ==> r == e.(available := false)
    ensures !e.skipUpdate && answer.Answered? ==>
      r.available && r.skipUpdate && SameMirror(r, SyncFromStatus(e, PortOf(answer.reply)))
    ensures Consistent(e) ==> Consistent(r)
  {
    if e.skipUpdate then e.(skipUpdate := false)
    else
      match answer
      case Failed => e.(available := false)
      case Answered(reply) => SyncFromStatus(e, PortOf(reply)).(available := true)
  }

  /** The state after a sequence of polls, the device giving `answers` in turn. */
  function Run(e: Entity, answers: seq<Response>): Entity
    decreases |answers|
  {
    if answers == [] then e else Run(PollStep(e, answers[0]), answers[1..])
  }

  /** For each poll of a sequence, whether it called the device (was not skipped). */
  function Reached(e: Entity, answers: seq<Response>): (r: seq<bool>)
    ensures |r| == |answers|
    ensures |answers| > 0 ==> r[0] == !e.skipUpdate
    decreases |answers|
  {
    if answers == [] then [] else [!e.skipUpdate] + Reached(PollStep(e, answers[0]), answers[1..])
  }

  /** The number of `true` entries of a sequence. */
  function CountTrue(s: seq<bool>): (n: nat)
    ensures n <= |s|
  {
    if s == [] then 0 else (if s[0] then 1 else 0) + CountTrue(s[1..])
  }

  /**
   * The skip/fetch alternation: a poll calls the device exactly when the poll
   * before it did not get an answer from the device, so an answered fetch is
   * always followed by a skipped poll, and a skipped or failed one by a fetch.
   */
  lemma {:induction false} PollsAlternate(e: Entity, answers: seq<Response>, i: nat)
    requires i + 1 < |answers|
    ensures Reached(e, answers)[i + 1] <==> !(Reached(e, answers)[i] && answers[i].Answered?)
    decreases i
  {
    var next := PollStep(e, answers[0]);
    assert Reached(e, answers) == [!e.skipUpdate] + Reached(next, answers[1..]);
    if i > 0 {
      PollsAlternate(next, answers[1..], i - 1);
    }
  }

  /**
   * With a device that always answers, polls reach it every other time: of n
   * polls, ceil(n/2) call the device when no skip is pending at the start and
   * floor(n/2) when one is.
   */
  lemma {:induction false} AnsweredPollsFetchEveryOtherTime(e: Entity, answers: seq<Response>)
    requires forall i :: 0 <= i < |answers| ==> answers[i].Answered?
    ensures CountTrue(Reached(e, answers)) ==
      if e.skipUpdate then |answers| / 2 else (|answers| + 1) / 2
    decreases |answers|
  {
    if answers != [] {
      var next := PollStep(e, answers[0]);
      var rest := Reached(next, answers[1..]);
      assert Reached(e, answers) == [!e.skipUpdate] + rest;
      assert ([!e.skipUpdate] + rest)[1..] == rest;
      assert next.skipUpdate == !e.skipUpdate;
      AnsweredPollsFetchEveryOtherTime(next, answers[1..]);
    }
  }

  /** Polling keeps the entity invariant, whatever the device answers. */
  lemma {:induction false} RunKeepsConsistent(e: Entity, answers: seq<Response>)
    requires Consistent(e)
    ensures Consistent(Run(e, answers))
    decreases |answers|
  {
    if answers != [] {
      RunKeepsConsistent(PollStep(e, answers[0]), answers[1..]);
    }
  }

  /**
   * The skip-poll protocol does its job: the poll that starts after an answered
   * command's response has been taken in leaves everything the response wrote,
   * whatever the device would have reported, and only clears the skip flag.
   * (A poll already waiting on the device when the response arrives is not
   * covered: operations run here as single uninterrupted steps.)
   */
  lemma CommandStateSurvivesNextPoll(e: Entity, reply: Reply, answer: Response)
    ensures PollStep(AfterCommand(e, Answered(reply)), answer)
         == AfterCommand(e, Answered(reply)).(skipUpdate := false)
  {
  }

  // ------------------------------------------------------------ the two paths compared

  /** A flag value as the device reports it: missing, 0 or 1. */
  predicate IsFlag(v: Option<int>) {
    v == None || v == Some(0) || v == Some(1)
  }

  /**
   * With 0/1 flags, each sync path shows preset NONE exactly when neither flag
   * is 1, ECO exactly when only `econo` is, and BOOST exactly when only
   * `powerchill` is.
   */
  lemma PresetFollowsFlags(e: Entity, port: PortStatus)
    requires IsFlag(port.econo) && IsFlag(port.powerchill)
    requires !(port.econo == Some(1) && port.powerchill == Some(1))
    ensures var r := SyncFromStatus(e, port).preset;
      (r == PresetNone <==> port.econo != Some(1) && port.powerchill != Some(1)) &&
      (r == PresetEco <==> port.econo == Some(1)) &&
      (r == PresetBoost <==> port.powerchill == Some(1))
    ensures var r := SyncFromResponse(e, port).preset;
      (r == PresetNone <==> port.econo != Some(1) && port.powerchill != Some(1)) &&
      (r == PresetEco <==> port.econo == Some(1)) &&
      (r == PresetBoost <==> port.powerchill == Some(1))
  {
  }

  /**
   * The two sync paths disagree when the device reports both flags at 1:
   * a polled status shows ECO, a command response shows BOOST.
   */
  lemma SyncPathsDisagreeOnBothFlags(e: Entity, port: PortStatus)
    requires port.econo == Some(1) && port.powerchill == Some(1)
    ensures SyncFromStatus(e, port).preset == PresetEco
    ensures SyncFromResponse(e, port).preset == PresetBoost
  {
  }

  /**
   * Otherwise the two paths agree: on a status that reports its power and
   * carries 0/1 flags that are not both 1, a poll and a command response
   * produce the same state.
   */
  lemma SyncPathsAgree(e: Entity, port: PortStatus)
    requires port.power.Some?
    requires IsFlag(port.econo) && IsFlag(port.powerchill)
    requires !(port.econo == Some(1) && port.powerchill == Some(1))
    ensures SyncFromStatus(e, port) == SyncFromResponse(e, port)
  {
  }
}
