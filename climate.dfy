/**
 * The climate entity `DaikinClimate`: the mirrored fields, the user actions
 * that turn into device commands, and the two ways the device's reports come
 * back in. The network calls are parameters: `send` answers a command as
 * `send_operation_data` would, and `answer` is what `get_thing_info` gives to
 * a poll that calls it.
 */
module Climate {
  import opened Wrappers
  import opened ModeTables
  import opened Protocol
  import opened Commands
  import opened Sync

  class DaikinClimate {
    var powerState: Option<int>
    var hvacMode: HvacMode
    var targetTemperature: Option<int>
    var currentTemperature: Option<int>
    var fanMode: FanMode
    var swingMode: SwingMode
    var presetMode: PresetMode
    var skipUpdate: bool
    var available: bool

    /** The fields as one value. */
    function State(): Entity
      reads this
    {
      Entity(powerState, hvacMode, targetTemperature, currentTemperature,
             fanMode, swingMode, presetMode, skipUpdate, available)
    }

    /** The object invariant: a unit that is not on shows HVAC mode OFF. */
    ghost predicate Valid()
      reads this
    {
      Consistent(State())
    }

    /** `__init__`: available, powered off, fan auto, swing off, no preset, no skip pending. */
    constructor ()
      ensures Valid() && State() == Initial
    {
      available := true;
      powerState := Some(0);
      hvacMode := Off;
      targetTemperature := None;
      currentTemperature := None;
      fanMode := FanAuto;
      presetMode := PresetNone;
      swingMode := SwingOff;
      skipUpdate := false;
    }

    /**
     * `set_thing_state`: send the payload; on a response, rebuild the mirrored
     * fields from its `port1` and arm the skip flag; on a failure, change nothing.
     */
    method SetThingState(payload: Payload, send: Payload -> Response)
      requires Valid()
      modifies this
      ensures Valid()
      ensures State() == AfterCommand(old(State()), send(payload))
    {
      var response := send(payload);
      if response.Failed? {
        return;
      }
      var port := PortOf(response.reply);
      powerState := port.power;
      var modeValue := port.mode;
      hvacMode := if PoweredOn(powerState) then HvacModeOfCode(modeValue) else Off;
      targetTemperature := port.temperature;
      currentTemperature := port.roomTemp;
      fanMode := FanModeOfCode(port.fan);
      var vSwing := port.vSwing.GetOr(0);
      swingMode := if vSwing == 1 then SwingVertical else SwingOff;
      var econo := port.econo.GetOr(0);
      var powerchill := port.powerchill.GetOr(0);
      if econo == 1 {
        presetMode := PresetEco;
      }
      if powerchill == 1 {
        presetMode := PresetBoost;
      }
      if econo == 0 && powerchill == 0 {
        presetMode := PresetNone;
      }
      skipUpdate := true;
    }

    /**
     * `update_entity_properties`: rebuild the mirrored fields from a polled
     * status and arm the skip flag; availability is left to the caller.
     */
    method UpdateEntityProperties(status: Reply)
      requires Valid()
      modifies this
      ensures Valid()
      ensures State() == SyncFromStatus(old(State()), PortOf(status))
    {
      var port := PortOf(status);
      currentTemperature := port.roomTemp;
      targetTemperature := port.temperature;
      powerState := Some(port.power.GetOr(0));
      if powerState == Some(0) {
        hvacMode := Off;
      } else {
        var modeValue := port.mode.GetOr(0);
        hvacMode := HvacModeOfCode(Some(modeValue));
      }
      fanMode := FanModeOfCode(port.fan);
      var vSwing := port.vSwing.GetOr(0);
      swingMode := if vSwing == 1 then SwingVertical else SwingOff;
      var econo := port.econo.GetOr(0);
      var powerchill := port.powerchill.GetOr(0);
      if econo == 1 {
        presetMode := PresetEco;
      } else if powerchill == 1 {
        presetMode := PresetBoost;
      } else {
        presetMode := PresetNone;
      }
      skipUpdate := true;
    }

    /**
     * `async_update`: one poll. A pending skip is consumed without calling the
     * device (`fetched` is false); otherwise the device is asked, and its answer
     * is synced and marks the entity available, or its failure marks it
     * unavailable.
     */
    method AsyncUpdate(answer: Response) returns (fetched: bool)
      requires Valid()
      modifies this
      ensures Valid()
      ensures fetched == !old(skipUpdate)
      ensures State() == PollStep(old(State()), answer)
    {
      if skipUpdate {
        skipUpdate := false;
        return false;
      }
      fetched := true;
      match answer
      case Failed =>
        available := false;
      case Answered(status) =>
        UpdateEntityProperties(status);
        available := true;
    }

    /** `async_set_hvac_mode`: `sent` is the command sent, if any. */
    method SetHvacMode(request: string, send: Payload -> Response) returns (sent: Option<Payload>)
      requires Valid()
      modifies this
      ensures Valid()
      ensures sent == HvacCommand(request)
      ensures State() == if sent.Some? then AfterCommand(old(State()), send(sent.value)) else old(State())
    {
      sent := HvacCommand(request);
      if sent.Some? {
        SetThingState(sent.value, send);
      }
    }

    /** `async_set_fan_mode`: refused in DRY mode and for an unknown fan speed. */
    method SetFanMode(request: string, send: Payload -> Response) returns (sent: Option<Payload>)
      requires Valid()
      modifies this
      ensures Valid()
      ensures sent == FanCommand(old(hvacMode), request)
      ensures State() == if sent.Some? then AfterCommand(old(State()), send(sent.value)) else old(State())
    {
      sent := FanCommand(hvacMode, request);
      if sent.Some? {
        SetThingState(sent.value, send);
      }
    }

    /**
     * `async_set_temperature`: a refused set point is still written to the
     * target temperature (the dial shows it) but is not sent.
     */
    method SetTemperature(temperature: Option<int>, send: Payload -> Response) returns (sent: Option<Payload>)
      requires Valid()
      modifies this
      ensures Valid()
      ensures var o := TemperatureCommand(old(hvacMode), temperature);
        sent == (if o.SendTemperature? then Some(o.payload) else None)
      ensures var o := TemperatureCommand(old(hvacMode), temperature);
        State() == match o
          case NotProvided => old(State())
          case Refused(t) => old(State()).(target := Some(t))
          case SendTemperature(p) => AfterCommand(old(State()), send(p))
    {
      match TemperatureCommand(hvacMode, temperature)
      case NotProvided =>
        sent := None;
      case Refused(t) =>
        targetTemperature := Some(t);
        sent := None;
      case SendTemperature(p) =>
        sent := Some(p);
        SetThingState(p, send);
    }

    /**
     * `async_set_preset_mode`: refused unless the power state is 1; a known
     * preset is shown at once, before the command is sent, and stays shown if
     * the command fails.
     */
    method SetPresetMode(request: string, send: Payload -> Response) returns (sent: Option<Payload>)
      requires Valid()
      modifies this
      ensures Valid()
      ensures var o := PresetCommand(old(powerState), request);
        sent == (if o.SendPreset? then Some(o.payload) else None)
      ensures var o := PresetCommand(old(powerState), request);
        State() == if o.SendPreset?
          then AfterCommand(old(State()).(preset := o.preset), send(o.payload))
          else old(State())
    {
      match PresetCommand(powerState, request)
      case PoweredOff =>
        sent := None;
      case UnknownPreset =>
        sent := None;
      case SendPreset(preset, p) =>
        presetMode := preset;
        sent := Some(p);
        SetThingState(p, send);
    }

    /** `async_set_swing_mode`: refused for a name outside the swing mode list. */
    method SetSwingMode(request: string, send: Payload -> Response) returns (sent: Option<Payload>)
      requires Valid()
      modifies this
      ensures Valid()
      ensures sent == SwingCommand(request)
      ensures State() == if sent.Some? then AfterCommand(old(State()), send(sent.value)) else old(State())
    {
      sent := SwingCommand(request);
      if sent.Some? {
        SetThingState(sent.value, send);
      }
    }
  }
}
