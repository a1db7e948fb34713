/**
 * The commands the entity sends: for each user action, whether a command goes
 * to the device and, if so, its payload. These are the payload-building parts
 * of `async_set_hvac_mode`, `async_set_fan_mode`, `async_set_temperature`,
 * `async_set_preset_mode` and `async_set_swing_mode`; sending the payload and
 * taking in the response is `DaikinClimate.SetThingState`.
 */
module Commands {
  import opened Wrappers
  import opened ModeTables
  import opened Protocol

  /**
   * `async_set_hvac_mode`: no command for an unsupported mode; OFF powers the
   * unit down and carries no mode; any other mode powers it up in that mode.
   */
  function HvacCommand(request: string): (p: Option<Payload>)
    ensures p.None? <==> HvacModeOfName(request).None?
    ensures p.Some? ==> p.value.(power := None, mode := None) == NoKeys
    ensures HvacModeOfName(request) == Some(Off) ==> p == Some(NoKeys.(power := Some(0)))
    ensures p.Some? && HvacModeOfName(request) != Some(Off) ==>
      p.value.power == Some(1) && p.value.mode.Some? &&
      HvacModeOfCode(p.value.mode) == HvacModeOfName(request).value
  {
    match HvacModeOfName(request)
    case None => None
    case Some(m) =>
      var code := HvacCode(m);
      if code == 0 then Some(NoKeys.(power := Some(0)))
      else Some(NoKeys.(mode := Some(code), power := Some(1)))
  }

  /**
   * `async_set_fan_mode`: no command in DRY mode or for an unknown fan speed;
   * otherwise a payload holding only the fan code of the requested speed.
   */
  function FanCommand(hvac: HvacMode, request: string): (p: Option<Payload>)
    ensures p.Some? <==> hvac != Dry && FanModeOfName(request).Some?
    ensures p.Some? ==> p.value.(fan := None) == NoKeys && p.value.fan.Some?
    ensures p.Some? ==> FanModeOfCode(p.value.fan) == FanModeOfName(request).value
    ensures p.Some? ==> p.value.fan == Some(FanCode(FanModeOfName(request).value))
  {
    if hvac == Dry then None
    else
      match FanModeOfName(request)
      case None => None
      case Some(f) => Some(NoKeys.(fan := Some(FanCode(f))))
  }

  /** What `async_set_temperature` does with a request. */
  datatype TemperatureOutcome =
    | NotProvided          // no temperature in the request: nothing happens
    | Refused(shown: int)  // not sent; the dial is left showing the requested value
    | SendTemperature(payload: Payload)

  /** The COOL-mode range of set points, 16..32 degrees. */
  predicate InCoolRange(t: int) {
    16 <= t <= 32
  }

  /**
   * `async_set_temperature`: a request without a temperature does nothing; in
   * COOL mode a set point outside 16..32 is refused, and in FAN_ONLY or DRY mode
   * every set point is; any other request sends the temperature unchanged, with
   * no range check outside COOL mode.
   */
  function TemperatureCommand(hvac: HvacMode, temperature: Option<int>): (o: TemperatureOutcome)
    ensures o.NotProvided? <==> temperature.None?
    ensures o.Refused? <==>
      temperature.Some? &&
      (hvac == FanOnly || hvac == Dry || (hvac == Cool && !InCoolRange(temperature.value)))
    ensures o.Refused? ==> Some(o.shown) == temperature
    ensures o.SendTemperature? ==> o.payload == NoKeys.(temperature := temperature)
  {
    match temperature
    case None => NotProvided
    case Some(t) =>
      if hvac == Cool && (t < 16 || t > 32) then Refused(t)
      else if hvac == FanOnly || hvac == Dry then Refused(t)
      else SendTemperature(NoKeys.(temperature := Some(t)))
  }

  /** What `async_set_preset_mode` does with a request. */
  datatype PresetOutcome =
    | PoweredOff     // the unit is not on: nothing is sent and the preset is kept
    | UnknownPreset  // the unit is on but the name is no preset: nothing is sent
    | SendPreset(preset: PresetMode, payload: Payload)

  /**
   * `async_set_preset_mode`: only a unit whose power state is exactly 1 accepts a
   * preset; a known preset is sent as its `econo` and `powerchill` flags, never
   * both at 1, which read back as the requested preset.
   */
  function PresetCommand(power: Option<int>, request: string): (o: PresetOutcome)
    ensures o.PoweredOff? <==> power != Some(1)
    ensures o.UnknownPreset? <==> power == Some(1) && PresetModeOfName(request).None?
    ensures o.SendPreset? ==> Some(o.preset) == PresetModeOfName(request)
    ensures o.SendPreset? ==>
      o.payload.(econo := None, powerchill := None) == NoKeys &&
      o.payload.econo.Some? && o.payload.powerchill.Some? &&
      o.payload.econo.value in {0, 1} && o.payload.powerchill.value in {0, 1} &&
      !(o.payload.econo == Some(1) && o.payload.powerchill == Some(1)) &&
      PresetOfFlags(o.payload.econo, o.payload.powerchill) == o.preset
  {
    if power == Some(1) then
      if request == "eco" then
        SendPreset(PresetEco, NoKeys.(powerchill := Some(0), econo := Some(1)))
      else if request == "boost" then
        SendPreset(PresetBoost, NoKeys.(powerchill := Some(1), econo := Some(0)))
      else if request == "none" then
        SendPreset(PresetNone, NoKeys.(powerchill := Some(0), econo := Some(0)))
      else UnknownPreset
    else PoweredOff
  }

  /**
   * `async_set_swing_mode`: no command for a name outside the swing mode list;
   * otherwise a payload holding only `v_swing`, which reads back as the
   * requested setting.
   */
  function SwingCommand(request: string): (p: Option<Payload>)
    ensures p.Some? <==> SwingModeOfName(request).Some?
    ensures p.Some? ==> p.value.(vSwing := None) == NoKeys && p.value.vSwing.Some?
    ensures p.Some? ==> SwingModeOfCode(p.value.vSwing) == SwingModeOfName(request).value
    ensures p.Some? ==> p.value.vSwing == Some(SwingCode(SwingModeOfName(request).value))
  {
    match SwingModeOfName(request)
    case None => None
    case Some(s) =>
      Some(NoKeys.(vSwing := Some(SwingCode(s))))
  }
}
