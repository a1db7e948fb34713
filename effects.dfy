/**
 * Each command, read back: when the device applies a command and echoes the
 * keys it was sent, the sync that follows shows exactly what the user asked
 * for. These lemmas tie the write direction of each code table (Commands) to
 * its read direction (Sync).
 */
module Effects {
  import opened Wrappers
  import opened ModeTables
  import opened Protocol
  import opened Commands
  import opened Sync

  /** An HVAC mode command, echoed back, shows the requested mode on either sync path. */
  lemma HvacCommandTakesEffect(e: Entity, request: string, port: PortStatus)
    requires HvacCommand(request).Some?
    requires Echoes(HvacCommand(request).value, port)
    ensures SyncFromResponse(e, port).hvac == HvacModeOfName(request).value
    ensures SyncFromStatus(e, port).hvac == HvacModeOfName(request).value
  {
  }

  /** A fan command, echoed back, shows the requested fan speed on either sync path. */
  lemma FanCommandTakesEffect(e: Entity, hvac: HvacMode, request: string, port: PortStatus)
    requires FanCommand(hvac, request).Some?
    requires Echoes(FanCommand(hvac, request).value, port)
    ensures SyncFromResponse(e, port).fan == FanModeOfName(request).value
    ensures SyncFromStatus(e, port).fan == FanModeOfName(request).value
  {
  }

  /** A temperature command, echoed back, shows the requested set point on either sync path. */
  lemma TemperatureCommandTakesEffect(e: Entity, hvac: HvacMode, temperature: Option<int>, port: PortStatus)
    requires TemperatureCommand(hvac, temperature).SendTemperature?
    requires Echoes(TemperatureCommand(hvac, temperature).payload, port)
    ensures SyncFromResponse(e, port).target == temperature
    ensures SyncFromStatus(e, port).target == temperature
  {
  }

  /**
   * A preset command, echoed back, shows the requested preset on either sync
   * path, whatever preset was shown before: the flags it writes are never the
   * pair on which the two paths disagree.
   */
  lemma PresetCommandTakesEffect(e: Entity, power: Option<int>, request: string, port: PortStatus)
    requires PresetCommand(power, request).SendPreset?
    requires Echoes(PresetCommand(power, request).payload, port)
    ensures SyncFromResponse(e, port).preset == PresetCommand(power, request).preset
    ensures SyncFromStatus(e, port).preset == PresetCommand(power, request).preset
  {
  }

  /** A swing command, echoed back, shows the requested swing setting on either sync path. */
  lemma SwingCommandTakesEffect(e: Entity, request: string, port: PortStatus)
    requires SwingCommand(request).Some?
    requires Echoes(SwingCommand(request).value, port)
    ensures SyncFromResponse(e, port).swing == SwingModeOfName(request).value
    ensures SyncFromStatus(e, port).swing == SwingModeOfName(request).value
  {
  }
}
