/**
 * The device's side of the conversation: the `port1` status object a reply
 * carries, the outcome of a network call, and the command payload.
 */
module Protocol {
  import opened Wrappers

  /**
   * The `port1` object of a status reply or of a command response. A field is
   * `None` when its key is missing; `roomTemp` is `sensors.room_temp` (missing
   * when either key is).
   */
  datatype PortStatus = PortStatus(
    power: Option<int>,
    mode: Option<int>,
    temperature: Option<int>,
    roomTemp: Option<int>,
    fan: Option<int>,
    vSwing: Option<int>,
    econo: Option<int>,
    powerchill: Option<int>)

  /** The `{}` that `get("port1", {})` falls back to. */
  const EmptyPort := PortStatus(None, None, None, None, None, None, None, None)

  /** A reply of the device: a dictionary that may or may not carry `port1`. */
  datatype Reply = Reply(port1: Option<PortStatus>)

  /** `reply.get("port1", {})`. */
  function PortOf(r: Reply): PortStatus {
    r.port1.GetOr(EmptyPort)
  }

  /**
   * What a network call (`get_thing_info` or `send_operation_data`) gives back:
   * a reply, or any of the exceptions it may raise, which the entity treats alike.
   */
  datatype Response = Answered(reply: Reply) | Failed

  /** The `port1` object of a command; a `None` field is a key the command leaves out. */
  datatype Payload = Payload(
    power: Option<int>,
    mode: Option<int>,
    temperature: Option<int>,
    fan: Option<int>,
    vSwing: Option<int>,
    econo: Option<int>,
    powerchill: Option<int>)

  /** A payload with no keys. */
  const NoKeys := Payload(None, None, None, None, None, None, None)

  /**
   * The reported status carries every key of the payload with the value the
   * payload gave it: the device applied the command and echoes it back.
   */
  predicate Echoes(p: Payload, port: PortStatus) {
    (p.power.Some? ==> port.power == p.power) &&
    (p.mode.Some? ==> port.mode == p.mode) &&
    (p.temperature.Some? ==> port.temperature == p.temperature) &&
    (p.fan.Some? ==> port.fan == p.fan) &&
    (p.vSwing.Some? ==> port.vSwing == p.vSwing) &&
    (p.econo.Some? ==> port.econo == p.econo) &&
    (p.powerchill.Some? ==> port.powerchill == p.powerchill)
  }
}
