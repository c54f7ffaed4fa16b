/**
 * Enumerations and option records shared by the controller: communication protocols
 * (`model/controller/general.py`) and energy-meter types and options (`model/controller/device.py`).
 */
module General {
  import opened Wrappers

  datatype Protocol = NONE | OPC_UA | MQTT | MODBUS_TCP | MODBUS_RTU

  /** The enum value string of a protocol. */
  function ProtocolValue(p: Protocol): string
  {
    match p
    case NONE => "NONE"
    case OPC_UA => "OPC_UA"
    case MQTT => "MQTT"
    case MODBUS_TCP => "MODBUS_TCP"
    case MODBUS_RTU => "MODBUS_RTU"
  }

  /** `Protocol.valid_protocols()`: the set of all protocol value strings. */
  function ValidProtocols(): set<string>
  {
    {"NONE", "OPC_UA", "MQTT", "MODBUS_TCP", "MODBUS_RTU"}
  }

  /** `Protocol(s)`: the member whose value is `s`, or `None` where Python raises `ValueError`. */
  function ProtocolFromValue(s: string): (r: Option<Protocol>)
    ensures r.Some? <==> s in ValidProtocols()
    ensures r.Some? ==> ProtocolValue(r.value) == s
  {
    if s == "NONE" then Some(NONE)
    else if s == "OPC_UA" then Some(OPC_UA)
    else if s == "MQTT" then Some(MQTT)
    else if s == "MODBUS_TCP" then Some(MODBUS_TCP)
    else if s == "MODBUS_RTU" then Some(MODBUS_RTU)
    else None
  }

  /** Every protocol's value string is valid and parses back to the same protocol. */
  lemma ProtocolValueRoundTrip(p: Protocol)
    ensures ProtocolValue(p) in ValidProtocols()
    ensures ProtocolFromValue(ProtocolValue(p)) == Some(p)
  {
  }

  datatype EnergyMeterType = SINGLE_PHASE | THREE_PHASE

  /** The enum value string of a meter type. */
  function EnergyMeterTypeValue(t: EnergyMeterType): string
  {
    match t
    case SINGLE_PHASE => "SINGLE_PHASE"
    case THREE_PHASE => "THREE_PHASE"
  }

  /** `EnergyMeterType(s)`: the member whose value is `s`, or `None` where Python raises `ValueError`. */
  function EnergyMeterTypeFromValue(s: string): (r: Option<EnergyMeterType>)
    ensures r.Some? <==> s in {"SINGLE_PHASE", "THREE_PHASE"}
    ensures r.Some? ==> EnergyMeterTypeValue(r.value) == s
  {
    if s == "SINGLE_PHASE" then Some(SINGLE_PHASE)
    else if s == "THREE_PHASE" then Some(THREE_PHASE)
    else None
  }

  /** Every meter type converts back from its value. */
  lemma EnergyMeterTypeValueRoundTrip(t: EnergyMeterType)
    ensures EnergyMeterTypeFromValue(EnergyMeterTypeValue(t)) == Some(t)
  {
  }

  datatype PowerFactorDirection = UNKNOWN | UNITARY | LAGGING | LEADING

  function PowerFactorDirectionValue(d: PowerFactorDirection): string
  {
    match d
    case UNKNOWN => "UNKNOWN"
    case UNITARY => "UNITARY"
    case LAGGING => "LAGGING"
    case LEADING => "LEADING"
  }

  /** `EnergyMeterOptions`: what the meter reads and how. */
  datatype EnergyMeterOptions = EnergyMeterOptions(
    readEnergyFromMeter: bool,
    readSeparateForwardReverseEnergy: bool,
    negativeReactivePower: bool,
    frequencyReading: bool)
}
