/**
 * The device manager of `controller/manager.py`: the set of managed devices, and the rebuilding
 * of a device and its nodes from a persisted record.
 *
 * Node records are turned into the arguments of the legacy `Node` constructor of
 * `controller/node.py` (and of its `ModbusRTUNode` / `OPCUANode` subclasses), which then
 * normalises and validates them as `LegacyNode.Construct` says.
 */
module Manager {
  import opened Wrappers
  import opened Values
  import opened General
  import opened NodeModel
  import LegacyNode
  import LegacyDevice

  /** A persisted node: its name, its protocol and its stored configuration dictionary. */
  datatype StoredNode = StoredNode(name: string, protocol: Protocol, config: map<string, Value>)

  /** A node the manager has built: its validated configuration and how it is addressed. */
  datatype BuiltNode = BuiltNode(config: LegacyNode.LegacyConfig, addressing: LegacyNode.Addressing)

  /**
   * The errors of rebuilding. `UnexpectedValue` stands for a stored value of a Python type the
   * node's field does not hold (a number as unit, say), which the model does not carry further.
   */
  datatype ManagerError =
    | KeyMissing(key: string)
    | InvalidNodeType
    | UnexpectedValue(key: string)
    | NodeRejected(reason: LegacyNode.LegacyError)
    | MissingMeterOptions
    | ConnectionOptionsRejected
    | UnsupportedProtocol(protocol: Protocol)

  // ---------------------------------------------------------------- reading a stored config

  /** `cfg.get(key, default)` for a boolean field. */
  function BoolOr(cfg: map<string, Value>, key: string, default: bool): (r: Result<bool, ManagerError>)
    ensures key !in cfg ==> r == Ok(default)
    ensures key in cfg ==> (r.Ok? <==> cfg[key].Bool?)
    ensures r.Ok? && key in cfg ==> r.value == cfg[key].b
  {
    if key !in cfg then Ok(default)
    else if cfg[key].Bool? then Ok(cfg[key].b)
    else Err(UnexpectedValue(key))
  }

  /** `cfg.get(key, default)` for a field that holds a boolean or `None`. */
  function OptBoolOr(cfg: map<string, Value>, key: string, default: bool): (r: Result<Option<bool>, ManagerError>)
    ensures key !in cfg ==> r == Ok(Some(default))
    ensures key in cfg ==> (r.Ok? <==> cfg[key].Bool? || cfg[key].Null?)
    ensures r.Ok? && key in cfg ==> r.value == (if cfg[key].Bool? then Some(cfg[key].b) else None)
  {
    if key !in cfg then Ok(Some(default))
    else if cfg[key].Bool? then Ok(Some(cfg[key].b))
    else if cfg[key].Null? then Ok(None)
    else Err(UnexpectedValue(key))
  }

  /** `cfg.get(key, default)` for a threshold, which holds a number or `None`. */
  function OptNumberOr(cfg: map<string, Value>, key: string, default: real): (r: Result<Option<real>, ManagerError>)
    ensures key !in cfg ==> r == Ok(Some(default))
    ensures key in cfg ==> (r.Ok? <==> NumberOf(cfg[key]).Some? || cfg[key].Null?)
    ensures r.Ok? && key in cfg ==> r.value == NumberOf(cfg[key])
  {
    if key !in cfg then Ok(Some(default))
    else if NumberOf(cfg[key]).Some? then Ok(NumberOf(cfg[key]))
    else if cfg[key].Null? then Ok(None)
    else Err(UnexpectedValue(key))
  }

  /** `cfg["unit"]`, which raises `KeyError` when absent and holds a string or `None`. */
  function UnitOf(cfg: map<string, Value>): (r: Result<Option<string>, ManagerError>)
    ensures "unit" !in cfg <==> r == Err(KeyMissing("unit"))
    ensures r.Ok? ==> (cfg["unit"].Str? && r.value == Some(cfg["unit"].s)) || (cfg["unit"].Null? && r.value.None?)
  {
    if "unit" !in cfg then Err(KeyMissing("unit"))
    else if cfg["unit"].Str? then Ok(Some(cfg["unit"].s))
    else if cfg["unit"].Null? then Ok(None)
    else Err(UnexpectedValue("unit"))
  }

  /** `NodeType(cfg["type"])`. */
  function NodeTypeOf(cfg: map<string, Value>): (r: Result<NodeType, ManagerError>)
    ensures "type" !in cfg <==> r == Err(KeyMissing("type"))
    ensures r.Ok? ==> cfg["type"].Str? && NodeTypeValue(r.value) == cfg["type"].s
  {
    if "type" !in cfg then Err(KeyMissing("type"))
    else if cfg["type"].Str? && NodeTypeFromValue(cfg["type"].s).Some? then Ok(NodeTypeFromValue(cfg["type"].s).value)
    else Err(InvalidNodeType)
  }

  /** The address a protocol node reads: `cfg["register"]` for Modbus RTU, `cfg["node_id"]` for OPC UA. */
  function AddressingOf(protocol: Protocol, cfg: map<string, Value>): (r: Result<LegacyNode.Addressing, ManagerError>)
    ensures protocol == MODBUS_RTU ==> ("register" !in cfg <==> r == Err(KeyMissing("register")))
    ensures protocol == OPC_UA ==> ("node_id" !in cfg <==> r == Err(KeyMissing("node_id")))
    ensures protocol != MODBUS_RTU && protocol != OPC_UA ==> r == Ok(LegacyNode.Plain)
    ensures r.Ok? && protocol == MODBUS_RTU ==> r.value.Register? && IsInt(cfg["register"])
    ensures r.Ok? && protocol == OPC_UA ==> cfg["node_id"].Str? && r.value == LegacyNode.NodeId(cfg["node_id"].s)
  {
    if protocol == MODBUS_RTU then
      if "register" !in cfg then Err(KeyMissing("register"))
      else if IsInt(cfg["register"]) then Ok(LegacyNode.Register(AsInt(cfg["register"])))
      else Err(UnexpectedValue("register"))
    else if protocol == OPC_UA then
      if "node_id" !in cfg then Err(KeyMissing("node_id"))
      else if cfg["node_id"].Str? then Ok(LegacyNode.NodeId(cfg["node_id"].s))
      else Err(UnexpectedValue("node_id"))
    else Ok(LegacyNode.Plain)
  }

  /** The fields every stored node passes with its `cfg.get` default. */
  datatype CommonFields = CommonFields(
    publish: bool, calculated: bool, logging: bool, loggingPeriod: Value,
    minAlarm: bool, maxAlarm: bool, minAlarmValue: Option<real>, maxAlarmValue: Option<real>)

  function CommonFieldsOf(cfg: map<string, Value>): (r: Result<CommonFields, ManagerError>)
    ensures r.Ok? ==> r.value.loggingPeriod == (if "logging_period" in cfg then cfg["logging_period"] else Int(15))
    ensures r.Ok? && "publish" !in cfg ==> r.value.publish
    ensures r.Ok? && "calculated" !in cfg ==> !r.value.calculated
    ensures r.Ok? && "logging" !in cfg ==> !r.value.logging
    ensures r.Ok? && "min_alarm" !in cfg ==> !r.value.minAlarm
    ensures r.Ok? && "max_alarm" !in cfg ==> !r.value.maxAlarm
    ensures r.Ok? && "min_alarm_value" !in cfg ==> r.value.minAlarmValue == Some(0.0)
    ensures r.Ok? && "max_alarm_value" !in cfg ==> r.value.maxAlarmValue == Some(0.0)
  {
    var publish :- BoolOr(cfg, "publish", true);
    var calculated :- BoolOr(cfg, "calculated", false);
    var logging :- BoolOr(cfg, "logging", false);
    var period := if "logging_period" in cfg then cfg["logging_period"] else Int(15);
    var minAlarm :- BoolOr(cfg, "min_alarm", false);
    var maxAlarm :- BoolOr(cfg, "max_alarm", false);
    var minValue :- OptNumberOr(cfg, "min_alarm_value", 0.0);
    var maxValue :- OptNumberOr(cfg, "max_alarm_value", 0.0);
    Ok(CommonFields(publish, calculated, logging, period, minAlarm, maxAlarm, minValue, maxValue))
  }

  /**
   * The constructor arguments of one stored node, before the constructor normalises them. Only a
   * node without a Modbus RTU or OPC UA protocol takes its incremental options from the record;
   * the protocol subclasses fix them, together with the protocol, as `ProtocolNodeArgs` says.
   */
  function NodeArgs(n: StoredNode): (r: Result<(LegacyNode.LegacyConfig, LegacyNode.Addressing), ManagerError>)
  {
    var cfg := n.config;
    var nodeType :- NodeTypeOf(cfg);
    var addressing :- AddressingOf(n.protocol, cfg);
    var unit :- UnitOf(cfg);
    var f :- CommonFieldsOf(cfg);
    var base := LegacyNode.LegacyConfig(
      n.name, nodeType, unit, ProtocolValue(NONE), true, f.publish, f.calculated, false, Some(3), false,
      f.logging, f.loggingPeriod, f.minAlarm, f.maxAlarm, f.minAlarmValue, f.maxAlarmValue,
      Some(false), Some(false), Some(true));
    if n.protocol == MODBUS_RTU || n.protocol == OPC_UA then
      Ok((LegacyNode.ProtocolNodeArgs(base, n.protocol), addressing))
    else
      var incremental :- OptBoolOr(cfg, "incremental_node", false);
      var positive :- OptBoolOr(cfg, "positive_incremental", false);
      var increment :- OptBoolOr(cfg, "calculate_increment", true);
      Ok((base.(incrementalNode := incremental, positiveIncremental := positive, calculateIncrement := increment),
          addressing))
  }

  /** One iteration of `create_nodes`: read the arguments, then construct (and validate) the node. */
  function BuildNode(n: StoredNode): (r: Result<BuiltNode, ManagerError>)
  {
    var (args, addressing) :- NodeArgs(n);
    match LegacyNode.Construct(args)
    case Err(e) => Err(NodeRejected(e))
    case Ok(c) => Ok(BuiltNode(c, addressing))
  }

  /** `create_nodes` as a value: every stored node in turn, the first failure raising. */
  function BuildNodes(ns: seq<StoredNode>): (r: Result<seq<BuiltNode>, ManagerError>)
    decreases |ns|
  {
    if ns == [] then Ok([])
    else
      match BuildNode(ns[0])
      case Err(e) => Err(e)
      case Ok(b) =>
        match BuildNodes(ns[1..])
        case Err(e) => Err(e)
        case Ok(rest) => Ok([b] + rest)
  }

  /**
   * The rebuilt nodes: one per stored node, in order, each the node its record builds; and the
   * rebuild succeeds exactly when every stored node builds.
   */
  lemma {:induction false} BuildNodesSpec(ns: seq<StoredNode>)
    decreases |ns|
    ensures BuildNodes(ns).Ok? <==> forall i :: 0 <= i < |ns| ==> BuildNode(ns[i]).Ok?
    ensures BuildNodes(ns).Ok? ==> |BuildNodes(ns).value| == |ns|
    ensures BuildNodes(ns).Ok? ==> forall i :: 0 <= i < |ns| ==> BuildNodes(ns).value[i] == BuildNode(ns[i]).value
  {
    if ns != [] {
      BuildNodesSpec(ns[1..]);
      if BuildNodes(ns).Ok? {
        forall i | 0 <= i < |ns|
          ensures BuildNodes(ns).value[i] == BuildNode(ns[i]).value
        {
          if i > 0 {
            assert ns[i] == ns[1..][i - 1];
          }
        }
      }
      if forall i :: 0 <= i < |ns| ==> BuildNode(ns[i]).Ok? {
        assert forall i :: 0 <= i < |ns[1..]| ==> BuildNode(ns[1..][i]) == BuildNode(ns[i + 1]);
      }
    }
  }

  /** A failed rebuild raises the error of the first stored node that fails. */
  lemma {:induction false} BuildNodesFirstError(ns: seq<StoredNode>, k: nat)
    requires k < |ns| && BuildNode(ns[k]).Err?
    requires forall i :: 0 <= i < k ==> BuildNode(ns[i]).Ok?
    ensures BuildNodes(ns) == Err(BuildNode(ns[k]).error)
  {
    if k > 0 {
      assert forall i :: 0 <= i < k - 1 ==> ns[1..][i] == ns[i + 1];
      BuildNodesFirstError(ns[1..], k - 1);
    }
  }

  /** A built node carries its record's name, satisfies the legacy validation and has its address. */
  lemma BuildNodeValid(n: StoredNode)
    ensures BuildNode(n).Ok? ==> LegacyNode.Consistent(BuildNode(n).value.config)
    ensures BuildNode(n).Ok? ==> BuildNode(n).value.config.name == n.name
    ensures BuildNode(n).Ok? ==> BuildNode(n).value.addressing == AddressingOf(n.protocol, n.config).value
  {
    var r := NodeArgs(n);
    if r.Ok? {
      LegacyNode.ConstructValidates(r.value.0);
    }
  }

  /** `NodeType(cfg["type"])` comes first: a missing or unknown type decides the error before anything else. */
  lemma BuildNodeTypeFirst(n: StoredNode)
    ensures "type" !in n.config ==> BuildNode(n) == Err(KeyMissing("type"))
    ensures "type" in n.config && NodeTypeOf(n.config).Err? ==> BuildNode(n) == Err(InvalidNodeType)
  {
  }

  /** A Modbus RTU node without a register, or an OPC UA node without a node id, is rejected with that key. */
  lemma BuildNodeNeedsAddress(n: StoredNode)
    requires NodeTypeOf(n.config).Ok?
    ensures n.protocol == MODBUS_RTU && "register" !in n.config ==> BuildNode(n) == Err(KeyMissing("register"))
    ensures n.protocol == OPC_UA && "node_id" !in n.config ==> BuildNode(n) == Err(KeyMissing("node_id"))
  {
  }

  /**
   * Only protocol-less nodes take incremental options from the record: a Modbus RTU or OPC UA
   * node is never incremental whatever its record says, and carries its protocol.
   */
  lemma ProtocolNodesNotIncremental(n: StoredNode)
    requires n.protocol == MODBUS_RTU || n.protocol == OPC_UA
    ensures NodeArgs(n).Ok? ==> NodeArgs(n).value.0.incrementalNode == Some(false)
    ensures NodeArgs(n).Ok? ==> NodeArgs(n).value.0.protocol == ProtocolValue(n.protocol)
  {
  }

  /** A protocol-less node takes `incremental_node` from its record, defaulting to False. */
  lemma PlainNodeIncrementalFromRecord(n: StoredNode)
    requires n.protocol != MODBUS_RTU && n.protocol != OPC_UA
    requires NodeArgs(n).Ok?
    ensures "incremental_node" !in n.config ==> NodeArgs(n).value.0.incrementalNode == Some(false)
    ensures "incremental_node" in n.config && n.config["incremental_node"].Bool? ==>
      NodeArgs(n).value.0.incrementalNode == Some(n.config["incremental_node"].b)
  {
  }

  /** `create_nodes`: the loop over the stored nodes, stopping at the first that raises. */
  method CreateNodes(ns: seq<StoredNode>) returns (r: Result<seq<BuiltNode>, ManagerError>)
    ensures r == BuildNodes(ns)
  {
    var built: seq<BuiltNode> := [];
    var i := 0;
    assert ns[i..] == ns;
    PrependNone(BuildNodes(ns));
    while i < |ns|
      invariant 0 <= i <= |ns|
      invariant BuildNodes(ns) == PrependBuilt(built, BuildNodes(ns[i..]))
    {
      BuildNodesUnfold(ns[i..]);
      assert ns[i..][0] == ns[i] && ns[i..][1..] == ns[i + 1..];
      var b := BuildNode(ns[i]);
      if b.Err? {
        return Err(b.error);
      }
      PrependBuiltAppend(built, b.value, BuildNodes(ns[i + 1..]));
      built := built + [b.value];
      i := i + 1;
    }
    assert ns[i..] == [];
    assert built + [] == built;
    return Ok(built);
  }

  /** `built` put in front of the nodes of a successful rebuild. */
  function PrependBuilt(built: seq<BuiltNode>, r: Result<seq<BuiltNode>, ManagerError>): Result<seq<BuiltNode>, ManagerError>
  {
    match r
    case Ok(rest) => Ok(built + rest)
    case Err(e) => Err(e)
  }

  lemma PrependNone(r: Result<seq<BuiltNode>, ManagerError>)
    ensures PrependBuilt([], r) == r
  {
    if r.Ok? {
      assert [] + r.value == r.value;
    }
  }

  lemma PrependBuiltAppend(built: seq<BuiltNode>, b: BuiltNode, r: Result<seq<BuiltNode>, ManagerError>)
    ensures PrependBuilt(built, PrependBuilt([b], r)) == PrependBuilt(built + [b], r)
  {
    if r.Ok? {
      assert built + ([b] + r.value) == (built + [b]) + r.value;
    }
  }

  /** One step of `BuildNodes`: the first node, then the rest. */
  lemma BuildNodesUnfold(ns: seq<StoredNode>)
    requires ns != []
    ensures BuildNode(ns[0]).Err? ==> BuildNodes(ns) == Err(BuildNode(ns[0]).error)
    ensures BuildNode(ns[0]).Ok? ==> BuildNodes(ns) == PrependBuilt([BuildNode(ns[0]).value], BuildNodes(ns[1..]))
  {
  }

  // ---------------------------------------------------------------- rebuilding a device

  /** The four `EnergyMeterOptions` flags. */
  datatype MeterOptions = MeterOptions(
    readEnergyFromMeter: bool, readSeparateForwardReverseEnergy: bool,
    negativeReactivePower: bool, frequencyReading: bool)

  function MeterOptionKeys(): set<string>
  {
    {"read_energy_from_meter", "read_separate_forward_reverse_energy", "negative_reactive_power", "frequency_reading"}
  }

  /**
   * `EnergyMeterOptions(**m)`: exactly the four keyword arguments, or Python raises `TypeError`;
   * the flags keep the truthiness of the stored values.
   */
  function MeterOptionsOf(m: map<string, Value>): (r: Result<MeterOptions, ManagerError>)
    ensures r.Ok? <==> m.Keys == MeterOptionKeys()
    ensures r.Ok? ==> r.value.readEnergyFromMeter == Truthy(m["read_energy_from_meter"])
    ensures r.Ok? ==> r.value.frequencyReading == Truthy(m["frequency_reading"])
  {
    if m.Keys == MeterOptionKeys() then
      Ok(MeterOptions(Truthy(m["read_energy_from_meter"]), Truthy(m["read_separate_forward_reverse_energy"]),
                      Truthy(m["negative_reactive_power"]), Truthy(m["frequency_reading"])))
    else Err(MissingMeterOptions)
  }

  /** A persisted energy meter. */
  datatype StoredMeter = StoredMeter(
    id: int, name: string, protocol: Protocol, meterType: string,
    meterOptions: map<string, Value>, connectionOptions: map<string, Value>, nodes: seq<StoredNode>)

  datatype MeterKind = ModbusRtuMeter | OpcUaMeter

  /** The eight parameters of the `ModbusRTUOptions` constructor, none with a default. */
  function ModbusRtuOptionKeys(): set<string>
  {
    {"slave_id", "port", "baudrate", "stopbits", "parity", "bytesize", "read_period", "timeout"}
  }

  /**
   * The keyword-only fields of the `OPCUAOptions` dataclass: `url` is required, the others
   * have defaults (`read_period` and `timeout` come from `BaseCommunicationOptions`).
   */
  function OpcUaOptionKeys(): set<string>
  {
    {"url", "username", "password", "read_period", "timeout"}
  }

  /** The defaults of the optional `OPCUAOptions` fields. */
  function OpcUaDefaults(): map<string, Value>
  {
    map["read_period" := Int(5), "timeout" := Int(5), "username" := Null, "password" := Null]
  }

  /**
   * `ModbusRTUOptions(**conn)` or `OPCUAOptions(**conn)`: a missing required argument or an
   * unexpected keyword raises `TypeError`; the values themselves are not checked, and the
   * OPC UA fields left out take their defaults.
   */
  function ConnectionOptionsOf(kind: MeterKind, conn: map<string, Value>): (r: Result<map<string, Value>, ManagerError>)
    ensures kind == ModbusRtuMeter ==> (r.Ok? <==> conn.Keys == ModbusRtuOptionKeys())
    ensures kind == OpcUaMeter ==> (r.Ok? <==> "url" in conn && conn.Keys <= OpcUaOptionKeys())
    ensures r.Err? ==> r.error == ConnectionOptionsRejected
    ensures r.Ok? ==> conn.Keys <= r.value.Keys && forall k :: k in conn ==> r.value[k] == conn[k]
    ensures r.Ok? && kind == OpcUaMeter ==>
      r.value.Keys == OpcUaOptionKeys() &&
      forall k :: k in OpcUaDefaults() && k !in conn ==> r.value[k] == OpcUaDefaults()[k]
  {
    match kind
    case ModbusRtuMeter =>
      if conn.Keys == ModbusRtuOptionKeys() then Ok(conn) else Err(ConnectionOptionsRejected)
    case OpcUaMeter =>
      if "url" in conn && conn.Keys <= OpcUaOptionKeys() then Ok(OpcUaDefaults() + conn)
      else Err(ConnectionOptionsRejected)
  }

  /** What `create_device_from_record` hands to the meter constructor it picks. */
  datatype RebuiltMeter = RebuiltMeter(
    kind: MeterKind, id: int, name: string, meterType: string, options: MeterOptions,
    connectionOptions: map<string, Value>, nodes: seq<BuiltNode>)

  /**
   * `create_device_from_record`: the protocol picks the meter class; the meter options, then the
   * connection options, then the nodes are built, in the order of the constructor's arguments.
   */
  function CreateDeviceFromRecord(rec: StoredMeter): (r: Result<RebuiltMeter, ManagerError>)
    ensures rec.protocol != MODBUS_RTU && rec.protocol != OPC_UA ==> r == Err(UnsupportedProtocol(rec.protocol))
    ensures r.Ok? ==> r.value.kind == (if rec.protocol == MODBUS_RTU then ModbusRtuMeter else OpcUaMeter)
    ensures r.Ok? ==> r.value.id == rec.id && r.value.name == rec.name && r.value.meterType == rec.meterType
    ensures r.Ok? ==> Ok(r.value.nodes) == BuildNodes(rec.nodes)
    ensures r.Ok? ==> Ok(r.value.connectionOptions) == ConnectionOptionsOf(r.value.kind, rec.connectionOptions)
    ensures (rec.protocol == MODBUS_RTU || rec.protocol == OPC_UA) && MeterOptionsOf(rec.meterOptions).Err? ==>
      r == Err(MissingMeterOptions)
    ensures rec.protocol == MODBUS_RTU && MeterOptionsOf(rec.meterOptions).Ok? &&
            rec.connectionOptions.Keys != ModbusRtuOptionKeys()
            ==> r == Err(ConnectionOptionsRejected)
    ensures rec.protocol == OPC_UA && MeterOptionsOf(rec.meterOptions).Ok? &&
            ConnectionOptionsOf(OpcUaMeter, rec.connectionOptions).Err?
            ==> r == Err(ConnectionOptionsRejected)
  {
    if rec.protocol != MODBUS_RTU && rec.protocol != OPC_UA then Err(UnsupportedProtocol(rec.protocol))
    else
      var kind := if rec.protocol == MODBUS_RTU then ModbusRtuMeter else OpcUaMeter;
      var options :- MeterOptionsOf(rec.meterOptions);
      var connection :- ConnectionOptionsOf(kind, rec.connectionOptions);
      var nodes :- BuildNodes(rec.nodes);
      Ok(RebuiltMeter(kind, rec.id, rec.name, rec.meterType, options, connection, nodes))
  }

  /** The managed set of devices. */
  class DeviceManager {
    var devices: set<LegacyDevice.Device>

    constructor ()
      ensures devices == {}
    {
      devices := {};
    }

    /** `add_device`. */
    method AddDevice(d: LegacyDevice.Device)
      modifies this
      ensures devices == old(devices) + {d}
    {
      devices := devices + {d};
    }

    /** `delete_device`: `discard`, so removing a device that is not managed changes nothing. */
    method DeleteDevice(d: LegacyDevice.Device)
      modifies this
      ensures devices == old(devices) - {d}
      ensures d !in old(devices) ==> devices == old(devices)
    {
      devices := devices - {d};
    }

    /**
     * `get_device(name, device_id)`: the first device, in the set's iteration order `order`, whose
     * name and id both match.
     */
    method GetDevice(name: string, id: int, order: seq<LegacyDevice.Device>) returns (r: Option<LegacyDevice.Device>)
      requires forall d :: d in order <==> d in devices
      ensures r == LegacyDevice.FirstMatch(order, name, id)
      ensures r.Some? ==> r.value in devices && r.value.name == name && r.value.id == id
      ensures r.None? <==> forall d :: d in devices ==> !(d.name == name && d.id == id)
    {
      r := LegacyDevice.FirstMatch(order, name, id);
    }
  }
}
