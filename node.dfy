/**
 * Nodes of `controller/node/node.py`: a validated configuration with the processor its type
 * selects, the record a node is stored as, and the Modbus RTU and OPC UA nodes that add their
 * register or node id and a connection flag.
 */
module NodeController {
  import opened Wrappers
  import opened Values
  import opened General
  import opened NodeModel
  import opened BaseProcessor
  import opened TypeRegistration

  /** Why a node could not be built: `validate` raised, or the type has no plugin. */
  datatype NodeError = InvalidConfig(reason: ConfigError) | TypeNotImplemented(error: ProcessorError)

  /** `Node`: a configuration and its processor. */
  class Node {
    const config: NodeConfig
    const processor: AnyProcessor

    constructor(config: NodeConfig, processor: AnyProcessor)
      ensures this.config == config && this.processor == processor
    {
      this.config := config;
      this.processor := processor;
    }

    /** `get_node_record()`. */
    function GetNodeRecord(): NodeRecord
    {
      NodeRecordOf(config)
    }
  }

  /** The record `get_node_record` builds for a configuration. */
  function NodeRecordOf(c: NodeConfig): NodeRecord
  {
    NodeRecord(c.name, c.protocol, BaseRecordConfig(c), GetAttributes(c.attributes), None)
  }

  /**
   * `Node(configuration)`: validate (with its auto-fixes), then build the processor registered
   * for the configuration's type.
   */
  method NewNode(configuration: NodeConfig, types: TypeRegistry) returns (r: Result<Node, NodeError>)
    ensures Validate(configuration).Err? ==> r == Err(InvalidConfig(Validate(configuration).error))
    ensures Validate(configuration).Ok? && configuration.nodeType !in types.registry ==> r.Err? && r.error.TypeNotImplemented?
    ensures r.Ok? <==> Validate(configuration).Ok? && configuration.nodeType in types.registry
    ensures r.Ok? ==>
      fresh(r.value) && r.value.config == Validate(configuration).value
      && Builds(types.registry[configuration.nodeType], r.value.config, r.value.processor)
  {
    var validated := Validate(configuration);
    if validated.Err? {
      return Err(InvalidConfig(validated.error));
    }
    var plugin := types.GetTypePlugin(configuration.nodeType);
    if plugin.Err? {
      return Err(TypeNotImplemented(plugin.error));
    }
    var processor := CreateProcessor(plugin.value, validated.value);
    var node := new Node(validated.value, processor);
    return Ok(node);
  }

  /**
   * A node's record has no device id, the node's name and protocol, its attributes, and the
   * sixteen stored fields; the warning thresholds are not stored.
   */
  lemma NodeRecordContents(c: NodeConfig)
    ensures var r := NodeRecordOf(c);
      && r.deviceId.None? && r.name == c.name && r.protocol == c.protocol
      && r.attributes == map["phase" := Str(c.attributes.phase)]
      && r.config.Keys == {"enabled", "type", "unit", "publish", "calculated", "custom", "decimal_places", "logging",
                           "logging_period", "min_alarm", "max_alarm", "min_alarm_value", "max_alarm_value",
                           "incremental_node", "positive_incremental", "calculate_increment"}
  {
    assert BaseRecordConfig(c).Keys == StoredForwarded(c).Keys + {"type", "unit"};
    StoredForwardedKeys(c);
  }

  lemma StoredForwardedKeys(c: NodeConfig)
    ensures StoredForwarded(c).Keys == {"enabled", "publish", "calculated", "custom", "decimal_places", "logging",
                                        "logging_period", "min_alarm", "max_alarm", "min_alarm_value", "max_alarm_value",
                                        "incremental_node", "positive_incremental", "calculate_increment"}
  {
  }

  /** `ModbusRTUNode`: a node read from a Modbus register. */
  class ModbusRTUNode {
    const node: Node
    const register: Value
    var connected: bool

    constructor(node: Node, register: Value)
      ensures this.node == node && this.register == register && !connected
    {
      this.node := node;
      this.register := register;
      connected := false;
    }

    method SetConnectionState(state: bool)
      modifies this
      ensures connected == state
    {
      connected := state;
    }

    /** `get_node_record()`: the base record with the register added to its config. */
    function GetNodeRecord(): NodeRecord
    {
      ModbusRecordOf(node.config, register)
    }
  }

  function ModbusRecordOf(c: NodeConfig, register: Value): NodeRecord
  {
    var r := NodeRecordOf(c);
    r.(config := r.config["register" := register])
  }

  /** `OPCUANode`: a node read from an OPC UA node id. */
  class OPCUANode {
    const node: Node
    const nodeId: Value
    var connected: bool

    constructor(node: Node, nodeId: Value)
      ensures this.node == node && this.nodeId == nodeId && !connected
    {
      this.node := node;
      this.nodeId := nodeId;
      connected := false;
    }

    method SetConnectionState(state: bool)
      modifies this
      ensures connected == state
    {
      connected := state;
    }

    /** `get_node_record()`: the base record with the node id added to its config. */
    function GetNodeRecord(): NodeRecord
    {
      OPCUARecordOf(node.config, nodeId)
    }
  }

  function OPCUARecordOf(c: NodeConfig, nodeId: Value): NodeRecord
  {
    var r := NodeRecordOf(c);
    r.(config := r.config["node_id" := nodeId])
  }

  /** The keys the base record's config holds are neither "register" nor "node_id". */
  lemma BaseRecordLacksProtocolKeys(c: NodeConfig)
    ensures "register" !in NodeRecordOf(c).config && "node_id" !in NodeRecordOf(c).config
  {
    NodeRecordContents(c);
  }

  /** A Modbus RTU record is the base record with "register" added to its config, and no node id. */
  lemma ModbusRecordExtendsBase(c: NodeConfig, register: Value)
    ensures var m := ModbusRecordOf(c, register); var b := NodeRecordOf(c);
      && m.config.Keys == b.config.Keys + {"register"} && m.config["register"] == register
      && (forall k :: k in b.config ==> m.config[k] == b.config[k])
      && "node_id" !in m.config && m.(config := b.config) == b
  {
    BaseRecordLacksProtocolKeys(c);
  }

  /** An OPC UA record is the base record with "node_id" added to its config, and no register. */
  lemma OPCUARecordExtendsBase(c: NodeConfig, nodeId: Value)
    ensures var o := OPCUARecordOf(c, nodeId); var b := NodeRecordOf(c);
      && o.config.Keys == b.config.Keys + {"node_id"} && o.config["node_id"] == nodeId
      && (forall k :: k in b.config ==> o.config[k] == b.config[k])
      && "register" !in o.config && o.(config := b.config) == b
  {
    BaseRecordLacksProtocolKeys(c);
  }

  /** `ModbusRTUNode(configuration, register)`: a validated node, not yet connected. */
  method NewModbusRTUNode(configuration: NodeConfig, register: Value, types: TypeRegistry) returns (r: Result<ModbusRTUNode, NodeError>)
    ensures r.Ok? <==> Validate(configuration).Ok? && configuration.nodeType in types.registry
    ensures r.Ok? ==>
      fresh(r.value) && !r.value.connected && r.value.register == register
      && r.value.node.config == Validate(configuration).value
  {
    var base := NewNode(configuration, types);
    if base.Err? {
      return Err(base.error);
    }
    var node := new ModbusRTUNode(base.value, register);
    return Ok(node);
  }

  /** `OPCUANode(configuration, node_id)`: a validated node, not yet connected. */
  method NewOPCUANode(configuration: NodeConfig, nodeId: Value, types: TypeRegistry) returns (r: Result<OPCUANode, NodeError>)
    ensures r.Ok? <==> Validate(configuration).Ok? && configuration.nodeType in types.registry
    ensures r.Ok? ==>
      fresh(r.value) && !r.value.connected && r.value.nodeId == nodeId
      && r.value.node.config == Validate(configuration).value
  {
    var base := NewNode(configuration, types);
    if base.Err? {
      return Err(base.error);
    }
    var node := new OPCUANode(base.value, nodeId);
    return Ok(node);
  }

  /** The configuration a node's record rebuilds: the same, with the warnings derived afresh. */
  function Rebuilt(c: NodeConfig): NodeConfig
  {
    PostInit(WithWarnings(c, None, None))
  }

  /** A node's record rebuilds the node's configuration through `create_from_node_record`. */
  lemma NodeRecordRoundTrip(c: NodeConfig)
    requires c.protocol in ValidProtocols()
    ensures CreateFromNodeRecord(NodeRecordOf(c)) == Ok(Rebuilt(c))
  {
    RecordRoundTrip(c, None);
  }

  /** The keys the protocol nodes add to a record are not `NodeConfig` fields. */
  lemma ProtocolKeysAreForeign()
    ensures "register" !in NodeConfigFields() && "node_id" !in NodeConfigFields()
  {
  }

  /** A Modbus RTU node's record rebuilds its configuration; the register is ignored there. */
  lemma ModbusRecordRoundTrip(c: NodeConfig, register: Value)
    requires c.protocol in ValidProtocols()
    ensures CreateFromNodeRecord(ModbusRecordOf(c, register)) == Ok(Rebuilt(c))
  {
    ProtocolKeysAreForeign();
    var base := NodeRecordOf(c);
    assert ModbusRecordOf(c, register) == base.(config := base.config["register" := register]);
    CreateFromNodeRecordIgnoresForeignKey(base, "register", register);
    NodeRecordRoundTrip(c);
  }

  /** An OPC UA node's record rebuilds its configuration; the node id is ignored there. */
  lemma OPCUARecordRoundTrip(c: NodeConfig, nodeId: Value)
    requires c.protocol in ValidProtocols()
    ensures CreateFromNodeRecord(OPCUARecordOf(c, nodeId)) == Ok(Rebuilt(c))
  {
    ProtocolKeysAreForeign();
    var base := NodeRecordOf(c);
    assert OPCUARecordOf(c, nodeId) == base.(config := base.config["node_id" := nodeId]);
    CreateFromNodeRecordIgnoresForeignKey(base, "node_id", nodeId);
    NodeRecordRoundTrip(c);
  }

  /** A validated configuration, rebuilt from its record, validates unchanged. */
  lemma RebuiltValidates(c: NodeConfig)
    requires Validate(c) == Ok(c)
    ensures Validate(Rebuilt(c)) == Ok(Rebuilt(c))
  {
    var r := Rebuilt(c);
    assert r == WithWarnings(c, r.alarms.minWarningValue, r.alarms.maxWarningValue);
    ValidateIgnoresWarnings(c, r.alarms.minWarningValue, r.alarms.maxWarningValue);
  }
}
