/**
 * The protocol registry of `controller/registry/protocol.py`: a map from protocol to the plugin
 * (meter class, options class, node factory) that implements it, and the node factories that
 * rebuild nodes from stored records.
 */
module ProtocolRegistration {
  import opened Wrappers
  import opened Values
  import opened General
  import opened NodeModel
  import opened BaseProcessor
  import opened TypeRegistration
  import opened NodeController

  /** The meter and options classes a plugin names; `Named` stands for any other class. */
  datatype MeterClass = ModbusRTUEnergyMeter | OPCUAEnergyMeter | NamedMeter(name: string)
  datatype OptionsClass = ModbusRTUOptions | OPCUAOptions | NamedOptions(name: string)

  /** The node factories the module defines. */
  datatype NodeFactory = BaseNodeFactory | ModbusRTUNodeFactory | OPCUANodeFactory

  /** `ProtocolPlugin`. */
  datatype ProtocolPlugin = ProtocolPlugin(meterClass: MeterClass, optionsClass: OptionsClass, nodeFactory: NodeFactory)

  /** `get_protocol_plugin` on a registry map: the plugin, or `NotImplemeted`. */
  function GetProtocolPlugin(registry: map<Protocol, ProtocolPlugin>, protocol: Protocol): (r: Result<ProtocolPlugin, ProcessorError>)
    ensures r.Ok? <==> protocol in registry
    ensures r.Ok? ==> r.value == registry[protocol]
    ensures r.Err? ==> r.error.NotImplemeted?
  {
    if protocol in registry then Ok(registry[protocol])
    else Err(NotImplemeted("Protocol " + ProtocolValue(protocol) + " doesn't have a plugin implemented."))
  }

  /** The registry once the module has been imported: Modbus RTU and OPC UA. */
  function StartupProtocols(): map<Protocol, ProtocolPlugin>
  {
    map[MODBUS_RTU := ProtocolPlugin(ModbusRTUEnergyMeter, ModbusRTUOptions, ModbusRTUNodeFactory),
        OPC_UA := ProtocolPlugin(OPCUAEnergyMeter, OPCUAOptions, OPCUANodeFactory)]
  }

  /** Only Modbus RTU and OPC UA have plugins at startup; the others are `NotImplemeted`. */
  lemma StartupProtocolsCoverage(p: Protocol)
    ensures GetProtocolPlugin(StartupProtocols(), p).Ok? <==> p in {MODBUS_RTU, OPC_UA}
    ensures p == MODBUS_RTU ==> GetProtocolPlugin(StartupProtocols(), p).value.nodeFactory == ModbusRTUNodeFactory
    ensures p == OPC_UA ==> GetProtocolPlugin(StartupProtocols(), p).value.nodeFactory == OPCUANodeFactory
  {
  }

  /** `ProtocolRegistry`: the class-level registry dictionary. */
  class ProtocolRegistry {
    var registry: map<Protocol, ProtocolPlugin>

    /** The registry as it stands once the module has been imported. */
    constructor()
      ensures registry == StartupProtocols()
    {
      registry := map[];
      new;
      RegisterProtocol(MODBUS_RTU, ModbusRTUEnergyMeter, ModbusRTUOptions, ModbusRTUNodeFactory);
      RegisterProtocol(OPC_UA, OPCUAEnergyMeter, OPCUAOptions, OPCUANodeFactory);
    }

    /** `register_protocol`: adds or replaces the protocol's plugin. */
    method RegisterProtocol(protocol: Protocol, meterClass: MeterClass, optionsClass: OptionsClass, nodeFactory: NodeFactory)
      modifies this
      ensures registry == old(registry)[protocol := ProtocolPlugin(meterClass, optionsClass, nodeFactory)]
    {
      registry := registry[protocol := ProtocolPlugin(meterClass, optionsClass, nodeFactory)];
    }

    /** `get_protocol_plugin`. */
    method GetPlugin(protocol: Protocol) returns (r: Result<ProtocolPlugin, ProcessorError>)
      ensures r == GetProtocolPlugin(registry, protocol)
    {
      if protocol in registry {
        return Ok(registry[protocol]);
      }
      return Err(NotImplemeted("Protocol " + ProtocolValue(protocol) + " doesn't have a plugin implemented."));
    }

    /**
     * `get_base_node_factory`: the guard tests the module-level `_base_node_factory` function,
     * which always exists, so the base factory is always returned.
     */
    function GetBaseNodeFactory(): (r: Result<NodeFactory, ProcessorError>)
      ensures r == Ok(BaseNodeFactory)
    {
      Ok(BaseNodeFactory)
    }
  }

  /** A protocol's plugin, once registered, is the one returned; other protocols are unaffected. */
  lemma RegisterProtocolThenGet(registry: map<Protocol, ProtocolPlugin>, p: Protocol, q: Protocol, plugin: ProtocolPlugin)
    ensures GetProtocolPlugin(registry[p := plugin], p) == Ok(plugin)
    ensures q != p ==> GetProtocolPlugin(registry[p := plugin], q) == GetProtocolPlugin(registry, q)
  {
  }

  /** Why a node factory failed. */
  datatype FactoryError =
    | RecordInvalid(record: RecordError)
    | MissingProtocolKey(key: string)
    | NodeInvalid(node: NodeError)

  /** The config key a factory reads from the record, if any. */
  function ProtocolKey(factory: NodeFactory): Option<string>
  {
    match factory
    case BaseNodeFactory => None
    case ModbusRTUNodeFactory => Some("register")
    case OPCUANodeFactory => Some("node_id")
  }

  /** The configuration and protocol value a factory hands to the node constructor. */
  datatype FactoryInput = FactoryInput(config: NodeConfig, extra: Option<Value>)

  /**
   * What a factory does before the node constructor: rebuild the configuration from the record,
   * then read the register or node id (a `KeyError` when absent).
   */
  function FactoryInputOf(factory: NodeFactory, record: NodeRecord): (r: Result<FactoryInput, FactoryError>)
    ensures CreateFromNodeRecord(record).Err? ==> r == Err(RecordInvalid(CreateFromNodeRecord(record).error))
    ensures r.Ok? ==> CreateFromNodeRecord(record) == Ok(r.value.config)
    ensures r.Ok? ==> r.value.extra.Some? == ProtocolKey(factory).Some?
    ensures r.Ok? && ProtocolKey(factory).Some? ==>
      ProtocolKey(factory).value in record.config && r.value.extra.value == record.config[ProtocolKey(factory).value]
    ensures CreateFromNodeRecord(record).Ok? && ProtocolKey(factory).Some? && ProtocolKey(factory).value !in record.config
      ==> r == Err(MissingProtocolKey(ProtocolKey(factory).value))
  {
    var config := CreateFromNodeRecord(record);
    if config.Err? then Err(RecordInvalid(config.error))
    else match ProtocolKey(factory)
      case None => Ok(FactoryInput(config.value, None))
      case Some(key) =>
        if key in record.config then Ok(FactoryInput(config.value, Some(record.config[key])))
        else Err(MissingProtocolKey(key))
  }

  /** A node of any of the three kinds. */
  datatype AnyNode = BaseNode(node: Node) | ModbusNode(modbus: ModbusRTUNode) | OPCUANodeOf(opcua: OPCUANode)

  /** The base node inside any node. */
  function NodeOf(n: AnyNode): Node
  {
    match n
    case BaseNode(node) => node
    case ModbusNode(m) => m.node
    case OPCUANodeOf(o) => o.node
  }

  /** `_base_node_factory`, `_modbus_rtu_node_factory` and `_opcua_node_factory`. */
  method CreateNode(factory: NodeFactory, record: NodeRecord, types: TypeRegistry) returns (r: Result<AnyNode, FactoryError>)
    ensures FactoryInputOf(factory, record).Err? ==> r == Err(FactoryInputOf(factory, record).error)
    ensures r.Ok? <==>
      (&& FactoryInputOf(factory, record).Ok?
       && Validate(FactoryInputOf(factory, record).value.config).Ok?
       && FactoryInputOf(factory, record).value.config.nodeType in types.registry)
    ensures r.Ok? ==>
      var input := FactoryInputOf(factory, record).value;
      && NodeOf(r.value).config == Validate(input.config).value
      && (factory == BaseNodeFactory <==> r.value.BaseNode?)
      && (factory == ModbusRTUNodeFactory <==> r.value.ModbusNode?)
      && (r.value.ModbusNode? ==> r.value.modbus.register == input.extra.value && !r.value.modbus.connected)
      && (r.value.OPCUANodeOf? ==> r.value.opcua.nodeId == input.extra.value && !r.value.opcua.connected)
  {
    var input := FactoryInputOf(factory, record);
    if input.Err? {
      return Err(input.error);
    }
    var config := input.value.config;
    match factory
    case BaseNodeFactory =>
      var node := NewNode(config, types);
      if node.Err? {
        return Err(NodeInvalid(node.error));
      }
      return Ok(BaseNode(node.value));
    case ModbusRTUNodeFactory =>
      var node := NewModbusRTUNode(config, input.value.extra.value, types);
      if node.Err? {
        return Err(NodeInvalid(node.error));
      }
      return Ok(ModbusNode(node.value));
    case OPCUANodeFactory =>
      var node := NewOPCUANode(config, input.value.extra.value, types);
      if node.Err? {
        return Err(NodeInvalid(node.error));
      }
      return Ok(OPCUANodeOf(node.value));
  }

  /**
   * A validated node's stored record, given back to its protocol's factory, yields the same
   * configuration (warnings derived afresh), which the node constructor then accepts unchanged,
   * and the same register or node id.
   */
  lemma FactoryRoundTrip(c: NodeConfig, extra: Value)
    requires Validate(c) == Ok(c)
    ensures FactoryInputOf(BaseNodeFactory, NodeRecordOf(c)) == Ok(FactoryInput(Rebuilt(c), None))
    ensures FactoryInputOf(ModbusRTUNodeFactory, ModbusRecordOf(c, extra)) == Ok(FactoryInput(Rebuilt(c), Some(extra)))
    ensures FactoryInputOf(OPCUANodeFactory, OPCUARecordOf(c, extra)) == Ok(FactoryInput(Rebuilt(c), Some(extra)))
    ensures Validate(Rebuilt(c)) == Ok(Rebuilt(c))
  {
    ValidateRejectsUnknownProtocol(c);
    NodeRecordRoundTrip(c);
    ModbusRecordRoundTrip(c, extra);
    OPCUARecordRoundTrip(c, extra);
    RebuiltValidates(c);
  }
}
