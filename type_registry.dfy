/**
 * The node-type registry of `controller/registry/node_type.py`: a map from node type to the
 * factory that builds its processor, filled at start-up with the four built-in processors.
 */
module TypeRegistration {
  import opened Wrappers
  import opened NodeModel
  import opened BaseProcessor
  import opened NumericProcessor
  import opened BoolProcessor
  import opened StringProcessor

  /** The registered processor factories (`_bool_type_registration` and the others). */
  datatype ProcessorFactory = BoolProcessorFactory | StringProcessorFactory | IntProcessorFactory | FloatProcessorFactory

  /** A node's processor, whichever concrete class it is. */
  datatype AnyProcessor =
    | NumericP(numeric: NumericNodeProcessor)
    | BoolP(boolean: BoolNodeProcessor)
    | StringP(text: StringNodeProcessor)

  /** The objects holding a processor's state. */
  function Objects(p: AnyProcessor): set<object>
  {
    match p
    case NumericP(n) => {n, n.core}
    case BoolP(b) => {b, b.core}
    case StringP(s) => {s, s.core}
  }

  /** The configuration a processor was built with. */
  function ProcessorConfig(p: AnyProcessor): NodeConfig
    reads Objects(p)
  {
    match p
    case NumericP(n) => n.core.config
    case BoolP(b) => b.core.config
    case StringP(s) => s.core.config
  }

  /** The value type of a processor (`get_value_type`). */
  function ProcessorValueType(p: AnyProcessor): ValueType
  {
    match p
    case NumericP(n) => n.core.valueType
    case BoolP(b) => b.core.valueType
    case StringP(s) => s.core.valueType
  }

  /** Whether `p` is what `factory` builds for `config`, freshly initialised. */
  predicate Builds(factory: ProcessorFactory, config: NodeConfig, p: AnyProcessor)
    reads Objects(p)
  {
    match factory
    case BoolProcessorFactory => p.BoolP? && p.boolean.core.config == config && p.boolean.core.valueType == BoolType
                                 && p.boolean.core.State() == InitialBase()
    case StringProcessorFactory => p.StringP? && p.text.core.config == config && p.text.core.valueType == StrType
                                   && p.text.core.State() == InitialBase()
    case IntProcessorFactory => p.NumericP? && p.numeric.core.config == config && p.numeric.core.valueType == IntType
                                && p.numeric.State() == InitialNumeric()
    case FloatProcessorFactory => p.NumericP? && p.numeric.core.config == config && p.numeric.core.valueType == FloatType
                                  && p.numeric.State() == InitialNumeric()
  }

  /** Calls a registered factory on a configuration. */
  method CreateProcessor(factory: ProcessorFactory, config: NodeConfig) returns (p: AnyProcessor)
    ensures Builds(factory, config, p)
    ensures (factory == IntProcessorFactory || factory == FloatProcessorFactory) <==> IsNumericProcessorType(ProcessorValueType(p))
  {
    match factory
    case BoolProcessorFactory =>
      var b := new BoolNodeProcessor(config);
      p := BoolP(b);
    case StringProcessorFactory =>
      var s := new StringNodeProcessor(config);
      p := StringP(s);
    case IntProcessorFactory =>
      var n := new NumericNodeProcessor(config, IntType);
      p := NumericP(n);
    case FloatProcessorFactory =>
      var n := new NumericNodeProcessor(config, FloatType);
      p := NumericP(n);
  }

  /** `register_type`: the entry for `t` is (re)placed, all others kept. */
  function Register(registry: map<NodeType, ProcessorFactory>, t: NodeType, f: ProcessorFactory): map<NodeType, ProcessorFactory>
  {
    registry[t := f]
  }

  /** `get_type_plugin`: the registered factory, or `NotImplemeted`. */
  function GetPlugin(registry: map<NodeType, ProcessorFactory>, t: NodeType): Result<ProcessorFactory, ProcessorError>
  {
    if t in registry then Ok(registry[t]) else Err(NotImplemeted("Type " + NodeTypeValue(t) + " doesn't have a plugin implemented."))
  }

  /**
   * Getting a type just registered returns its factory; re-registering changes only that
   * type's entry; an unregistered type is `NotImplemeted`.
   */
  lemma RegisterThenGet(registry: map<NodeType, ProcessorFactory>, t: NodeType, f: ProcessorFactory, other: NodeType)
    ensures GetPlugin(Register(registry, t, f), t) == Ok(f)
    ensures other != t ==> GetPlugin(Register(registry, t, f), other) == GetPlugin(registry, other)
    ensures GetPlugin(registry, other).Err? <==> other !in registry
    ensures GetPlugin(registry, other).Err? ==> GetPlugin(registry, other).error.NotImplemeted?
  {
  }

  /** The registrations made when the module is imported. */
  function StartupRegistry(): map<NodeType, ProcessorFactory>
  {
    Register(Register(Register(Register(map[], BOOL, BoolProcessorFactory), STRING, StringProcessorFactory),
      INT, IntProcessorFactory), FLOAT, FloatProcessorFactory)
  }

  /** After start-up every node type has a plugin: BOOL, STRING, INT and FLOAT their own processors. */
  lemma StartupRegistryComplete(t: NodeType)
    ensures GetPlugin(StartupRegistry(), t).Ok?
    ensures GetPlugin(StartupRegistry(), t).value == match t
      case BOOL => BoolProcessorFactory
      case STRING => StringProcessorFactory
      case INT => IntProcessorFactory
      case FLOAT => FloatProcessorFactory
  {
  }

  /** `TypeRegistry`: the class-level registry dict. */
  class TypeRegistry {
    var registry: map<NodeType, ProcessorFactory>

    /** The registry as it stands once `node_type.py` has been imported. */
    constructor()
      ensures registry == StartupRegistry()
    {
      registry := map[];
      new;
      RegisterType(BOOL, BoolProcessorFactory);
      RegisterType(STRING, StringProcessorFactory);
      RegisterType(INT, IntProcessorFactory);
      RegisterType(FLOAT, FloatProcessorFactory);
    }

    method RegisterType(t: NodeType, f: ProcessorFactory)
      modifies this
      ensures registry == Register(old(registry), t, f)
    {
      registry := registry[t := f];
    }

    method GetTypePlugin(t: NodeType) returns (r: Result<ProcessorFactory, ProcessorError>)
      ensures r.Ok? <==> t in registry
      ensures r.Ok? ==> r.value == registry[t]
      ensures r.Err? ==> r.error.NotImplemeted?
    {
      if t !in registry {
        return Err(NotImplemeted("Type " + NodeTypeValue(t) + " doesn't have a plugin implemented."));
      }
      return Ok(registry[t]);
    }
  }
}
