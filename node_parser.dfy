/**
 * The node request parsers of `web/parsers/nodes.py`: the time-span query of the log endpoints,
 * the node configuration, protocol options and attributes sub-parsers, `parse_node`, which checks
 * a node payload field by field and lets the first failure decide the error, and `parse_nodes`,
 * which collects the parsed nodes of a list into a set.
 *
 * Helpers the shown sources do not define are parameters: `get_time_zone_info` is `timeZoneOf`
 * (`None` where it raises), `convert_isostr_to_date` is `isoToDate` (likewise), and the ISO text
 * of `datetime.now()` is `nowIso`. The options classes read from the protocol registry are the
 * field tables of a `NodeContext`.
 */
module NodeParser {
  import opened Wrappers
  import opened Values
  import opened Dates
  import opened Objects
  import opened ApiErrors
  import opened DataclassParse
  import opened General
  import Strings
  import NodeModel
  import MeterUtil
  import ProtocolRegistration

  /* ---------------------------------------------------------------- time span */

  /** The values of `FormattedTimeStep`. */
  const FormattedTimeSteps: set<string> := {"1m", "15m", "1h", "1d", "1M", "1Y"}

  /** `TimeSpanParameters`. */
  datatype TimeSpanParameters<TZ> = TimeSpanParameters(
    startTime: Option<DateTime>,
    endTime: Option<DateTime>,
    timeStep: Option<string>,
    formatted: bool,
    timeZone: TZ,
    forceAggregation: Option<bool>)

  /** `request.query_params.get(key)`: query parameters are strings. */
  function Param(query: map<string, string>, key: string): Option<string>
  {
    if key in query then Some(query[key]) else None
  }

  /** A time text the parser accepts: absent, empty (read as no time), or one `isoToDate` converts. */
  predicate TimeTextAccepted(text: Option<string>, isoToDate: string -> Option<DateTime>)
  {
    text.None? || text.value == "" || isoToDate(text.value).Some?
  }

  /** `remove_sec_precision(convert_isostr_to_date(text)) if text else None`, a failed conversion giving `code`. */
  function ParseTime(text: Option<string>, isoToDate: string -> Option<DateTime>, code: NodesCode): (r: Result<Option<DateTime>, Failure>)
    ensures r.Ok? <==> TimeTextAccepted(text, isoToDate)
    ensures r.Err? ==> r.error == InvalidRequestPayload(Nodes(code), NoDetails)
    ensures r.Ok? && r.value.Some? ==> r.value.value.second == 0 && r.value.value.microsecond == 0
  {
    if text.None? || text.value == "" then Ok(None)
    else
      var date := isoToDate(text.value);
      if date.None? then Err(InvalidRequestPayload(Nodes(code), NoDetails))
      else Ok(Some(RemoveSecPrecision(date.value)))
  }

  /** The end time text: in a formatted query an absent `end_time` stands for now. */
  function EndText(query: map<string, string>, formatted: bool, nowIso: string): Option<string>
  {
    if formatted && "end_time" !in query then Some(nowIso) else Param(query, "end_time")
  }

  /** `parse_formatted_time_span` over the query parameters. */
  function FormattedTimeSpan<TZ>(query: map<string, string>, formatted: bool, forceAggregation: Option<bool>,
                                 timeZoneOf: Option<string> -> Option<TZ>, isoToDate: string -> Option<DateTime>, nowIso: string)
    : Result<TimeSpanParameters<TZ>, Failure>
  {
    var zone := timeZoneOf(Param(query, "time_zone"));
    if zone.None? then Err(InvalidRequestPayload(Nodes(INVALID_TIME_ZONE), NoDetails))
    // `FormattedTimeStep(time_step)` raises a `ValueError` nothing catches.
    else if formatted && "time_step" in query && query["time_step"] !in FormattedTimeSteps then Err(ValueError(None))
    else if formatted && "start_time" !in query then Err(InvalidRequestPayload(Nodes(MISSING_START_TIME), NoDetails))
    else
      var start := ParseTime(Param(query, "start_time"), isoToDate, INVALID_START_TIME);
      if start.Err? then Err(start.error)
      else
        var end := ParseTime(EndText(query, formatted, nowIso), isoToDate, INVALID_END_TIME);
        if end.Err? then Err(end.error)
        else Ok(TimeSpanParameters(start.value, end.value, if formatted then Param(query, "time_step") else None,
                                   formatted, zone.value, forceAggregation))
  }

  /**
   * The checks in order: the time zone first, then (formatted only) the step and the presence of
   * `start_time`, then the start text, then the end text. The query is accepted exactly when all
   * of them pass.
   */
  lemma FormattedTimeSpanOrder<TZ>(query: map<string, string>, formatted: bool, forceAggregation: Option<bool>,
                                   timeZoneOf: Option<string> -> Option<TZ>, isoToDate: string -> Option<DateTime>, nowIso: string)
    ensures var r := FormattedTimeSpan(query, formatted, forceAggregation, timeZoneOf, isoToDate, nowIso);
      var zoneOk := timeZoneOf(Param(query, "time_zone")).Some?;
      var stepOk := !formatted || "time_step" !in query || query["time_step"] in FormattedTimeSteps;
      var startGiven := !formatted || "start_time" in query;
      var startOk := TimeTextAccepted(Param(query, "start_time"), isoToDate);
      var endOk := TimeTextAccepted(EndText(query, formatted, nowIso), isoToDate);
      && (r.Ok? <==> zoneOk && stepOk && startGiven && startOk && endOk)
      && (!zoneOk ==> r == Err(InvalidRequestPayload(Nodes(INVALID_TIME_ZONE), NoDetails)))
      && (zoneOk && !stepOk ==> r == Err(ValueError(None)))
      && (zoneOk && stepOk && !startGiven ==> r == Err(InvalidRequestPayload(Nodes(MISSING_START_TIME), NoDetails)))
      && (zoneOk && stepOk && startGiven && !startOk ==> r == Err(InvalidRequestPayload(Nodes(INVALID_START_TIME), NoDetails)))
      && (zoneOk && stepOk && startGiven && startOk && !endOk ==> r == Err(InvalidRequestPayload(Nodes(INVALID_END_TIME), NoDetails)))
  {
  }

  /**
   * An accepted query keeps the time zone, the flags and (formatted only) the step; non-empty
   * times are the converted texts truncated to the minute; a formatted query without `end_time`
   * ends now.
   */
  lemma FormattedTimeSpanResult<TZ>(query: map<string, string>, formatted: bool, forceAggregation: Option<bool>,
                                    timeZoneOf: Option<string> -> Option<TZ>, isoToDate: string -> Option<DateTime>, nowIso: string)
    ensures var r := FormattedTimeSpan(query, formatted, forceAggregation, timeZoneOf, isoToDate, nowIso);
      r.Ok? ==>
        && Some(r.value.timeZone) == timeZoneOf(Param(query, "time_zone"))
        && r.value.formatted == formatted && r.value.forceAggregation == forceAggregation
        && r.value.timeStep == (if formatted then Param(query, "time_step") else None)
        && (r.value.startTime.Some? <==> "start_time" in query && query["start_time"] != "")
        && (r.value.startTime.Some? ==> r.value.startTime.value == RemoveSecPrecision(isoToDate(query["start_time"]).value))
        && (formatted && "end_time" !in query && nowIso != "" ==> r.value.endTime == Some(RemoveSecPrecision(isoToDate(nowIso).value)))
        && (!formatted && "end_time" !in query ==> r.value.endTime.None?)
        && (r.value.endTime.Some? ==> r.value.endTime.value.second == 0 && r.value.endTime.value.microsecond == 0)
  {
  }

  /* ------------------------------------------------------- the sub-parsers */

  /** A field without a default. */
  function Required(name: string, t: TypeExpr): FieldSpec
  {
    FieldSpec(name, t, None, None)
  }

  /**
   * The fields of `BaseNodeRecordConfig`, all required, with `typeAnnotation` for `type` and
   * `optionalAnnotation` for the fields that may hold `None`.
   */
  function ConfigFields(typeAnnotation: TypeExpr, optionalAnnotation: TypeExpr): seq<FieldSpec>
  {
    [ Required("enabled", ClassType(BoolClass)),
      Required("type", typeAnnotation),
      Required("unit", optionalAnnotation),
      Required("publish", ClassType(BoolClass)),
      Required("calculated", ClassType(BoolClass)),
      Required("custom", ClassType(BoolClass)),
      Required("decimal_places", optionalAnnotation),
      Required("logging", ClassType(BoolClass)),
      Required("logging_period", ClassType(IntClass)),
      Required("min_alarm", ClassType(BoolClass)),
      Required("max_alarm", ClassType(BoolClass)),
      Required("min_alarm_value", optionalAnnotation),
      Required("max_alarm_value", optionalAnnotation),
      Required("incremental_node", optionalAnnotation),
      Required("positive_incremental", optionalAnnotation),
      Required("calculate_increment", optionalAnnotation) ]
  }

  /** The annotations as written: `type: NodeType` (an enum class) and `X | None` (a PEP 604 union). */
  function ConfigFieldsAsWritten(): seq<FieldSpec>
  {
    ConfigFields(ClassType(EnumClass("NodeType")), PipeUnion)
  }

  /** The annotations the helpers can check: `type: str` and `Optional[X]`. */
  function ConfigFieldsCorrected(): seq<FieldSpec>
  {
    ConfigFields(ClassType(StrClass), SpecialForm)
  }

  /** `parse_node_config` as written. */
  function ParseNodeConfigAsWritten(config: map<string, Value>): Result<map<string, Value>, Failure>
  {
    FromDataclassAsWritten(config, ConfigFieldsAsWritten(), [], Nodes(MISSING_NODE_CONFIG_FIELDS), Nodes(INVALID_NODE_CONFIG_FIELDS))
  }

  /** `parse_node_config` with the listed field names and checkable annotations; the arguments of `BaseNodeRecordConfig(**arguments)`. */
  function ParseNodeConfig(config: map<string, Value>): Result<map<string, Value>, Failure>
  {
    FromDataclass(config, ConfigFieldsCorrected(), [], Nodes(MISSING_NODE_CONFIG_FIELDS), Nodes(INVALID_NODE_CONFIG_FIELDS))
  }

  /**
   * As written, no node configuration ever parses: a non-empty payload with every field either
   * lacks one or reaches `type`, whose enum class no JSON value is an instance of.
   */
  lemma ConfigNeverParses(config: map<string, Value>)
    ensures ParseNodeConfigAsWritten(config).Err?
  {
    var fields := ConfigFieldsAsWritten();
    assert IsRequired(fields[1]) && fields[1].typ == ClassType(EnumClass("NodeType"));
    RejectingFieldFails(config, fields, [], Nodes(MISSING_NODE_CONFIG_FIELDS), Nodes(INVALID_NODE_CONFIG_FIELDS), 1);
  }

  /** The configuration field names are distinct, and every field is required. */
  lemma ConfigFieldsShape(typeAnnotation: TypeExpr, optionalAnnotation: TypeExpr)
    ensures var fields := ConfigFields(typeAnnotation, optionalAnnotation);
      && (forall i, j :: 0 <= i < j < |fields| ==> fields[i].name != fields[j].name)
      && (forall i :: 0 <= i < |fields| ==> IsRequired(fields[i]))
  {
  }

  /** Every configuration field is required. */
  lemma ConfigFieldsRequired(typeAnnotation: TypeExpr, optionalAnnotation: TypeExpr)
    ensures forall i :: 0 <= i < |ConfigFields(typeAnnotation, optionalAnnotation)| ==> IsRequired(ConfigFields(typeAnnotation, optionalAnnotation)[i])
  {
  }

  /** `key` is given with a `bool` value. */
  predicate BoolAt(config: map<string, Value>, key: string)
  {
    key in config && config[key].Bool?
  }

  /** A configuration payload with every field, of the checked types: bools, a string type and an integer logging period. */
  predicate ConfigWellTyped(config: map<string, Value>)
  {
    && (forall i :: 0 <= i < |ConfigFieldsCorrected()| ==> ConfigFieldsCorrected()[i].name in config)
    && BoolAt(config, "enabled") && "type" in config && config["type"].Str? && BoolAt(config, "publish")
    && BoolAt(config, "calculated") && BoolAt(config, "custom") && BoolAt(config, "logging")
    && "logging_period" in config && IsInt(config["logging_period"])
    && BoolAt(config, "min_alarm") && BoolAt(config, "max_alarm")
  }

  /** The corrected fields are all given and accepted exactly when the payload is well typed. */
  lemma ConfigFieldsAccepted(config: map<string, Value>)
    ensures (forall i :: 0 <= i < |ConfigFieldsCorrected()| ==>
               ConfigFieldsCorrected()[i].name in config && FieldAccepted(config, ConfigFieldsCorrected()[i]))
            <==> ConfigWellTyped(config)
  {
    if ConfigWellTyped(config) {
      WellTypedConfigAccepted(config);
    }
    if forall i :: 0 <= i < |ConfigFieldsCorrected()| ==> ConfigFieldsCorrected()[i].name in config && FieldAccepted(config, ConfigFieldsCorrected()[i]) {
      AcceptedConfigWellTyped(config);
    }
  }

  lemma WellTypedConfigAccepted(config: map<string, Value>)
    requires ConfigWellTyped(config)
    ensures forall i :: 0 <= i < |ConfigFieldsCorrected()| ==> FieldAccepted(config, ConfigFieldsCorrected()[i])
  {
    var fields := ConfigFieldsCorrected();
    forall i | 0 <= i < |fields|
      ensures FieldAccepted(config, fields[i])
    {
      assert fields[i].typ == SpecialForm || fields[i].typ == ClassType(BoolClass) || fields[i].typ == ClassType(StrClass) || fields[i].typ == ClassType(IntClass);
    }
  }

  lemma AcceptedConfigWellTyped(config: map<string, Value>)
    requires forall i :: 0 <= i < |ConfigFieldsCorrected()| ==> ConfigFieldsCorrected()[i].name in config && FieldAccepted(config, ConfigFieldsCorrected()[i])
    ensures ConfigWellTyped(config)
  {
    AcceptedConfigFlags(config);
    AcceptedConfigAlarms(config);
  }

  lemma AcceptedConfigFlags(config: map<string, Value>)
    requires forall i :: 0 <= i < |ConfigFieldsCorrected()| ==> ConfigFieldsCorrected()[i].name in config && FieldAccepted(config, ConfigFieldsCorrected()[i])
    ensures BoolAt(config, "enabled") && "type" in config && config["type"].Str? && BoolAt(config, "publish")
    ensures BoolAt(config, "calculated") && BoolAt(config, "custom")
  {
    var fields := ConfigFieldsCorrected();
    assert FieldAccepted(config, fields[0]) && FieldAccepted(config, fields[1]) && FieldAccepted(config, fields[3]);
    assert FieldAccepted(config, fields[4]) && FieldAccepted(config, fields[5]);
  }

  lemma AcceptedConfigAlarms(config: map<string, Value>)
    requires forall i :: 0 <= i < |ConfigFieldsCorrected()| ==> ConfigFieldsCorrected()[i].name in config && FieldAccepted(config, ConfigFieldsCorrected()[i])
    ensures BoolAt(config, "logging") && "logging_period" in config && IsInt(config["logging_period"])
    ensures BoolAt(config, "min_alarm") && BoolAt(config, "max_alarm")
  {
    var fields := ConfigFieldsCorrected();
    assert FieldAccepted(config, fields[7]) && FieldAccepted(config, fields[8]);
    assert FieldAccepted(config, fields[9]) && FieldAccepted(config, fields[10]);
  }

  /**
   * The corrected configuration parser: an empty payload lets `ValueError` escape; a parsed
   * configuration gives every field, and the arguments hold its given value.
   */
  lemma ParseNodeConfigSpec(config: map<string, Value>)
    ensures var r := ParseNodeConfig(config);
      && (config == map[] ==> r == Err(ValueError(None)))
      && (r.Ok? ==> forall i :: 0 <= i < |ConfigFieldsCorrected()| ==>
            && ConfigFieldsCorrected()[i].name in config && ConfigFieldsCorrected()[i].name in r.value
            && r.value[ConfigFieldsCorrected()[i].name] == config[ConfigFieldsCorrected()[i].name])
  {
    ConfigArguments(config, ClassType(StrClass), SpecialForm);
  }

  /**
   * Whatever the annotations: an empty configuration lets `ValueError` escape, one lacking fields
   * lists them under MISSING_NODE_CONFIG_FIELDS, and a parsed one gives every field, the
   * arguments holding its value.
   */
  lemma ConfigArguments(config: map<string, Value>, typeAnnotation: TypeExpr, optionalAnnotation: TypeExpr)
    ensures var fields := ConfigFields(typeAnnotation, optionalAnnotation);
      var r := FromDataclass(config, fields, [], Nodes(MISSING_NODE_CONFIG_FIELDS), Nodes(INVALID_NODE_CONFIG_FIELDS));
      && (config == map[] ==> r == Err(ValueError(None)))
      && (config != map[] && (exists i :: 0 <= i < |fields| && fields[i].name !in config) ==>
            r == Err(InvalidRequestPayload(Nodes(MISSING_NODE_CONFIG_FIELDS), FieldsDetail(MissingNames(RequiredNames(fields), config, [])))))
      && (r.Ok? ==> forall i :: 0 <= i < |fields| ==>
            fields[i].name in config && fields[i].name in r.value && r.value[fields[i].name] == config[fields[i].name])
  {
    ConfigFieldsRequired(typeAnnotation, optionalAnnotation);
    AllRequiredSpec(config, ConfigFields(typeAnnotation, optionalAnnotation), Nodes(MISSING_NODE_CONFIG_FIELDS), Nodes(INVALID_NODE_CONFIG_FIELDS));
  }

  /** The corrected configuration parser accepts a non-empty payload exactly when it is well typed. */
  lemma ParseNodeConfigAccepts(config: map<string, Value>)
    requires config != map[]
    ensures ParseNodeConfig(config).Ok? <==> ConfigWellTyped(config)
  {
    ConfigFieldsAccepted(config);
    ConfigFieldsRequired(ClassType(StrClass), SpecialForm);
    AllRequiredAcceptedIff(config, ConfigFieldsCorrected(), Nodes(MISSING_NODE_CONFIG_FIELDS), Nodes(INVALID_NODE_CONFIG_FIELDS), ConfigWellTyped(config));
  }

  /** The fields of `NodeAttributes`: `phase`, defaulting to `NodePhase.GENERAL`. */
  function AttributeFields(phaseAnnotation: TypeExpr): seq<FieldSpec>
  {
    [FieldSpec("phase", phaseAnnotation, Some(Str(NodeModel.NodePhaseValue(NodeModel.GENERAL))), None)]
  }

  /** The attributes built from parsed arguments; the phase is always present and a string. */
  function AttributesOf(arguments: map<string, Value>): NodeModel.NodeAttributes
  {
    NodeModel.NodeAttributes(if "phase" in arguments && arguments["phase"].Str? then arguments["phase"].s else NodeModel.NodePhaseValue(NodeModel.GENERAL))
  }

  /** `parse_node_attributes` as written (`phase: NodePhase`), for a dictionary payload. */
  function ParseNodeAttributesAsWritten(attributes: map<string, Value>): Result<NodeModel.NodeAttributes, Failure>
  {
    var arguments := FromDataclassAsWritten(attributes, AttributeFields(ClassType(EnumClass("NodePhase"))), [],
                                            Nodes(MISSING_NODE_ATTRIBUTES_FIELDS), Nodes(INVALID_NODE_ATTRIBUTES_FIELDS));
    if arguments.Err? then Err(arguments.error) else Ok(AttributesOf(arguments.value))
  }

  /** `parse_node_attributes` with `phase: str`, for a dictionary payload. */
  function ParseNodeAttributes(attributes: map<string, Value>): Result<NodeModel.NodeAttributes, Failure>
  {
    var arguments := FromDataclass(attributes, AttributeFields(ClassType(StrClass)), [],
                                   Nodes(MISSING_NODE_ATTRIBUTES_FIELDS), Nodes(INVALID_NODE_ATTRIBUTES_FIELDS));
    if arguments.Err? then Err(arguments.error) else Ok(AttributesOf(arguments.value))
  }

  /** As written, a payload that gives a phase is always rejected; only an absent phase yields the default. */
  lemma AttributesPhaseAlwaysRejected(attributes: map<string, Value>)
    ensures "phase" in attributes ==>
      ParseNodeAttributesAsWritten(attributes) == Err(InvalidRequestPayload(Nodes(INVALID_NODE_ATTRIBUTES_FIELDS), FieldDetail("phase")))
    ensures attributes != map[] && "phase" !in attributes ==> ParseNodeAttributesAsWritten(attributes) == Ok(NodeModel.DefaultAttributes())
  {
    var fields := AttributeFields(ClassType(EnumClass("NodePhase")));
    MissingDetailsAreCharacters(attributes, fields, [], Nodes(MISSING_NODE_ATTRIBUTES_FIELDS), Nodes(INVALID_NODE_ATTRIBUTES_FIELDS));
    FromDataclassSpec(attributes, fields, [], Nodes(MISSING_NODE_ATTRIBUTES_FIELDS), Nodes(INVALID_NODE_ATTRIBUTES_FIELDS));
    assert RequiredNames(fields) == [];
  }

  /**
   * The corrected attributes parser: an empty payload lets `ValueError` escape, a string phase is
   * kept, an absent one defaults to "General", and any other phase value is INVALID; no payload
   * is ever reported as missing fields.
   */
  lemma ParseNodeAttributesSpec(attributes: map<string, Value>)
    ensures var r := ParseNodeAttributes(attributes);
      && (attributes == map[] ==> r == Err(ValueError(None)))
      && (attributes != map[] && "phase" !in attributes ==> r == Ok(NodeModel.NodeAttributes("General")))
      && (attributes != map[] && "phase" in attributes && attributes["phase"].Str? ==> r == Ok(NodeModel.NodeAttributes(attributes["phase"].s)))
      && (attributes != map[] && "phase" in attributes && !attributes["phase"].Str? ==>
            r == Err(InvalidRequestPayload(Nodes(INVALID_NODE_ATTRIBUTES_FIELDS), FieldDetail("phase"))))
  {
    var fields := AttributeFields(ClassType(StrClass));
    FromDataclassSpec(attributes, fields, [], Nodes(MISSING_NODE_ATTRIBUTES_FIELDS), Nodes(INVALID_NODE_ATTRIBUTES_FIELDS));
    assert RequiredNames(fields) == [];
  }

  /** A payload giving the phase "L1": rejected as written, kept by the corrected parser. */
  lemma AttributesCounterexample()
    ensures ParseNodeAttributesAsWritten(map["phase" := Str("L1")]).Err?
    ensures ParseNodeAttributes(map["phase" := Str("L1")]) == Ok(NodeModel.NodeAttributes("L1"))
  {
    AttributesPhaseAlwaysRejected(map["phase" := Str("L1")]);
    ParseNodeAttributesSpec(map["phase" := Str("L1")]);
  }

  /**
   * What `parse_node` reads from the protocol registry: the registry itself, the fields of
   * `ProtocolRegistry.no_protocol_options` and of a plugin's `node_options_class` (neither of which
   * the registry shown defines), and the meter type `parse_nodes` passes down.
   */
  datatype NodeContext = NodeContext(
    meterType: EnergyMeterType,
    registry: map<Protocol, ProtocolRegistration.ProtocolPlugin>,
    noProtocolFields: seq<FieldSpec>,
    nodeOptionsFields: ProtocolRegistration.ProtocolPlugin -> seq<FieldSpec>)

  /** The options fields for a protocol: no-protocol options for `NONE`, else the plugin's, `NotImplemeted` without one. */
  function ProtocolOptionsFields(protocol: Protocol, ctx: NodeContext): (r: Result<seq<FieldSpec>, Failure>)
  {
    if protocol == NONE then Ok(ctx.noProtocolFields)
    else
      var plugin := ProtocolRegistration.GetProtocolPlugin(ctx.registry, protocol);
      if plugin.Err? then Err(NotImplemeted) else Ok(ctx.nodeOptionsFields(plugin.value))
  }

  /** `parse_node_protocol_options`: the arguments of the options class. */
  function ParseNodeProtocolOptions(options: map<string, Value>, protocol: Protocol, ctx: NodeContext): Result<map<string, Value>, Failure>
  {
    var fields := ProtocolOptionsFields(protocol, ctx);
    if fields.Err? then Err(fields.error)
    else FromDataclass(options, fields.value, [], Nodes(MISSING_NODE_PROTOCOL_OPTIONS_FIELDS), Nodes(INVALID_NODE_PROTOCOL_OPTIONS_FIELDS))
  }

  /**
   * A protocol other than `NONE` without a registered plugin lets `NotImplemeted` through (only
   * `NotImplementedError` is caught), so INVALID_PROTOCOL never comes from here; any other
   * protocol parses the payload against its options class.
   */
  lemma ProtocolOptionsResolution(options: map<string, Value>, protocol: Protocol, ctx: NodeContext)
    ensures var r := ParseNodeProtocolOptions(options, protocol, ctx);
      && (protocol != NONE && protocol !in ctx.registry ==> r == Err(NotImplemeted))
      && (protocol == NONE ==> r == FromDataclass(options, ctx.noProtocolFields, [], Nodes(MISSING_NODE_PROTOCOL_OPTIONS_FIELDS), Nodes(INVALID_NODE_PROTOCOL_OPTIONS_FIELDS)))
      && (protocol != NONE && protocol in ctx.registry ==>
            r == FromDataclass(options, ctx.nodeOptionsFields(ctx.registry[protocol]), [], Nodes(MISSING_NODE_PROTOCOL_OPTIONS_FIELDS), Nodes(INVALID_NODE_PROTOCOL_OPTIONS_FIELDS)))
      && r != Err(InvalidRequestPayload(Nodes(NodesCode.INVALID_PROTOCOL), NoDetails))
  {
  }

  /** `parse_node_protocol_options` with the `except` clause catching `NotImplemeted`, as its INVALID_PROTOCOL intends. */
  function ParseNodeProtocolOptionsIntended(options: map<string, Value>, protocol: Protocol, ctx: NodeContext)
    : (r: Result<map<string, Value>, Failure>)
    ensures protocol != NONE && protocol !in ctx.registry ==> r == Err(InvalidRequestPayload(Nodes(NodesCode.INVALID_PROTOCOL), NoDetails))
    ensures r != Err(NotImplemeted)
  {
    var fields := ProtocolOptionsFields(protocol, ctx);
    if fields.Err? then Err(InvalidRequestPayload(Nodes(NodesCode.INVALID_PROTOCOL), NoDetails))
    else
      FromDataclass(options, fields.value, [], Nodes(MISSING_NODE_PROTOCOL_OPTIONS_FIELDS), Nodes(INVALID_NODE_PROTOCOL_OPTIONS_FIELDS))
  }

  /**
   * The written and the intended options parser part exactly on a protocol other than `NONE`
   * without a registered plugin, where the written one lets `NotImplemeted` escape and the
   * intended one answers INVALID_PROTOCOL.
   */
  lemma ProtocolOptionsUnregisteredEscapes(options: map<string, Value>, protocol: Protocol, ctx: NodeContext)
    ensures ParseNodeProtocolOptions(options, protocol, ctx) != ParseNodeProtocolOptionsIntended(options, protocol, ctx)
            <==> protocol != NONE && protocol !in ctx.registry
    ensures protocol != NONE && protocol !in ctx.registry ==>
      && ParseNodeProtocolOptions(options, protocol, ctx) == Err(NotImplemeted)
      && ParseNodeProtocolOptionsIntended(options, protocol, ctx) == Err(InvalidRequestPayload(Nodes(NodesCode.INVALID_PROTOCOL), NoDetails))
  {
    ProtocolOptionsResolution(options, protocol, ctx);
  }

  /* -------------------------------------------------------------- parse_node */

  /** The fields of `NodeRecord`: name, protocol, config and attributes required, `device_id` defaulting to `None`. */
  function NodeRecordFields(): seq<FieldSpec>
  {
    [ Required("name", ClassType(StrClass)),
      Required("protocol", ClassType(StrClass)),
      Required("config", GenericAlias(DictClass)),
      Required("attributes", GenericAlias(DictClass)),
      FieldSpec("device_id", SpecialForm, Some(Null), None) ]
  }

  /** A parsed node: its name, protocol, configuration and options arguments, and attributes. */
  datatype ParsedNode = ParsedNode(
    name: string,
    protocol: Protocol,
    config: map<string, Value>,
    protocolOptions: map<string, Value>,
    attributes: NodeModel.NodeAttributes)

  /**
   * `parse_node_attributes(v)` for a payload value that is not a dictionary. A falsy value
   * fails `check_required_keys` with `ValueError`. Otherwise `"phase" in v` is evaluated: a
   * substring test on a string and a membership test on a list, after which `v["phase"]`
   * raises `TypeError` when the test held and the phase takes its default when it did not;
   * a number, `True` or a date cannot be searched, so the test itself raises `TypeError`.
   */
  function NonDictAttributes(v: Value): (r: Result<NodeModel.NodeAttributes, Failure>)
    requires !v.Dict?
    ensures !Truthy(v) ==> r == Err(ValueError(None))
    ensures Truthy(v) && v.Str? ==> r == (if Strings.Contains(v.s, "phase") then Err(TypeError) else Ok(NodeModel.DefaultAttributes()))
    ensures Truthy(v) && v.List? ==> r == (if Str("phase") in v.items then Err(TypeError) else Ok(NodeModel.DefaultAttributes()))
    ensures !v.Str? && !v.List? ==> r.Err?
  {
    if !Truthy(v) then Err(ValueError(None))
    else
      match v
      case Str(text) => if Strings.Contains(text, "phase") then Err(TypeError) else Ok(NodeModel.DefaultAttributes())
      case List(items) => if Str("phase") in items then Err(TypeError) else Ok(NodeModel.DefaultAttributes())
      case _ => Err(TypeError)
  }

  /** The attributes of a node payload: the meter type's default for `None`, else the attributes parser. */
  function NodeAttributesOf(attributes: Option<Value>, meterType: EnergyMeterType): (r: Result<NodeModel.NodeAttributes, Failure>)
    ensures attributes.Some? && !attributes.value.Null? && !attributes.value.Dict? ==> r == NonDictAttributes(attributes.value)
    ensures attributes.Some? && attributes.value.Dict? ==> r == ParseNodeAttributes(attributes.value.m)
  {
    if attributes.None? || attributes.value.Null? then Ok(MeterUtil.CreateDefaultNodeAttributes(meterType))
    else if !attributes.value.Dict? then NonDictAttributes(attributes.value)
    else ParseNodeAttributes(attributes.value.m)
  }

  /**
   * Attributes given as `None` default by meter type: "Singlephase" for single-phase meters,
   * "General" for three-phase ones; a dictionary goes to the attributes parser.
   */
  lemma NodeAttributesDefault(attributes: Option<Value>, meterType: EnergyMeterType)
    ensures attributes.None? || attributes.value.Null? ==>
      NodeAttributesOf(attributes, meterType) == Ok(NodeModel.NodeAttributes(if meterType == SINGLE_PHASE then "Singlephase" else "General"))
    ensures attributes.Some? && attributes.value.Dict? ==> NodeAttributesOf(attributes, meterType) == ParseNodeAttributes(attributes.value.m)
  {
  }

  /** `parse_node`: the required keys of `NodeRecord`, then the field checks. */
  function ParseNode(node: map<string, Value>, ctx: NodeContext): (r: Result<ParsedNode, Failure>)
    ensures node == map[] ==> r == Err(ValueError(None))
    ensures r.Ok? ==> "name" in node && node["name"] == Str(r.value.name) && NodeConfigOf(node) == Ok(r.value.config)
  {
    KeysCheckSpec(node, NodeRecordFields(), [], Nodes(MISSING_NODE_FIELDS));
    var keys := KeysCheck(node, NodeRecordFields(), [], Nodes(MISSING_NODE_FIELDS));
    if keys.Err? then Err(keys.error) else ParseNodeFields(node, ctx)
  }

  /** The checks of `parse_node` after the required keys, in source order. */
  function ParseNodeFields(node: map<string, Value>, ctx: NodeContext): (r: Result<ParsedNode, Failure>)
    ensures r.Ok? ==>
      && "name" in node && node["name"] == Str(r.value.name)
      && "protocol" in node && node["protocol"] == Str(ProtocolValue(r.value.protocol))
      && NodeConfigOf(node) == Ok(r.value.config)
      && NodeProtocolOptionsOf(node, r.value.protocol, ctx) == Ok(r.value.protocolOptions)
      && NodeAttributesOf(if "attributes" in node then Some(node["attributes"]) else None, ctx.meterType) == Ok(r.value.attributes)
    ensures var protocol := if "protocol" in node && node["protocol"].Str? then ProtocolFromValue(node["protocol"].s) else None;
      r.Err? && protocol.Some? && "name" in node && node["name"].Str? ==>
        match NodeConfigOf(node)
        case Err(e) => r.error == e
        case Ok(_) =>
          match NodeProtocolOptionsOf(node, protocol.value, ctx)
          case Err(e) => r.error == e
          case Ok(_) => NodeAttributesOf(if "attributes" in node then Some(node["attributes"]) else None, ctx.meterType) == Err(r.error)
  {
    if !ValidateFieldType(node, "name", StrClass) then Err(InvalidRequestPayload(Nodes(MISSING_NODE_NAME), NoDetails))
    else if !ValidateFieldType(node, "protocol", StrClass) then Err(InvalidRequestPayload(Nodes(NodesCode.MISSING_PROTOCOL), NoDetails))
    else
      var protocol := ProtocolFromValue(node["protocol"].s);
      if protocol.None? then Err(InvalidRequestPayload(Nodes(NodesCode.INVALID_PROTOCOL), NoDetails))
      else
        var config := NodeConfigOf(node);
        if config.Err? then Err(config.error)
        else
          var options := NodeProtocolOptionsOf(node, protocol.value, ctx);
          if options.Err? then Err(options.error)
          else
            var attributes := NodeAttributesOf(if "attributes" in node then Some(node["attributes"]) else None, ctx.meterType);
            if attributes.Err? then Err(attributes.error)
            else Ok(ParsedNode(node["name"].s, protocol.value, config.value, options.value, attributes.value))
  }

  /** The `config` of a node payload: MISSING_NODE_CONFIG unless it is a dictionary, then its parse. */
  function NodeConfigOf(node: map<string, Value>): (r: Result<map<string, Value>, Failure>)
    ensures !("config" in node && node["config"].Dict?) ==> r == Err(InvalidRequestPayload(Nodes(MISSING_NODE_CONFIG), NoDetails))
  {
    if !ValidateFieldType(node, "config", DictClass) then Err(InvalidRequestPayload(Nodes(MISSING_NODE_CONFIG), NoDetails))
    else ParseNodeConfig(node["config"].m)
  }

  /** The `protocol_options` of a node payload: MISSING_NODE_PROTOCOL_OPTIONS unless it is a dictionary, then its parse. */
  function NodeProtocolOptionsOf(node: map<string, Value>, protocol: Protocol, ctx: NodeContext): (r: Result<map<string, Value>, Failure>)
    ensures !("protocol_options" in node && node["protocol_options"].Dict?) ==> r == Err(InvalidRequestPayload(Nodes(MISSING_NODE_PROTOCOL_OPTIONS), NoDetails))
  {
    if !ValidateFieldType(node, "protocol_options", DictClass) then Err(InvalidRequestPayload(Nodes(MISSING_NODE_PROTOCOL_OPTIONS), NoDetails))
    else ParseNodeProtocolOptions(node["protocol_options"].m, protocol, ctx)
  }

  /** The names of the `NodeRecord` fields a node payload lacks. */
  function MissingNodeFields(node: map<string, Value>): seq<string>
  {
    MissingNames(RequiredNames(NodeRecordFields()), node, [])
  }

  /**
   * The required keys come first: an empty payload lets `ValueError` escape, a payload lacking
   * fields gets MISSING_NODE_FIELDS listing them, and otherwise name, protocol, config and
   * attributes are all given and the field checks decide.
   */
  lemma ParseNodeKeys(node: map<string, Value>, ctx: NodeContext)
    ensures var r := ParseNode(node, ctx);
      && (node == map[] ==> r == Err(ValueError(None)))
      && (node != map[] && MissingNodeFields(node) != [] ==> r == Err(InvalidRequestPayload(Nodes(MISSING_NODE_FIELDS), FieldsDetail(MissingNodeFields(node)))))
      && (node != map[] && MissingNodeFields(node) == [] ==>
            "name" in node && "protocol" in node && "config" in node && "attributes" in node && r == ParseNodeFields(node, ctx))
  {
    var fields := NodeRecordFields();
    KeysCheckSpec(node, fields, [], Nodes(MISSING_NODE_FIELDS));
    if node != map[] && MissingNodeFields(node) == [] {
      assert IsRequired(fields[0]) && IsRequired(fields[1]) && IsRequired(fields[2]) && IsRequired(fields[3]);
    }
  }

  /**
   * Then, in order: the name must be a string (MISSING_NODE_NAME), the protocol a string
   * (MISSING_PROTOCOL) naming a `Protocol` (INVALID_PROTOCOL), and the configuration a dictionary
   * (MISSING_NODE_CONFIG) that parses.
   */
  lemma ParseNodeHeaderOrder(node: map<string, Value>, ctx: NodeContext)
    requires "name" in node && "protocol" in node && "config" in node
    ensures var r := ParseNodeFields(node, ctx);
      && (!node["name"].Str? ==> r == Err(InvalidRequestPayload(Nodes(MISSING_NODE_NAME), NoDetails)))
      && (node["name"].Str? && !node["protocol"].Str? ==> r == Err(InvalidRequestPayload(Nodes(NodesCode.MISSING_PROTOCOL), NoDetails)))
      && (node["name"].Str? && node["protocol"].Str? && node["protocol"].s !in ValidProtocols() ==>
            r == Err(InvalidRequestPayload(Nodes(NodesCode.INVALID_PROTOCOL), NoDetails)))
      && (node["name"].Str? && node["protocol"].Str? && node["protocol"].s in ValidProtocols() && !node["config"].Dict? ==>
            r == Err(InvalidRequestPayload(Nodes(MISSING_NODE_CONFIG), NoDetails)))
      && (node["name"].Str? && node["protocol"].Str? && node["protocol"].s in ValidProtocols() && node["config"].Dict? &&
          ParseNodeConfig(node["config"].m).Err?
          ==> r == Err(ParseNodeConfig(node["config"].m).error))
  {
    if !node["name"].Str? {
    } else if !node["protocol"].Str? {
    } else if node["protocol"].s !in ValidProtocols() {
    } else if !node["config"].Dict? {
    }
  }

  /** The protocol options stage: MISSING_NODE_PROTOCOL_OPTIONS unless a dictionary, else the options parse. */
  lemma NodeProtocolOptionsStage(node: map<string, Value>, protocol: Protocol, ctx: NodeContext)
    ensures !("protocol_options" in node && node["protocol_options"].Dict?) ==>
      NodeProtocolOptionsOf(node, protocol, ctx) == Err(InvalidRequestPayload(Nodes(MISSING_NODE_PROTOCOL_OPTIONS), NoDetails))
    ensures "protocol_options" in node && node["protocol_options"].Dict? ==>
      NodeProtocolOptionsOf(node, protocol, ctx) == ParseNodeProtocolOptions(node["protocol_options"].m, protocol, ctx)
  {
  }

  /** A successful parse keeps the payload's name and protocol. */
  lemma ParseNodeKeepsNameAndProtocol(node: map<string, Value>, ctx: NodeContext)
    ensures var r := ParseNode(node, ctx);
      r.Ok? ==> "name" in node && node["name"] == Str(r.value.name) && "protocol" in node && node["protocol"] == Str(ProtocolValue(r.value.protocol))
  {
    var r := ParseNode(node, ctx);
    if r.Ok? {
      ParseNodeKeys(node, ctx);
      ProtocolValueRoundTrip(r.value.protocol);
    }
  }

  /* ------------------------------------------------------------- parse_nodes */

  /** One entry of the node list: INVALID_NODE unless it is a dictionary, then `parse_node`. */
  function NodeEntry(entry: Value, ctx: NodeContext): (r: Result<ParsedNode, Failure>)
    ensures !entry.Dict? ==> r == Err(InvalidRequestPayload(Nodes(INVALID_NODE), NoDetails))
    ensures entry.Dict? ==> r == ParseNode(entry.m, ctx)
  {
    if !entry.Dict? then Err(InvalidRequestPayload(Nodes(INVALID_NODE), NoDetails)) else ParseNode(entry.m, ctx)
  }

  /** The entry parser `parse_nodes` applies to each element of the list. */
  function EntryParser(ctx: NodeContext): Value -> Result<ParsedNode, Failure>
  {
    entry => NodeEntry(entry, ctx)
  }

  /**
   * `set.add` on the record set: records are equal by (device id, name) and every parsed record's
   * device id is `None`, so the set is keyed by name and an equal record already present stays.
   */
  function AddRecord(records: map<string, ParsedNode>, node: ParsedNode): map<string, ParsedNode>
  {
    if node.name in records then records else records[node.name := node]
  }

  /**
   * The entries parsed in order by `parse` into `records`; the first failing entry decides the
   * error. The properties below hold whatever the entry parser.
   */
  function NodesFrom(entries: seq<Value>, parse: Value -> Result<ParsedNode, Failure>, records: map<string, ParsedNode>): Result<map<string, ParsedNode>, Failure>
    decreases |entries|
  {
    if entries == [] then Ok(records)
    else
      var node := parse(entries[0]);
      if node.Err? then Err(node.error) else NodesFrom(entries[1..], parse, AddRecord(records, node.value))
  }

  /** `parse_nodes`: the loop over the list, adding each parsed record to the set. */
  method ParseNodes(entries: seq<Value>, ctx: NodeContext) returns (r: Result<map<string, ParsedNode>, Failure>)
    ensures r == NodesFrom(entries, EntryParser(ctx), map[])
  {
    var records: map<string, ParsedNode> := map[];
    var i := 0;
    while i < |entries|
      invariant 0 <= i <= |entries|
      invariant NodesFrom(entries[i..], EntryParser(ctx), records) == NodesFrom(entries, EntryParser(ctx), map[])
    {
      assert entries[i..][1..] == entries[i + 1..];
      var record := entries[i];
      if !record.Dict? {
        return Err(InvalidRequestPayload(Nodes(INVALID_NODE), NoDetails));
      }
      var node := ParseNode(record.m, ctx);
      if node.Err? {
        return Err(node.error);
      }
      records := AddRecord(records, node.value);
      i := i + 1;
    }
    assert entries[i..] == [];
    return Ok(records);
  }

  /** The list parses exactly when every entry does. */
  lemma {:induction false} NodesFromOk(entries: seq<Value>, parse: Value -> Result<ParsedNode, Failure>, records: map<string, ParsedNode>)
    decreases |entries|
    ensures NodesFrom(entries, parse, records).Ok? <==> forall i :: 0 <= i < |entries| ==> parse(entries[i]).Ok?
  {
    if entries != [] {
      var node := parse(entries[0]);
      if node.Ok? {
        NodesFromOk(entries[1..], parse, AddRecord(records, node.value));
        assert forall i :: 1 <= i < |entries| ==> entries[i] == entries[1..][i - 1];
      }
    }
  }

  /** The first failing entry decides the error. */
  lemma {:induction false} NodesFromFirstError(entries: seq<Value>, parse: Value -> Result<ParsedNode, Failure>, records: map<string, ParsedNode>, k: nat)
    requires k < |entries| && parse(entries[k]).Err?
    requires forall i :: 0 <= i < k ==> parse(entries[i]).Ok?
    decreases k
    ensures NodesFrom(entries, parse, records) == Err(parse(entries[k]).error)
  {
    if k > 0 {
      var node := parse(entries[0]);
      assert node.Ok?;
      assert forall i :: 1 <= i < |entries| ==> entries[i] == entries[1..][i - 1];
      NodesFromFirstError(entries[1..], parse, AddRecord(records, node.value), k - 1);
    }
  }

  /** Adding records never shrinks the set and adds at most one record per entry. */
  lemma {:induction false} NodesFromSize(entries: seq<Value>, parse: Value -> Result<ParsedNode, Failure>, records: map<string, ParsedNode>)
    decreases |entries|
    ensures var r := NodesFrom(entries, parse, records);
      r.Ok? ==> |records| <= |r.value| <= |records| + |entries|
  {
    if entries != [] {
      var node := parse(entries[0]);
      if node.Ok? {
        var next := AddRecord(records, node.value);
        if node.value.name !in records {
          assert next.Keys == records.Keys + {node.value.name};
        }
        NodesFromSize(entries[1..], parse, next);
      }
    }
  }

  /** The parsed set keeps every record already present and holds a record for every entry's name. */
  lemma {:induction false} NodesFromKeepsRecords(entries: seq<Value>, parse: Value -> Result<ParsedNode, Failure>, records: map<string, ParsedNode>)
    decreases |entries|
    ensures var r := NodesFrom(entries, parse, records);
      r.Ok? ==>
        && (forall n :: n in records ==> n in r.value && r.value[n] == records[n])
        && (forall i :: 0 <= i < |entries| ==> parse(entries[i]).Ok? && parse(entries[i]).value.name in r.value)
  {
    if entries != [] {
      var node := parse(entries[0]);
      if node.Ok? {
        var tail := entries[1..];
        NodesFromKeepsRecords(tail, parse, AddRecord(records, node.value));
        assert forall i :: 1 <= i < |entries| ==> entries[i] == tail[i - 1];
      }
    }
  }

  /** The name an entry parses to, before a later record of that name could be added. */
  predicate FirstWithName(entries: seq<Value>, parse: Value -> Result<ParsedNode, Failure>, records: map<string, ParsedNode>, i: int)
    requires 0 <= i < |entries|
  {
    && parse(entries[i]).Ok?
    && parse(entries[i]).value.name !in records
    && forall j :: 0 <= j < i ==> parse(entries[j]).Ok? && parse(entries[j]).value.name != parse(entries[i]).value.name
  }

  /** Each name's record is the first entry's carrying it: a later entry with the same name is dropped. */
  lemma {:induction false} NodesFromFirstOccurrence(entries: seq<Value>, parse: Value -> Result<ParsedNode, Failure>, records: map<string, ParsedNode>)
    decreases |entries|
    ensures var r := NodesFrom(entries, parse, records);
      r.Ok? ==> forall i :: 0 <= i < |entries| && FirstWithName(entries, parse, records, i) ==>
        parse(entries[i]).value.name in r.value && r.value[parse(entries[i]).value.name] == parse(entries[i]).value
  {
    if entries != [] {
      var node := parse(entries[0]);
      if node.Ok? {
        var next := AddRecord(records, node.value);
        var tail := entries[1..];
        NodesFromFirstOccurrence(tail, parse, next);
        NodesFromKeepsRecords(tail, parse, next);
        assert forall i :: 1 <= i < |entries| ==> entries[i] == tail[i - 1];
        forall i | 1 <= i < |entries| && FirstWithName(entries, parse, records, i)
          ensures FirstWithName(tail, parse, next, i - 1)
        {
          assert forall j :: 0 <= j < i - 1 ==> tail[j] == entries[j + 1];
        }
      }
    }
  }

  /** Every record in the parsed set was already present or comes from an entry. */
  lemma {:induction false} NodesFromOnlyEntries(entries: seq<Value>, parse: Value -> Result<ParsedNode, Failure>, records: map<string, ParsedNode>)
    decreases |entries|
    ensures var r := NodesFrom(entries, parse, records);
      r.Ok? ==> forall n :: n in r.value ==> n in records || exists i :: 0 <= i < |entries| && parse(entries[i]).Ok? && parse(entries[i]).value.name == n
  {
    if entries != [] {
      var node := parse(entries[0]);
      var r := NodesFrom(entries, parse, records);
      if node.Ok? && r.Ok? {
        var next := AddRecord(records, node.value);
        var tail := entries[1..];
        NodesFromOnlyEntries(tail, parse, next);
        forall n | n in r.value
          ensures n in records || exists i :: 0 <= i < |entries| && parse(entries[i]).Ok? && parse(entries[i]).value.name == n
        {
          if n !in next {
            var i :| 0 <= i < |tail| && parse(tail[i]).Ok? && parse(tail[i]).value.name == n;
            assert entries[i + 1] == tail[i];
          } else if n !in records {
            assert parse(entries[0]).value.name == n;
          }
        }
      }
    }
  }
}
