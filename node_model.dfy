/**
 * Node data model of `model/controller/node.py`: node types and phases, node records with
 * identity by (device id, name), and the node configuration with its defaults, warning
 * thresholds, validation with auto-fixes, and reconstruction from a stored record.
 */
module NodeModel {
  import opened Wrappers
  import opened Values
  import opened General

  datatype NodeType = INT | FLOAT | BOOL | STRING

  function NodeTypeValue(t: NodeType): string
  {
    match t
    case INT => "INT"
    case FLOAT => "FLOAT"
    case BOOL => "BOOL"
    case STRING => "STRING"
  }

  /** `NodeType(s)`, or `None` where Python raises `ValueError`. */
  function NodeTypeFromValue(s: string): (r: Option<NodeType>)
    ensures r.Some? <==> s in {"INT", "FLOAT", "BOOL", "STRING"}
    ensures r.Some? ==> NodeTypeValue(r.value) == s
  {
    if s == "INT" then Some(INT)
    else if s == "FLOAT" then Some(FLOAT)
    else if s == "BOOL" then Some(BOOL)
    else if s == "STRING" then Some(STRING)
    else None
  }

  predicate IsNumericType(t: NodeType)
  {
    t == INT || t == FLOAT
  }

  datatype NodePhase = L1 | L2 | L3 | TOTAL | GENERAL | SINGLEPHASE

  function NodePhaseValue(p: NodePhase): string
  {
    match p
    case L1 => "L1"
    case L2 => "L2"
    case L3 => "L3"
    case TOTAL => "Total"
    case GENERAL => "General"
    case SINGLEPHASE => "Singlephase"
  }

  /**
   * `NodeAttributes`. The phase is kept as the string it was given: a record's attributes
   * are passed to the constructor unconverted, and the phase enum is a `str` enum.
   */
  datatype NodeAttributes = NodeAttributes(phase: string)

  function DefaultAttributes(): NodeAttributes
  {
    NodeAttributes(NodePhaseValue(GENERAL))
  }

  /** `get_attributes()`: the attributes as a dict. */
  function GetAttributes(a: NodeAttributes): map<string, Value>
  {
    map["phase" := Str(a.phase)]
  }

  /** `NodeRecord`: a stored node; `config` and `attributes` are plain dicts. */
  datatype NodeRecord = NodeRecord(
    name: string,
    protocol: string,
    config: map<string, Value>,
    attributes: map<string, Value>,
    deviceId: Option<int>)

  /** The tuple `NodeRecord.__eq__` and `__hash__` read. */
  function RecordKey(r: NodeRecord): (Option<int>, string)
  {
    (r.deviceId, r.name)
  }

  /** `NodeRecord.__eq__`. */
  predicate RecordEquals(a: NodeRecord, b: NodeRecord)
  {
    (a.deviceId, a.name) == (b.deviceId, b.name)
  }

  /** `NodeRecord.__hash__`, for Python's tuple hash `hash`. */
  function RecordHash(r: NodeRecord, hash: ((Option<int>, string)) -> int): int
  {
    hash((r.deviceId, r.name))
  }

  /**
   * Equality and hash depend only on (device id, name): records that agree there are equal
   * and hash alike whatever their protocol, config and attributes, and equality is an
   * equivalence relation.
   */
  lemma RecordIdentityByKey(a: NodeRecord, b: NodeRecord, c: NodeRecord, hash: ((Option<int>, string)) -> int)
    ensures RecordEquals(a, b) <==> RecordKey(a) == RecordKey(b)
    ensures RecordEquals(a, b) ==> RecordHash(a, hash) == RecordHash(b, hash)
    ensures RecordEquals(a, a)
    ensures RecordEquals(a, b) ==> RecordEquals(b, a)
    ensures RecordEquals(a, b) && RecordEquals(b, c) ==> RecordEquals(a, c)
  {
  }

  /** The incremental-counter options of a node. */
  datatype IncrementalOptions = IncrementalOptions(
    incrementalNode: Option<bool>,
    positiveIncremental: Option<bool>,
    calculateIncrement: Option<bool>)

  /** The alarm switches and the alarm and warning thresholds of a node. */
  datatype AlarmOptions = AlarmOptions(
    minAlarm: bool,
    maxAlarm: bool,
    minAlarmValue: Option<real>,
    maxAlarmValue: Option<real>,
    minWarningValue: Option<real>,
    maxWarningValue: Option<real>)

  /**
   * `NodeConfig`, with its incremental and alarm fields grouped. Fields whose Python type is
   * only checked at run time are dynamic values.
   */
  datatype NodeConfig = NodeConfig(
    name: string,
    nodeType: NodeType,
    unit: Option<string>,
    protocol: string,
    enabled: bool,
    publish: bool,
    calculated: bool,
    custom: bool,
    logging: bool,
    loggingPeriod: Value,
    decimalPlaces: Value,
    incremental: IncrementalOptions,
    alarms: AlarmOptions,
    attributes: NodeAttributes)

  /** Python truthiness of an optional flag. */
  predicate IsSet(flag: Option<bool>)
  {
    flag == Some(true)
  }

  const DEFAULT_WARNING_PERCENT: real := 0.02

  /** The derivation of missing warning thresholds from the alarm thresholds. */
  function DeriveWarnings(a: AlarmOptions): (r: AlarmOptions)
    ensures r.minWarningValue == if a.minWarningValue.None? && a.minAlarmValue.Some?
      then Some(a.minAlarmValue.value * (1.0 + DEFAULT_WARNING_PERCENT)) else a.minWarningValue
    ensures r.maxWarningValue == if a.maxWarningValue.None? && a.maxAlarmValue.Some?
      then Some(a.maxAlarmValue.value * (1.0 - DEFAULT_WARNING_PERCENT)) else a.maxWarningValue
    ensures r.(minWarningValue := a.minWarningValue, maxWarningValue := a.maxWarningValue) == a
  {
    var minWarning := if a.minWarningValue == None && a.minAlarmValue != None
      then Some(a.minAlarmValue.value * (1.0 + DEFAULT_WARNING_PERCENT)) else a.minWarningValue;
    var maxWarning := if a.maxWarningValue == None && a.maxAlarmValue != None
      then Some(a.maxAlarmValue.value * (1.0 - DEFAULT_WARNING_PERCENT)) else a.maxWarningValue;
    a.(minWarningValue := minWarning, maxWarningValue := maxWarning)
  }

  /** `__post_init__`: only the warning thresholds can change. */
  function PostInit(c: NodeConfig): (r: NodeConfig)
    ensures r.(alarms := c.alarms) == c
    ensures r.alarms == DeriveWarnings(c.alarms)
  {
    c.(alarms := DeriveWarnings(c.alarms))
  }

  /** A given warning threshold is never overwritten, and `__post_init__` is idempotent. */
  lemma PostInitKeepsGivenWarnings(c: NodeConfig)
    ensures c.alarms.minWarningValue.Some? ==> PostInit(c).alarms.minWarningValue == c.alarms.minWarningValue
    ensures c.alarms.maxWarningValue.Some? ==> PostInit(c).alarms.maxWarningValue == c.alarms.maxWarningValue
    ensures PostInit(PostInit(c)) == PostInit(c)
  {
    DeriveWarningsIdempotent(c.alarms);
  }

  lemma DeriveWarningsIdempotent(a: AlarmOptions)
    ensures DeriveWarnings(DeriveWarnings(a)) == DeriveWarnings(a)
  {
    var d := DeriveWarnings(a);
    assert d.minAlarmValue == a.minAlarmValue && d.maxAlarmValue == a.maxAlarmValue;
    assert d.minWarningValue.Some? || d.minAlarmValue.None?;
    assert d.maxWarningValue.Some? || d.maxAlarmValue.None?;
    var e := DeriveWarnings(d);
    assert e.minWarningValue == d.minWarningValue;
    assert e.maxWarningValue == d.maxWarningValue;
  }

  /** The declared defaults of the incremental options. */
  function DefaultIncremental(): IncrementalOptions
  {
    IncrementalOptions(Some(false), Some(false), Some(true))
  }

  /** The declared defaults of the alarm options: both alarms off, both thresholds zero. */
  function DefaultAlarms(): AlarmOptions
  {
    AlarmOptions(false, false, Some(0.0), Some(0.0), None, None)
  }

  /** `NodeConfig(name, type, unit)` with every other field at its declared default. */
  function NewNodeConfig(name: string, nodeType: NodeType, unit: Option<string>): NodeConfig
  {
    PostInit(NodeConfig(name, nodeType, unit, ProtocolValue(NONE), true, true, false, false, false,
      Int(15), Int(3), DefaultIncremental(), DefaultAlarms(), DefaultAttributes()))
  }

  /** With the default zero alarm thresholds both derived warning thresholds are zero. */
  lemma NewNodeConfigDefaults(name: string, nodeType: NodeType, unit: Option<string>)
    ensures var c := NewNodeConfig(name, nodeType, unit);
      && c.protocol == "NONE" && c.enabled && c.incremental.calculateIncrement == Some(true) && !c.logging
      && c.loggingPeriod == Int(15) && c.decimalPlaces == Int(3)
      && c.alarms.minWarningValue == Some(0.0) && c.alarms.maxWarningValue == Some(0.0)
  {
  }

  datatype ConfigError =
    | InvalidProtocol
    | IncrementalOnNonNumeric
    | IncrementalOptionsOnNonNumeric
    | AlarmsOnNonNumeric
    | UnitOnNonNumeric
    | AlarmsOnIncremental
    | MinAlarmWithoutValue
    | MaxAlarmWithoutValue
    | InvalidLoggingPeriod
    | DecimalPlacesNotInt

  /** The auto-fix `validate` applies to BOOL and STRING nodes. */
  function AutoFixNonNumeric(c: NodeConfig): NodeConfig
  {
    c.(incremental := IncrementalOptions(Some(false), None, None),
       alarms := c.alarms.(minAlarm := false, maxAlarm := false, minAlarmValue := None, maxAlarmValue := None),
       unit := None)
  }

  /** The configuration `validate` goes on to check: auto-fixed for BOOL and STRING nodes. */
  function Fixed(c: NodeConfig): NodeConfig
  {
    if c.nodeType in {BOOL, STRING} then AutoFixNonNumeric(c) else c
  }

  /**
   * `NodeConfig.validate`: the checks in source order, with the auto-fixes applied where they are
   * made; `Ok` carries the configuration as `validate` leaves it.
   */
  function Validate(c: NodeConfig): Result<NodeConfig, ConfigError>
  {
    if c.protocol !in ValidProtocols() then Err(InvalidProtocol)
    else CheckFixed(Fixed(c))
  }

  /** The checks `validate` makes after the auto-fix, on the auto-fixed configuration `c1`. */
  function CheckFixed(c1: NodeConfig): Result<NodeConfig, ConfigError>
  {
    var nonNumeric := c1.nodeType in {BOOL, STRING};
    var inc := c1.incremental;
    var al := c1.alarms;
    if nonNumeric && IsSet(inc.incrementalNode) then Err(IncrementalOnNonNumeric)
    else if nonNumeric && (inc.positiveIncremental.Some? || inc.calculateIncrement.Some?) then Err(IncrementalOptionsOnNonNumeric)
    else if nonNumeric && (al.minAlarm || al.maxAlarm || al.minAlarmValue.Some? || al.maxAlarmValue.Some?) then Err(AlarmsOnNonNumeric)
    else if nonNumeric && c1.unit.Some? then Err(UnitOnNonNumeric)
    else if IsSet(inc.incrementalNode) && (al.minAlarm || al.maxAlarm) then Err(AlarmsOnIncremental)
    else if al.minAlarm && al.minAlarmValue.None? then Err(MinAlarmWithoutValue)
    else if al.maxAlarm && al.maxAlarmValue.None? then Err(MaxAlarmWithoutValue)
    else if c1.logging && (!IsInt(c1.loggingPeriod) || AsInt(c1.loggingPeriod) <= 0) then Err(InvalidLoggingPeriod)
    else
      var c2 := if c1.nodeType != FLOAT then c1.(decimalPlaces := Null) else c1;
      if c2.nodeType == FLOAT && !IsInt(c2.decimalPlaces) then Err(DecimalPlacesNotInt)
      else Ok(c2)
  }

  /** A protocol outside the `Protocol` values is rejected first. */
  lemma ValidateRejectsUnknownProtocol(c: NodeConfig)
    ensures c.protocol !in ValidProtocols() <==> Validate(c) == Err(InvalidProtocol)
  {
  }

  /** The checks that follow the BOOL/STRING auto-fix can never fail. */
  lemma ValidateNonNumericChecksCannotFail(c: NodeConfig)
    ensures Validate(c) !in {Err(IncrementalOnNonNumeric), Err(IncrementalOptionsOnNonNumeric),
                             Err(AlarmsOnNonNumeric), Err(UnitOnNonNumeric)}
  {
  }

  /** For BOOL and STRING nodes a successful validation has applied every auto-fix. */
  lemma ValidateAutoFixesNonNumeric(c: NodeConfig)
    requires c.nodeType in {BOOL, STRING} && Validate(c).Ok?
    ensures var v := Validate(c).value;
      && v.incremental == IncrementalOptions(Some(false), None, None)
      && !v.alarms.minAlarm && !v.alarms.maxAlarm && v.alarms.minAlarmValue.None? && v.alarms.maxAlarmValue.None?
      && v.unit.None? && v.decimalPlaces == Null
  {
  }

  /**
   * Exactly when validation fails on a node with a valid protocol: alarms on an incremental node,
   * an enabled alarm without a threshold, logging with a non-int or non-positive period, or a
   * FLOAT without integer decimal places (all judged after the auto-fix).
   */
  lemma ValidateFailsExactly(c: NodeConfig)
    requires c.protocol in ValidProtocols()
    ensures var f := Fixed(c);
      Validate(c).Err? <==>
        || (IsSet(f.incremental.incrementalNode) && (f.alarms.minAlarm || f.alarms.maxAlarm))
        || (f.alarms.minAlarm && f.alarms.minAlarmValue.None?)
        || (f.alarms.maxAlarm && f.alarms.maxAlarmValue.None?)
        || (f.logging && (!IsInt(f.loggingPeriod) || AsInt(f.loggingPeriod) <= 0))
        || (f.nodeType == FLOAT && !IsInt(f.decimalPlaces))
  {
  }

  /**
   * After validation `decimal_places` is `None` for every non-FLOAT type and the given int for
   * FLOAT; nothing else changes except the BOOL/STRING auto-fixes.
   */
  lemma ValidateResult(c: NodeConfig)
    requires Validate(c).Ok?
    ensures var v := Validate(c).value;
      && (v.nodeType != FLOAT ==> v.decimalPlaces == Null)
      && (v.nodeType == FLOAT ==> IsInt(v.decimalPlaces) && v.decimalPlaces == c.decimalPlaces)
      && v.(decimalPlaces := c.decimalPlaces) == Fixed(c)
  {
    var f := Fixed(c);
    if c.nodeType == FLOAT {
      assert Validate(c) == Ok(f);
    } else {
      assert Validate(c) == Ok(f.(decimalPlaces := Null));
    }
  }

  /** Validating an already validated configuration succeeds and changes nothing. */
  lemma ValidateIdempotent(c: NodeConfig)
    requires Validate(c).Ok?
    ensures Validate(Validate(c).value) == Validate(c)
  {
    var v := Validate(c).value;
    ValidatedIsFixed(c);
    ValidatedPassesChecks(c);
    assert v.protocol in ValidProtocols();
  }

  /** A validated configuration is its own auto-fix. */
  lemma ValidatedIsFixed(c: NodeConfig)
    requires Validate(c).Ok?
    ensures Fixed(Validate(c).value) == Validate(c).value
  {
    ValidateResult(c);
    var v := Validate(c).value;
    if v.nodeType in {BOOL, STRING} {
      ValidateAutoFixesNonNumeric(c);
      assert AutoFixNonNumeric(v) == v;
    }
  }

  /** A validated configuration passes the checks again unchanged. */
  lemma ValidatedPassesChecks(c: NodeConfig)
    requires Validate(c).Ok?
    ensures CheckFixed(Validate(c).value) == Ok(Validate(c).value)
    ensures Validate(c).value.protocol == c.protocol
  {
    ValidateResult(c);
    var v := Validate(c).value;
    var f := Fixed(c);
    assert v.incremental == f.incremental && v.alarms == f.alarms && v.unit == f.unit;
    assert v.logging == f.logging && v.loggingPeriod == f.loggingPeriod && v.nodeType == f.nodeType;
    assert v.nodeType != FLOAT ==> v.(decimalPlaces := Null) == v;
  }

  /** The configuration with other warning thresholds. */
  function WithWarnings(c: NodeConfig, minWarning: Option<real>, maxWarning: Option<real>): NodeConfig
  {
    c.(alarms := c.alarms.(minWarningValue := minWarning, maxWarningValue := maxWarning))
  }

  /** `validate` neither reads nor changes the warning thresholds. */
  lemma ValidateIgnoresWarnings(c: NodeConfig, minWarning: Option<real>, maxWarning: Option<real>)
    ensures Validate(WithWarnings(c, minWarning, maxWarning)) == match Validate(c)
        case Ok(v) => Ok(WithWarnings(v, minWarning, maxWarning))
        case Err(e) => Err(e)
  {
    FixedIgnoresWarnings(c, minWarning, maxWarning);
    if Validate(c).Err? {
      ValidateErrIgnoresWarnings(c, minWarning, maxWarning);
    } else {
      ValidateOkIgnoresWarnings(c, minWarning, maxWarning);
    }
  }

  lemma ValidateErrIgnoresWarnings(c: NodeConfig, minWarning: Option<real>, maxWarning: Option<real>)
    requires Validate(c).Err?
    requires Fixed(WithWarnings(c, minWarning, maxWarning)) == WithWarnings(Fixed(c), minWarning, maxWarning)
    ensures Validate(WithWarnings(c, minWarning, maxWarning)) == Validate(c)
  {
    if c.protocol in ValidProtocols() {
      CheckFixedErrIgnoresWarnings(Fixed(c), minWarning, maxWarning);
    }
  }

  lemma CheckFixedErrIgnoresWarnings(f: NodeConfig, minWarning: Option<real>, maxWarning: Option<real>)
    requires CheckFixed(f).Err?
    ensures CheckFixed(WithWarnings(f, minWarning, maxWarning)) == CheckFixed(f)
  {
    var g := WithWarnings(f, minWarning, maxWarning);
    assert g.incremental == f.incremental && g.unit == f.unit && g.nodeType == f.nodeType;
    assert g.alarms.minAlarm == f.alarms.minAlarm && g.alarms.maxAlarm == f.alarms.maxAlarm;
    assert g.alarms.minAlarmValue == f.alarms.minAlarmValue && g.alarms.maxAlarmValue == f.alarms.maxAlarmValue;
    assert g.logging == f.logging && g.loggingPeriod == f.loggingPeriod && g.decimalPlaces == f.decimalPlaces;
  }

  lemma ValidateOkIgnoresWarnings(c: NodeConfig, minWarning: Option<real>, maxWarning: Option<real>)
    requires Validate(c).Ok?
    requires Fixed(WithWarnings(c, minWarning, maxWarning)) == WithWarnings(Fixed(c), minWarning, maxWarning)
    ensures Validate(WithWarnings(c, minWarning, maxWarning)) == Ok(WithWarnings(Validate(c).value, minWarning, maxWarning))
  {
    var w := WithWarnings(c, minWarning, maxWarning);
    if c.nodeType != FLOAT {
      assert Validate(c) == Ok(Fixed(c).(decimalPlaces := Null));
      assert Validate(w) == Ok(Fixed(w).(decimalPlaces := Null));
    } else {
      assert Validate(c) == Ok(Fixed(c));
      assert Validate(w) == Ok(Fixed(w));
    }
  }

  lemma FixedIgnoresWarnings(c: NodeConfig, minWarning: Option<real>, maxWarning: Option<real>)
    ensures Fixed(WithWarnings(c, minWarning, maxWarning)) == WithWarnings(Fixed(c), minWarning, maxWarning)
  {
  }

  /** The `NodeConfig` dataclass field names. */
  function NodeConfigFields(): set<string>
  {
    {"name", "type", "unit", "protocol", "enabled", "incremental_node", "positive_incremental",
     "calculate_increment", "publish", "calculated", "custom", "logging", "logging_period", "min_alarm",
     "max_alarm", "min_alarm_value", "max_alarm_value", "min_warning_value", "max_warning_value",
     "decimal_places", "attributes"}
  }

  /** The keys `create_from_node_record` takes from the record itself, not from the filtered config. */
  function ExplicitKeys(): set<string>
  {
    {"type", "unit", "name", "attributes", "protocol"}
  }

  /** The `NodeConfig` fields that are forwarded from a record's config as keyword arguments. */
  function ForwardedFields(): (fields: set<string>)
    ensures fields == NodeConfigFields() - ExplicitKeys()
  {
    {"enabled", "incremental_node", "positive_incremental", "calculate_increment", "publish", "calculated",
     "custom", "logging", "logging_period", "min_alarm", "max_alarm", "min_alarm_value", "max_alarm_value",
     "min_warning_value", "max_warning_value", "decimal_places"}
  }

  /** Whether a config key is forwarded as a keyword argument. */
  predicate Forwarded(key: string)
  {
    key in ForwardedFields()
  }

  datatype RecordError =
    | MissingKey(key: string)
    | InvalidEnumValue(key: string)
    | UnexpectedAttributes(keys: set<string>)
    | FieldTypeMismatch(keys: set<string>)

  function DecodeBool(v: Value): Option<bool>
  {
    if v.Bool? then Some(v.b) else None
  }

  function DecodeOptBool(v: Value): Option<Option<bool>>
  {
    match v
    case Null => Some(None)
    case Bool(b) => Some(Some(b))
    case _ => None
  }

  function DecodeOptReal(v: Value): Option<Option<real>>
  {
    match v
    case Null => Some(None)
    case Float(r) => Some(Some(r))
    case Int(i) => Some(Some(i as real))
    case _ => None
  }

  function DecodeOptStr(v: Value): Option<Option<string>>
  {
    match v
    case Null => Some(None)
    case Str(s) => Some(Some(s))
    case _ => None
  }

  /** Whether a forwarded value has the type its field declares. */
  predicate WellTyped(key: string, v: Value)
  {
    if key in {"enabled", "publish", "calculated", "custom", "logging", "min_alarm", "max_alarm"} then DecodeBool(v).Some?
    else if key in {"incremental_node", "positive_incremental", "calculate_increment"} then DecodeOptBool(v).Some?
    else if key in {"min_alarm_value", "max_alarm_value", "min_warning_value", "max_warning_value"} then DecodeOptReal(v).Some?
    else true
  }

  /** `filtered_config`: the config entries forwarded as keyword arguments. */
  function Filtered(config: map<string, Value>): (f: map<string, Value>)
    ensures forall k :: k in f <==> k in config && Forwarded(k)
    ensures forall k :: k in f ==> f[k] == config[k]
  {
    map k | k in config && Forwarded(k) :: config[k]
  }

  /** The forwarded keys whose values do not have their field's type. */
  function BadKeys(filtered: map<string, Value>): set<string>
  {
    set k | k in filtered && !WellTyped(k, filtered[k])
  }

  function PickBool(filtered: map<string, Value>, key: string, default: bool): bool
  {
    if key in filtered && DecodeBool(filtered[key]).Some? then DecodeBool(filtered[key]).value else default
  }

  function PickOptBool(filtered: map<string, Value>, key: string, default: Option<bool>): Option<bool>
  {
    if key in filtered && DecodeOptBool(filtered[key]).Some? then DecodeOptBool(filtered[key]).value else default
  }

  function PickOptReal(filtered: map<string, Value>, key: string, default: Option<real>): Option<real>
  {
    if key in filtered && DecodeOptReal(filtered[key]).Some? then DecodeOptReal(filtered[key]).value else default
  }

  function PickValue(filtered: map<string, Value>, key: string, default: Value): Value
  {
    if key in filtered then filtered[key] else default
  }

  /** The incremental options of a filtered config, defaults where absent. */
  function DecodeIncremental(f: map<string, Value>): IncrementalOptions
  {
    IncrementalOptions(
      PickOptBool(f, "incremental_node", Some(false)),
      PickOptBool(f, "positive_incremental", Some(false)),
      PickOptBool(f, "calculate_increment", Some(true)))
  }

  /** The alarm options of a filtered config, defaults where absent. */
  function DecodeAlarms(f: map<string, Value>): AlarmOptions
  {
    AlarmOptions(
      PickBool(f, "min_alarm", false),
      PickBool(f, "max_alarm", false),
      PickOptReal(f, "min_alarm_value", Some(0.0)),
      PickOptReal(f, "max_alarm_value", Some(0.0)),
      PickOptReal(f, "min_warning_value", None),
      PickOptReal(f, "max_warning_value", None))
  }

  /** The configuration the `NodeConfig` constructor receives, before `__post_init__`. */
  function BuildConfig(name: string, nodeType: NodeType, unit: Option<string>, protocol: string,
                       f: map<string, Value>, attributes: NodeAttributes): NodeConfig
  {
    NodeConfig(name, nodeType, unit, protocol,
      PickBool(f, "enabled", true),
      PickBool(f, "publish", true),
      PickBool(f, "calculated", false),
      PickBool(f, "custom", false),
      PickBool(f, "logging", false),
      PickValue(f, "logging_period", Int(15)),
      PickValue(f, "decimal_places", Int(3)),
      DecodeIncremental(f),
      DecodeAlarms(f),
      attributes)
  }

  /** `NodeAttributes(**attributes)`: only the `phase` keyword exists. */
  function AttributesFromDict(attributes: map<string, Value>): Result<NodeAttributes, RecordError>
  {
    var unexpected := attributes.Keys - {"phase"};
    if unexpected != {} then Err(UnexpectedAttributes(unexpected))
    else if "phase" in attributes then
      (if attributes["phase"].Str? then Ok(NodeAttributes(attributes["phase"].s)) else Err(FieldTypeMismatch({"phase"})))
    else Ok(DefaultAttributes())
  }

  /**
   * `NodeConfig.create_from_node_record`: name and protocol from the record, type and unit from
   * its config, attributes from its attributes dict, every other config key that names a
   * `NodeConfig` field forwarded, and the remaining fields at their defaults; errors in Python's
   * argument evaluation order.
   */
  function CreateFromNodeRecord(record: NodeRecord): (r: Result<NodeConfig, RecordError>)
    ensures "type" !in record.config ==> r == Err(MissingKey("type"))
    ensures "type" in record.config && "unit" !in record.config && r.Err? ==> r.error in {MissingKey("unit"), InvalidEnumValue("type")}
    ensures r.Ok? ==> r.value.name == record.name && r.value.protocol == record.protocol
  {
    var config := record.config;
    if "type" !in config then Err(MissingKey("type"))
    else if !config["type"].Str? || NodeTypeFromValue(config["type"].s).None? then Err(InvalidEnumValue("type"))
    else if "unit" !in config then Err(MissingKey("unit"))
    else if DecodeOptStr(config["unit"]).None? then Err(FieldTypeMismatch({"unit"}))
    else if ProtocolFromValue(record.protocol).None? then Err(InvalidEnumValue("protocol"))
    else if AttributesFromDict(record.attributes).Err? then Err(AttributesFromDict(record.attributes).error)
    else
      var f := Filtered(config);
      if BadKeys(f) != {} then Err(FieldTypeMismatch(BadKeys(f)))
      else
        Ok(PostInit(BuildConfig(record.name, NodeTypeFromValue(config["type"].s).value,
          DecodeOptStr(config["unit"]).value, record.protocol, f, AttributesFromDict(record.attributes).value)))
  }

  /**
   * A config key that is not a `NodeConfig` field (a protocol's register or node id, say)
   * never influences the result.
   */
  lemma CreateFromNodeRecordIgnoresForeignKey(record: NodeRecord, k: string, v: Value)
    requires k !in NodeConfigFields()
    ensures CreateFromNodeRecord(record.(config := record.config[k := v])) == CreateFromNodeRecord(record)
  {
    assert k != "type" && k != "unit" && !Forwarded(k);
    FilteredIgnores(record.config, k, v);
  }

  /** `BaseNodeRecordConfig(...).get_config()`: the sixteen stored configuration fields. */
  function BaseRecordConfig(c: NodeConfig): map<string, Value>
  {
    StoredForwarded(c)["type" := Str(NodeTypeValue(c.nodeType))]["unit" := OptStr(c.unit)]
  }

  /**
   * A configuration stored through `get_config()` is rebuilt exactly, except that the warning
   * thresholds, which are not stored, are derived afresh from the alarm thresholds.
   */
  lemma RecordRoundTrip(c: NodeConfig, deviceId: Option<int>)
    requires c.protocol in ValidProtocols()
    ensures CreateFromNodeRecord(NodeRecord(c.name, c.protocol, BaseRecordConfig(c),
        GetAttributes(c.attributes), deviceId))
      == Ok(PostInit(c.(alarms := c.alarms.(minWarningValue := None, maxWarningValue := None))))
  {
    var record := NodeRecord(c.name, c.protocol, BaseRecordConfig(c), GetAttributes(c.attributes), deviceId);
    StoredTypeAndUnit(c);
    assert ProtocolFromValue(c.protocol).Some?;
    AttributesRoundTrip(c.attributes);
    StoredFiltered(c);
    StoredConfigWellTyped(c);
    CreateFromWellFormedRecord(record, c.nodeType, c.unit, c.attributes);
    StoredBuild(c);
  }

  /** A record whose type, unit, protocol, attributes and forwarded keys all decode is built. */
  lemma CreateFromWellFormedRecord(record: NodeRecord, t: NodeType, unit: Option<string>, a: NodeAttributes)
    requires "type" in record.config && record.config["type"] == Str(NodeTypeValue(t))
    requires NodeTypeFromValue(NodeTypeValue(t)) == Some(t)
    requires "unit" in record.config && DecodeOptStr(record.config["unit"]) == Some(unit)
    requires ProtocolFromValue(record.protocol).Some?
    requires AttributesFromDict(record.attributes) == Ok(a)
    requires BadKeys(Filtered(record.config)) == {}
    ensures CreateFromNodeRecord(record)
      == Ok(PostInit(BuildConfig(record.name, t, unit, record.protocol, Filtered(record.config), a)))
  {
  }

  /** Attributes survive being turned into a dict and back. */
  lemma AttributesRoundTrip(a: NodeAttributes)
    ensures AttributesFromDict(GetAttributes(a)) == Ok(a)
  {
    assert GetAttributes(a).Keys - {"phase"} == {};
  }

  /** `type` and `unit` are stored so that they decode to the configuration's own. */
  lemma StoredTypeAndUnit(c: NodeConfig)
    ensures var config := BaseRecordConfig(c);
      && "type" in config && config["type"] == Str(NodeTypeValue(c.nodeType))
      && NodeTypeFromValue(NodeTypeValue(c.nodeType)) == Some(c.nodeType)
      && "unit" in config && DecodeOptStr(config["unit"]) == Some(c.unit)
  {
    match c.nodeType
    case INT =>
    case FLOAT =>
    case BOOL =>
    case STRING =>
  }

  /** The stored keys that are forwarded, and the values stored under them. */
  function StoredForwarded(c: NodeConfig): map<string, Value>
  {
    map[
      "enabled" := Bool(c.enabled),
      "publish" := Bool(c.publish),
      "calculated" := Bool(c.calculated),
      "custom" := Bool(c.custom),
      "decimal_places" := c.decimalPlaces,
      "logging" := Bool(c.logging),
      "logging_period" := c.loggingPeriod,
      "min_alarm" := Bool(c.alarms.minAlarm),
      "max_alarm" := Bool(c.alarms.maxAlarm),
      "min_alarm_value" := OptReal(c.alarms.minAlarmValue),
      "max_alarm_value" := OptReal(c.alarms.maxAlarmValue),
      "incremental_node" := OptBool(c.incremental.incrementalNode),
      "positive_incremental" := OptBool(c.incremental.positiveIncremental),
      "calculate_increment" := OptBool(c.incremental.calculateIncrement)]
  }

  /** Filtering a stored configuration drops exactly `type` and `unit`. */
  lemma StoredFiltered(c: NodeConfig)
    ensures Filtered(BaseRecordConfig(c)) == StoredForwarded(c)
  {
    var m := StoredForwarded(c);
    assert !Forwarded("type") && !Forwarded("unit");
    FilteredIgnores(m, "type", Str(NodeTypeValue(c.nodeType)));
    FilteredIgnores(m["type" := Str(NodeTypeValue(c.nodeType))], "unit", OptStr(c.unit));
    StoredKeysForwarded(c);
    FilteredIdentity(m);
  }

  lemma StoredKeysForwarded(c: NodeConfig)
    ensures forall k :: k in StoredForwarded(c) ==> Forwarded(k)
  {
  }

  lemma FilteredIdentity(m: map<string, Value>)
    requires forall k :: k in m ==> Forwarded(k)
    ensures Filtered(m) == m
  {
  }

  /** Adding a key that is not forwarded leaves the filtered config as it was. */
  lemma FilteredIgnores(m: map<string, Value>, k: string, v: Value)
    requires !Forwarded(k)
    ensures Filtered(m[k := v]) == Filtered(m)
  {
  }

  /** Rebuilding from the stored fields gives the configuration without its warnings. */
  lemma StoredBuild(c: NodeConfig)
    ensures BuildConfig(c.name, c.nodeType, c.unit, c.protocol, StoredForwarded(c), c.attributes)
      == c.(alarms := c.alarms.(minWarningValue := None, maxWarningValue := None))
  {
    StoredFlags(c);
    StoredRoles(c);
    StoredLogging(c);
    StoredIncremental(c);
    StoredAlarms(c);
  }

  lemma StoredFlags(c: NodeConfig)
    ensures var f := StoredForwarded(c);
      && PickBool(f, "enabled", true) == c.enabled
      && PickBool(f, "publish", true) == c.publish
  {
  }

  lemma StoredRoles(c: NodeConfig)
    ensures var f := StoredForwarded(c);
      && PickBool(f, "calculated", false) == c.calculated
      && PickBool(f, "custom", false) == c.custom
  {
  }

  lemma StoredLogging(c: NodeConfig)
    ensures var f := StoredForwarded(c);
      && PickBool(f, "logging", false) == c.logging
      && PickValue(f, "logging_period", Int(15)) == c.loggingPeriod
      && PickValue(f, "decimal_places", Int(3)) == c.decimalPlaces
  {
  }

  lemma StoredIncremental(c: NodeConfig)
    ensures DecodeIncremental(StoredForwarded(c)) == c.incremental
  {
    DecodeOptBoolInverse(c.incremental.incrementalNode);
    DecodeOptBoolInverse(c.incremental.positiveIncremental);
    DecodeOptBoolInverse(c.incremental.calculateIncrement);
  }

  /** The stored alarm options come back with the (unstored) warning thresholds unset. */
  lemma StoredAlarms(c: NodeConfig)
    ensures DecodeAlarms(StoredForwarded(c)) == c.alarms.(minWarningValue := None, maxWarningValue := None)
  {
    DecodeOptRealInverse(c.alarms.minAlarmValue);
    DecodeOptRealInverse(c.alarms.maxAlarmValue);
    StoredWithoutWarnings(c);
  }

  lemma StoredWithoutWarnings(c: NodeConfig)
    ensures "min_warning_value" !in StoredForwarded(c) && "max_warning_value" !in StoredForwarded(c)
  {
  }

  /** Every forwarded key of a stored configuration has its field's type. */
  lemma StoredConfigWellTyped(c: NodeConfig)
    ensures BadKeys(StoredForwarded(c)) == {}
  {
    StoredFlagsWellTyped(c);
    StoredOptionsWellTyped(c);
    var f := StoredForwarded(c);
    forall k | k in f
      ensures WellTyped(k, f[k])
    {
      if k in {"enabled", "publish", "calculated", "custom", "decimal_places", "logging", "logging_period"} {
      } else {
        assert k in {"min_alarm", "max_alarm", "min_alarm_value", "max_alarm_value", "incremental_node",
                     "positive_incremental", "calculate_increment"};
      }
    }
  }

  lemma StoredFlagsWellTyped(c: NodeConfig)
    ensures WellTyped("enabled", StoredForwarded(c)["enabled"])
    ensures WellTyped("publish", StoredForwarded(c)["publish"])
    ensures WellTyped("calculated", StoredForwarded(c)["calculated"])
    ensures WellTyped("custom", StoredForwarded(c)["custom"])
    ensures WellTyped("decimal_places", StoredForwarded(c)["decimal_places"])
    ensures WellTyped("logging", StoredForwarded(c)["logging"])
    ensures WellTyped("logging_period", StoredForwarded(c)["logging_period"])
  {
  }

  lemma StoredOptionsWellTyped(c: NodeConfig)
    ensures WellTyped("min_alarm", StoredForwarded(c)["min_alarm"])
    ensures WellTyped("max_alarm", StoredForwarded(c)["max_alarm"])
    ensures WellTyped("min_alarm_value", StoredForwarded(c)["min_alarm_value"])
    ensures WellTyped("max_alarm_value", StoredForwarded(c)["max_alarm_value"])
    ensures WellTyped("incremental_node", StoredForwarded(c)["incremental_node"])
    ensures WellTyped("positive_incremental", StoredForwarded(c)["positive_incremental"])
    ensures WellTyped("calculate_increment", StoredForwarded(c)["calculate_increment"])
  {
  }

  lemma DecodeOptBoolInverse(b: Option<bool>)
    ensures DecodeOptBool(OptBool(b)) == Some(b)
  {
  }

  lemma DecodeOptRealInverse(r: Option<real>)
    ensures DecodeOptReal(OptReal(r)) == Some(r)
  {
  }
}
