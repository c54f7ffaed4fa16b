/**
 * The legacy `Node` of `controller/node.py` and its `ModbusRTUNode` / `OPCUANode` subclasses:
 * a data point whose configuration is normalised and validated at construction, whose setters
 * validate before they assign, and whose `set_value` keeps a timestamp, direction flags,
 * running statistics, latched alarms and the incremental-counter modes.
 *
 * The pure functions below give the new configuration or state for each operation; the class
 * `Node` at the end holds the same fields and its methods are proved to change them exactly as
 * those functions say.
 */
module LegacyNode {
  import opened Wrappers
  import opened Values
  import opened Dates
  import opened General
  import opened NodeModel

  /** How a node is addressed: a plain node, a `ModbusRTUNode` register or an `OPCUANode` node id. */
  datatype Addressing = Plain | Register(register: int) | NodeId(nodeId: string)

  /**
   * The configuration fields. `hasCallback` says whether `on_value_change` is set; the callback
   * itself is foreign code and is counted, not run.
   */
  datatype LegacyConfig = LegacyConfig(
    name: string,
    nodeType: NodeType,
    unit: Option<string>,
    protocol: string,
    enabled: bool,
    publish: bool,
    calculated: bool,
    custom: bool,
    decimalPlaces: Option<int>,
    hasCallback: bool,
    logging: bool,
    loggingPeriod: Value,
    minAlarm: bool,
    maxAlarm: bool,
    minAlarmValue: Option<real>,
    maxAlarmValue: Option<real>,
    incrementalNode: Option<bool>,
    positiveIncremental: Option<bool>,
    calculateIncrement: Option<bool>)

  /**
   * The tracking fields. `value`, `initialValue`, `minValue` and `maxValue` hold Python values
   * (`None` is `Null`); `notifications` counts the calls of `on_value_change`.
   */
  datatype LegacyState = LegacyState(
    value: Value,
    timestamp: Option<real>,
    elapsedTime: Option<real>,
    initialValue: Value,
    positiveDirection: bool,
    negativeDirection: bool,
    minValue: Value,
    maxValue: Value,
    meanValue: Option<real>,
    meanSum: real,
    meanCount: int,
    minAlarmState: bool,
    maxAlarmState: bool,
    lastLogDatetime: Option<DateTime>,
    notifications: nat)

  /**
   * The errors the legacy node raises: a `ValueError` per distinct check, and the `TypeError`
   * of a numeric handler given a reading that is not a number (`ReadingNotNumeric`).
   */
  datatype LegacyError =
    | BadProtocol
    | IncrementalNotValid
    | AlarmsNotSupported
    | UnitNotAllowed
    | IncrementalAlarms
    | MinThresholdMissing
    | MaxThresholdMissing
    | BadLoggingPeriod
    | AlarmsNotApplicable
    | MeanNotRoundable
    | ReadingNotNumeric

  /** Python truthiness of an optional flag. */
  predicate Flag(o: Option<bool>)
  {
    o == Some(true)
  }

  /** Python truthiness of an optional unit. */
  predicate UnitSet(u: Option<string>)
  {
    u.Some? && u.value != ""
  }

  predicate IsNumber(v: Value)
  {
    NumberOf(v).Some?
  }

  /** The number a value stands for; 0 for a value that is not a number. */
  function Num(v: Value): real
  {
    if NumberOf(v).Some? then NumberOf(v).value else 0.0
  }

  /** `isinstance(p, int) and p > 0`. */
  predicate ValidPeriod(p: Value)
  {
    IsInt(p) && AsInt(p) > 0
  }

  /** Python `a + b` on numbers: `int` when both are `int`, else `float`. */
  function PyAdd(a: Value, b: Value): (r: Value)
    ensures IsNumber(r)
    ensures IsNumber(a) && IsNumber(b) ==> Num(r) == Num(a) + Num(b)
  {
    if IsInt(a) && IsInt(b) then Int(AsInt(a) + AsInt(b)) else Float(Num(a) + Num(b))
  }

  /** Python `a - b` on numbers. */
  function PySub(a: Value, b: Value): (r: Value)
    ensures IsNumber(r)
    ensures IsNumber(a) && IsNumber(b) ==> Num(r) == Num(a) - Num(b)
  {
    if IsInt(a) && IsInt(b) then Int(AsInt(a) - AsInt(b)) else Float(Num(a) - Num(b))
  }

  // ---------------------------------------------------------------- configuration

  /** The field normalisation of `__init__`, before `validate_node` runs. */
  function Normalise(a: LegacyConfig): LegacyConfig
  {
    var numeric := IsNumericType(a.nodeType);
    var inc := if numeric then a.incrementalNode else None;
    a.(unit := if numeric then a.unit else None,
       decimalPlaces := if a.nodeType == FLOAT then a.decimalPlaces else None,
       minAlarmValue := if numeric then a.minAlarmValue else None,
       maxAlarmValue := if numeric then a.maxAlarmValue else None,
       incrementalNode := inc,
       positiveIncremental := if inc.Some? then a.positiveIncremental else None,
       calculateIncrement := if inc.Some? then a.calculateIncrement else None)
  }

  /**
   * Normalisation drops the unit, the thresholds and the incremental options of BOOL and STRING
   * nodes, drops `decimal_places` unless FLOAT, keeps everything a numeric node was given, and
   * applying it twice changes nothing more.
   */
  lemma NormaliseDrops(a: LegacyConfig)
    ensures var c := Normalise(a);
      && (!IsNumericType(a.nodeType) ==> (c.unit.None? && c.minAlarmValue.None? && c.maxAlarmValue.None?))
      && (!IsNumericType(a.nodeType) ==> (c.incrementalNode.None? && c.positiveIncremental.None? && c.calculateIncrement.None?))
      && (a.nodeType != FLOAT ==> c.decimalPlaces.None?)
      && (a.nodeType == FLOAT ==> c.decimalPlaces == a.decimalPlaces)
      && (IsNumericType(a.nodeType) && a.incrementalNode.Some? ==> c == a.(decimalPlaces := c.decimalPlaces))
  {
  }

  /** Normalisation touches only the fields it may drop, and applying it twice changes nothing more. */
  lemma NormaliseIdempotent(a: LegacyConfig)
    ensures var c := Normalise(a);
      && c.(unit := a.unit, decimalPlaces := a.decimalPlaces, minAlarmValue := a.minAlarmValue,
            maxAlarmValue := a.maxAlarmValue, incrementalNode := a.incrementalNode,
            positiveIncremental := a.positiveIncremental, calculateIncrement := a.calculateIncrement) == a
      && Normalise(c) == c
  {
  }

  /** `validate_node`: the checks in source order; the first failing one decides the error. */
  function ValidateConfig(c: LegacyConfig): Outcome<LegacyError>
  {
    var nonNumeric := !IsNumericType(c.nodeType);
    if c.protocol !in ValidProtocols() then Fail(BadProtocol)
    else if nonNumeric && Flag(c.incrementalNode) then Fail(IncrementalNotValid)
    else if nonNumeric && (c.minAlarm || c.maxAlarm) then Fail(AlarmsNotSupported)
    else if nonNumeric && UnitSet(c.unit) then Fail(UnitNotAllowed)
    else if Flag(c.incrementalNode) && (c.minAlarm || c.maxAlarm) then Fail(IncrementalAlarms)
    else if c.minAlarm && c.minAlarmValue.None? then Fail(MinThresholdMissing)
    else if c.maxAlarm && c.maxAlarmValue.None? then Fail(MaxThresholdMissing)
    else if c.logging && !ValidPeriod(c.loggingPeriod) then Fail(BadLoggingPeriod)
    else Pass
  }

  /** The consistency the validation demands, stated as one condition per rule. */
  predicate Consistent(c: LegacyConfig)
  {
    && c.protocol in ValidProtocols()
    && (!IsNumericType(c.nodeType) ==> !Flag(c.incrementalNode) && !c.minAlarm && !c.maxAlarm && !UnitSet(c.unit))
    && (Flag(c.incrementalNode) ==> !c.minAlarm && !c.maxAlarm)
    && (c.minAlarm ==> c.minAlarmValue.Some?)
    && (c.maxAlarm ==> c.maxAlarmValue.Some?)
    && (c.logging ==> ValidPeriod(c.loggingPeriod))
  }

  /** Validation passes exactly on a consistent configuration, and a bad protocol is reported first. */
  lemma ValidateConfigExactly(c: LegacyConfig)
    ensures ValidateConfig(c).Pass? <==> Consistent(c)
    ensures c.protocol !in ValidProtocols() ==> ValidateConfig(c) == Fail(BadProtocol)
  {
  }

  /**
   * On a normalised configuration the incremental and unit checks for BOOL and STRING cannot
   * fail: such a node is rejected only for its protocol, an enabled alarm or its logging period.
   */
  lemma NormalisedNonNumericChecks(a: LegacyConfig)
    requires !IsNumericType(a.nodeType)
    ensures var c := Normalise(a);
      && (ValidateConfig(c).Pass? <==> a.protocol in ValidProtocols() && !a.minAlarm && !a.maxAlarm
                                       && (a.logging ==> ValidPeriod(a.loggingPeriod)))
      && ValidateConfig(c) != Fail(IncrementalNotValid)
      && ValidateConfig(c) != Fail(UnitNotAllowed)
  {
  }

  /** `Node(...)`: normalise, then raise the first validation error. */
  function Construct(a: LegacyConfig): (r: Result<LegacyConfig, LegacyError>)
  {
    var c := Normalise(a);
    match ValidateConfig(c)
    case Fail(e) => Err(e)
    case Pass => Ok(c)
  }

  /** A node is built exactly when its normalised configuration is consistent, and it is that one. */
  lemma ConstructValidates(a: LegacyConfig)
    ensures Construct(a).Ok? <==> Consistent(Normalise(a))
    ensures Construct(a).Ok? ==> Construct(a).value == Normalise(a) && Consistent(Construct(a).value)
  {
    ValidateConfigExactly(Normalise(a));
  }

  /** The arguments `ModbusRTUNode.__init__` and `OPCUANode.__init__` pass to `Node.__init__`. */
  function ProtocolNodeArgs(a: LegacyConfig, protocol: Protocol): LegacyConfig
  {
    a.(protocol := ProtocolValue(protocol), incrementalNode := Some(false), positiveIncremental := Some(false),
       calculateIncrement := Some(true), decimalPlaces := Some(3), hasCallback := false)
  }

  /** `set_unit`. */
  function SetUnitResult(c: LegacyConfig, unit: Option<string>): Result<LegacyConfig, LegacyError>
  {
    if !IsNumericType(c.nodeType) && UnitSet(unit) then Err(UnitNotAllowed) else Ok(c.(unit := unit))
  }

  /** `set_incremental_node`. */
  function SetIncrementalResult(c: LegacyConfig, incremental: bool): Result<LegacyConfig, LegacyError>
  {
    if incremental && !IsNumericType(c.nodeType) then Err(IncrementalNotValid)
    else if incremental && (c.minAlarm || c.maxAlarm) then Err(IncrementalAlarms)
    else Ok(c.(incrementalNode := Some(incremental)))
  }

  /** `set_logging`. */
  function SetLoggingResult(c: LegacyConfig, logging: bool, period: Value): Result<LegacyConfig, LegacyError>
  {
    if logging && !ValidPeriod(period) then Err(BadLoggingPeriod)
    else Ok(c.(logging := logging, loggingPeriod := period))
  }

  /** `set_alarms`. */
  function SetAlarmsResult(c: LegacyConfig, minAlarm: bool, maxAlarm: bool, minValue: Option<real>, maxValue: Option<real>)
    : Result<LegacyConfig, LegacyError>
  {
    if !IsNumericType(c.nodeType) && (minAlarm || maxAlarm) then Err(AlarmsNotSupported)
    else if Flag(c.incrementalNode) && (minAlarm || maxAlarm) then Err(IncrementalAlarms)
    else if minAlarm && minValue.None? then Err(MinThresholdMissing)
    else if maxAlarm && maxValue.None? then Err(MaxThresholdMissing)
    else Ok(c.(minAlarm := minAlarm, maxAlarm := maxAlarm, minAlarmValue := minValue, maxAlarmValue := maxValue))
  }

  /** `set_unit` refuses a unit on a non-numeric node and keeps a consistent configuration consistent. */
  lemma SetUnitKeepsConsistent(c: LegacyConfig, unit: Option<string>)
    requires Consistent(c)
    ensures SetUnitResult(c, unit).Ok? <==> (IsNumericType(c.nodeType) || !UnitSet(unit))
    ensures SetUnitResult(c, unit).Ok? ==> Consistent(SetUnitResult(c, unit).value)
  {
  }

  /** `set_incremental_node` refuses an incremental non-numeric or alarmed node; accepted, it keeps consistency. */
  lemma SetIncrementalKeepsConsistent(c: LegacyConfig, incremental: bool)
    requires Consistent(c)
    ensures SetIncrementalResult(c, incremental).Ok? <==> (incremental ==> IsNumericType(c.nodeType) && !c.minAlarm && !c.maxAlarm)
    ensures SetIncrementalResult(c, incremental).Ok? ==> Consistent(SetIncrementalResult(c, incremental).value)
  {
  }

  /** `set_logging` refuses logging without a valid period; accepted, it keeps consistency. */
  lemma SetLoggingKeepsConsistent(c: LegacyConfig, logging: bool, period: Value)
    requires Consistent(c)
    ensures SetLoggingResult(c, logging, period).Ok? <==> (logging ==> ValidPeriod(period))
    ensures SetLoggingResult(c, logging, period).Ok? ==> Consistent(SetLoggingResult(c, logging, period).value)
  {
  }

  /** `set_alarms` refuses alarms on non-numeric or incremental nodes and alarms without thresholds. */
  lemma SetAlarmsKeepsConsistent(c: LegacyConfig, minAlarm: bool, maxAlarm: bool, minValue: Option<real>, maxValue: Option<real>)
    requires Consistent(c)
    ensures SetAlarmsResult(c, minAlarm, maxAlarm, minValue, maxValue).Ok?
      <==> ((minAlarm || maxAlarm ==> IsNumericType(c.nodeType) && !Flag(c.incrementalNode))
            && (minAlarm ==> minValue.Some?) && (maxAlarm ==> maxValue.Some?))
    ensures SetAlarmsResult(c, minAlarm, maxAlarm, minValue, maxValue).Ok?
      ==> Consistent(SetAlarmsResult(c, minAlarm, maxAlarm, minValue, maxValue).value)
  {
  }

  // ---------------------------------------------------------------- readings

  /** The tracking fields `__init__` leaves. */
  function InitialState(): LegacyState
  {
    LegacyState(Null, None, None, Null, false, false, Null, Null, None, 0.0, 0, false, false, None, 0)
  }

  /** A reading the numeric paths can compare and add: `None` or a number on INT and FLOAT nodes. */
  predicate ReadingFits(c: LegacyConfig, v: Value)
  {
    IsNumericType(c.nodeType) ==> v.Null? || IsNumber(v)
  }

  /** `update_timestamp` with the clock reading `now`. */
  function AfterUpdateTimestamp(s: LegacyState, now: real): LegacyState
  {
    if s.timestamp.None? then s.(timestamp := Some(now), elapsedTime := Some(0.0))
    else s.(timestamp := Some(now), elapsedTime := Some(now - s.timestamp.value))
  }

  /** `update_direction(x)`, comparing against the current value. */
  function AfterUpdateDirection(s: LegacyState, x: real): LegacyState
  {
    if !IsNumber(s.value) then s
    else if x > Num(s.value) then s.(positiveDirection := true, negativeDirection := false)
    else if x < Num(s.value) then s.(positiveDirection := false, negativeDirection := true)
    else s
  }

  /** A greater value sets only the positive flag, a smaller only the negative one, an equal one neither. */
  lemma UpdateDirectionCases(s: LegacyState, x: real)
    requires IsNumber(s.value)
    ensures var r := AfterUpdateDirection(s, x);
      && (x > Num(s.value) ==> r.positiveDirection && !r.negativeDirection)
      && (x < Num(s.value) ==> !r.positiveDirection && r.negativeDirection)
      && (x == Num(s.value) ==> r == s)
      && r.(positiveDirection := s.positiveDirection, negativeDirection := s.negativeDirection) == s
  {
  }

  /** `update_stats(v)`. */
  function AfterUpdateStats(s: LegacyState, v: Value): LegacyState
    requires IsNumber(v)
  {
    var sum := s.meanSum + Num(v);
    var count := s.meanCount + 1;
    s.(meanSum := sum, meanCount := count,
       meanValue := if count != 0 then Some(sum / count as real) else s.meanValue,
       minValue := if s.minValue.Null? || Num(v) < Num(s.minValue) then v else s.minValue,
       maxValue := if s.maxValue.Null? || Num(v) > Num(s.maxValue) then v else s.maxValue)
  }

  /** The statistics are absent together or hold numbers. */
  predicate StatsWellFormed(s: LegacyState)
  {
    && (s.minValue.Null? || IsNumber(s.minValue))
    && (s.maxValue.Null? || IsNumber(s.maxValue))
    && s.meanCount >= 0
  }

  /**
   * One statistics update adds exactly 1 to the count and the value to the sum, sets the mean to
   * sum / count, and leaves min ≤ value ≤ max without raising the minimum or lowering the maximum.
   */
  lemma UpdateStatsStep(s: LegacyState, v: Value)
    requires IsNumber(v) && StatsWellFormed(s)
    ensures var r := AfterUpdateStats(s, v);
      && r.meanCount == s.meanCount + 1 && r.meanSum == s.meanSum + Num(v)
      && r.meanValue == Some(r.meanSum / r.meanCount as real)
      && IsNumber(r.minValue) && IsNumber(r.maxValue) && StatsWellFormed(r)
      && Num(r.minValue) <= Num(v) <= Num(r.maxValue)
      && (!s.minValue.Null? ==> Num(r.minValue) <= Num(s.minValue))
      && (!s.maxValue.Null? ==> Num(r.maxValue) >= Num(s.maxValue))
      && (r.minValue == v || r.minValue == s.minValue) && (r.maxValue == v || r.maxValue == s.maxValue)
  {
  }

  /** `update_stats` applied to a run of readings in order. */
  function StatsAfter(s: LegacyState, readings: seq<Value>): LegacyState
    requires forall i :: 0 <= i < |readings| ==> IsNumber(readings[i])
  {
    if readings == [] then s
    else AfterUpdateStats(StatsAfter(s, readings[..|readings| - 1]), readings[|readings| - 1])
  }

  function SumOf(readings: seq<Value>): real
  {
    if readings == [] then 0.0 else SumOf(readings[..|readings| - 1]) + Num(readings[|readings| - 1])
  }

  /**
   * From a reset, the statistics after a run of readings count and sum exactly those readings,
   * and the minimum and maximum are readings of the run that bound every one of them.
   */
  lemma {:induction false} StatsBoundEveryReading(s: LegacyState, readings: seq<Value>)
    requires forall i :: 0 <= i < |readings| ==> IsNumber(readings[i])
    requires s.minValue.Null? && s.maxValue.Null? && s.meanSum == 0.0 && s.meanCount == 0
    ensures var r := StatsAfter(s, readings);
      && r.meanCount == |readings| && r.meanSum == SumOf(readings) && StatsWellFormed(r)
      && (readings == [] ==> r.minValue.Null? && r.maxValue.Null?)
      && (readings != [] ==> r.minValue in readings && r.maxValue in readings)
      && forall i :: 0 <= i < |readings| ==> Num(r.minValue) <= Num(readings[i]) <= Num(r.maxValue)
  {
    if readings != [] {
      var init := readings[..|readings| - 1];
      StatsBoundEveryReading(s, init);
      var p := StatsAfter(s, init);
      var v := readings[|readings| - 1];
      UpdateStatsStep(p, v);
      forall i | 0 <= i < |readings|
        ensures Num(StatsAfter(s, readings).minValue) <= Num(readings[i]) <= Num(StatsAfter(s, readings).maxValue)
      {
        if i < |readings| - 1 {
          assert readings[i] == init[i];
        }
      }
      if init != [] {
        assert p.minValue in readings && p.maxValue in readings by {
          assert forall x :: x in init ==> x in readings;
        }
      }
    }
  }

  /** `check_alarms(x)` on a numeric node: each enabled alarm latches when its threshold is crossed. */
  function AfterCheckAlarms(c: LegacyConfig, s: LegacyState, x: real): LegacyState
  {
    s.(minAlarmState := s.minAlarmState || (c.minAlarm && c.minAlarmValue.Some? && x < c.minAlarmValue.value),
       maxAlarmState := s.maxAlarmState || (c.maxAlarm && c.maxAlarmValue.Some? && x > c.maxAlarmValue.value))
  }

  /** `check_alarms(x)`: BOOL and STRING nodes raise. */
  function CheckAlarmsResult(c: LegacyConfig, s: LegacyState, x: real): (r: Result<LegacyState, LegacyError>)
  {
    if !IsNumericType(c.nodeType) then Err(AlarmsNotApplicable) else Ok(AfterCheckAlarms(c, s, x))
  }

  /** Alarms latch: a set state stays set, and a state is newly set only by a strict crossing of an enabled alarm. */
  lemma CheckAlarmsLatches(c: LegacyConfig, s: LegacyState, x: real)
    requires Consistent(c)
    ensures CheckAlarmsResult(c, s, x).Err? <==> !IsNumericType(c.nodeType)
    ensures CheckAlarmsResult(c, s, x).Ok? ==> var r := CheckAlarmsResult(c, s, x).value;
      && (r.minAlarmState <==> s.minAlarmState || (c.minAlarm && x < c.minAlarmValue.value))
      && (r.maxAlarmState <==> s.maxAlarmState || (c.maxAlarm && x > c.maxAlarmValue.value))
      && r.(minAlarmState := s.minAlarmState, maxAlarmState := s.maxAlarmState) == s
  {
  }

  /** `reset_alarms`. */
  function AfterResetAlarms(s: LegacyState): LegacyState
  {
    s.(minAlarmState := false, maxAlarmState := false)
  }

  /** `set_value_str_bool`. */
  function AfterSetValueStrBool(s: LegacyState, v: Value): LegacyState
  {
    s.(value := v)
  }

  /** `set_value_standard(v)` on an INT or FLOAT node. */
  function AfterSetValueStandard(c: LegacyConfig, s: LegacyState, v: Value): LegacyState
    requires v.Null? || IsNumber(v)
  {
    if v.Null? then s.(value := Null)
    else
      var d := if !s.value.Null? then AfterUpdateDirection(s, Num(v)) else s;
      AfterCheckAlarms(c, AfterUpdateStats(d.(value := v), v), Num(v))
  }

  /** The zero value an incremental node starts from: `0.0` for FLOAT, `0` otherwise. */
  function IncrementalZero(t: NodeType): Value
  {
    if t == FLOAT then Float(0.0) else Int(0)
  }

  /** `set_value_incremental(v)`. */
  function AfterSetValueIncremental(c: LegacyConfig, s: LegacyState, v: Value): LegacyState
    requires v.Null? || IsNumber(v)
  {
    if v.Null? then s
    else if s.initialValue.Null? then s.(initialValue := v, value := IncrementalZero(c.nodeType))
    else if !Flag(c.calculateIncrement) then AfterUpdateDirection(s, Num(v)).(value := v)
    else if Flag(c.positiveIncremental) then
      var d := AfterUpdateDirection(s, Num(v));
      d.(value := PyAdd(d.value, v))
    else
      var delta := PySub(v, s.initialValue);
      AfterUpdateDirection(s, Num(delta)).(value := delta)
  }

  /** The handler `set_value` dispatches to, applied after the timestamp update. */
  function SetPath(c: LegacyConfig, t: LegacyState, v: Value): LegacyState
    requires ReadingFits(c, v)
  {
    if !IsNumericType(c.nodeType) then AfterSetValueStrBool(t, v)
    else if Flag(c.incrementalNode) then AfterSetValueIncremental(c, t, v)
    else AfterSetValueStandard(c, t, v)
  }

  /** `set_value(v)` with the clock reading `now`. */
  function AfterSetValue(c: LegacyConfig, s: LegacyState, v: Value, now: real): LegacyState
    requires ReadingFits(c, v)
  {
    if !c.enabled then s
    else
      var r := SetPath(c, AfterUpdateTimestamp(s, now), v);
      if c.hasCallback then r.(notifications := r.notifications + 1) else r
  }

  /**
   * `set_value(v)` with any reading: on an enabled INT or FLOAT node a reading that is neither
   * `None` nor a number makes the numeric handler raise `TypeError`, after the timestamp update.
   */
  function SetValueResult(c: LegacyConfig, s: LegacyState, v: Value, now: real): (r: Result<LegacyState, LegacyError>)
    ensures r.Err? <==> c.enabled && IsNumericType(c.nodeType) && !v.Null? && !IsNumber(v)
    ensures r.Err? ==> r.error == ReadingNotNumeric
    ensures r.Ok? ==> ReadingFits(c, v) || !c.enabled
  {
    if !c.enabled then Ok(s)
    else if !ReadingFits(c, v) then Err(ReadingNotNumeric)
    else Ok(AfterSetValue(c, s, v, now))
  }

  /**
   * The state a raised `TypeError` leaves: the timestamp update has happened, and the standard
   * path has already stored the reading when the node held no value (the error comes from
   * `update_stats`); otherwise the first comparison or subtraction raises before any write.
   */
  function AfterFailedReading(c: LegacyConfig, s: LegacyState, v: Value, now: real): LegacyState
  {
    var t := AfterUpdateTimestamp(s, now);
    if !Flag(c.incrementalNode) && t.value.Null? then t.(value := v) else t
  }

  /** The state after `set_value(v)`, whether it returned or raised. */
  function SetValueState(c: LegacyConfig, s: LegacyState, v: Value, now: real): LegacyState
  {
    match SetValueResult(c, s, v, now)
    case Ok(t) => t
    case Err(_) => AfterFailedReading(c, s, v, now)
  }

  /** A disabled node ignores every reading: nothing changes, and the callback is not called. */
  lemma SetValueDisabledNoop(c: LegacyConfig, s: LegacyState, v: Value, now: real)
    requires !c.enabled
    ensures SetValueResult(c, s, v, now) == Ok(s)
    ensures SetValueState(c, s, v, now) == s
  {
  }

  /** The fields no handler writes. */
  predicate SameClock(r: LegacyState, t: LegacyState)
  {
    && r.timestamp == t.timestamp && r.elapsedTime == t.elapsedTime
    && r.notifications == t.notifications && r.lastLogDatetime == t.lastLogDatetime
  }

  lemma StandardKeepsClock(c: LegacyConfig, t: LegacyState, v: Value)
    requires v.Null? || IsNumber(v)
    ensures SameClock(AfterSetValueStandard(c, t, v), t)
  {
    if !v.Null? {
      var d := if !t.value.Null? then AfterUpdateDirection(t, Num(v)) else t;
      assert SameClock(d, t);
      var u := AfterUpdateStats(d.(value := v), v);
      assert SameClock(u, t);
    }
  }

  /** Every handler leaves the clock fields, the log time and the callback count alone. */
  lemma SetPathKeepsClock(c: LegacyConfig, t: LegacyState, v: Value)
    requires ReadingFits(c, v)
    ensures SameClock(SetPath(c, t, v), t)
  {
    if IsNumericType(c.nodeType) && !Flag(c.incrementalNode) {
      StandardKeepsClock(c, t, v);
    } else if IsNumericType(c.nodeType) {
      SetValueIncrementalLeavesStats(c, t, v);
    }
  }

  /**
   * On an enabled node every reading stores `now` as the timestamp and sets the elapsed time to
   * 0 the first time and to the gap since the previous reading after that, even when the handler
   * then raises; the callback is called exactly once when one is set and the handler returned.
   */
  lemma SetValueTimestampAndCallback(c: LegacyConfig, s: LegacyState, v: Value, now: real)
    requires c.enabled
    ensures var r := SetValueState(c, s, v, now);
      && r.timestamp == Some(now)
      && r.elapsedTime == (if s.timestamp.None? then Some(0.0) else Some(now - s.timestamp.value))
      && r.notifications == s.notifications + (if c.hasCallback && SetValueResult(c, s, v, now).Ok? then 1 else 0)
      && r.lastLogDatetime == s.lastLogDatetime
  {
    if ReadingFits(c, v) {
      SetPathKeepsClock(c, AfterUpdateTimestamp(s, now), v);
    }
  }

  /** BOOL and STRING nodes store the reading as it is and touch no statistics, flags or alarms. */
  lemma SetValueStrBoolStores(c: LegacyConfig, s: LegacyState, v: Value, now: real)
    requires c.enabled && !IsNumericType(c.nodeType)
    ensures var r := AfterSetValue(c, s, v, now);
      && r.value == v
      && r.(value := s.value, timestamp := s.timestamp, elapsedTime := s.elapsedTime, notifications := s.notifications) == s
  {
  }

  /**
   * On a plain numeric node, a `None` reading sets the value to `None` and leaves statistics,
   * flags and alarms untouched; a number becomes the value and is counted into the statistics.
   */
  lemma SetValueStandardCases(c: LegacyConfig, s: LegacyState, v: Value)
    requires IsNumericType(c.nodeType) && (v.Null? || IsNumber(v)) && StatsWellFormed(s)
    ensures v.Null? ==> AfterSetValueStandard(c, s, v) == s.(value := Null)
    ensures IsNumber(v) ==> var r := AfterSetValueStandard(c, s, v);
      && r.value == v && r.meanCount == s.meanCount + 1 && r.meanSum == s.meanSum + Num(v)
      && Num(r.minValue) <= Num(v) <= Num(r.maxValue)
      && r.initialValue == s.initialValue && r.timestamp == s.timestamp
  {
    if IsNumber(v) {
      var d := if !s.value.Null? then AfterUpdateDirection(s, Num(v)) else s;
      UpdateStatsStep(d.(value := v), v);
    }
  }

  /**
   * The incremental path: `None` is ignored; the first reading is captured as the initial value
   * and the value starts at zero (0.0 for FLOAT); after that the value is the raw reading when
   * `calculate_increment` is off, grows by the reading when `positive_incremental` is on, and is
   * the reading minus the initial value otherwise. Statistics and alarms are never touched.
   */
  lemma SetValueIncrementalModes(c: LegacyConfig, s: LegacyState, v: Value)
    requires v.Null? || IsNumber(v)
    ensures v.Null? ==> AfterSetValueIncremental(c, s, v) == s
    ensures IsNumber(v) && s.initialValue.Null?
      ==> AfterSetValueIncremental(c, s, v) == s.(initialValue := v, value := IncrementalZero(c.nodeType))
    ensures IsNumber(v) && !s.initialValue.Null? && !Flag(c.calculateIncrement)
      ==> AfterSetValueIncremental(c, s, v).value == v
    ensures IsNumber(v) && !s.initialValue.Null? && Flag(c.calculateIncrement) && Flag(c.positiveIncremental) && IsNumber(s.value)
      ==> Num(AfterSetValueIncremental(c, s, v).value) == Num(s.value) + Num(v)
    ensures IsNumber(v) && IsNumber(s.initialValue) && Flag(c.calculateIncrement) && !Flag(c.positiveIncremental)
      ==> Num(AfterSetValueIncremental(c, s, v).value) == Num(v) - Num(s.initialValue)
  {
  }

  /** The incremental path writes only the value, the initial value and the direction flags. */
  lemma SetValueIncrementalLeavesStats(c: LegacyConfig, s: LegacyState, v: Value)
    requires v.Null? || IsNumber(v)
    ensures var r := AfterSetValueIncremental(c, s, v);
      r.(value := s.value, initialValue := s.initialValue, positiveDirection := s.positiveDirection,
         negativeDirection := s.negativeDirection) == s
  {
    if !v.Null? && !s.initialValue.Null? && IsNumber(s.value) {
      var x := if !Flag(c.calculateIncrement) || Flag(c.positiveIncremental) then Num(v) else Num(PySub(v, s.initialValue));
      UpdateDirectionCases(s, x);
    }
  }

  /**
   * Example of the delta path, where the direction compares the new delta with the current
   * value: a first reading of 100 and then 150 and 140 give the values 0, 50 and 40, moving up
   * and then down.
   */
  lemma IncrementalDeltaTrace(c: LegacyConfig, now: real)
    requires c.enabled && c.nodeType == INT && Flag(c.incrementalNode) && Flag(c.calculateIncrement)
    requires !Flag(c.positiveIncremental)
    ensures var s1 := AfterSetValue(c, InitialState(), Int(100), now);
      var s2 := AfterSetValue(c, s1, Int(150), now);
      var s3 := AfterSetValue(c, s2, Int(140), now);
      && s1.value == Int(0) && s2.value == Int(50) && s3.value == Int(40)
      && s2.positiveDirection && !s2.negativeDirection
      && !s3.positiveDirection && s3.negativeDirection
  {
  }

  /** A direction update leaves the two flags exclusive. */
  lemma UpdateDirectionExclusive(s: LegacyState, x: real)
    requires !(s.positiveDirection && s.negativeDirection)
    ensures var r := AfterUpdateDirection(s, x); !(r.positiveDirection && r.negativeDirection)
  {
  }

  /** The two direction flags are never both set by a reading. */
  lemma SetValueKeepsDirectionExclusive(c: LegacyConfig, s: LegacyState, v: Value, now: real)
    requires !(s.positiveDirection && s.negativeDirection)
    ensures var r := SetValueState(c, s, v, now); !(r.positiveDirection && r.negativeDirection)
  {
    var t := AfterUpdateTimestamp(s, now);
    if c.enabled && ReadingFits(c, v) && IsNumericType(c.nodeType) && !v.Null? {
      if Flag(c.incrementalNode) {
        if !t.initialValue.Null? {
          UpdateDirectionExclusive(t, Num(v));
          UpdateDirectionExclusive(t, Num(PySub(v, t.initialValue)));
        }
      } else {
        UpdateDirectionExclusive(t, Num(v));
      }
    }
  }

  /** `reset_value` with the clock reading `now`. */
  function AfterResetValue(s: LegacyState, now: real): LegacyState
  {
    s.(initialValue := Null, value := Null, minValue := Null, maxValue := Null, meanValue := None,
       meanSum := 0.0, meanCount := 0, timestamp := Some(now), elapsedTime := None,
       positiveDirection := false, negativeDirection := false)
  }

  /** `reset_direction`. */
  function AfterResetDirection(s: LegacyState): LegacyState
  {
    s.(positiveDirection := false, negativeDirection := false)
  }

  /**
   * After a reset the statistics start again (a later run of readings is summarised on its own),
   * the next incremental reading is captured as a new initial value, and alarms, log time and
   * callback count are kept.
   */
  lemma ResetValueRestarts(c: LegacyConfig, s: LegacyState, v: Value, now: real)
    requires IsNumber(v)
    ensures var r := AfterResetValue(s, now);
      && r.minValue.Null? && r.maxValue.Null? && r.meanValue.None? && r.meanCount == 0 && r.meanSum == 0.0
      && !r.positiveDirection && !r.negativeDirection && r.value.Null? && r.elapsedTime.None?
      && r.minAlarmState == s.minAlarmState && r.maxAlarmState == s.maxAlarmState
      && r.lastLogDatetime == s.lastLogDatetime && r.notifications == s.notifications
      && AfterSetValueIncremental(c, r, v).initialValue == v
      && AfterResetValue(r, now) == r
  {
  }

  // ---------------------------------------------------------------- output

  /**
   * `get_publish_format`. `round` is Python's built-in; `decimal_places` may be `None`, in which
   * case Python's `round` returns an `int`.
   */
  function PublishFormat(c: LegacyConfig, s: LegacyState, round: (Value, Option<int>) -> Value): map<string, Value>
  {
    var plain := IsNumericType(c.nodeType) && !Flag(c.incrementalNode);
    var out := map["value" := if c.nodeType == FLOAT && !Flag(c.incrementalNode) && !s.value.Null?
                               then round(s.value, c.decimalPlaces) else s.value,
                   "type" := Str(NodeTypeValue(c.nodeType)),
                   "unit" := OptStr(c.unit)];
    var withMin := if plain && c.minAlarm then out["min_alarm_state" := Bool(s.minAlarmState)] else out;
    if plain && c.maxAlarm then withMin["max_alarm_state" := Bool(s.maxAlarmState)] else withMin
  }

  /**
   * The publish format always holds value, type and unit, and an alarm state exactly when the
   * node is a non-incremental number with that alarm enabled; only a non-incremental FLOAT
   * value is rounded.
   */
  lemma PublishFormatContents(c: LegacyConfig, s: LegacyState, round: (Value, Option<int>) -> Value)
    ensures var out := PublishFormat(c, s, round);
      var plain := IsNumericType(c.nodeType) && !Flag(c.incrementalNode);
      && out.Keys == {"value", "type", "unit"} + (if plain && c.minAlarm then {"min_alarm_state"} else {})
                                                + (if plain && c.maxAlarm then {"max_alarm_state"} else {})
      && out["type"] == Str(NodeTypeValue(c.nodeType)) && out["unit"] == OptStr(c.unit)
      && (c.nodeType != FLOAT || Flag(c.incrementalNode) || s.value.Null? ==> out["value"] == s.value)
      && (plain && c.minAlarm ==> out["min_alarm_state"] == Bool(s.minAlarmState))
      && (plain && c.maxAlarm ==> out["max_alarm_state"] == Bool(s.maxAlarmState))
  {
  }

  /** The four fields every log entry starts with. */
  function LogHeader(c: LegacyConfig, s: LegacyState, dateTime: DateTime): map<string, Value>
  {
    map["name" := Str(c.name), "unit" := OptStr(c.unit), "start_time" := OptDate(s.lastLogDatetime),
        "end_time" := Date(dateTime)]
  }

  /** The optional statistic as logged: rounded on FLOAT nodes when present. */
  function LoggedStat(c: LegacyConfig, x: Value, round: (Value, Option<int>) -> Value): Value
  {
    if c.nodeType == FLOAT && !x.Null? then round(x, c.decimalPlaces) else x
  }

  /**
   * `submit_log(date_time)` as written: `round(self.mean_value, ...)` is applied even when no
   * reading arrived since the last reset, and `round(None)` raises `TypeError`.
   */
  function SubmitLogAsWritten(c: LegacyConfig, s: LegacyState, dateTime: DateTime, now: real,
                              round: (Value, Option<int>) -> Value): Result<(map<string, Value>, LegacyState), LegacyError>
  {
    var header := LogHeader(c, s, dateTime);
    var next := AfterResetValue(s, now).(lastLogDatetime := Some(dateTime));
    if IsNumericType(c.nodeType) && !Flag(c.incrementalNode) then
      if s.meanValue.None? then Err(MeanNotRoundable)
      else Ok((header["mean_value" := round(Float(s.meanValue.value), c.decimalPlaces)]
                     ["min_value" := LoggedStat(c, s.minValue, round)]
                     ["max_value" := LoggedStat(c, s.maxValue, round)], next))
    else Ok((header["value" := s.value], next))
  }

  /**
   * The failure: a FLOAT node that has not been read since it was built cannot be logged, although
   * the next two lines guard `min_value` and `max_value` against `None`.
   */
  lemma SubmitLogAsWrittenFailsWithoutReadings(name: string, dateTime: DateTime, now: real,
                                               round: (Value, Option<int>) -> Value)
    ensures var c := Normalise(LegacyConfig(name, FLOAT, Some("V"), "NONE", true, true, false, false, Some(3), false,
                                            true, Int(15), false, false, Some(0.0), Some(0.0), Some(false), Some(false), Some(true)));
      && Construct(c) == Ok(c)
      && SubmitLogAsWritten(c, InitialState(), dateTime, now, round) == Err(MeanNotRoundable)
  {
  }

  /** `submit_log(date_time)` with the mean guarded like the minimum and maximum. */
  function SubmitLogResult(c: LegacyConfig, s: LegacyState, dateTime: DateTime, now: real,
                     round: (Value, Option<int>) -> Value): (map<string, Value>, LegacyState)
  {
    var header := LogHeader(c, s, dateTime);
    var next := AfterResetValue(s, now).(lastLogDatetime := Some(dateTime));
    if IsNumericType(c.nodeType) && !Flag(c.incrementalNode) then
      (header["mean_value" := if s.meanValue.Some? then round(Float(s.meanValue.value), c.decimalPlaces) else Null]
             ["min_value" := LoggedStat(c, s.minValue, round)]
             ["max_value" := LoggedStat(c, s.maxValue, round)], next)
    else (header["value" := s.value], next)
  }

  /**
   * A log entry covers the time from the previous log to `date_time`, holds the statistics of a
   * non-incremental number and the value of any other node, agrees with the written code whenever
   * that one succeeds, and leaves the node reset with `date_time` as its last log time.
   */
  lemma SubmitLogEntry(c: LegacyConfig, s: LegacyState, dateTime: DateTime, now: real,
                       round: (Value, Option<int>) -> Value)
    ensures var (out, next) := SubmitLogResult(c, s, dateTime, now, round);
      var plain := IsNumericType(c.nodeType) && !Flag(c.incrementalNode);
      && out.Keys == {"name", "unit", "start_time", "end_time"}
                     + (if plain then {"mean_value", "min_value", "max_value"} else {"value"})
      && out["start_time"] == OptDate(s.lastLogDatetime) && out["end_time"] == Date(dateTime)
      && (!plain ==> out["value"] == s.value)
      && next == AfterResetValue(s, now).(lastLogDatetime := Some(dateTime))
      && (SubmitLogAsWritten(c, s, dateTime, now, round).Ok? ==> SubmitLogAsWritten(c, s, dateTime, now, round).value == (out, next))
      && (SubmitLogAsWritten(c, s, dateTime, now, round).Err? <==> plain && s.meanValue.None?)
  {
  }

  /** The record `get_node_record` returns; `device_id` is assigned later. */
  datatype LegacyRecord = LegacyRecord(deviceId: Option<int>, name: string, protocol: string, config: map<string, Value>)

  /** The sixteen configuration keys every record holds. */
  function RecordBaseKeys(): set<string>
  {
    {"enabled", "type", "unit", "publish", "calculated", "custom", "decimal_places", "logging", "logging_period",
     "min_alarm", "max_alarm", "min_alarm_value", "max_alarm_value", "incremental_node", "positive_incremental",
     "calculate_increment"}
  }

  /** The sixteen keys every record holds, with their values. */
  function BaseRecord(c: LegacyConfig): (m: map<string, Value>)
    ensures m.Keys <= RecordBaseKeys()
    ensures "logging_period" in m && "type" in m
    ensures m["logging_period"] == c.loggingPeriod && m["type"] == Str(NodeTypeValue(c.nodeType))
  {
    map["enabled" := Bool(c.enabled), "type" := Str(NodeTypeValue(c.nodeType)), "unit" := OptStr(c.unit),
        "publish" := Bool(c.publish), "calculated" := Bool(c.calculated), "custom" := Bool(c.custom),
        "decimal_places" := if c.decimalPlaces.Some? then Int(c.decimalPlaces.value) else Null,
        "logging" := Bool(c.logging), "logging_period" := c.loggingPeriod,
        "min_alarm" := Bool(c.minAlarm), "max_alarm" := Bool(c.maxAlarm),
        "min_alarm_value" := OptReal(c.minAlarmValue), "max_alarm_value" := OptReal(c.maxAlarmValue),
        "incremental_node" := OptBool(c.incrementalNode),
        "positive_incremental" := OptBool(c.positiveIncremental),
        "calculate_increment" := OptBool(c.calculateIncrement)]
  }

  /** Every base key is present. */
  lemma BaseRecordHasBaseKeys(c: LegacyConfig)
    ensures RecordBaseKeys() <= BaseRecord(c).Keys
  {
    var m := BaseRecord(c);
    assert "enabled" in m;
    assert "type" in m;
    assert "unit" in m;
    assert "publish" in m;
    assert "calculated" in m;
    assert "custom" in m;
    assert "decimal_places" in m;
    assert "logging" in m;
    assert "logging_period" in m;
    assert "min_alarm" in m;
    assert "max_alarm" in m;
    assert "min_alarm_value" in m;
    assert "max_alarm_value" in m;
    assert "incremental_node" in m;
    assert "positive_incremental" in m;
    assert "calculate_increment" in m;
  }

  /** `get_node_record`. */
  function NodeRecordOf(c: LegacyConfig, addressing: Addressing): LegacyRecord
  {
    LegacyRecord(None, c.name, c.protocol, Addressed(BaseRecord(c), c.protocol, addressing))
  }

  /** The record config with the address a protocol subclass adds to it. */
  function Addressed(base: map<string, Value>, protocol: string, addressing: Addressing): map<string, Value>
  {
    if addressing.Register? && protocol == "MODBUS_RTU" then base["register" := Int(addressing.register)]
    else if addressing.NodeId? && protocol == "OPC_UA" then base["node_id" := Str(addressing.nodeId)]
    else base
  }

  /**
   * The record carries the name and protocol, no device id, the sixteen base keys, and in addition
   * "register" exactly for a Modbus RTU node and "node_id" exactly for an OPC UA node.
   */
  lemma NodeRecordKeys(c: LegacyConfig, addressing: Addressing)
    ensures var r := NodeRecordOf(c, addressing);
      && r.deviceId.None? && r.name == c.name && r.protocol == c.protocol
      && RecordBaseKeys() <= r.config.Keys
      && ("register" in r.config <==> addressing.Register? && c.protocol == "MODBUS_RTU")
      && ("node_id" in r.config <==> addressing.NodeId? && c.protocol == "OPC_UA")
      && r.config.Keys <= RecordBaseKeys() + {"register", "node_id"}
      && (addressing.Register? && c.protocol == "MODBUS_RTU" ==> r.config["register"] == Int(addressing.register))
      && (addressing.NodeId? && c.protocol == "OPC_UA" ==> r.config["node_id"] == Str(addressing.nodeId))
      && r.config["logging_period"] == c.loggingPeriod && r.config["type"] == Str(NodeTypeValue(c.nodeType))
  {
    BaseRecordHasBaseKeys(c);
    AddressKeysNotBaseKeys();
    AddressedKeys(BaseRecord(c), RecordBaseKeys(), c.protocol, addressing);
  }

  /** Neither address key is one of the base keys. */
  lemma AddressKeysNotBaseKeys()
    ensures "register" !in RecordBaseKeys() && "node_id" !in RecordBaseKeys()
  {
    var k := RecordBaseKeys();
    assert forall x :: x in k ==> |x| != 8 || x[0] != 'r';
    assert forall x :: x in k ==> |x| != 7 || x[0] != 'n';
  }

  /** Addressing adds at most the one key its protocol names to a base that has neither. */
  lemma AddressedKeys(base: map<string, Value>, keys: set<string>, protocol: string, addressing: Addressing)
    requires base.Keys == keys && "register" !in keys && "node_id" !in keys
    ensures var m := Addressed(base, protocol, addressing);
      && keys <= m.Keys && m.Keys <= keys + {"register", "node_id"}
      && (forall k :: k in keys ==> m[k] == base[k])
      && ("register" in m <==> addressing.Register? && protocol == "MODBUS_RTU")
      && ("node_id" in m <==> addressing.NodeId? && protocol == "OPC_UA")
      && (addressing.Register? && protocol == "MODBUS_RTU" ==> m["register"] == Int(addressing.register))
      && (addressing.NodeId? && protocol == "OPC_UA" ==> m["node_id"] == Str(addressing.nodeId))
  {
    assert "register" != "node_id";
  }

  /** A `ModbusRTUNode` or `OPCUANode` records its register or node id. */
  lemma ProtocolNodeRecordsAddress(a: LegacyConfig, register: int, nodeId: string)
    ensures "register" in NodeRecordOf(ProtocolNodeArgs(a, MODBUS_RTU), Register(register)).config
    ensures "node_id" in NodeRecordOf(ProtocolNodeArgs(a, OPC_UA), NodeId(nodeId)).config
    ensures "register" !in NodeRecordOf(a.(protocol := "MODBUS_RTU"), Plain).config
  {
  }

  // ---------------------------------------------------------------- the class

  /**
   * A legacy node. The configuration attributes live in one record field, which the setters
   * replace; `connected` belongs to the Modbus RTU and OPC UA subclasses.
   */
  class Node {
    const addressing: Addressing
    var config: LegacyConfig

    var value: Value
    var timestamp: Option<real>
    var elapsedTime: Option<real>
    var initialValue: Value
    var positiveDirection: bool
    var negativeDirection: bool
    var minValue: Value
    var maxValue: Value
    var meanValue: Option<real>
    var meanSum: real
    var meanCount: int
    var minAlarmState: bool
    var maxAlarmState: bool
    var lastLogDatetime: Option<DateTime>
    var notifications: nat
    var connected: bool

    /** The tracking fields as a value. */
    function State(): LegacyState
      reads this
    {
      LegacyState(value, timestamp, elapsedTime, initialValue, positiveDirection, negativeDirection, minValue,
                  maxValue, meanValue, meanSum, meanCount, minAlarmState, maxAlarmState, lastLogDatetime, notifications)
    }

    /** `__init__` once `validate_node` has passed; the subclasses start disconnected. */
    constructor (args: LegacyConfig, addressing: Addressing)
      requires ValidateConfig(Normalise(args)).Pass?
      ensures config == Normalise(args) && State() == InitialState()
      ensures this.addressing == addressing && !connected
    {
      this.addressing := addressing;
      config := Normalise(args);
      value, timestamp, elapsedTime, initialValue := Null, None, None, Null;
      positiveDirection, negativeDirection := false, false;
      minValue, maxValue, meanValue, meanSum, meanCount := Null, Null, None, 0.0, 0;
      minAlarmState, maxAlarmState, lastLogDatetime, notifications := false, false, None, 0;
      connected := false;
    }

    /** `Node(...)`, `ModbusRTUNode(...)` or `OPCUANode(...)`: the `ValueError` of `validate_node` becomes `Err`. */
    static method Create(args: LegacyConfig, addressing: Addressing) returns (r: Result<Node, LegacyError>)
      ensures ValidateConfig(Normalise(args)).Fail? <==> r.Err?
      ensures r.Err? ==> r == Err(ValidateConfig(Normalise(args)).error)
      ensures r.Ok? ==> fresh(r.value) && r.value.config == Normalise(args) && r.value.State() == InitialState()
      ensures r.Ok? ==> r.value.addressing == addressing && !r.value.connected
    {
      var check := ValidateConfig(Normalise(args));
      if check.Fail? {
        return Err(check.error);
      }
      var node := new Node(args, addressing);
      return Ok(node);
    }

    /** `set_unit`. */
    method SetUnit(u: Option<string>) returns (r: Outcome<LegacyError>)
      modifies this
      ensures match SetUnitResult(old(config), u)
        case Ok(c) => r.Pass? && config == c
        case Err(e) => r == Fail(e) && config == old(config)
      ensures State() == old(State()) && connected == old(connected)
    {
      if !IsNumericType(config.nodeType) && UnitSet(u) {
        return Fail(UnitNotAllowed);
      }
      config := config.(unit := u);
      return Pass;
    }

    /** `set_incremental_node`. */
    method SetIncrementalNode(incremental: bool) returns (r: Outcome<LegacyError>)
      modifies this
      ensures match SetIncrementalResult(old(config), incremental)
        case Ok(c) => r.Pass? && config == c
        case Err(e) => r == Fail(e) && config == old(config)
      ensures State() == old(State()) && connected == old(connected)
    {
      if incremental {
        if !IsNumericType(config.nodeType) {
          return Fail(IncrementalNotValid);
        }
        if config.minAlarm || config.maxAlarm {
          return Fail(IncrementalAlarms);
        }
      }
      config := config.(incrementalNode := Some(incremental));
      return Pass;
    }

    /** `set_logging`. */
    method SetLogging(enable: bool, period: Value) returns (r: Outcome<LegacyError>)
      modifies this
      ensures match SetLoggingResult(old(config), enable, period)
        case Ok(c) => r.Pass? && config == c
        case Err(e) => r == Fail(e) && config == old(config)
      ensures State() == old(State()) && connected == old(connected)
    {
      if enable && !ValidPeriod(period) {
        return Fail(BadLoggingPeriod);
      }
      config := config.(logging := enable, loggingPeriod := period);
      return Pass;
    }

    /** `set_alarms`. */
    method SetAlarms(minA: bool, maxA: bool, minV: Option<real>, maxV: Option<real>) returns (r: Outcome<LegacyError>)
      modifies this
      ensures match SetAlarmsResult(old(config), minA, maxA, minV, maxV)
        case Ok(c) => r.Pass? && config == c
        case Err(e) => r == Fail(e) && config == old(config)
      ensures State() == old(State()) && connected == old(connected)
    {
      if !IsNumericType(config.nodeType) && (minA || maxA) {
        return Fail(AlarmsNotSupported);
      }
      if Flag(config.incrementalNode) && (minA || maxA) {
        return Fail(IncrementalAlarms);
      }
      if minA && minV.None? {
        return Fail(MinThresholdMissing);
      }
      if maxA && maxV.None? {
        return Fail(MaxThresholdMissing);
      }
      config := config.(minAlarm := minA, maxAlarm := maxA, minAlarmValue := minV, maxAlarmValue := maxV);
      return Pass;
    }

    /** `check_alarms`. */
    method CheckAlarms(x: real) returns (r: Outcome<LegacyError>)
      modifies this
      ensures match CheckAlarmsResult(config, old(State()), x)
        case Ok(s) => r.Pass? && State() == s
        case Err(e) => r == Fail(e) && State() == old(State())
      ensures config == old(config) && connected == old(connected)
    {
      if !IsNumericType(config.nodeType) {
        return Fail(AlarmsNotApplicable);
      }
      if config.minAlarm && config.minAlarmValue.Some? && x < config.minAlarmValue.value {
        minAlarmState := true;
      }
      if config.maxAlarm && config.maxAlarmValue.Some? && x > config.maxAlarmValue.value {
        maxAlarmState := true;
      }
      return Pass;
    }

    /** `reset_alarms`. */
    method ResetAlarms()
      modifies this
      ensures State() == AfterResetAlarms(old(State()))
      ensures config == old(config) && connected == old(connected)
    {
      minAlarmState, maxAlarmState := false, false;
    }

    /** `update_timestamp`, reading the clock as `now`. */
    method UpdateTimestamp(now: real)
      modifies this
      ensures State() == AfterUpdateTimestamp(old(State()), now)
      ensures config == old(config) && connected == old(connected)
    {
      if timestamp.None? {
        timestamp := Some(now);
        elapsedTime := Some(0.0);
      } else {
        elapsedTime := Some(now - timestamp.value);
        timestamp := Some(now);
      }
    }

    /** `update_direction`. */
    method UpdateDirection(x: real)
      modifies this
      ensures State() == AfterUpdateDirection(old(State()), x)
      ensures config == old(config) && connected == old(connected)
    {
      if IsNumber(value) {
        if x > Num(value) {
          positiveDirection, negativeDirection := true, false;
        } else if x < Num(value) {
          positiveDirection, negativeDirection := false, true;
        }
      }
    }

    /** `update_stats`. */
    method UpdateStats(v: Value)
      requires IsNumber(v)
      modifies this
      ensures State() == AfterUpdateStats(old(State()), v)
      ensures config == old(config) && connected == old(connected)
    {
      UpdateMean(v);
      UpdateExtremes(v);
    }

    /** The running sum, count and mean of `update_stats`. */
    method UpdateMean(v: Value)
      requires IsNumber(v)
      modifies this
      ensures State() == old(State()).(meanSum := old(meanSum) + Num(v), meanCount := old(meanCount) + 1,
                                       meanValue := if old(meanCount) + 1 != 0 then Some((old(meanSum) + Num(v)) / (old(meanCount) + 1) as real)
                                                    else old(meanValue))
      ensures config == old(config) && connected == old(connected)
    {
      meanSum := meanSum + Num(v);
      meanCount := meanCount + 1;
      if meanCount != 0 {
        meanValue := Some(meanSum / meanCount as real);
      }
    }

    /** The minimum and maximum of `update_stats`. */
    method UpdateExtremes(v: Value)
      requires IsNumber(v)
      modifies this
      ensures State() == old(State()).(minValue := if old(minValue).Null? || Num(v) < Num(old(minValue)) then v else old(minValue),
                                       maxValue := if old(maxValue).Null? || Num(v) > Num(old(maxValue)) then v else old(maxValue))
      ensures config == old(config) && connected == old(connected)
    {
      if minValue.Null? || Num(v) < Num(minValue) {
        minValue := v;
      }
      if maxValue.Null? || Num(v) > Num(maxValue) {
        maxValue := v;
      }
    }

    /** `set_value_standard`. */
    method SetValueStandard(v: Value)
      requires IsNumericType(config.nodeType) && (v.Null? || IsNumber(v))
      modifies this
      ensures config == old(config) && connected == old(connected)
      ensures State() == AfterSetValueStandard(config, old(State()), v)
    {
      if v.Null? {
        value := Null;
        return;
      }
      if !value.Null? {
        UpdateDirection(Num(v));
      }
      value := v;
      UpdateStats(v);
      var checked := CheckAlarms(Num(v));
    }

    /** `set_value_incremental`. */
    method SetValueIncremental(v: Value)
      requires v.Null? || IsNumber(v)
      modifies this
      ensures State() == AfterSetValueIncremental(config, old(State()), v)
      ensures config == old(config) && connected == old(connected)
    {
      if v.Null? {
        return;
      }
      if initialValue.Null? {
        initialValue := v;
        value := IncrementalZero(config.nodeType);
        return;
      }
      if !Flag(config.calculateIncrement) {
        UpdateDirection(Num(v));
        value := v;
      } else if Flag(config.positiveIncremental) {
        UpdateDirection(Num(v));
        value := PyAdd(value, v);
      } else {
        var delta := PySub(v, initialValue);
        UpdateDirection(Num(delta));
        value := delta;
      }
    }

    /** `set_value`, reading the clock as `now`; `Fail` stands for the `TypeError` it raises. */
    method SetValue(v: Value, now: real) returns (r: Outcome<LegacyError>)
      modifies this
      ensures config == old(config) && connected == old(connected)
      ensures State() == SetValueState(config, old(State()), v, now)
      ensures r.Pass? <==> SetValueResult(config, old(State()), v, now).Ok?
      ensures r.Fail? ==> r.error == ReadingNotNumeric
    {
      if !config.enabled {
        return Pass;
      }
      UpdateTimestamp(now);
      if !ReadingFits(config, v) {
        if !Flag(config.incrementalNode) && value.Null? {
          value := v;
        }
        return Fail(ReadingNotNumeric);
      }
      ApplyReading(v);
      if config.hasCallback {
        notifications := notifications + 1;
      }
      return Pass;
    }

    /** The branch of `set_value` that the node's type and incremental option select. */
    method ApplyReading(v: Value)
      requires ReadingFits(config, v)
      modifies this
      ensures config == old(config) && connected == old(connected)
      ensures State() == SetPath(config, old(State()), v)
    {
      if !IsNumericType(config.nodeType) {
        value := v;
      } else if Flag(config.incrementalNode) {
        SetValueIncremental(v);
      } else {
        SetValueStandard(v);
      }
    }

    /** `reset_value`, reading the clock as `now`. */
    method ResetValue(now: real)
      modifies this
      ensures State() == AfterResetValue(old(State()), now)
      ensures config == old(config) && connected == old(connected)
    {
      ResetTracking(now);
      ResetStatistics();
    }

    /** The first half of `reset_value`: the values, the direction flags and the clock. */
    method ResetTracking(now: real)
      modifies this
      ensures State() == old(State()).(initialValue := Null, value := Null, timestamp := Some(now), elapsedTime := None,
                                       positiveDirection := false, negativeDirection := false)
      ensures config == old(config) && connected == old(connected)
    {
      initialValue, value := Null, Null;
      timestamp, elapsedTime := Some(now), None;
      positiveDirection, negativeDirection := false, false;
    }

    /** The second half of `reset_value`: the statistics. */
    method ResetStatistics()
      modifies this
      ensures State() == old(State()).(minValue := Null, maxValue := Null, meanValue := None, meanSum := 0.0, meanCount := 0)
      ensures config == old(config) && connected == old(connected)
    {
      minValue, maxValue, meanValue := Null, Null, None;
      meanSum, meanCount := 0.0, 0;
    }

    /** `reset_direction`. */
    method ResetDirection()
      modifies this
      ensures State() == AfterResetDirection(old(State()))
      ensures config == old(config) && connected == old(connected)
    {
      positiveDirection, negativeDirection := false, false;
    }

    /** `submit_log(date_time)`, with the mean guarded against `None`. */
    method SubmitLog(dateTime: DateTime, now: real, round: (Value, Option<int>) -> Value)
      returns (output: map<string, Value>)
      modifies this
      ensures (output, State()) == SubmitLogResult(config, old(State()), dateTime, now, round)
      ensures config == old(config) && connected == old(connected)
    {
      output := SubmitLogResult(config, State(), dateTime, now, round).0;
      ResetValue(now);
      lastLogDatetime := Some(dateTime);
    }

    /** `set_connection_state` of `ModbusRTUNode` and `OPCUANode`. */
    method SetConnectionState(state: bool)
      requires !addressing.Plain?
      modifies this
      ensures connected == state
      ensures config == old(config) && State() == old(State())
    {
      connected := state;
    }
  }
}
