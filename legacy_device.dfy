/**
 * The legacy `controller/device.py`: its own `Node` (no validation, setters assign directly,
 * `set_value` ignoring `None`), the abstract `Device` with its protocol check and connection flag,
 * and the `DeviceManager` lookup by name and id.
 *
 * As in `LegacyNode`, pure functions give the new state of each operation and the classes are
 * proved to change their fields exactly as those functions say.
 */
module LegacyDevice {
  import opened Wrappers
  import opened Values
  import opened Dates
  import opened NodeModel
  import LegacyNode

  /** The constructor arguments of the legacy `Node`; `hasCallback` says whether `on_value_change` is set. */
  datatype DeviceNodeConfig = DeviceNodeConfig(
    name: string,
    nodeType: NodeType,
    unit: string,
    incrementalNode: bool,
    positiveIncremental: bool,
    calculateIncrement: bool,
    publish: bool,
    calculated: bool,
    logging: bool,
    loggingPeriod: int,
    minAlarm: bool,
    maxAlarm: bool,
    minAlarmValue: real,
    maxAlarmValue: real,
    decimalPlaces: int,
    hasCallback: bool)

  /** The fields `set_value`, `reset_value` and `submit_log` change; `notifications` counts callback calls. */
  datatype DeviceNodeState = DeviceNodeState(
    value: Value,
    timestamp: Option<real>,
    elapsedTime: Option<real>,
    initialValue: Value,
    positiveDirection: bool,
    negativeDirection: bool,
    minValue: Value,
    maxValue: Value,
    meanValue: Value,
    meanSum: real,
    meanCount: nat,
    minAlarmState: bool,
    maxAlarmState: bool,
    lastLogDatetime: Option<DateTime>,
    notifications: nat)

  datatype DeviceError =
    | NullValuePublished   // the `Exception` of `get_publish_format`
    | ProtocolUnset        // the `AttributeError` of `get_device_state` when the protocol was refused

  /** `round(x, ndigits)`, foreign to the model. */
  type Rounding = (Value, int) -> Value

  /** The keyword defaults of `Node.__init__` for the given name, type and unit. */
  function DefaultNodeConfig(name: string, nodeType: NodeType, unit: string): DeviceNodeConfig
  {
    DeviceNodeConfig(name, nodeType, unit, false, false, true, true, false, false, 15,
                     false, false, 0.0, 0.0, 3, false)
  }

  function InitialDeviceState(): DeviceNodeState
  {
    DeviceNodeState(Null, None, None, Null, false, false, Null, Null, Null, 0.0, 0, false, false, None, 0)
  }

  /** Python `<` on strings: code-point lexicographic order. */
  predicate StrLess(a: string, b: string)
    decreases |a|
  {
    if a == [] then b != []
    else if b == [] then false
    else if a[0] != b[0] then (a[0] as int) < (b[0] as int)
    else StrLess(a[1..], b[1..])
  }

  /** Python `a < b` on two numbers or two strings; any other pair is never compared by a well-typed node. */
  predicate PyLess(a: Value, b: Value)
  {
    (LegacyNode.IsNumber(a) && LegacyNode.IsNumber(b) && LegacyNode.Num(a) < LegacyNode.Num(b)) || (a.Str? && b.Str? && StrLess(a.s, b.s))
  }

  /** Python's string and number orders are strict: no two values are each below the other. */
  lemma {:induction false} StrLessAsymmetric(a: string, b: string)
    ensures !(StrLess(a, b) && StrLess(b, a))
    decreases |a|
  {
    if a != [] && b != [] && a[0] == b[0] {
      StrLessAsymmetric(a[1..], b[1..]);
    }
  }

  lemma PyLessAsymmetric(a: Value, b: Value)
    ensures !(PyLess(a, b) && PyLess(b, a))
  {
    if a.Str? && b.Str? {
      StrLessAsymmetric(a.s, b.s);
    }
  }

  /** Readings the node's arithmetic accepts: a numeric node is given numbers or `None`. */
  predicate DeviceReadingFits(c: DeviceNodeConfig, v: Value)
  {
    IsNumericType(c.nodeType) ==> v.Null? || LegacyNode.IsNumber(v)
  }

  /** The condition guarding the statistics: `type != BOOL and type != STRING and not incremental_node`. */
  predicate Tracked(c: DeviceNodeConfig)
  {
    IsNumericType(c.nodeType) && !c.incrementalNode
  }

  /** The stored form of a value: rounded to `decimal_places` on a FLOAT node. */
  function Stored(c: DeviceNodeConfig, x: Value, round: Rounding): Value
  {
    if c.nodeType == FLOAT then round(x, c.decimalPlaces) else x
  }

  /** The value an incremental node derives from a reading and its captured initial value. */
  function Increment(c: DeviceNodeConfig, initial: Value, v: Value): Value
  {
    if !c.calculateIncrement then v
    else if c.positiveIncremental then LegacyNode.PyAdd(v, initial)
    else LegacyNode.PySub(v, initial)
  }

  function AfterClock(s: DeviceNodeState, now: real): DeviceNodeState
  {
    if s.timestamp.None? then s.(timestamp := Some(now), elapsedTime := Some(0.0))
    else s.(timestamp := Some(now), elapsedTime := Some(now - s.timestamp.value))
  }

  /** The direction flags after comparing `x` against the current value. */
  function AfterDirection(s: DeviceNodeState, x: Value): (r: DeviceNodeState)
    ensures r == s.(positiveDirection := r.positiveDirection, negativeDirection := r.negativeDirection)
  {
    if PyLess(s.value, x) then s.(positiveDirection := true, negativeDirection := false)
    else if PyLess(x, s.value) then s.(positiveDirection := false, negativeDirection := true)
    else s
  }

  function AfterIncremental(c: DeviceNodeConfig, t: DeviceNodeState, v: Value, round: Rounding): DeviceNodeState
  {
    if t.initialValue.Null? then t.(initialValue := v, value := LegacyNode.IncrementalZero(c.nodeType))
    else
      var x := Increment(c, t.initialValue, v);
      AfterDirection(t, x).(value := Stored(c, x, round))
  }

  function AfterPlain(c: DeviceNodeConfig, t: DeviceNodeState, v: Value, round: Rounding): DeviceNodeState
  {
    (if t.value.Null? then t else AfterDirection(t, v)).(value := Stored(c, v, round))
  }

  /** `check_alarms(value)`: a threshold crossed latches its state. */
  function AfterAlarmCheck(c: DeviceNodeConfig, s: DeviceNodeState, x: real): DeviceNodeState
  {
    s.(minAlarmState := s.minAlarmState || (c.minAlarm && x < c.minAlarmValue),
       maxAlarmState := s.maxAlarmState || (c.maxAlarm && x > c.maxAlarmValue))
  }

  /** The running mean of the statistics block. */
  function AfterMean(c: DeviceNodeConfig, u: DeviceNodeState, v: Value, round: Rounding): DeviceNodeState
  {
    var sum := u.meanSum + LegacyNode.Num(v);
    var count := u.meanCount + 1;
    u.(meanSum := sum, meanCount := count, meanValue := round(Float(sum / count as real), c.decimalPlaces))
  }

  /** The minimum and maximum of the statistics block, each replaced by the rounded reading when passed. */
  function AfterExtremes(c: DeviceNodeConfig, u: DeviceNodeState, v: Value, round: Rounding): DeviceNodeState
  {
    var low := if u.minValue.Null? || PyLess(v, u.minValue) then round(v, c.decimalPlaces) else u.minValue;
    var high := if u.maxValue.Null? || PyLess(u.maxValue, v) then round(v, c.decimalPlaces) else u.maxValue;
    u.(minValue := low, maxValue := high)
  }

  /** The statistics block of `set_value`, ending with `check_alarms`. */
  function AfterStatistics(c: DeviceNodeConfig, u: DeviceNodeState, v: Value, round: Rounding): DeviceNodeState
  {
    AfterAlarmCheck(c, AfterExtremes(c, AfterMean(c, u, v, round), v, round), LegacyNode.Num(v))
  }

  /** The statistics block changes the statistics and alarm states and nothing else. */
  predicate StatisticsOnly(r: DeviceNodeState, u: DeviceNodeState)
  {
    r.value == u.value && r.initialValue == u.initialValue && r.positiveDirection == u.positiveDirection
    && r.negativeDirection == u.negativeDirection && r.timestamp == u.timestamp && r.elapsedTime == u.elapsedTime
    && r.lastLogDatetime == u.lastLogDatetime && r.notifications == u.notifications
  }

  /**
   * The statistics block adds the reading to the sum, counts it, stores the rounded mean, replaces
   * the minimum or maximum (rounded) exactly when there was none or the reading goes past it, and
   * latches a crossed alarm.
   */
  lemma StatisticsStep(c: DeviceNodeConfig, u: DeviceNodeState, v: Value, round: Rounding)
    ensures StatisticsOnly(AfterStatistics(c, u, v, round), u)
    ensures AfterStatistics(c, u, v, round).meanSum == u.meanSum + LegacyNode.Num(v)
    ensures AfterStatistics(c, u, v, round).meanCount == u.meanCount + 1
    ensures AfterStatistics(c, u, v, round).meanValue ==
            round(Float((u.meanSum + LegacyNode.Num(v)) / (u.meanCount + 1) as real), c.decimalPlaces)
    ensures u.minValue.Null? || PyLess(v, u.minValue) ==> AfterStatistics(c, u, v, round).minValue == round(v, c.decimalPlaces)
    ensures !u.minValue.Null? && !PyLess(v, u.minValue) ==> AfterStatistics(c, u, v, round).minValue == u.minValue
    ensures u.maxValue.Null? || PyLess(u.maxValue, v) ==> AfterStatistics(c, u, v, round).maxValue == round(v, c.decimalPlaces)
    ensures !u.maxValue.Null? && !PyLess(u.maxValue, v) ==> AfterStatistics(c, u, v, round).maxValue == u.maxValue
    ensures AfterStatistics(c, u, v, round).minAlarmState ==
            (u.minAlarmState || (c.minAlarm && LegacyNode.Num(v) < c.minAlarmValue))
    ensures AfterStatistics(c, u, v, round).maxAlarmState ==
            (u.maxAlarmState || (c.maxAlarm && LegacyNode.Num(v) > c.maxAlarmValue))
  {
  }

  /** The reading-dependent part of `set_value`, after the clock has been read. */
  function AfterReading(c: DeviceNodeConfig, t: DeviceNodeState, v: Value, round: Rounding): DeviceNodeState
  {
    var u := if c.incrementalNode then AfterIncremental(c, t, v, round) else AfterPlain(c, t, v, round);
    if Tracked(c) then AfterStatistics(c, u, v, round) else u
  }

  /** `set_value(value)`, reading the clock as `now`. */
  function AfterSetValue(c: DeviceNodeConfig, s: DeviceNodeState, v: Value, now: real, round: Rounding): DeviceNodeState
    requires DeviceReadingFits(c, v)
  {
    if v.Null? then s
    else
      var w := AfterReading(c, AfterClock(s, now), v, round);
      if c.hasCallback then w.(notifications := w.notifications + 1) else w
  }

  /** The clock, initial value and last log time are fields `AfterReading` does not touch. */
  predicate KeepsClock(r: DeviceNodeState, t: DeviceNodeState)
  {
    r.timestamp == t.timestamp && r.elapsedTime == t.elapsedTime && r.lastLogDatetime == t.lastLogDatetime
    && r.notifications == t.notifications
  }

  lemma ReadingKeepsClock(c: DeviceNodeConfig, t: DeviceNodeState, v: Value, round: Rounding)
    ensures KeepsClock(AfterReading(c, t, v, round), t)
  {
    var u := if c.incrementalNode then AfterIncremental(c, t, v, round) else AfterPlain(c, t, v, round);
    assert KeepsClock(u, t);
    if Tracked(c) {
      StatisticsStep(c, u, v, round);
    }
  }

  /** `set_value(None)` returns before anything changes, the timestamp included. */
  lemma SetValueNoneNoop(c: DeviceNodeConfig, s: DeviceNodeState, now: real, round: Rounding)
    ensures AfterSetValue(c, s, Null, now, round) == s
  {
  }

  /** Any other reading stamps the clock, measures the elapsed time and calls the callback once. */
  lemma SetValueStampsClock(c: DeviceNodeConfig, s: DeviceNodeState, v: Value, now: real, round: Rounding)
    requires DeviceReadingFits(c, v) && !v.Null?
    ensures AfterSetValue(c, s, v, now, round).timestamp == Some(now)
    ensures AfterSetValue(c, s, v, now, round).elapsedTime ==
            (if s.timestamp.None? then Some(0.0) else Some(now - s.timestamp.value))
    ensures AfterSetValue(c, s, v, now, round).notifications == s.notifications + (if c.hasCallback then 1 else 0)
    ensures AfterSetValue(c, s, v, now, round).lastLogDatetime == s.lastLogDatetime
  {
    ReadingKeepsClock(c, AfterClock(s, now), v, round);
  }

  /**
   * An incremental node captures its first reading as the initial value and reports zero; after
   * that it reports the reading itself, the reading plus the initial value (positive mode) or the
   * reading minus it, stored rounded on a FLOAT node, and the initial value stays as captured.
   */
  lemma IncrementalModes(c: DeviceNodeConfig, t: DeviceNodeState, v: Value, round: Rounding)
    requires c.incrementalNode && !v.Null?
    ensures t.initialValue.Null? ==>
              AfterReading(c, t, v, round).initialValue == v &&
              AfterReading(c, t, v, round).value == LegacyNode.IncrementalZero(c.nodeType)
    ensures !t.initialValue.Null? ==> AfterReading(c, t, v, round).initialValue == t.initialValue
    ensures !t.initialValue.Null? && !c.calculateIncrement ==> AfterReading(c, t, v, round).value == Stored(c, v, round)
    ensures !t.initialValue.Null? && c.calculateIncrement && c.positiveIncremental ==>
              AfterReading(c, t, v, round).value == Stored(c, LegacyNode.PyAdd(v, t.initialValue), round)
    ensures !t.initialValue.Null? && c.calculateIncrement && !c.positiveIncremental ==>
              AfterReading(c, t, v, round).value == Stored(c, LegacyNode.PySub(v, t.initialValue), round)
  {
  }

  /**
   * Positive mode is not an accumulation: once the initial value is captured, the reported value
   * depends only on the latest reading and that initial value, whatever came before.
   */
  lemma {:induction false} PositiveIncrementalIgnoresHistory(c: DeviceNodeConfig, s: DeviceNodeState, v1: Value, v2: Value,
                                                            now1: real, now2: real, round: Rounding)
    requires c.incrementalNode && c.calculateIncrement && c.positiveIncremental
    requires DeviceReadingFits(c, v1) && DeviceReadingFits(c, v2) && !v1.Null? && !v2.Null?
    requires !s.initialValue.Null?
    ensures AfterSetValue(c, AfterSetValue(c, s, v1, now1, round), v2, now2, round).value ==
            Stored(c, LegacyNode.PyAdd(v2, s.initialValue), round)
  {
    var t1 := AfterClock(s, now1);
    IncrementalModes(c, t1, v1, round);
    var s1 := AfterSetValue(c, s, v1, now1, round);
    assert s1.initialValue == s.initialValue;
    IncrementalModes(c, AfterClock(s1, now2), v2, round);
  }

  /** The statistics and alarm states agree. */
  predicate SameStatistics(r: DeviceNodeState, t: DeviceNodeState)
  {
    r.meanSum == t.meanSum && r.meanCount == t.meanCount && r.meanValue == t.meanValue
    && r.minValue == t.minValue && r.maxValue == t.maxValue
    && r.minAlarmState == t.minAlarmState && r.maxAlarmState == t.maxAlarmState
  }

  lemma ValuePathsKeepStatistics(c: DeviceNodeConfig, t: DeviceNodeState, v: Value, round: Rounding)
    ensures SameStatistics(AfterIncremental(c, t, v, round), t)
    ensures SameStatistics(AfterPlain(c, t, v, round), t)
  {
    if !t.initialValue.Null? {
      var d := AfterDirection(t, Increment(c, t.initialValue, v));
      assert SameStatistics(d, t);
    }
    var e := AfterDirection(t, v);
    assert SameStatistics(e, t);
  }

  /**
   * Only a non-incremental numeric reading touches the statistics and the alarm states, and then
   * exactly as the statistics block says.
   */
  lemma StatisticsOnlyWhenTracked(c: DeviceNodeConfig, t: DeviceNodeState, v: Value, round: Rounding)
    ensures !Tracked(c) ==> SameStatistics(AfterReading(c, t, v, round), t)
    ensures Tracked(c) ==> AfterReading(c, t, v, round) == AfterStatistics(c, AfterPlain(c, t, v, round), v, round)
  {
    ValuePathsKeepStatistics(c, t, v, round);
  }

  /** A plain (non-incremental) node stores the reading, rounded on FLOAT, and sets the flag of the direction it moved. */
  lemma PlainStoresReading(c: DeviceNodeConfig, t: DeviceNodeState, v: Value, round: Rounding)
    requires !c.incrementalNode && DeviceReadingFits(c, v) && !v.Null?
    ensures AfterReading(c, t, v, round).value == Stored(c, v, round)
    ensures AfterReading(c, t, v, round).initialValue == t.initialValue
    ensures !t.value.Null? && PyLess(t.value, v) ==>
              AfterReading(c, t, v, round).positiveDirection && !AfterReading(c, t, v, round).negativeDirection
    ensures !t.value.Null? && PyLess(v, t.value) ==>
              !AfterReading(c, t, v, round).positiveDirection && AfterReading(c, t, v, round).negativeDirection
    ensures t.value.Null? || (!PyLess(t.value, v) && !PyLess(v, t.value)) ==>
              AfterReading(c, t, v, round).positiveDirection == t.positiveDirection &&
              AfterReading(c, t, v, round).negativeDirection == t.negativeDirection
  {
    PyLessAsymmetric(t.value, v);
    if Tracked(c) {
      StatisticsStep(c, AfterPlain(c, t, v, round), v, round);
    }
  }

  /** `reset_value`: clears the initial value, statistics, direction and clock, but not the value. */
  function AfterResetValue(s: DeviceNodeState): DeviceNodeState
  {
    DeviceNodeState(s.value, None, None, Null, false, false, Null, Null, Null, 0.0, 0,
                    s.minAlarmState, s.maxAlarmState, s.lastLogDatetime, s.notifications)
  }

  function AfterResetDirection(s: DeviceNodeState): DeviceNodeState
  {
    s.(positiveDirection := false, negativeDirection := false)
  }

  function AfterResetAlarms(s: DeviceNodeState): DeviceNodeState
  {
    s.(minAlarmState := false, maxAlarmState := false)
  }

  /**
   * After `reset_value` the value survives, and the next reading on an incremental node is
   * captured as a new initial value, reported as zero, with the elapsed time restarting at 0.
   */
  lemma ResetValueRecaptures(c: DeviceNodeConfig, s: DeviceNodeState, v: Value, now: real, round: Rounding)
    requires c.incrementalNode && DeviceReadingFits(c, v) && !v.Null?
    ensures AfterResetValue(s).value == s.value
    ensures AfterResetValue(s).meanCount == 0 && AfterResetValue(s).meanSum == 0.0
    ensures AfterSetValue(c, AfterResetValue(s), v, now, round).initialValue == v
    ensures AfterSetValue(c, AfterResetValue(s), v, now, round).value == LegacyNode.IncrementalZero(c.nodeType)
    ensures AfterSetValue(c, AfterResetValue(s), v, now, round).elapsedTime == Some(0.0)
  {
    IncrementalModes(c, AfterClock(AfterResetValue(s), now), v, round);
  }

  /** `get_publish_format`, with the `Exception` on a `None` value as `Err`. */
  function PublishFormat(c: DeviceNodeConfig, s: DeviceNodeState): (r: Result<map<string, Value>, DeviceError>)
    ensures r.Err? <==> s.value.Null?
    ensures r.Err? ==> r.error == NullValuePublished
    ensures r.Ok? ==> r.value.Keys == {"value", "type", "unit"}
                                      + (if Tracked(c) && c.minAlarm then {"min_alarm_state"} else {})
                                      + (if Tracked(c) && c.maxAlarm then {"max_alarm_state"} else {})
    ensures r.Ok? ==> r.value["value"] == s.value && r.value["type"] == Str(NodeTypeValue(c.nodeType))
    ensures r.Ok? ==> r.value["unit"] == Str(c.unit)
    ensures r.Ok? && "min_alarm_state" in r.value ==> r.value["min_alarm_state"] == Bool(s.minAlarmState)
    ensures r.Ok? && "max_alarm_state" in r.value ==> r.value["max_alarm_state"] == Bool(s.maxAlarmState)
  {
    if s.value.Null? then Err(NullValuePublished)
    else
      var base := map["value" := s.value, "type" := Str(NodeTypeValue(c.nodeType)), "unit" := Str(c.unit)];
      var withMin := if Tracked(c) && c.minAlarm then base["min_alarm_state" := Bool(s.minAlarmState)] else base;
      Ok(if Tracked(c) && c.maxAlarm then withMin["max_alarm_state" := Bool(s.maxAlarmState)] else withMin)
  }

  /** `submit_log(date_time)`: the log entry, and the node state after `reset_value`. */
  function SubmitLogResult(c: DeviceNodeConfig, s: DeviceNodeState, dateTime: DateTime): (map<string, Value>, DeviceNodeState)
  {
    var header := map["name" := Str(c.name), "start_time" := OptDate(s.lastLogDatetime), "end_time" := Date(dateTime)];
    var entry := if Tracked(c) then header["mean_value" := s.meanValue]["min_value" := s.minValue]["max_value" := s.maxValue]
                 else header["value" := s.value];
    (entry, AfterResetValue(s).(lastLogDatetime := Some(dateTime)))
  }

  /**
   * A log entry covers the interval since the previous log; a tracked node reports its statistics
   * and any other node its value; the node then restarts its statistics and remembers this log time.
   */
  lemma SubmitLogEntry(c: DeviceNodeConfig, s: DeviceNodeState, dateTime: DateTime)
    ensures SubmitLogResult(c, s, dateTime).0.Keys ==
            {"name", "start_time", "end_time"} + (if Tracked(c) then {"mean_value", "min_value", "max_value"} else {"value"})
    ensures SubmitLogResult(c, s, dateTime).0["start_time"] == OptDate(s.lastLogDatetime)
    ensures SubmitLogResult(c, s, dateTime).0["end_time"] == Date(dateTime)
    ensures Tracked(c) ==> SubmitLogResult(c, s, dateTime).0["mean_value"] == s.meanValue
                           && SubmitLogResult(c, s, dateTime).0["min_value"] == s.minValue
                           && SubmitLogResult(c, s, dateTime).0["max_value"] == s.maxValue
    ensures !Tracked(c) ==> SubmitLogResult(c, s, dateTime).0["value"] == s.value
    ensures SubmitLogResult(c, s, dateTime).1 == AfterResetValue(s).(lastLogDatetime := Some(dateTime))
    ensures SubmitLogResult(c, s, dateTime).1.value == s.value
  {
  }

  // ---------------------------------------------------------------- the node class

  /** The legacy `Node`; `config` groups the constructor arguments the setters replace. */
  class DeviceNode {
    var config: DeviceNodeConfig

    var value: Value
    var timestamp: Option<real>
    var elapsedTime: Option<real>
    var initialValue: Value
    var positiveDirection: bool
    var negativeDirection: bool
    var minValue: Value
    var maxValue: Value
    var meanValue: Value
    var meanSum: real
    var meanCount: nat
    var minAlarmState: bool
    var maxAlarmState: bool
    var lastLogDatetime: Option<DateTime>
    var notifications: nat

    function State(): DeviceNodeState
      reads this
    {
      DeviceNodeState(value, timestamp, elapsedTime, initialValue, positiveDirection, negativeDirection, minValue,
                      maxValue, meanValue, meanSum, meanCount, minAlarmState, maxAlarmState, lastLogDatetime, notifications)
    }

    /** `__init__`: the arguments are stored as given. */
    constructor (c: DeviceNodeConfig)
      ensures config == c && State() == InitialDeviceState()
    {
      config := c;
      value, timestamp, elapsedTime, initialValue := Null, None, None, Null;
      positiveDirection, negativeDirection := false, false;
      minValue, maxValue, meanValue, meanSum, meanCount := Null, Null, Null, 0.0, 0;
      minAlarmState, maxAlarmState, lastLogDatetime, notifications := false, false, None, 0;
    }

    method SetUnit(u: string)
      modifies this
      ensures config == old(config).(unit := u) && State() == old(State())
    {
      config := config.(unit := u);
    }

    method SetIncrementalNode(incremental: bool)
      modifies this
      ensures config == old(config).(incrementalNode := incremental) && State() == old(State())
    {
      config := config.(incrementalNode := incremental);
    }

    method SetLogging(logging: bool, period: int)
      modifies this
      ensures config == old(config).(logging := logging, loggingPeriod := period) && State() == old(State())
    {
      config := config.(logging := logging, loggingPeriod := period);
    }

    method SetAlarms(minAlarm: bool, maxAlarm: bool, minValue: real, maxValue: real)
      modifies this
      ensures config == old(config).(minAlarm := minAlarm, maxAlarm := maxAlarm,
                                     minAlarmValue := minValue, maxAlarmValue := maxValue)
      ensures State() == old(State())
    {
      config := config.(minAlarm := minAlarm, maxAlarm := maxAlarm, minAlarmValue := minValue, maxAlarmValue := maxValue);
    }

    /** `check_alarms(value)`. */
    method CheckAlarms(x: real)
      modifies this
      ensures config == old(config)
      ensures State() == AfterAlarmCheck(config, old(State()), x)
    {
      if config.minAlarm && x < config.minAlarmValue {
        minAlarmState := true;
      }
      if config.maxAlarm && x > config.maxAlarmValue {
        maxAlarmState := true;
      }
    }

    method ResetAlarms()
      modifies this
      ensures config == old(config) && State() == AfterResetAlarms(old(State()))
    {
      minAlarmState, maxAlarmState := false, false;
    }

    method UpdateDirection(x: Value)
      modifies this
      ensures config == old(config) && State() == AfterDirection(old(State()), x)
    {
      if PyLess(value, x) {
        positiveDirection, negativeDirection := true, false;
      } else if PyLess(x, value) {
        positiveDirection, negativeDirection := false, true;
      }
    }

    method ReadIncremental(v: Value, round: Rounding)
      modifies this
      ensures config == old(config) && State() == AfterIncremental(config, old(State()), v, round)
    {
      if initialValue.Null? {
        initialValue := v;
        value := LegacyNode.IncrementalZero(config.nodeType);
      } else {
        var x := Increment(config, initialValue, v);
        UpdateDirection(x);
        value := Stored(config, x, round);
      }
    }

    method ReadPlain(v: Value, round: Rounding)
      modifies this
      ensures config == old(config) && State() == AfterPlain(config, old(State()), v, round)
    {
      if !value.Null? {
        UpdateDirection(v);
      }
      value := Stored(config, v, round);
    }

    method UpdateMean(v: Value, round: Rounding)
      modifies this
      ensures config == old(config) && State() == AfterMean(config, old(State()), v, round)
    {
      meanSum := meanSum + LegacyNode.Num(v);
      meanCount := meanCount + 1;
      meanValue := round(Float(meanSum / meanCount as real), config.decimalPlaces);
    }

    method UpdateExtremes(v: Value, round: Rounding)
      modifies this
      ensures config == old(config) && State() == AfterExtremes(config, old(State()), v, round)
    {
      if minValue.Null? || PyLess(v, minValue) {
        minValue := round(v, config.decimalPlaces);
      }
      if maxValue.Null? || PyLess(maxValue, v) {
        maxValue := round(v, config.decimalPlaces);
      }
    }

    /** The part of `set_value` after the clock has been read. */
    method Read(v: Value, round: Rounding)
      modifies this
      ensures config == old(config) && State() == AfterReading(config, old(State()), v, round)
    {
      if config.incrementalNode {
        ReadIncremental(v, round);
      } else {
        ReadPlain(v, round);
      }
      if Tracked(config) {
        UpdateMean(v, round);
        UpdateExtremes(v, round);
        CheckAlarms(LegacyNode.Num(v));
      }
    }

    method UpdateClock(now: real)
      modifies this
      ensures config == old(config) && State() == AfterClock(old(State()), now)
    {
      if timestamp.None? {
        timestamp, elapsedTime := Some(now), Some(0.0);
      } else {
        elapsedTime := Some(now - timestamp.value);
        timestamp := Some(now);
      }
    }

    /** `set_value(value)`, reading the clock as `now`. */
    method SetValue(v: Value, now: real, round: Rounding)
      requires DeviceReadingFits(config, v)
      modifies this
      ensures config == old(config)
      ensures State() == AfterSetValue(config, old(State()), v, now, round)
    {
      if v.Null? {
        return;
      }
      UpdateClock(now);
      Read(v, round);
      if config.hasCallback {
        notifications := notifications + 1;
      }
    }

    method ResetValue()
      modifies this
      ensures config == old(config)
      ensures State() == AfterResetValue(old(State()))
    {
      ResetTracking();
      ResetStatistics();
    }

    /** The first half of `reset_value`: the initial value, the direction flags and the clock. */
    method ResetTracking()
      modifies this
      ensures config == old(config)
      ensures State() == old(State()).(initialValue := Null, positiveDirection := false, negativeDirection := false,
                                       timestamp := None, elapsedTime := None)
    {
      initialValue := Null;
      positiveDirection, negativeDirection := false, false;
      timestamp, elapsedTime := None, None;
    }

    /** The second half of `reset_value`: the statistics. */
    method ResetStatistics()
      modifies this
      ensures config == old(config)
      ensures State() == old(State()).(minValue := Null, maxValue := Null, meanValue := Null, meanSum := 0.0, meanCount := 0)
    {
      minValue, maxValue, meanValue := Null, Null, Null;
      meanSum, meanCount := 0.0, 0;
    }

    method ResetDirection()
      modifies this
      ensures config == old(config) && State() == AfterResetDirection(old(State()))
    {
      positiveDirection, negativeDirection := false, false;
    }

    /** `submit_log(date_time)`. */
    method SubmitLog(dateTime: DateTime) returns (output: map<string, Value>)
      modifies this
      ensures config == old(config)
      ensures (output, State()) == SubmitLogResult(config, old(State()), dateTime)
    {
      output := SubmitLogResult(config, State(), dateTime).0;
      ResetValue();
      lastLogDatetime := Some(dateTime);
    }
  }

  // ---------------------------------------------------------------- devices

  /** The protocols `Device.__init__` accepts. */
  function DeviceProtocols(): seq<string>
  {
    ["OPC_UA", "MQTT", "MODBUS_TCP", "MODBUS_RTU"]
  }

  /** The protocol attribute `__init__` leaves: set to an accepted protocol, unset (logged) otherwise. */
  function ProtocolAttribute(protocol: string): (r: Option<string>)
    ensures r.Some? <==> protocol in {"OPC_UA", "MQTT", "MODBUS_TCP", "MODBUS_RTU"}
    ensures r.Some? ==> r.value == protocol
  {
    if protocol in DeviceProtocols() then Some(protocol) else None
  }

  /** `get_device_state` of a device with the given fields. */
  function DeviceStateOf(id: int, name: string, protocol: Option<string>, connected: bool): (r: Result<map<string, Value>, DeviceError>)
    ensures r.Err? <==> protocol.None?
    ensures r.Ok? ==> r.value == map["id" := Int(id), "name" := Str(name), "protocol" := Str(protocol.value),
                                     "connected" := Bool(connected)]
  {
    if protocol.None? then Err(ProtocolUnset)
    else Ok(map["id" := Int(id), "name" := Str(name), "protocol" := Str(protocol.value), "connected" := Bool(connected)])
  }

  class Device {
    const id: int
    const name: string
    const protocol: Option<string>
    const nodes: set<DeviceNode>
    var connected: bool

    /** `__init__`: an unknown protocol is logged and leaves the attribute unset instead of raising. */
    constructor (id: int, name: string, protocol: string, nodes: set<DeviceNode>)
      ensures this.id == id && this.name == name && this.nodes == nodes
      ensures this.protocol == ProtocolAttribute(protocol)
      ensures !connected
    {
      this.id, this.name, this.nodes := id, name, nodes;
      this.protocol := ProtocolAttribute(protocol);
      connected := false;
    }

    method SetConnected()
      modifies this
      ensures connected
    {
      if !connected {
        connected := true;
      }
    }

    method SetDisconnected()
      modifies this
      ensures !connected
    {
      if connected {
        connected := false;
      }
    }

    function DeviceState(): Result<map<string, Value>, DeviceError>
      reads this
    {
      DeviceStateOf(id, name, protocol, connected)
    }
  }

  // ---------------------------------------------------------------- the device manager

  /** The first device in iteration order matching both name and id. */
  function FirstMatch(order: seq<Device>, name: string, id: int): (r: Option<Device>)
    ensures r.Some? ==> r.value in order && r.value.name == name && r.value.id == id
    ensures r.None? <==> forall d :: d in order ==> !(d.name == name && d.id == id)
  {
    if order == [] then None
    else if order[0].name == name && order[0].id == id then Some(order[0])
    else FirstMatch(order[1..], name, id)
  }

  /** Example: two devices sharing a name but not an id, where a lookup by name alone would be ambiguous. */
  lemma GetDeviceNeedsBoth(a: Device, b: Device)
    requires a.name == b.name && a.id != b.id
    ensures FirstMatch([a, b], b.name, b.id) == Some(b)
    ensures FirstMatch([a, b], a.name, a.id) == Some(a)
  {
  }

  class DeviceManager {
    var devices: set<Device>

    constructor ()
      ensures devices == {}
    {
      devices := {};
    }

    method AddDevice(d: Device)
      modifies this
      ensures devices == old(devices) + {d}
    {
      devices := devices + {d};
    }

    /** `get_device(name, id)`, scanning the set in the iteration order `order`. */
    method GetDevice(name: string, id: int, order: seq<Device>) returns (r: Option<Device>)
      requires forall d :: d in order <==> d in devices
      ensures r == FirstMatch(order, name, id)
      ensures r.Some? ==> r.value in devices && r.value.name == name && r.value.id == id
      ensures r.None? <==> forall d :: d in devices ==> !(d.name == name && d.id == id)
    {
      var i := 0;
      while i < |order|
        invariant 0 <= i <= |order|
        invariant FirstMatch(order, name, id) == FirstMatch(order[i..], name, id)
      {
        if order[i].name == name && order[i].id == id {
          return Some(order[i]);
        }
        assert order[i..][1..] == order[i + 1..];
        i := i + 1;
      }
      return None;
    }
  }
}
