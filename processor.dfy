/**
 * The state machine every node processor shares (`controller/node/processor/processor.py`):
 * the enabled/None gate in front of a reading, timestamp and elapsed-time tracking, the value
 * and alarm resets, the publish format and the log entry.
 */
module BaseProcessor {
  import opened Wrappers
  import opened Values
  import opened Dates
  import opened NodeModel

  /** The `NotImplemeted` exception of `controller/exceptions.py`. */
  datatype ProcessorError = NotImplemeted(message: string)

  /** The Python type a processor's values have (`value_type`). */
  datatype ValueType = BoolType | IntType | FloatType | StrType

  /** `is_numeric_processor`: whether the value type is a subclass of `int` or `float`. */
  predicate IsNumericProcessorType(t: ValueType)
  {
    t == IntType || t == FloatType
  }

  /** The fields of a `NodeProcessor` that change while it runs. */
  datatype BaseState<V> = BaseState(
    lastLogDatetime: Option<DateTime>,
    minAlarmState: bool,
    maxAlarmState: bool,
    value: Option<V>,
    timestamp: Option<real>,
    elapsedTime: Option<real>)

  /** The state `__init__` leaves. */
  function InitialBase<V>(): BaseState<V>
  {
    BaseState(None, false, false, None, None, None)
  }

  /** `update_timestamp` with clock reading `now`. */
  function AfterUpdateTimestamp<V>(s: BaseState<V>, now: real): BaseState<V>
  {
    if s.timestamp.None? then s.(timestamp := Some(now), elapsedTime := Some(0.0))
    else s.(elapsedTime := Some(now - s.timestamp.value), timestamp := Some(now))
  }

  /**
   * The timestamp becomes `now`; the elapsed time is 0.0 on the first update and otherwise the
   * time since the previous timestamp; nothing else changes.
   */
  lemma UpdateTimestampTracksElapsed<V>(s: BaseState<V>, now: real)
    ensures var r := AfterUpdateTimestamp(s, now);
      && r.timestamp == Some(now) && r.elapsedTime.Some?
      && (s.timestamp.None? ==> r.elapsedTime == Some(0.0))
      && (s.timestamp.Some? ==> s.timestamp.value + r.elapsedTime.value == now)
      && r.(timestamp := s.timestamp, elapsedTime := s.elapsedTime) == s
  {
  }

  /** The outcome of `prepare_set_value`: whether the reading goes on, and the new state. */
  datatype Prepared<V> = Prepared(proceed: bool, state: BaseState<V>)

  /** `prepare_set_value(value)` on a node with configuration `config`, clock reading `now`. */
  function AfterPrepare<V>(config: NodeConfig, s: BaseState<V>, value: Option<V>, now: real): Prepared<V>
  {
    if !config.enabled then Prepared(false, s)
    else
      var t := AfterUpdateTimestamp(s, now);
      if value.None? then Prepared(false, t.(value := None)) else Prepared(true, t)
  }

  /**
   * A disabled node is left exactly as it was; on an enabled node the timestamp is always
   * updated, a None reading clears the value, and the reading proceeds iff it is not None.
   */
  lemma PrepareGate<V>(config: NodeConfig, s: BaseState<V>, value: Option<V>, now: real)
    ensures var p := AfterPrepare(config, s, value, now);
      && (p.proceed <==> config.enabled && value.Some?)
      && (!config.enabled ==> p.state == s)
      && (config.enabled ==> p.state.timestamp == Some(now))
      && (config.enabled && value.None? ==> p.state.value.None?)
      && (config.enabled && value.Some? ==> p.state == AfterUpdateTimestamp(s, now))
      && p.state.lastLogDatetime == s.lastLogDatetime
      && p.state.minAlarmState == s.minAlarmState && p.state.maxAlarmState == s.maxAlarmState
  {
  }

  /** `reset_alarms`. */
  function AfterResetAlarms<V>(s: BaseState<V>): BaseState<V>
  {
    s.(minAlarmState := false, maxAlarmState := false)
  }

  /** `reset_value` with clock reading `now`. */
  function AfterResetValue<V>(s: BaseState<V>, now: real): BaseState<V>
  {
    s.(value := None, timestamp := Some(now), elapsedTime := None)
  }

  /**
   * Resetting the alarms clears both flags and nothing else; resetting the value clears value
   * and elapsed time, restarts the timestamp at `now`, and keeps the alarms and the log time.
   */
  lemma ResetsTouchOnlyTheirFields<V>(s: BaseState<V>, now: real)
    ensures var a := AfterResetAlarms(s);
      !a.minAlarmState && !a.maxAlarmState && a.(minAlarmState := s.minAlarmState, maxAlarmState := s.maxAlarmState) == s
    ensures var r := AfterResetValue(s, now);
      && r.value.None? && r.elapsedTime.None? && r.timestamp == Some(now)
      && r.(value := s.value, timestamp := s.timestamp, elapsedTime := s.elapsedTime) == s
  {
  }

  /** The enum value string of a node type, as published. */
  function TypeValue(config: NodeConfig): Value
  {
    Str(NodeTypeValue(config.nodeType))
  }

  /** `get_publish_format(additional_data)`. */
  function PublishFormat<V>(config: NodeConfig, s: BaseState<V>, additional: map<string, Value>): map<string, Value>
  {
    var output := additional["type" := TypeValue(config)]["unit" := OptStr(config.unit)];
    var withMin := if config.alarms.minAlarm then output["min_alarm_state" := Bool(s.minAlarmState)] else output;
    var withMax := if config.alarms.maxAlarm then withMin["max_alarm_state" := Bool(s.maxAlarmState)] else withMin;
    withMax + GetAttributes(config.attributes)
  }

  /**
   * The publish format always holds type and unit, holds an alarm state exactly when that alarm
   * is enabled (or the caller supplied the key), copies every attribute, and keeps every other
   * key of the additional data.
   */
  lemma PublishFormatContents<V>(config: NodeConfig, s: BaseState<V>, additional: map<string, Value>)
    ensures var out := PublishFormat(config, s, additional);
      && "type" in out && out["type"] == TypeValue(config)
      && "unit" in out && out["unit"] == OptStr(config.unit)
      && ("min_alarm_state" in out <==> config.alarms.minAlarm || "min_alarm_state" in additional)
      && (config.alarms.minAlarm ==> out["min_alarm_state"] == Bool(s.minAlarmState))
      && ("max_alarm_state" in out <==> config.alarms.maxAlarm || "max_alarm_state" in additional)
      && (config.alarms.maxAlarm ==> out["max_alarm_state"] == Bool(s.maxAlarmState))
      && (forall k :: k in GetAttributes(config.attributes) ==> k in out && out[k] == GetAttributes(config.attributes)[k])
      && (forall k :: k in additional && k !in {"type", "unit", "min_alarm_state", "max_alarm_state", "phase"}
            ==> k in out && out[k] == additional[k])
      && out.Keys == additional.Keys + {"type", "unit", "phase"}
           + (if config.alarms.minAlarm then {"min_alarm_state"} else {})
           + (if config.alarms.maxAlarm then {"max_alarm_state"} else {})
  {
  }

  /** The log entry `submit_log` returns: the additional data is discarded (it is overwritten). */
  function SubmitLogEntry<V>(config: NodeConfig, s: BaseState<V>, dateTime: DateTime, additional: map<string, Value>): map<string, Value>
  {
    map["name" := Str(config.name), "unit" := OptStr(config.unit),
        "start_time" := OptDate(s.lastLogDatetime), "end_time" := Date(dateTime)]
  }

  /** The state `submit_log` leaves (with the base `reset_value`, clock reading `now`). */
  function AfterSubmitLog<V>(s: BaseState<V>, dateTime: DateTime, now: real): BaseState<V>
  {
    AfterResetValue(s, now).(lastLogDatetime := Some(dateTime))
  }

  /**
   * A log entry spans from the previous log time to `dateTime` and has exactly the keys name,
   * unit, start_time and end_time, whatever additional data the caller passes; afterwards the
   * value is reset and the next entry starts at `dateTime`.
   */
  lemma SubmitLogContents<V>(config: NodeConfig, s: BaseState<V>, dateTime: DateTime, now: real, additional: map<string, Value>)
    ensures var entry := SubmitLogEntry(config, s, dateTime, additional);
      && entry.Keys == {"name", "unit", "start_time", "end_time"}
      && entry["start_time"] == OptDate(s.lastLogDatetime) && entry["end_time"] == Date(dateTime)
      && entry == SubmitLogEntry(config, s, dateTime, map[])
    ensures var r := AfterSubmitLog(s, dateTime, now);
      && r.value.None? && r.lastLogDatetime == Some(dateTime)
      && SubmitLogEntry(config, r, dateTime, additional)["start_time"] == Date(dateTime)
  {
  }

  /**
   * The log entry with the additional data kept under the four base keys, which is what the
   * subclasses' log data evidently relies on.
   */
  function SubmitLogEntryMerged<V>(config: NodeConfig, s: BaseState<V>, dateTime: DateTime, additional: map<string, Value>): map<string, Value>
  {
    additional + SubmitLogEntry(config, s, dateTime, additional)
  }

  /** The merged entry keeps every key of the additional data that is not a base key. */
  lemma SubmitLogEntryMergedKeepsData<V>(config: NodeConfig, s: BaseState<V>, dateTime: DateTime, additional: map<string, Value>)
    ensures var entry := SubmitLogEntryMerged(config, s, dateTime, additional);
      && entry.Keys == additional.Keys + {"name", "unit", "start_time", "end_time"}
      && (forall k :: k in additional && k !in {"name", "unit", "start_time", "end_time"} ==> entry[k] == additional[k])
      && entry["end_time"] == Date(dateTime)
  {
  }

  /** As written, the mean a numeric node passes to the base log entry is lost. */
  lemma SubmitLogEntryDropsData<V>(config: NodeConfig, s: BaseState<V>, dateTime: DateTime)
    ensures "mean_value" !in SubmitLogEntry(config, s, dateTime, map["mean_value" := Float(12.5)])
    ensures "mean_value" in SubmitLogEntryMerged(config, s, dateTime, map["mean_value" := Float(12.5)])
  {
  }

  /** A `NodeProcessor`: fixed configuration and value type, mutable tracking fields. */
  class NodeProcessor<V> {
    const config: NodeConfig
    const valueType: ValueType
    var lastLogDatetime: Option<DateTime>
    var minAlarmState: bool
    var maxAlarmState: bool
    var value: Option<V>
    var timestamp: Option<real>
    var elapsedTime: Option<real>

    /** The mutable fields as a value. */
    function State(): BaseState<V>
      reads this
    {
      BaseState(lastLogDatetime, minAlarmState, maxAlarmState, value, timestamp, elapsedTime)
    }

    /** Replaces every mutable field by the given state. */
    method SetState(s: BaseState<V>)
      modifies this
      ensures State() == s
    {
      lastLogDatetime, minAlarmState, maxAlarmState := s.lastLogDatetime, s.minAlarmState, s.maxAlarmState;
      value, timestamp, elapsedTime := s.value, s.timestamp, s.elapsedTime;
    }

    constructor(configuration: NodeConfig, valueType: ValueType)
      ensures config == configuration && this.valueType == valueType
      ensures State() == InitialBase()
    {
      config := configuration;
      this.valueType := valueType;
      lastLogDatetime := None;
      minAlarmState, maxAlarmState := false, false;
      value, timestamp, elapsedTime := None, None, None;
    }

    /** `NodeProcessor.is_numeric_processor(self)`. */
    predicate IsNumericProcessor()
    {
      IsNumericProcessorType(valueType)
    }

    method UpdateTimestamp(now: real)
      modifies this
      ensures State() == AfterUpdateTimestamp(old(State()), now)
    {
      if timestamp.None? {
        timestamp := Some(now);
        elapsedTime := Some(0.0);
      } else {
        elapsedTime := Some(now - timestamp.value);
        timestamp := Some(now);
      }
    }

    method PrepareSetValue(v: Option<V>, now: real) returns (proceed: bool)
      modifies this
      ensures Prepared(proceed, State()) == AfterPrepare(config, old(State()), v, now)
    {
      if !config.enabled {
        return false;
      }
      UpdateTimestamp(now);
      if v.None? {
        value := None;
        return false;
      }
      return true;
    }

    method ResetAlarms()
      modifies this
      ensures State() == AfterResetAlarms(old(State()))
    {
      minAlarmState := false;
      maxAlarmState := false;
    }

    method ResetValue(now: real)
      modifies this
      ensures State() == AfterResetValue(old(State()), now)
    {
      value := None;
      timestamp := Some(now);
      elapsedTime := None;
    }

    /** `get_publish_format(additional_data)`. */
    function GetPublishFormat(additional: map<string, Value>): map<string, Value>
      reads this
    {
      PublishFormat(config, State(), additional)
    }

    /** `submit_log(date_time, additional_data)` with clock reading `now`. */
    method SubmitLog(dateTime: DateTime, now: real, additional: map<string, Value>) returns (output: map<string, Value>)
      modifies this
      ensures output == SubmitLogEntry(config, old(State()), dateTime, additional)
      ensures State() == AfterSubmitLog(old(State()), dateTime, now)
    {
      output := map["name" := Str(config.name), "unit" := OptStr(config.unit),
                    "start_time" := OptDate(lastLogDatetime), "end_time" := Date(dateTime)];
      ResetValue(now);
      lastLogDatetime := Some(dateTime);
    }
  }
}
