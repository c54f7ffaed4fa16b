/**
 * `NumericNodeProcessor` (`controller/node/processor/numeric_processor.py`) with the `ZERO`
 * its int and float subclasses supply: latched alarms, exclusive direction flags, running
 * statistics since the last reset, and the incremental-counter modes.
 */
module NumericProcessor {
  import opened Wrappers
  import opened Values
  import opened Dates
  import opened NodeModel
  import opened BaseProcessor

  /** The fields of a numeric processor that change while it runs. */
  datatype NumericState = NumericState(
    base: BaseState<real>,
    initialValue: Option<real>,
    positiveDirection: bool,
    negativeDirection: bool,
    minValue: Option<real>,
    maxValue: Option<real>,
    meanValue: Option<real>,
    meanSum: real,
    meanCount: int)

  /** `ZERO` of `IntNodeProcessor` (0) and `FloatNodeProcessor` (0.0), as a real. */
  const ZERO: real := 0.0

  /** The state `__init__` leaves. */
  function InitialNumeric(): NumericState
  {
    NumericState(InitialBase(), None, false, false, None, None, None, 0.0, 0)
  }

  /** `check_alarms(value)`. */
  function AfterCheckAlarms(config: NodeConfig, s: NumericState, v: real): NumericState
  {
    var a := config.alarms;
    var b1 := if a.minAlarm && a.minAlarmValue.Some? && v < a.minAlarmValue.value
      then s.base.(minAlarmState := true) else s.base;
    var b2 := if a.maxAlarm && a.maxAlarmValue.Some? && v > a.maxAlarmValue.value
      then b1.(maxAlarmState := true) else b1;
    s.(base := b2)
  }

  /**
   * Alarms latch: a set alarm state stays set, and a state becomes set only when that alarm is
   * enabled, has a threshold and the value is strictly beyond it; nothing else changes.
   */
  lemma CheckAlarmsLatches(config: NodeConfig, s: NumericState, v: real)
    ensures var r := AfterCheckAlarms(config, s, v); var a := config.alarms;
      && (r.base.minAlarmState <==> s.base.minAlarmState || (a.minAlarm && a.minAlarmValue.Some? && v < a.minAlarmValue.value))
      && (r.base.maxAlarmState <==> s.base.maxAlarmState || (a.maxAlarm && a.maxAlarmValue.Some? && v > a.maxAlarmValue.value))
      && r.base.(minAlarmState := s.base.minAlarmState, maxAlarmState := s.base.maxAlarmState) == s.base
      && r.(base := s.base) == s
  {
  }

  /** `reset_direction`. */
  function AfterResetDirection(s: NumericState): NumericState
  {
    s.(positiveDirection := false, negativeDirection := false)
  }

  /** `update_direction(new_value)`, comparing against the current value. */
  function AfterUpdateDirection(s: NumericState, newValue: real): NumericState
  {
    if s.base.value.None? then s
    else if newValue > s.base.value.value then s.(positiveDirection := true, negativeDirection := false)
    else if newValue < s.base.value.value then s.(positiveDirection := false, negativeDirection := true)
    else s
  }

  /**
   * A greater value sets only the positive flag, a smaller one only the negative flag, and an
   * equal value or a missing current value changes nothing; so the flags are never both set
   * afterwards unless they were before.
   */
  lemma UpdateDirectionCases(s: NumericState, newValue: real)
    ensures var r := AfterUpdateDirection(s, newValue);
      && (s.base.value.Some? && newValue > s.base.value.value ==> r.positiveDirection && !r.negativeDirection)
      && (s.base.value.Some? && newValue < s.base.value.value ==> !r.positiveDirection && r.negativeDirection)
      && (s.base.value.None? || newValue == s.base.value.value ==> r == s)
      && r.(positiveDirection := s.positiveDirection, negativeDirection := s.negativeDirection) == s
      && (!(s.positiveDirection && s.negativeDirection) ==> !(r.positiveDirection && r.negativeDirection))
  {
  }

  /** `reset_value` of the numeric processor, clock reading `now`. */
  function AfterNumericResetValue(s: NumericState, now: real): NumericState
  {
    NumericState(AfterResetValue(s.base, now), None, false, false, None, None, None, 0.0, 0)
  }

  /** `update_statistics(value)`. */
  function AfterUpdateStatistics(s: NumericState, v: real): NumericState
  {
    var sum := s.meanSum + v;
    var count := s.meanCount + 1;
    var mean := if count != 0 then sum / (count as real) else 0.0;
    var minValue := if s.minValue.None? || v < s.minValue.value then Some(v) else s.minValue;
    var maxValue := if s.maxValue.None? || v > s.maxValue.value then Some(v) else s.maxValue;
    s.(meanSum := sum, meanCount := count, meanValue := Some(mean), minValue := minValue, maxValue := maxValue)
  }

  /** The sum of a sequence of readings. */
  function Sum(h: seq<real>): real
  {
    if |h| == 0 then 0.0 else h[0] + Sum(h[1..])
  }

  lemma {:induction false} SumAppend(h: seq<real>, v: real)
    ensures Sum(h + [v]) == Sum(h) + v
  {
    if |h| == 0 {
      assert h + [v] == [v];
    } else {
      assert (h + [v])[1..] == h[1..] + [v];
      SumAppend(h[1..], v);
    }
  }

  /**
   * The statistics describe exactly the readings `h` accepted since the last reset: `mean_count`
   * is their number, `mean_sum` their sum, `mean_value` their mean, and `min_value`/`max_value`
   * are readings that bound all of them (all None before the first).
   */
  predicate StatsCover(s: NumericState, h: seq<real>)
  {
    && s.meanCount == |h|
    && s.meanSum == Sum(h)
    && (|h| == 0 ==> s.minValue.None? && s.maxValue.None? && s.meanValue.None?)
    && (|h| > 0 ==>
          && s.minValue.Some? && s.maxValue.Some?
          && s.meanValue == Some(Sum(h) / (|h| as real))
          && s.minValue.value in h && s.maxValue.value in h
          && (forall i :: 0 <= i < |h| ==> s.minValue.value <= h[i] <= s.maxValue.value))
  }

  /** A reset state covers no readings. */
  lemma ResetCoversNothing(s: NumericState, now: real)
    ensures StatsCover(AfterNumericResetValue(s, now), [])
    ensures StatsCover(InitialNumeric(), [])
  {
  }

  /** One statistics update adds one reading to the covered history and changes nothing else. */
  lemma UpdateStatisticsExtends(s: NumericState, h: seq<real>, v: real)
    requires StatsCover(s, h)
    ensures StatsCover(AfterUpdateStatistics(s, v), h + [v])
    ensures var r := AfterUpdateStatistics(s, v);
      r.(meanSum := s.meanSum, meanCount := s.meanCount, meanValue := s.meanValue,
         minValue := s.minValue, maxValue := s.maxValue) == s
  {
    SumAppend(h, v);
    var r := AfterUpdateStatistics(s, v);
    var h' := h + [v];
    assert h'[|h|] == v;
    if |h| > 0 {
      assert s.minValue.value in h';
      assert s.maxValue.value in h';
      forall i | 0 <= i < |h'|
        ensures r.minValue.value <= h'[i] <= r.maxValue.value
      {
        if i < |h| {
          assert h'[i] == h[i];
        }
      }
    }
  }

  /** The incremental path of `set_value` (`__set_value_incremental`). */
  function AfterSetIncremental(config: NodeConfig, s: NumericState, v: real): NumericState
  {
    if s.initialValue.None? then s.(initialValue := Some(v), base := s.base.(value := Some(ZERO)))
    else
      var current := if s.base.value.Some? then s.base.value.value else ZERO;
      var newValue := if !IsSet(config.incremental.calculateIncrement) then v
        else if IsSet(config.incremental.positiveIncremental) then current + v
        else v - s.initialValue.value;
      var delta := if !IsSet(config.incremental.calculateIncrement) then newValue - current
        else if IsSet(config.incremental.positiveIncremental) then v
        else newValue - current;
      var d := AfterUpdateDirection(s, delta);
      d.(base := d.base.(value := Some(newValue)))
  }

  /**
   * The incremental path with the direction taken from the new value rather than from the
   * delta, as the legacy controller/device.py does: a rising counter reads as positive.
   */
  function AfterSetIncrementalIntended(config: NodeConfig, s: NumericState, v: real): (r: NumericState)
    ensures var w := AfterSetIncremental(config, s, v);
      r.(positiveDirection := w.positiveDirection, negativeDirection := w.negativeDirection) == w
    ensures s.initialValue.Some? && s.base.value.Some? ==>
      && r.base.value.Some?
      && (r.base.value.value > s.base.value.value ==> r.positiveDirection && !r.negativeDirection)
      && (r.base.value.value < s.base.value.value ==> r.negativeDirection && !r.positiveDirection)
      && (r.base.value.value == s.base.value.value ==>
            r.positiveDirection == s.positiveDirection && r.negativeDirection == s.negativeDirection)
  {
    var w := AfterSetIncremental(config, s, v);
    if s.initialValue.None? then w
    else
      var d := AfterUpdateDirection(s, w.base.value.value);
      d.(base := d.base.(value := w.base.value))
  }

  /** The non-incremental path of `set_value` (`__set_value_non_incremental`). */
  function AfterSetNonIncremental(config: NodeConfig, s: NumericState, v: real): NumericState
  {
    var d := AfterUpdateDirection(s, v);
    var withValue := d.(base := d.base.(value := Some(v)));
    AfterCheckAlarms(config, AfterUpdateStatistics(withValue, v), v)
  }

  /** `set_value(value)` with clock reading `now`. */
  function AfterSetValue(config: NodeConfig, s: NumericState, value: Option<real>, now: real): NumericState
  {
    var p := AfterPrepare(config, s.base, value, now);
    var s1 := s.(base := p.state);
    if !p.proceed || value.None? then s1
    else if IsSet(config.incremental.incrementalNode) then AfterSetIncremental(config, s1, value.value)
    else AfterSetNonIncremental(config, s1, value.value)
  }

  /** Whether `set_value` takes a reading into the statistics. */
  predicate AcceptsIntoStatistics(config: NodeConfig, value: Option<real>)
  {
    config.enabled && value.Some? && !IsSet(config.incremental.incrementalNode)
  }

  /**
   * Every `set_value` keeps the statistics exact: an accepted non-incremental reading is added
   * to the covered history, anything else leaves it as it was.
   */
  lemma SetValueKeepsStatistics(config: NodeConfig, s: NumericState, h: seq<real>, value: Option<real>, now: real)
    requires StatsCover(s, h)
    ensures StatsCover(AfterSetValue(config, s, value, now),
                       if AcceptsIntoStatistics(config, value) then h + [value.value] else h)
  {
    var p := AfterPrepare(config, s.base, value, now);
    var s1 := s.(base := p.state);
    if AcceptsIntoStatistics(config, value) {
      var d := AfterUpdateDirection(s1, value.value);
      var withValue := d.(base := d.base.(value := Some(value.value)));
      UpdateStatisticsExtends(withValue, h, value.value);
      var u := AfterUpdateStatistics(withValue, value.value);
      assert AfterSetValue(config, s, value, now) == AfterCheckAlarms(config, u, value.value);
    } else if p.proceed && value.Some? {
      assert AfterSetValue(config, s, value, now) == AfterSetIncremental(config, s1, value.value);
    } else {
      assert AfterSetValue(config, s, value, now) == s1;
    }
  }

  /** The two direction flags are never both set. */
  predicate DirectionExclusive(s: NumericState)
  {
    !(s.positiveDirection && s.negativeDirection)
  }

  /** Every `set_value` and every reset keeps the direction flags exclusive. */
  lemma SetValueKeepsDirectionExclusive(config: NodeConfig, s: NumericState, value: Option<real>, now: real)
    requires DirectionExclusive(s)
    ensures DirectionExclusive(AfterSetValue(config, s, value, now))
    ensures DirectionExclusive(AfterNumericResetValue(s, now))
    ensures DirectionExclusive(AfterResetDirection(s))
    ensures DirectionExclusive(InitialNumeric())
  {
    var p := AfterPrepare(config, s.base, value, now);
    var s1 := s.(base := p.state);
    if p.proceed && value.Some? {
      var v := value.value;
      if IsSet(config.incremental.incrementalNode) && s1.initialValue.Some? {
        var current := if s1.base.value.Some? then s1.base.value.value else ZERO;
        var newValue := if !IsSet(config.incremental.calculateIncrement) then v
          else if IsSet(config.incremental.positiveIncremental) then current + v
          else v - s1.initialValue.value;
        var delta := if !IsSet(config.incremental.calculateIncrement) then newValue - current
          else if IsSet(config.incremental.positiveIncremental) then v
          else newValue - current;
        UpdateDirectionCases(s1, delta);
      } else if !IsSet(config.incremental.incrementalNode) {
        UpdateDirectionCases(s1, v);
      }
    }
  }

  /** The alarm flags after a reading: latched, and only raised by a non-incremental reading. */
  lemma SetValueAlarms(config: NodeConfig, s: NumericState, value: Option<real>, now: real)
    ensures var r := AfterSetValue(config, s, value, now); var a := config.alarms;
      && (s.base.minAlarmState ==> r.base.minAlarmState)
      && (s.base.maxAlarmState ==> r.base.maxAlarmState)
      && (r.base.minAlarmState && !s.base.minAlarmState ==>
            AcceptsIntoStatistics(config, value) && a.minAlarm && a.minAlarmValue.Some? && value.value < a.minAlarmValue.value)
      && (r.base.maxAlarmState && !s.base.maxAlarmState ==>
            AcceptsIntoStatistics(config, value) && a.maxAlarm && a.maxAlarmValue.Some? && value.value > a.maxAlarmValue.value)
  {
  }

  /**
   * Incremental readings: the first stores the reading as the initial value and publishes
   * ZERO; later ones give the raw reading (no increment calculation), the accumulated
   * readings (positive incremental) or the reading minus the initial value. The statistics
   * and the alarm states are never touched.
   */
  lemma IncrementalValue(config: NodeConfig, s: NumericState, v: real, now: real)
    requires config.enabled && IsSet(config.incremental.incrementalNode)
    ensures var r := AfterSetValue(config, s, Some(v), now);
      && (s.initialValue.None? ==> r.initialValue == Some(v) && r.base.value == Some(ZERO))
      && (s.initialValue.Some? ==> r.initialValue == s.initialValue && r.base.value.Some?)
      && (s.initialValue.Some? && !IsSet(config.incremental.calculateIncrement) ==> r.base.value == Some(v))
      && (s.initialValue.Some? && IsSet(config.incremental.calculateIncrement) && IsSet(config.incremental.positiveIncremental) ==>
            r.base.value == Some((if s.base.value.Some? then s.base.value.value else ZERO) + v))
      && (s.initialValue.Some? && IsSet(config.incremental.calculateIncrement) && !IsSet(config.incremental.positiveIncremental) ==>
            r.base.value == Some(v - s.initialValue.value))
      && r.minValue == s.minValue && r.maxValue == s.maxValue && r.meanValue == s.meanValue
      && r.meanSum == s.meanSum && r.meanCount == s.meanCount
      && r.base.minAlarmState == s.base.minAlarmState && r.base.maxAlarmState == s.base.maxAlarmState
  {
  }

  /** A disabled node ignores every reading; a None reading only clears the value and updates the timestamp. */
  lemma SetValueGate(config: NodeConfig, s: NumericState, now: real, value: Option<real>)
    ensures !config.enabled ==> AfterSetValue(config, s, value, now) == s
    ensures config.enabled ==>
      AfterSetValue(config, s, None, now) == s.(base := AfterUpdateTimestamp(s.base, now).(value := None))
  {
  }

  /** The default configuration of a FLOAT node (as `NodeConfig(name, FLOAT, unit)` builds it). */
  function FloatConfig(incremental: bool): NodeConfig
  {
    var c := NewNodeConfig("n", FLOAT, Some("u"));
    c.(incremental := c.incremental.(incrementalNode := Some(incremental)))
  }

  /**
   * Example: readings 10 then 15 on a plain FLOAT node give value 15, positive direction only,
   * minimum 10, maximum 15 and mean 12.5.
   */
  lemma DirectionAndStatisticsTrace(t1: real, t2: real)
    ensures var s := AfterSetValue(FloatConfig(false), AfterSetValue(FloatConfig(false), InitialNumeric(), Some(10.0), t1), Some(15.0), t2);
      && s.base.value == Some(15.0) && s.positiveDirection && !s.negativeDirection
      && s.minValue == Some(10.0) && s.maxValue == Some(15.0) && s.meanValue == Some(12.5)
  {
  }

  /**
   * Example: readings 100, 150, 140 on an incremental FLOAT node publish 0, 50, 40, with the
   * positive direction after the second reading and the negative one after the third.
   */
  lemma IncrementalTrace(t1: real, t2: real, t3: real)
    ensures var c := FloatConfig(true);
      var s1 := AfterSetValue(c, InitialNumeric(), Some(100.0), t1);
      var s2 := AfterSetValue(c, s1, Some(150.0), t2);
      var s3 := AfterSetValue(c, s2, Some(140.0), t3);
      && s1.base.value == Some(0.0)
      && s2.base.value == Some(50.0) && s2.positiveDirection && !s2.negativeDirection
      && s3.base.value == Some(40.0) && s3.negativeDirection && !s3.positiveDirection
  {
  }

  /**
   * Example: readings 100, 200, 260 on an incremental FLOAT node publish 0, 100, 160. As
   * written the third reading compares its delta 60 with the current value 100 and sets the
   * negative direction on a rising counter; the intended comparison of the new value sets the
   * positive one.
   */
  lemma IncrementalDirectionCounterexample(t1: real, t2: real, t3: real)
    ensures var c := FloatConfig(true);
      var s1 := AfterSetValue(c, InitialNumeric(), Some(100.0), t1);
      var s2 := AfterSetValue(c, s1, Some(200.0), t2);
      var s3 := AfterSetValue(c, s2, Some(260.0), t3);
      var prepared := s2.(base := AfterPrepare(c, s2.base, Some(260.0), t3).state);
      var intended := AfterSetIncrementalIntended(c, prepared, 260.0);
      && s2.base.value == Some(100.0) && s2.positiveDirection
      && s3.base.value == Some(160.0) && s3.negativeDirection && !s3.positiveDirection
      && intended.base.value == Some(160.0) && intended.positiveDirection && !intended.negativeDirection
  {
  }

  /** Python's `int(x)` on a float: truncation toward zero. */
  function Trunc(r: real): (i: int)
    ensures r >= 0.0 ==> 0.0 <= r - (i as real) < 1.0
    ensures r < 0.0 ==> 0.0 <= (i as real) - r < 1.0
  {
    if r >= 0.0 then r.Floor else -((-r).Floor)
  }

  /**
   * A number as published or logged: `round(x, decimal_places)` when decimal places are set,
   * else `int(x)`. `round` is Python's built-in, left uninterpreted.
   */
  function FormatNumber(x: real, decimalPlaces: Value, round: (real, int) -> real): Value
  {
    if decimalPlaces.Null? then Int(Trunc(x))
    else if IsInt(decimalPlaces) then Float(round(x, AsInt(decimalPlaces)))
    else Null
  }

  /** `FormatNumber` on an optional value: None stays None. */
  function FormatOptional(x: Option<real>, decimalPlaces: Value, round: (real, int) -> real): Value
  {
    if x.Some? then FormatNumber(x.value, decimalPlaces, round) else Null
  }

  /** `get_publish_format(additional_data)`: the formatted value added to the base format. */
  function NumericPublishFormat(config: NodeConfig, s: NumericState, additional: map<string, Value>,
                                round: (real, int) -> real): map<string, Value>
  {
    PublishFormat(config, s.base, additional["value" := FormatOptional(s.base.value, config.decimalPlaces, round)])
  }

  /** The published value is the formatted current value; the base keys are as for every node. */
  lemma NumericPublishFormatValue(config: NodeConfig, s: NumericState, additional: map<string, Value>, round: (real, int) -> real)
    ensures var out := NumericPublishFormat(config, s, additional, round);
      && "value" in out && out["value"] == FormatOptional(s.base.value, config.decimalPlaces, round)
      && (s.base.value.None? ==> out["value"] == Null)
      && (s.base.value.Some? && config.decimalPlaces.Null? ==> out["value"] == Int(Trunc(s.base.value.value)))
      && out["type"] == TypeValue(config) && out["unit"] == OptStr(config.unit)
  {
    PublishFormatContents(config, s.base, additional["value" := FormatOptional(s.base.value, config.decimalPlaces, round)]);
  }

  /**
   * The data `submit_log` hands to the base class: mean, min and max formatted; a missing
   * min or max is written under "mean_value" as the source does.
   */
  function NumericLogData(config: NodeConfig, s: NumericState, additional: map<string, Value>,
                          round: (real, int) -> real): map<string, Value>
  {
    var dp := config.decimalPlaces;
    var o1 := additional["mean_value" := FormatOptional(s.meanValue, dp, round)];
    var o2 := if s.minValue.Some? then o1["min_value" := FormatNumber(s.minValue.value, dp, round)] else o1["mean_value" := Null];
    if s.maxValue.Some? then o2["max_value" := FormatNumber(s.maxValue.value, dp, round)] else o2["mean_value" := Null]
  }

  /**
   * The state `submit_log` leaves: the base class's call to the overridden `reset_value`
   * (clock reading `now1`), the new log time, then the second `reset_value` (reading `now2`).
   */
  function AfterNumericSubmitLog(s: NumericState, dateTime: DateTime, now1: real, now2: real): NumericState
  {
    var r1 := AfterNumericResetValue(s, now1);
    AfterNumericResetValue(r1.(base := r1.base.(lastLogDatetime := Some(dateTime))), now2)
  }

  /**
   * After `submit_log` the processor is in its reset state (no value, no statistics, no
   * direction, elapsed time None) with the log time advanced to `dateTime`; the entry itself
   * has only the four base keys.
   */
  lemma NumericSubmitLogResets(config: NodeConfig, s: NumericState, dateTime: DateTime, now1: real, now2: real,
                               additional: map<string, Value>, round: (real, int) -> real)
    ensures var r := AfterNumericSubmitLog(s, dateTime, now1, now2);
      && r == NumericState(BaseState(Some(dateTime), s.base.minAlarmState, s.base.maxAlarmState, None, Some(now2), None),
                           None, false, false, None, None, None, 0.0, 0)
      && StatsCover(r, [])
    ensures SubmitLogEntry(config, s.base, dateTime, NumericLogData(config, s, additional, round)).Keys
      == {"name", "unit", "start_time", "end_time"}
  {
  }

  /**
   * With no readings since the last reset, mean, min and max are all None, so writing a
   * missing min or max under "mean_value" only repeats that "mean_value" is None.
   */
  lemma NumericLogDataNoReadings(config: NodeConfig, s: NumericState, additional: map<string, Value>,
                                 round: (real, int) -> real)
    requires StatsCover(s, [])
    ensures NumericLogData(config, s, additional, round) == additional["mean_value" := Null]
  {
  }

  /** With readings, mean, min and max are all present and formatted. */
  lemma NumericLogDataWithReadings(config: NodeConfig, s: NumericState, h: seq<real>, additional: map<string, Value>,
                                   round: (real, int) -> real)
    requires StatsCover(s, h) && |h| > 0
    ensures var d := NumericLogData(config, s, additional, round); var dp := config.decimalPlaces;
      && d.Keys == additional.Keys + {"mean_value", "min_value", "max_value"}
      && d["mean_value"] == FormatNumber(Sum(h) / (|h| as real), dp, round)
      && d["min_value"] == FormatNumber(s.minValue.value, dp, round)
      && d["max_value"] == FormatNumber(s.maxValue.value, dp, round)
  {
  }

  /**
   * With the corrected base entry (the additional data kept), a numeric log entry carries the
   * formatted mean, and the formatted min and max once there is a reading.
   */
  lemma NumericMergedLogKeepsStatistics(config: NodeConfig, s: NumericState, h: seq<real>, dateTime: DateTime,
                                        round: (real, int) -> real)
    requires StatsCover(s, h) && |h| > 0
    ensures var e := SubmitLogEntryMerged(config, s.base, dateTime, NumericLogData(config, s, map[], round));
      var dp := config.decimalPlaces;
      && e.Keys == {"name", "unit", "start_time", "end_time", "mean_value", "min_value", "max_value"}
      && e["mean_value"] == FormatNumber(Sum(h) / (|h| as real), dp, round)
      && e["min_value"] == FormatNumber(s.minValue.value, dp, round)
      && e["max_value"] == FormatNumber(s.maxValue.value, dp, round)
  {
    NumericLogDataWithReadings(config, s, h, map[], round);
    SubmitLogEntryMergedKeepsData(config, s.base, dateTime, NumericLogData(config, s, map[], round));
  }

  /** A `NumericNodeProcessor`: the shared processor fields plus the numeric tracking fields. */
  class NumericNodeProcessor {
    const core: NodeProcessor<real>
    var initialValue: Option<real>
    var positiveDirection: bool
    var negativeDirection: bool
    var minValue: Option<real>
    var maxValue: Option<real>
    var meanValue: Option<real>
    var meanSum: real
    var meanCount: int

    /** The mutable fields as a value. */
    function State(): NumericState
      reads this, core
    {
      NumericState(core.State(), initialValue, positiveDirection, negativeDirection, minValue, maxValue,
                   meanValue, meanSum, meanCount)
    }

    constructor(configuration: NodeConfig, valueType: ValueType)
      ensures fresh(core) && core.config == configuration && core.valueType == valueType
      ensures State() == InitialNumeric()
    {
      core := new NodeProcessor(configuration, valueType);
      initialValue := None;
      positiveDirection, negativeDirection := false, false;
      minValue, maxValue, meanValue := None, None, None;
      meanSum, meanCount := 0.0, 0;
    }

    method CheckAlarms(v: real)
      modifies core
      ensures State() == AfterCheckAlarms(core.config, old(State()), v)
    {
      var a := core.config.alarms;
      if a.minAlarm && a.minAlarmValue.Some? {
        if v < a.minAlarmValue.value {
          core.minAlarmState := true;
        }
      }
      if a.maxAlarm && a.maxAlarmValue.Some? {
        if v > a.maxAlarmValue.value {
          core.maxAlarmState := true;
        }
      }
    }

    method ResetDirection()
      modifies this
      ensures State() == AfterResetDirection(old(State()))
    {
      positiveDirection := false;
      negativeDirection := false;
    }

    method UpdateDirection(newValue: real)
      modifies this
      ensures State() == AfterUpdateDirection(old(State()), newValue)
    {
      if core.value.None? {
        return;
      }
      if newValue > core.value.value {
        positiveDirection := true;
        negativeDirection := false;
      } else if newValue < core.value.value {
        positiveDirection := false;
        negativeDirection := true;
      }
    }

    method ResetValue(now: real)
      modifies this, core
      ensures State() == AfterNumericResetValue(old(State()), now)
    {
      core.ResetValue(now);
      initialValue := None;
      minValue := None;
      maxValue := None;
      meanValue := None;
      meanSum := 0.0;
      meanCount := 0;
      positiveDirection := false;
      negativeDirection := false;
    }

    method UpdateStatistics(v: real)
      modifies this
      ensures State() == AfterUpdateStatistics(old(State()), v)
    {
      meanSum := meanSum + v;
      meanCount := meanCount + 1;
      meanValue := Some(if meanCount != 0 then meanSum / (meanCount as real) else 0.0);
      if minValue.None? || v < minValue.value {
        minValue := Some(v);
      }
      if maxValue.None? || v > maxValue.value {
        maxValue := Some(v);
      }
    }

    method SetValue(value: Option<real>, now: real)
      modifies this, core
      ensures State() == AfterSetValue(core.config, old(State()), value, now)
    {
      var proceed := core.PrepareSetValue(value, now);
      if !proceed || value.None? {
        return;
      }
      if IsSet(core.config.incremental.incrementalNode) {
        SetValueIncremental(value.value);
      } else {
        SetValueNonIncremental(value.value);
      }
    }

    method SetValueIncremental(v: real)
      modifies this, core
      ensures State() == AfterSetIncremental(core.config, old(State()), v)
    {
      if initialValue.None? {
        initialValue := Some(v);
        core.value := Some(ZERO);
        return;
      }
      var current := if core.value.Some? then core.value.value else ZERO;
      var newValue, delta;
      if !IsSet(core.config.incremental.calculateIncrement) {
        newValue := v;
        delta := newValue - current;
      } else if IsSet(core.config.incremental.positiveIncremental) {
        delta := v;
        newValue := current + delta;
      } else {
        newValue := v - initialValue.value;
        delta := newValue - current;
      }
      UpdateDirection(delta);
      core.value := Some(newValue);
    }

    method SetValueNonIncremental(v: real)
      modifies this, core
      ensures State() == AfterSetNonIncremental(core.config, old(State()), v)
    {
      UpdateDirection(v);
      core.value := Some(v);
      UpdateStatistics(v);
      CheckAlarms(v);
    }

    /** `get_publish_format(additional_data)`. */
    function GetPublishFormat(additional: map<string, Value>, round: (real, int) -> real): map<string, Value>
      reads this, core
    {
      NumericPublishFormat(core.config, State(), additional, round)
    }

    /** `submit_log(date_time, additional_data)` with the two clock readings it makes. */
    method SubmitLog(dateTime: DateTime, now1: real, now2: real, additional: map<string, Value>,
                     round: (real, int) -> real) returns (output: map<string, Value>)
      modifies this, core
      ensures output == SubmitLogEntry(core.config, old(State()).base, dateTime, NumericLogData(core.config, old(State()), additional, round))
      ensures State() == AfterNumericSubmitLog(old(State()), dateTime, now1, now2)
    {
      var data := NumericLogData(core.config, State(), additional, round);
      output := SubmitLogEntry(core.config, core.State(), dateTime, data);
      ResetValue(now1);
      core.lastLogDatetime := Some(dateTime);
      ResetValue(now2);
    }
  }
}
