/** `BoolNodeProcessor` (`controller/node/processor/bool_processor.py`): boolean node values. */
module BoolProcessor {
  import opened Wrappers
  import opened Values
  import opened Dates
  import opened NodeModel
  import opened BaseProcessor

  /** `check_alarms`: alarms are not supported for boolean nodes. */
  function BoolCheckAlarms(v: bool): (r: Outcome<ProcessorError>)
    ensures r.Fail? && r.error.NotImplemeted?
  {
    Fail(NotImplemeted("check_alarms method is not implemented for bool nodes"))
  }

  /** `set_value(value)` with clock reading `now`. */
  function AfterBoolSetValue(config: NodeConfig, s: BaseState<bool>, value: Option<bool>, now: real): BaseState<bool>
  {
    var p := AfterPrepare(config, s, value, now);
    if !p.proceed || value.None? then p.state else p.state.(value := value)
  }

  /**
   * On an enabled node the reading (a boolean or None) becomes the value and the timestamp
   * moves to `now`; a disabled node is left unchanged.
   */
  lemma BoolSetValueStores(config: NodeConfig, s: BaseState<bool>, value: Option<bool>, now: real)
    ensures var r := AfterBoolSetValue(config, s, value, now);
      && (config.enabled ==> r.value == value && r.timestamp == Some(now))
      && (config.enabled ==> r == AfterUpdateTimestamp(s, now).(value := value))
      && (!config.enabled ==> r == s)
  {
  }

  /** `get_publish_format(additional_data)`. */
  function BoolPublishFormat(config: NodeConfig, s: BaseState<bool>, additional: map<string, Value>): map<string, Value>
  {
    PublishFormat(config, s, additional["value" := OptBool(s.value)])
  }

  /** The publish format carries the current value next to the base fields. */
  lemma BoolPublishFormatValue(config: NodeConfig, s: BaseState<bool>, additional: map<string, Value>)
    ensures var out := BoolPublishFormat(config, s, additional);
      && "value" in out && out["value"] == OptBool(s.value)
      && out["type"] == TypeValue(config) && out["unit"] == OptStr(config.unit)
  {
    PublishFormatContents(config, s, additional["value" := OptBool(s.value)]);
  }

  /** The log entry: the value is added, then dropped by the base class. */
  function BoolSubmitLogEntry(config: NodeConfig, s: BaseState<bool>, dateTime: DateTime, additional: map<string, Value>): map<string, Value>
  {
    SubmitLogEntry(config, s, dateTime, additional["value" := OptBool(s.value)])
  }

  /** The entry holds only the four base keys. */
  lemma BoolSubmitLogOnlyBaseKeys(config: NodeConfig, s: BaseState<bool>, dateTime: DateTime, additional: map<string, Value>)
    ensures BoolSubmitLogEntry(config, s, dateTime, additional).Keys == {"name", "unit", "start_time", "end_time"}
    ensures "value" !in BoolSubmitLogEntry(config, s, dateTime, additional)
  {
  }

  /** A `BoolNodeProcessor`: the shared processor with `bool` values. */
  class BoolNodeProcessor {
    const core: NodeProcessor<bool>

    constructor(configuration: NodeConfig)
      ensures fresh(core) && core.config == configuration && core.valueType == BoolType
      ensures core.State() == InitialBase()
    {
      core := new NodeProcessor(configuration, BoolType);
    }

    method CheckAlarms(v: bool) returns (r: Outcome<ProcessorError>)
      ensures r == BoolCheckAlarms(v)
    {
      r := Fail(NotImplemeted("check_alarms method is not implemented for bool nodes"));
    }

    method SetValue(value: Option<bool>, now: real)
      modifies core
      ensures core.State() == AfterBoolSetValue(core.config, old(core.State()), value, now)
    {
      var proceed := core.PrepareSetValue(value, now);
      if !proceed || value.None? {
        return;
      }
      core.value := value;
    }

    function GetPublishFormat(additional: map<string, Value>): map<string, Value>
      reads core
    {
      BoolPublishFormat(core.config, core.State(), additional)
    }

    method SubmitLog(dateTime: DateTime, now: real, additional: map<string, Value>) returns (output: map<string, Value>)
      modifies core
      ensures output == BoolSubmitLogEntry(core.config, old(core.State()), dateTime, additional)
      ensures core.State() == AfterSubmitLog(old(core.State()), dateTime, now)
    {
      var data := additional["value" := OptBool(core.value)];
      output := core.SubmitLog(dateTime, now, data);
    }
  }
}
