/** `StringNodeProcessor` (`controller/node/processor/string_processor.py`): string node values. */
module StringProcessor {
  import opened Wrappers
  import opened Values
  import opened Dates
  import opened NodeModel
  import opened BaseProcessor

  /** `check_alarms`: alarms are not supported for string nodes. */
  function StringCheckAlarms(v: string): (r: Outcome<ProcessorError>)
    ensures r.Fail? && r.error.NotImplemeted?
  {
    Fail(NotImplemeted("check_alarms method is not implemented for string nodes"))
  }

  /** `set_value(value)` with clock reading `now`. */
  function AfterStringSetValue(config: NodeConfig, s: BaseState<string>, value: Option<string>, now: real): BaseState<string>
  {
    var p := AfterPrepare(config, s, value, now);
    if !p.proceed || value.None? then p.state else p.state.(value := value)
  }

  /**
   * On an enabled node the reading (a string or None) becomes the value and the timestamp
   * moves to `now`; a disabled node is left unchanged.
   */
  lemma StringSetValueStores(config: NodeConfig, s: BaseState<string>, value: Option<string>, now: real)
    ensures var r := AfterStringSetValue(config, s, value, now);
      && (config.enabled ==> r.value == value && r.timestamp == Some(now))
      && (config.enabled ==> r == AfterUpdateTimestamp(s, now).(value := value))
      && (!config.enabled ==> r == s)
  {
  }

  /** `get_publish_format(additional_data)`. */
  function StringPublishFormat(config: NodeConfig, s: BaseState<string>, additional: map<string, Value>): map<string, Value>
  {
    PublishFormat(config, s, additional["value" := OptStr(s.value)])
  }

  /** The publish format carries the current value next to the base fields. */
  lemma StringPublishFormatValue(config: NodeConfig, s: BaseState<string>, additional: map<string, Value>)
    ensures var out := StringPublishFormat(config, s, additional);
      && "value" in out && out["value"] == OptStr(s.value)
      && out["type"] == TypeValue(config) && out["unit"] == OptStr(config.unit)
  {
    PublishFormatContents(config, s, additional["value" := OptStr(s.value)]);
  }

  /** The log entry: the value is added, then dropped by the base class. */
  function StringSubmitLogEntry(config: NodeConfig, s: BaseState<string>, dateTime: DateTime, additional: map<string, Value>): map<string, Value>
  {
    SubmitLogEntry(config, s, dateTime, additional["value" := OptStr(s.value)])
  }

  /** The entry holds only the four base keys. */
  lemma StringSubmitLogOnlyBaseKeys(config: NodeConfig, s: BaseState<string>, dateTime: DateTime, additional: map<string, Value>)
    ensures StringSubmitLogEntry(config, s, dateTime, additional).Keys == {"name", "unit", "start_time", "end_time"}
    ensures "value" !in StringSubmitLogEntry(config, s, dateTime, additional)
  {
  }

  /** A `StringNodeProcessor`: the shared processor with `str` values. */
  class StringNodeProcessor {
    const core: NodeProcessor<string>

    constructor(configuration: NodeConfig)
      ensures fresh(core) && core.config == configuration && core.valueType == StrType
      ensures core.State() == InitialBase()
    {
      core := new NodeProcessor(configuration, StrType);
    }

    method CheckAlarms(v: string) returns (r: Outcome<ProcessorError>)
      ensures r == StringCheckAlarms(v)
    {
      r := Fail(NotImplemeted("check_alarms method is not implemented for string nodes"));
    }

    method SetValue(value: Option<string>, now: real)
      modifies core
      ensures core.State() == AfterStringSetValue(core.config, old(core.State()), value, now)
    {
      var proceed := core.PrepareSetValue(value, now);
      if !proceed || value.None? {
        return;
      }
      core.value := value;
    }

    function GetPublishFormat(additional: map<string, Value>): map<string, Value>
      reads core
    {
      StringPublishFormat(core.config, core.State(), additional)
    }

    method SubmitLog(dateTime: DateTime, now: real, additional: map<string, Value>) returns (output: map<string, Value>)
      modifies core
      ensures output == StringSubmitLogEntry(core.config, old(core.State()), dateTime, additional)
      ensures core.State() == AfterSubmitLog(old(core.State()), dateTime, now)
    {
      var data := additional["value" := OptStr(core.value)];
      output := core.SubmitLog(dateTime, now, data);
    }
  }
}
