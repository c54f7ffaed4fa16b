# enervigiledge energy-meter core in Dafny

This project is a Dafny model of the data-point and energy-meter core of enervigiledge, an edge
service that reads energy meters over Modbus RTU and OPC UA, calculates derived quantities,
logs them to InfluxDB and serves them over an HTTP API. It models the sequential, in-memory
rules of that service and proves properties about them. Clock readings, client identity, decoded
tokens, registry contents and the maths functions are parameters. Device I/O, the network,
databases and asyncio are not modelled.

The model follows the source file by file:

- **Node processors.** These are `processor.dfy` (`BaseProcessor`), `numeric_processor.dfy`,
  `bool_processor.dfy` and `string_processor.dfy`. Each processor's fields are a datatype
  snapshot with pure transition functions. The lemmas about those functions cover the
  enabled/`None` gate, the elapsed time, the exclusive direction flags, running statistics,
  latched alarms, the incremental-counter modes and the resets. A class per processor holds the
  same fields, and each of its methods is proved to leave exactly the state the transition
  function gives.
- **Node configuration and nodes.** `node_model.dfy` models `NodeConfig` defaults, its warning
  thresholds, `validate` with its auto-fixes, `create_from_node_record`, and `NodeRecord`
  identity. `node.dfy` models the nodes of `controller/node/node.py` and their records.
- **Legacy controllers.** `legacy_node.dfy` models `controller/node.py`, `legacy_device.dfy`
  models `controller/device.py`, and `legacy_meter.dfy` models `controller/meter.py`.
  Each keeps its own normalisation, setters, statistics and energy-meter rules.
- **Energy meter.** `meter_validation.dfy`, `meter_nodes.dfy`, `meter.dfy` and
  `calculation.dfy` model the `controller/meter` package: node-set dependency rules, the
  processing cycle, log timing, directional-energy resets, calculated-node dispatch, the
  publish filter and the derived quantities. `node_snapshot.dfy` is the view of a node that the
  meter code reads and updates through its processor.
- **Registries and device manager.** These are `protocol_registry.dfy`, `type_registry.dfy`
  and `manager.dfy`.
- **Utilities.** These are `meter_util.dfy`, `unit_scaling.dfy`, `dates.dfy`, `strings.dfy`,
  `sliding_window.dfy` and `objects.dfy` (the dataclass reflection helpers).
- **HTTP safety and validation.** `safety.dfy` models the failed-attempt table and the session
  table. `decorator.dfy` models the `auth_endpoint` outcome classification, and
  `web_validation.dfy` models the password rule.
- **Request parsers.** These are `field_parsers.dfy`, `modbus_rtu_parser.dfy`,
  `opc_ua_parser.dfy`, `no_protocol_parser.dfy`, `dataclass_parse.dfy`, `node_parser.dfy` and
  `device_parser.dfy`, with the error codes in `api_errors.dfy`.
- **Time series.** `timedb.dfy` models `to_db_format`, the database name, and the checks and
  variant choice of `get_variable_logs_between`. `db_query.dfy` models
  `QueryVariableLogs.render`.
- **Shared definitions.** `values.dfy` holds Python's dynamic values, `general.dfy` the
  protocol and meter-type enums, and `wrappers.dfy` `Option` and `Result`.

A Python exception is an `Err` of a `Result`. The error paths are modelled alongside the
successful ones, and the first failing check decides the error, as in the source. Where the code
as written cannot do what it evidently means to do, the model keeps both versions: the
as-written one, with a lemma that shows the difference, and the corrected one (see
"Findings"). The rest of the model uses the corrected one, except in three places where the
written behaviour decides what the system stores or answers, so the model keeps it there:

- `submit_log` in `controller/node/processor/processor.py:104-105` builds its entry afresh, so
  the `additional_data` a subclass passes is lost. For example, the numeric processor's mean,
  minimum and maximum never reach the entry. `BaseProcessor.SubmitLogEntry` and the meter
  modules keep that behaviour. `BaseProcessor.SubmitLogEntryMerged` is the merge the subclasses
  expect, and `BaseProcessor.SubmitLogEntryDropsData` shows the difference.
- The option parsers of web/parsers/device.py:161-165 and web/parsers/nodes.py:146-153 catch
  the wrong exception class. `DeviceParser.ParseDeviceWith`, and through it
  `DeviceParser.ParseDevice`, call the written `DeviceParser.ParseCommunicationOptions`.
  `NodeParser.NodeProtocolOptionsOf` calls the written `NodeParser.ParseNodeProtocolOptions`.
  So on these parse paths a protocol without a registered plugin still ends in `NotImplemeted`,
  not INVALID_PROTOCOL. `DeviceParser.ParseCommunicationOptionsIntended` and
  `NodeParser.ParseNodeProtocolOptionsIntended` are the corrected stages.
- The incremental path of controller/node/processor/numeric_processor.py:176 takes the direction
  from the delta. `NumericProcessor.AfterSetIncremental` and every `set_value` member keep that
  behaviour. `NumericProcessor.AfterSetIncrementalIntended` is the corrected path.

## Model

| member | source | states |
|---|---|---|
| `BaseProcessor.UpdateTimestampTracksElapsed` | controller/node/processor/processor.py:64-72 | the first timestamp update sets the elapsed time to 0.0; later ones set it to now minus the previous timestamp; the timestamp becomes now and nothing else changes |
| `BaseProcessor.PrepareGate` | controller/node/processor/processor.py:52-62 | a reading proceeds iff the node is enabled and the reading is not None; a disabled node is left exactly as it was; an enabled node always has its timestamp updated, and a None reading clears the value; log time and alarms are untouched |
| `BaseProcessor.ResetsTouchOnlyTheirFields` | controller/node/processor/processor.py:74-83 | `reset_alarms` clears both alarm flags and nothing else; `reset_value` clears the value and elapsed time and restarts the timestamp at now, nothing else |
| `BaseProcessor.PublishFormatContents` | controller/node/processor/processor.py:85-100 | the publish format always holds type and unit, holds an alarm state exactly when that alarm is enabled (or the caller supplied the key), copies every attribute, keeps every other caller key, and has exactly those keys |
| `BaseProcessor.SubmitLogContents` | controller/node/processor/processor.py:102-109 | the log entry has exactly the keys name, unit, start_time (the previous log time) and end_time, whatever additional data is passed; afterwards the value is reset and the next entry starts at `date_time` |
| `BaseProcessor.SubmitLogEntryDropsData` | controller/node/processor/processor.py:104-105 | as written, data the caller adds (a numeric mean) is absent from the entry, while the merged entry keeps it |
| `BaseProcessor.SubmitLogEntryMergedKeepsData` | controller/node/processor/processor.py:102-109 | the corrected entry has the caller's keys plus the four base keys and keeps every non-base caller value |
| `BaseProcessor.NodeProcessor.constructor` | controller/node/processor/processor.py:21-35 | a new processor keeps its configuration and value type, has no log time, both alarm flags false and value, timestamp and elapsed time None |
| `BaseProcessor.NodeProcessor.UpdateTimestamp` | controller/node/processor/processor.py:64-72 | the fields afterwards are the timestamp transition of the fields before |
| `BaseProcessor.NodeProcessor.PrepareSetValue` | controller/node/processor/processor.py:52-62 | the returned flag and the new fields are those of the gate transition |
| `BaseProcessor.NodeProcessor.ResetAlarms` | controller/node/processor/processor.py:74-77 | the fields afterwards are the alarm-reset transition of the fields before |
| `BaseProcessor.NodeProcessor.ResetValue` | controller/node/processor/processor.py:79-83 | the fields afterwards are the value-reset transition of the fields before |
| `BaseProcessor.NodeProcessor.SubmitLog` | controller/node/processor/processor.py:102-109 | returns the four-key entry built from the state before the call, then resets the value and sets the log time |
| `NumericProcessor.CheckAlarmsLatches` | controller/node/processor/numeric_processor.py:57-71 | a set alarm state stays set; a state becomes set iff that alarm is enabled, has a threshold and the value is strictly below the minimum / above the maximum; nothing else changes |
| `NumericProcessor.UpdateDirectionCases` | controller/node/processor/numeric_processor.py:81-98 | a greater value sets only the positive flag, a smaller one only the negative flag; an equal value or a missing current value changes nothing; exclusive flags stay exclusive |
| `NumericProcessor.ResetCoversNothing` | controller/node/processor/numeric_processor.py:37-50 | both the initial state and the state after `reset_value` describe the empty history: statistics None, sum 0.0, count 0 |
| `NumericProcessor.UpdateStatisticsExtends` | controller/node/processor/numeric_processor.py:115-132 | if the statistics describe history h, after `update_statistics(v)` they describe h + [v]: count +1, sum +v, mean = sum/count, min/max bound every reading and are readings; nothing else changes |
| `NumericProcessor.SetValueKeepsStatistics` | controller/node/processor/numeric_processor.py:134-190 | every `set_value` keeps the statistics exact: an enabled, non-None, non-incremental reading is added to the described history, every other reading leaves it unchanged |
| `NumericProcessor.SetValueKeepsDirectionExclusive` | controller/node/processor/numeric_processor.py:73-113 | the two direction flags are never both set: initially, and after every `set_value`, `reset_value` and `reset_direction` |
| `NumericProcessor.SetValueAlarms` | controller/node/processor/numeric_processor.py:142-190 | alarms latch through `set_value`; an alarm newly set after a reading implies the reading was accepted on the non-incremental path, the alarm is enabled with a threshold and the reading is beyond it |
| `NumericProcessor.IncrementalValue` | controller/node/processor/numeric_processor.py:150-177 | the first incremental reading stores the initial value and sets value to ZERO; later: the raw reading without increment calculation, current + reading when positive-incremental, else reading − initial; statistics and alarms never change |
| `NumericProcessor.SetValueGate` | controller/node/processor/numeric_processor.py:142-143 | a disabled node ignores every reading; on an enabled node a None reading only updates the timestamp and clears the value |
| `NumericProcessor.DirectionAndStatisticsTrace` | tests/test_nodes.py:16-26 | example: readings 10 then 15 on a FLOAT node give value 15, positive direction only, min 10, max 15, mean 12.5 |
| `NumericProcessor.IncrementalTrace` | tests/test_nodes.py:29-39 | example: readings 100, 150, 140 on an incremental node give 0, 50, 40, with positive direction after the second and negative after the third |
| `NumericProcessor.AfterSetIncrementalIntended` | controller/node/processor/numeric_processor.py:150-177 | the corrected incremental path publishes the same value as the written one and differs only in the direction flags, which follow the published value: a rise sets only the positive flag, a fall only the negative one, and no change keeps both |
| `NumericProcessor.IncrementalDirectionCounterexample` | controller/node/processor/numeric_processor.py:176 | as written, readings 100, 200, 260 on an incremental node publish 0, 100, 160 and the third sets the negative direction, because its delta 60 is below the current 100; the corrected path sets the positive one |
| `NumericProcessor.Trunc` | controller/node/processor/numeric_processor.py:205 | Python's `int()` of a float truncates toward zero: the result is within one of the input, on the zero side |
| `NumericProcessor.NumericPublishFormatValue` | controller/node/processor/numeric_processor.py:192-209 | the published "value" is the current value rounded to the decimal places, or truncated when they are unset, or None; the base keys are as for every node |
| `NumericProcessor.NumericSubmitLogResets` | controller/node/processor/numeric_processor.py:221-254 | after `submit_log` the processor is in its reset state (no value, statistics, direction or initial value; log time advanced) and the entry holds only the four base keys |
| `NumericProcessor.NumericLogDataNoReadings` | controller/node/processor/numeric_processor.py:233-250 | with no readings since the reset, the data handed to the base class is the caller's data with "mean_value" None (the missing min/max written under "mean_value" only repeats that) |
| `NumericProcessor.NumericLogDataWithReadings` | controller/node/processor/numeric_processor.py:233-250 | with readings, the log data holds the formatted mean of the history, the formatted min and the formatted max |
| `NumericProcessor.NumericMergedLogKeepsStatistics` | controller/node/processor/numeric_processor.py:221-254 | with the corrected base entry, a numeric log entry carries the formatted mean, min and max of the readings since the last reset |
| `NumericProcessor.NumericNodeProcessor.constructor` | controller/node/processor/numeric_processor.py:37-50 | a new numeric processor is in the initial state: no value, no initial value, no statistics, both flags false |
| `NumericProcessor.NumericNodeProcessor.CheckAlarms` | controller/node/processor/numeric_processor.py:57-71 | the fields afterwards are the alarm-latch transition of the fields before |
| `NumericProcessor.NumericNodeProcessor.ResetDirection` | controller/node/processor/numeric_processor.py:73-79 | both direction flags become false, nothing else changes |
| `NumericProcessor.NumericNodeProcessor.UpdateDirection` | controller/node/processor/numeric_processor.py:81-98 | the fields afterwards are the direction transition of the fields before |
| `NumericProcessor.NumericNodeProcessor.ResetValue` | controller/node/processor/numeric_processor.py:100-113 | the fields afterwards are the numeric reset transition: base reset plus statistics, initial value and direction cleared |
| `NumericProcessor.NumericNodeProcessor.UpdateStatistics` | controller/node/processor/numeric_processor.py:115-132 | the fields afterwards are the statistics transition of the fields before |
| `NumericProcessor.NumericNodeProcessor.SetValue` | controller/node/processor/numeric_processor.py:134-148 | the fields afterwards are the `set_value` transition: gate, then the incremental or the non-incremental path |
| `NumericProcessor.NumericNodeProcessor.SetValueIncremental` | controller/node/processor/numeric_processor.py:150-177 | the fields afterwards are the incremental transition of the fields before |
| `NumericProcessor.NumericNodeProcessor.SetValueNonIncremental` | controller/node/processor/numeric_processor.py:179-190 | the fields afterwards are direction, value, statistics and alarm updates in that order |
| `NumericProcessor.NumericNodeProcessor.SubmitLog` | controller/node/processor/numeric_processor.py:221-254 | returns the base entry built from the formatted statistics, and leaves the twice-reset state with the new log time |
| `BoolProcessor.BoolCheckAlarms` | controller/node/processor/bool_processor.py:31-41 | always fails with `NotImplemeted` |
| `BoolProcessor.BoolSetValueStores` | controller/node/processor/bool_processor.py:43-54 | on an enabled node the reading (a boolean, or None which clears it) becomes the value and the timestamp moves to now; a disabled node is unchanged |
| `BoolProcessor.BoolPublishFormatValue` | controller/node/processor/bool_processor.py:56-69 | the publish format carries the current value next to the base type and unit |
| `BoolProcessor.BoolSubmitLogOnlyBaseKeys` | controller/node/processor/bool_processor.py:77-91 | the log entry has only the four base keys; the added "value" is dropped |
| `BoolProcessor.BoolNodeProcessor.constructor` | controller/node/processor/bool_processor.py:28-29 | a new processor has value type bool and the initial base state |
| `BoolProcessor.BoolNodeProcessor.CheckAlarms` | controller/node/processor/bool_processor.py:31-41 | returns the `NotImplemeted` failure |
| `BoolProcessor.BoolNodeProcessor.SetValue` | controller/node/processor/bool_processor.py:43-54 | the fields afterwards are the boolean set transition |
| `BoolProcessor.BoolNodeProcessor.SubmitLog` | controller/node/processor/bool_processor.py:77-91 | returns the base-only entry and leaves the reset state with the new log time |
| `StringProcessor.StringCheckAlarms` | controller/node/processor/string_processor.py:22-23 | always fails with `NotImplemeted` |
| `StringProcessor.StringSetValueStores` | controller/node/processor/string_processor.py:25-30 | on an enabled node the reading (a string, or None which clears it) becomes the value and the timestamp moves to now; a disabled node is unchanged |
| `StringProcessor.StringPublishFormatValue` | controller/node/processor/string_processor.py:32-36 | the publish format carries the current value next to the base type and unit |
| `StringProcessor.StringSubmitLogOnlyBaseKeys` | controller/node/processor/string_processor.py:38-42 | the log entry has only the four base keys; the added "value" is dropped |
| `StringProcessor.StringNodeProcessor.constructor` | controller/node/processor/string_processor.py:19-20 | a new processor has value type str and the initial base state |
| `StringProcessor.StringNodeProcessor.CheckAlarms` | controller/node/processor/string_processor.py:22-23 | returns the `NotImplemeted` failure |
| `StringProcessor.StringNodeProcessor.SetValue` | controller/node/processor/string_processor.py:25-30 | the fields afterwards are the string set transition |
| `StringProcessor.StringNodeProcessor.SubmitLog` | controller/node/processor/string_processor.py:38-42 | returns the base-only entry and leaves the reset state with the new log time |
| `NodeModel.NodeTypeFromValue` | model/controller/node.py:37-51 | `NodeType(s)` succeeds exactly for "INT", "FLOAT", "BOOL", "STRING" and gives the member with that value |
| `NodeModel.RecordIdentityByKey` | model/controller/node.py:138-161 | two records are equal iff their (device_id, name) agree; equal records hash alike; equality is reflexive, symmetric and transitive |
| `NodeModel.DeriveWarnings` | model/controller/node.py:250-257 | a missing minimum warning becomes min_alarm × 1.02 and a missing maximum warning max_alarm × 0.98 when the alarm threshold is set; given warnings and every other field are kept |
| `NodeModel.PostInit` | model/controller/node.py:250-257 | `__post_init__` changes only the warning thresholds, as derived from the alarm thresholds |
| `NodeModel.PostInitKeepsGivenWarnings` | model/controller/node.py:250-257 | a given warning threshold is never overwritten, and `__post_init__` is idempotent |
| `NodeModel.DeriveWarningsIdempotent` | model/controller/node.py:254-257 | deriving the warnings twice is deriving them once |
| `NodeModel.NewNodeConfigDefaults` | model/controller/node.py:200-220 | `NodeConfig(name, type, unit)` has protocol NONE, enabled, calculate_increment True, no logging, logging period 15, 3 decimal places, and both warnings 0.0 derived from the zero alarm thresholds |
| `NodeModel.ValidateRejectsUnknownProtocol` | model/controller/node.py:272-273 | `validate` fails with the protocol error exactly when the protocol is not a `Protocol` value |
| `NodeModel.ValidateNonNumericChecksCannotFail` | model/controller/node.py:276-294 | the four BOOL/STRING checks never fire, because the auto-fix before them makes them pass |
| `NodeModel.ValidateAutoFixesNonNumeric` | model/controller/node.py:276-284 | a validated BOOL or STRING node has incremental_node False, the other incremental options, both thresholds and the unit None, both alarms off and no decimal places |
| `NodeModel.ValidateFailsExactly` | model/controller/node.py:296-314 | with a valid protocol, `validate` fails iff an incremental node has an alarm on, an enabled alarm has no threshold, logging has a non-int or non-positive period, or a FLOAT has non-int decimal places |
| `NodeModel.ValidateResult` | model/controller/node.py:309-314 | after `validate`, decimal places are None for every non-FLOAT type and the given int for FLOAT; nothing else differs from the auto-fixed configuration |
| `NodeModel.ValidateIdempotent` | model/controller/node.py:259-314 | validating an already validated configuration succeeds and changes nothing |
| `NodeModel.ValidatedIsFixed` | model/controller/node.py:276-284 | a validated configuration is a fixed point of the BOOL/STRING auto-fix |
| `NodeModel.ValidatedPassesChecks` | model/controller/node.py:286-314 | a validated configuration passes the post-fix checks unchanged and keeps its protocol |
| `NodeModel.ValidateIgnoresWarnings` | model/controller/node.py:259-314 | `validate` neither reads nor changes the warning thresholds |
| `NodeModel.ForwardedFields` | model/controller/node.py:238-239 | the forwarded keys are the `NodeConfig` fields other than type, unit, name, attributes and protocol |
| `NodeModel.Filtered` | model/controller/node.py:239 | the filtered config holds exactly the record's config entries whose keys are forwarded, with their values |
| `NodeModel.CreateFromNodeRecord` | model/controller/node.py:237-248 | a record without "type" raises `KeyError` for it before anything else; without "unit" the error is that `KeyError` or the type's `ValueError`; a rebuilt configuration keeps the record's name and protocol |
| `NodeModel.CreateFromNodeRecordIgnoresForeignKey` | model/controller/node.py:237-248 | a config key that is not a `NodeConfig` field (a register or node id) never influences the rebuilt configuration |
| `NodeModel.CreateFromWellFormedRecord` | model/controller/node.py:222-248 | a record whose type, unit, protocol, attributes and forwarded values decode is rebuilt with name and protocol from the record, type and unit from its config, its attributes, the forwarded fields, defaults elsewhere, then `__post_init__` |
| `NodeModel.RecordRoundTrip` | model/controller/node.py:80-88 | a configuration stored as its sixteen base fields and rebuilt by `create_from_node_record` comes back exactly, except that the unstored warnings are derived afresh |
| `NodeModel.AttributesRoundTrip` | model/controller/node.py:100-110 | attributes turned into a dict and back are unchanged |
| `NodeModel.StoredTypeAndUnit` | model/controller/node.py:80-88 | the stored type and unit decode to the configuration's own |
| `NodeModel.StoredFiltered` | model/controller/node.py:239 | filtering a stored base configuration drops exactly type and unit |
| `NodeModel.StoredConfigWellTyped` | model/controller/node.py:63-78 | every stored forwarded value has the type its field declares |
| `NodeModel.StoredWithoutWarnings` | model/controller/node.py:63-78 | the stored configuration has no warning thresholds |
| `NodeController.NewNode` | controller/node/node.py:15-19 | a node is built iff `validate` succeeds and the type has a registered plugin; a validation error comes back as is; the node holds the validated (auto-fixed) configuration and the processor that plugin builds for it |
| `NodeController.NodeRecordContents` | controller/node/node.py:21-44 | a node's record has device id None, the node's name, protocol and attributes, and exactly the sixteen base fields in its config (no warning thresholds) |
| `NodeController.NodeRecordRoundTrip` | controller/node/node.py:21-44 | a node's record rebuilds the node's configuration through `create_from_node_record`, with the warnings derived afresh |
| `NodeController.ModbusRecordExtendsBase` | controller/node/node.py:61-74 | a Modbus RTU record is the base record with "register" added to its config and nothing else changed |
| `NodeController.OPCUARecordExtendsBase` | controller/node/node.py:88-101 | an OPC UA record is the base record with "node_id" added to its config and nothing else changed |
| `NodeController.ModbusRecordRoundTrip` | controller/node/node.py:61-74 | a Modbus RTU node's record rebuilds its configuration; the register is not a configuration field |
| `NodeController.OPCUARecordRoundTrip` | controller/node/node.py:88-101 | an OPC UA node's record rebuilds its configuration; the node id is not a configuration field |
| `NodeController.RebuiltValidates` | controller/node/node.py:15-44 | a validated configuration rebuilt from its record validates unchanged |
| `NodeController.Node.constructor` | controller/node/node.py:15-19 | the node holds the given configuration and processor |
| `NodeController.ModbusRTUNode.constructor` | controller/node/node.py:53-56 | a Modbus RTU node keeps its register and starts disconnected |
| `NodeController.ModbusRTUNode.SetConnectionState` | controller/node/node.py:58-59 | the connection flag becomes the argument |
| `NodeController.OPCUANode.constructor` | controller/node/node.py:80-83 | an OPC UA node keeps its node id and starts disconnected |
| `NodeController.OPCUANode.SetConnectionState` | controller/node/node.py:85-86 | the connection flag becomes the argument |
| `NodeController.NewModbusRTUNode` | controller/node/node.py:53-56 | a Modbus RTU node is built iff its configuration validates and its type is registered; it holds the validated configuration and the register and is disconnected |
| `NodeController.NewOPCUANode` | controller/node/node.py:80-83 | an OPC UA node is built iff its configuration validates and its type is registered; it holds the validated configuration and the node id and is disconnected |
| `LegacyNode.PyAdd` | controller/node.py:480 | Python `+` on two numbers gives a number whose value is the sum |
| `LegacyNode.PySub` | controller/node.py:483 | Python `-` on two numbers gives a number whose value is the difference |
| `LegacyNode.NormaliseDrops` | controller/node.py:106-133 | the constructor drops unit, alarm thresholds and incremental options of BOOL and STRING nodes, drops `decimal_places` unless FLOAT, and keeps everything a numeric node was given |
| `LegacyNode.NormaliseIdempotent` | controller/node.py:106-133 | normalisation touches only the fields it may drop, and normalising twice changes nothing more |
| `LegacyNode.ValidateConfigExactly` | controller/node.py:151-196 | `validate_node` passes exactly on a consistent configuration (valid protocol; no incremental, alarm or unit on BOOL/STRING; no alarm on an incremental node; every enabled alarm has a threshold; logging has a positive int period), and a bad protocol is reported first |
| `LegacyNode.NormalisedNonNumericChecks` | controller/node.py:106-196 | after normalisation a BOOL or STRING node can fail only for its protocol, an enabled alarm or its logging period; the incremental and unit checks never fire |
| `LegacyNode.ConstructValidates` | controller/node.py:83-149 | a node is built exactly when its normalised configuration is consistent, and it holds that configuration |
| `LegacyNode.SetUnitKeepsConsistent` | controller/node.py:198-209 | `set_unit` refuses exactly a non-empty unit on a BOOL/STRING node; an accepted unit keeps the configuration consistent |
| `LegacyNode.SetIncrementalKeepsConsistent` | controller/node.py:211-230 | `set_incremental_node(True)` is refused exactly on BOOL/STRING or alarmed nodes; an accepted call keeps the configuration consistent |
| `LegacyNode.SetLoggingKeepsConsistent` | controller/node.py:232-257 | `set_logging` is refused exactly when logging is on with a non-int or non-positive period; an accepted call keeps the configuration consistent |
| `LegacyNode.SetAlarmsKeepsConsistent` | controller/node.py:259-293 | `set_alarms` is refused exactly for alarms on BOOL/STRING or incremental nodes or an enabled alarm without threshold; an accepted call keeps the configuration consistent |
| `LegacyNode.UpdateDirectionCases` | controller/node.py:371-390 | a greater value sets only the positive flag, a smaller only the negative one, an equal one changes nothing; nothing else changes |
| `LegacyNode.UpdateStatsStep` | controller/node.py:392-412 | `update_stats` adds exactly 1 to the count and the value to the sum, sets mean = sum/count, and leaves min ≤ value ≤ max, never raising the min or lowering the max |
| `LegacyNode.StatsBoundEveryReading` | controller/node.py:392-412 | from a reset, after any run of readings the count and sum are those of the run, and min and max are readings of the run that bound every reading |
| `LegacyNode.CheckAlarmsLatches` | controller/node.py:295-313 | `check_alarms` raises exactly on BOOL/STRING nodes; otherwise a set state stays set and a state is newly set only by a strict crossing of an enabled alarm; nothing else changes |
| `LegacyNode.SetValueResult` | controller/node.py:341-446 | `set_value` raises `TypeError` exactly when the node is enabled, INT or FLOAT, and the reading is neither None nor a number |
| `LegacyNode.SetValueDisabledNoop` | controller/node.py:341-353 | `set_value` on a disabled node raises nothing and changes nothing, and the callback is not called |
| `LegacyNode.StandardKeepsClock` | controller/node.py:424-446 | `set_value_standard` leaves the timestamp, elapsed time, log time and callback count alone |
| `LegacyNode.SetPathKeepsClock` | controller/node.py:345-350 | every branch `set_value` dispatches to leaves the clock fields, the log time and the callback count alone |
| `LegacyNode.SetValueTimestampAndCallback` | controller/node.py:341-369 | on an enabled node every reading, also one that then raises, stores now as the timestamp and sets the elapsed time to 0.0 the first time and to the gap after that; the callback is called exactly once when one is set and the handler returned |
| `LegacyNode.SetValueStrBoolStores` | controller/node.py:414-422 | BOOL and STRING nodes store the reading as it is and touch no statistics, flags or alarms |
| `LegacyNode.SetValueStandardCases` | controller/node.py:424-446 | `set_value_standard(None)` only sets the value to None; a number becomes the value, raises the count by 1 and the sum by the value, and lies between min and max |
| `LegacyNode.SetValueIncrementalModes` | controller/node.py:448-485 | None is ignored; the first reading is captured and the value starts at 0 (0.0 for FLOAT); then the raw reading, accumulation, or reading − initial, per the flags |
| `LegacyNode.SetValueIncrementalLeavesStats` | controller/node.py:448-485 | the incremental path writes only the value, the initial value and the direction flags |
| `LegacyNode.IncrementalDeltaTrace` | controller/node.py:448-485 | example: readings 100, 150, 140 on a delta-mode INT node give 0, 50, 40, moving up then down |
| `LegacyNode.UpdateDirectionExclusive` | controller/node.py:371-390 | a direction update keeps the two flags exclusive |
| `LegacyNode.SetValueKeepsDirectionExclusive` | controller/node.py:325-353 | no reading, of any kind and whether or not it raises, ever sets both direction flags |
| `LegacyNode.ResetValueRestarts` | controller/node.py:487-508 | after `reset_value` statistics, flags, value and elapsed time are cleared; alarms, log time and callback count are kept; the next incremental reading is captured as a new initial value; resetting again changes nothing |
| `LegacyNode.PublishFormatContents` | controller/node.py:519-546 | the publish format holds value, type and unit, and an alarm state exactly when the node is a non-incremental number with that alarm enabled; only a non-incremental FLOAT value is rounded |
| `LegacyNode.SubmitLogAsWrittenFailsWithoutReadings` | controller/node.py:566 | as written, a freshly built FLOAT node cannot be logged: `round(None, 3)` raises |
| `LegacyNode.SubmitLogEntry` | controller/node.py:548-575 | with the mean guarded, a log entry spans from the previous log time to `date_time`, holds the statistics of a non-incremental number and the value of any other node, agrees with the written code whenever that succeeds, and leaves the node reset with the new log time |
| `LegacyNode.BaseRecord` | controller/node.py:592-608 | the record config holds the sixteen base keys, with the logging period and type value |
| `LegacyNode.NodeRecordKeys` | controller/node.py:577-615 | the record has no device id, the node's name and protocol, the sixteen base keys, and "register" exactly for a Modbus RTU node and "node_id" exactly for an OPC UA node |
| `LegacyNode.AddressedKeys` | controller/node.py:610-613 | addressing adds at most the one key the protocol names and keeps the base entries |
| `LegacyNode.ProtocolNodeRecordsAddress` | controller/node.py:646-681 | a `ModbusRTUNode` records its register and an `OPCUANode` its node id; a plain node with protocol MODBUS_RTU has no register |
| `LegacyNode.Node.constructor` | controller/node.py:83-149 | a validly configured node holds the normalised configuration, the initial tracking state and starts disconnected |
| `LegacyNode.Node.Create` | controller/node.py:83-149 | construction fails exactly when `validate_node` fails on the normalised configuration, with that error; otherwise the node is fresh, normalised and in its initial state |
| `LegacyNode.Node.SetUnit` | controller/node.py:198-209 | an accepted unit is assigned; a refused one leaves the node unchanged |
| `LegacyNode.Node.SetIncrementalNode` | controller/node.py:211-230 | an accepted flag is assigned; a refused one leaves the node unchanged |
| `LegacyNode.Node.SetLogging` | controller/node.py:232-257 | accepted logging settings are assigned; refused ones leave the node unchanged |
| `LegacyNode.Node.SetAlarms` | controller/node.py:259-293 | accepted alarm settings are assigned; refused ones leave the node unchanged |
| `LegacyNode.Node.CheckAlarms` | controller/node.py:295-313 | the tracking fields become the alarm-latch result, or stay unchanged when it raises |
| `LegacyNode.Node.ResetAlarms` | controller/node.py:315-323 | both alarm states are cleared, nothing else |
| `LegacyNode.Node.UpdateTimestamp` | controller/node.py:355-369 | the tracking fields become the timestamp transition |
| `LegacyNode.Node.UpdateDirection` | controller/node.py:371-390 | the tracking fields become the direction transition |
| `LegacyNode.Node.UpdateStats` | controller/node.py:392-412 | the tracking fields become the statistics transition |
| `LegacyNode.Node.SetValueStandard` | controller/node.py:424-446 | the tracking fields become the standard-path transition |
| `LegacyNode.Node.SetValueIncremental` | controller/node.py:448-485 | the tracking fields become the incremental-path transition |
| `LegacyNode.Node.SetValue` | controller/node.py:325-353 | the tracking fields become the `set_value` transition, or the state a raised `TypeError` leaves; it fails exactly when `set_value` raises; the configuration is unchanged |
| `LegacyNode.Node.ResetValue` | controller/node.py:487-508 | the tracking fields become the reset transition |
| `LegacyNode.Node.ResetDirection` | controller/node.py:510-517 | both direction flags are cleared, nothing else |
| `LegacyNode.Node.SubmitLog` | controller/node.py:548-575 | returns the guarded log entry and leaves the reset state with the new log time |
| `LegacyNode.Node.SetConnectionState` | controller/node.py:683-691 | the connection flag becomes the argument; nothing else changes |
| `LegacyDevice.StrLessAsymmetric` | controller/device.py:140-145 | Python's `<` on two strings (code-point lexicographic order) is asymmetric, so a reading never sets both direction flags |
| `LegacyDevice.PyLessAsymmetric` | controller/device.py:151-157 | the comparison `set_value` uses on two numbers or two strings is asymmetric |
| `LegacyDevice.AfterDirection` | controller/device.py:151-157 | comparing a reading against the current value changes only the two direction flags |
| `LegacyDevice.StatisticsStep` | controller/device.py:161-177 | the statistics block adds the reading to the sum, counts it, stores the rounded mean, replaces the minimum (maximum) with the rounded reading exactly when there was none or the reading is below (above) it, latches a crossed alarm, and changes nothing else |
| `LegacyDevice.ReadingKeepsClock` | controller/device.py:125-177 | the reading-dependent part of `set_value` leaves the timestamp, the elapsed time, the last log time and the callback count alone |
| `LegacyDevice.SetValueNoneNoop` | controller/device.py:114-115 | `set_value(None)` returns before anything changes, the timestamp included |
| `LegacyDevice.SetValueStampsClock` | controller/device.py:117-123 | any other reading stamps the clock, sets the elapsed time to 0.0 on the first reading and to now minus the previous timestamp after that, calls the callback once when one is set, and leaves the last log time |
| `LegacyDevice.IncrementalModes` | controller/device.py:125-147 | an incremental node captures its first reading as the initial value and reports 0 (0.0 on FLOAT); afterwards it reports the reading, the reading plus the initial value (positive mode) or minus it, rounded on FLOAT, and the initial value stays as captured |
| `LegacyDevice.PositiveIncrementalIgnoresHistory` | controller/device.py:133-147 | in positive mode, after two readings the value depends only on the last reading and the captured initial value, not on the reading before it |
| `LegacyDevice.ValuePathsKeepStatistics` | controller/device.py:125-159 | neither the incremental nor the plain value path touches the statistics or the alarm states |
| `LegacyDevice.StatisticsOnlyWhenTracked` | controller/device.py:161 | BOOL, STRING and incremental nodes keep their statistics and alarm states; every other node runs the statistics block after storing the reading |
| `LegacyDevice.PlainStoresReading` | controller/device.py:149-159 | a non-incremental node stores the reading (rounded on FLOAT), sets exactly the flag of the direction it moved, keeps both flags on an equal reading or when it had no value, and keeps the initial value |
| `LegacyDevice.ResetValueRecaptures` | controller/device.py:182-192 | `reset_value` keeps the value and zeroes the running sum and count; the next reading on an incremental node becomes the new initial value, is reported as zero, and restarts the elapsed time at 0.0 |
| `LegacyDevice.PublishFormat` | controller/device.py:198-212 | publishing fails exactly when the value is None; otherwise the output holds value, type and unit, plus each enabled alarm state only on a numeric non-incremental node |
| `LegacyDevice.SubmitLogEntry` | controller/device.py:214-228 | the log entry runs from the previous log time to the given time; a numeric non-incremental node reports mean, min and max and any other node its value; the node is then reset as by `reset_value`, keeps its value, and remembers the log time |
| `LegacyDevice.DeviceNode.constructor` | controller/device.py:35-84 | the arguments are stored as given and every runtime field starts empty, false or zero |
| `LegacyDevice.DeviceNode.SetUnit` | controller/device.py:86-87 | replaces the unit and nothing else |
| `LegacyDevice.DeviceNode.SetIncrementalNode` | controller/device.py:89-90 | replaces the incremental flag and nothing else |
| `LegacyDevice.DeviceNode.SetLogging` | controller/device.py:92-94 | replaces the logging flag and period and nothing else |
| `LegacyDevice.DeviceNode.SetAlarms` | controller/device.py:96-100 | replaces the four alarm settings without validating them and nothing else |
| `LegacyDevice.DeviceNode.CheckAlarms` | controller/device.py:102-106 | the fields become the alarm-check transition of the old state |
| `LegacyDevice.DeviceNode.ResetAlarms` | controller/device.py:108-110 | clears both alarm states |
| `LegacyDevice.DeviceNode.UpdateDirection` | controller/device.py:151-157 | the fields become the direction transition of the old state |
| `LegacyDevice.DeviceNode.Read` | controller/device.py:125-177 | the fields become the reading transition of the old state |
| `LegacyDevice.DeviceNode.UpdateClock` | controller/device.py:117-123 | the fields become the clock transition of the old state |
| `LegacyDevice.DeviceNode.SetValue` | controller/device.py:112-180 | the fields become `AfterSetValue` of the old state, about which the lemmas above are proved |
| `LegacyDevice.DeviceNode.ResetValue` | controller/device.py:182-192 | clears the initial value, statistics, direction and clock, and keeps the value |
| `LegacyDevice.DeviceNode.ResetDirection` | controller/device.py:194-196 | clears both direction flags |
| `LegacyDevice.DeviceNode.SubmitLog` | controller/device.py:214-228 | returns the log entry and leaves the state `SubmitLogEntry` describes |
| `LegacyDevice.ProtocolAttribute` | controller/device.py:239-245 | the protocol attribute is set exactly when the protocol is OPC_UA, MQTT, MODBUS_TCP or MODBUS_RTU; any other protocol is logged and leaves it unset |
| `LegacyDevice.DeviceStateOf` | controller/device.py:255-261 | the state holds id, name, protocol and connection flag; with the protocol unset the attribute lookup fails |
| `LegacyDevice.Device.constructor` | controller/device.py:231-245 | a device starts disconnected with its id, name, nodes and its protocol attribute as above |
| `LegacyDevice.Device.SetConnected` | controller/device.py:247-249 | the device is connected afterwards |
| `LegacyDevice.Device.SetDisconnected` | controller/device.py:251-253 | the device is disconnected afterwards |
| `LegacyDevice.FirstMatch` | controller/device.py:273-277 | a found device is in the scan and matches both name and id; nothing is found exactly when no device matches both |
| `LegacyDevice.GetDeviceNeedsBoth` | controller/device.py:273-277 | example: two devices sharing a name but not an id are each found by their own name and id |
| `LegacyDevice.DeviceManager.constructor` | controller/device.py:265-268 | the manager starts with no devices |
| `LegacyDevice.DeviceManager.AddDevice` | controller/device.py:270-271 | adds the device to the set |
| `LegacyDevice.DeviceManager.GetDevice` | controller/device.py:273-277 | returns the first matching device of the scan order; the result is a device of the set with the given name and id, and None exactly when no device has both |
| `MeterValidation.AndThen` | controller/meter/validation.py:76-107 | two checks made in turn pass iff both pass, and the first failure is the one raised |
| `MeterValidation.ValidateNode` | controller/meter/validation.py:18-50 | a custom node always passes; otherwise an unknown base name (phase prefix removed) raises `NodeUnknownError`; a non-numeric node passes iff it has no unit; a numeric node passes iff the valid-unit set exists and holds its unit; every failure is one of those two errors for this node |
| `MeterValidation.LoggingNodes` | controller/meter/validation.py:79-83 | the nodes checked in a category are exactly those whose name ends with one of its suffixes, that log, and that are not custom |
| `MeterValidation.Mismatched` | controller/meter/validation.py:100-101 | the mismatched nodes are exactly the checked nodes whose period differs from the expected one |
| `MeterValidation.CheckCategoryFailsIff` | controller/meter/validation.py:97-107 | one category raises `LoggingPeriodError` exactly when two of its logging, non-custom nodes have different periods |
| `MeterValidation.CheckCategoriesFailsIff` | controller/meter/validation.py:76-107 | checking the categories in order fails exactly when one of them holds two disagreeing nodes, and always with `LoggingPeriodError` |
| `MeterValidation.ValidateLoggingConsistency` | controller/meter/validation.py:85-86 | a `node_to_check` that does not log makes the check pass at once |
| `MeterValidation.LoggingConsistencyFailsIff` | controller/meter/validation.py:53-110 | without `node_to_check`, the check raises `LoggingPeriodError` exactly when the energy, power, voltage, current or frequency category holds two logging, non-custom nodes with different periods |
| `MeterValidation.FocusedChecksOneCategory` | controller/meter/validation.py:88-110 | with a node to check, the categories its name does not belong to are skipped and the first one it belongs to decides |
| `MeterValidation.FocusedOutsideCategories` | controller/meter/validation.py:88-89 | a name outside every category skips every category and passes |
| `MeterValidation.FocusedLoggingCheck` | controller/meter/validation.py:85-110 | a logging `node_to_check` is checked against the first category its name belongs to, and that category alone |
| `MeterValidation.FocusedLoggingOutside` | controller/meter/validation.py:88-89 | a `node_to_check` outside every category passes |
| `MeterValidation.MissingNames` | controller/meter/validation.py:140-146 | the missing list holds exactly the needed names absent from the nodes, and is empty iff every needed name is present |
| `MeterValidation.CollectMissing` | controller/meter/validation.py:140-144 | the loop appending each absent name builds exactly the missing list above |
| `MeterValidation.RequireAll` | controller/meter/validation.py:139-147 | a three-phase total passes iff every per-phase node is present, and otherwise raises `NodeMissingError` naming every absent one |
| `MeterValidation.ValidateEnergyNodes` | controller/meter/validation.py:113-159 | a missing, non-calculated or custom energy node passes; a three-phase total needs its three phase nodes; otherwise separate forward/reverse mode needs both the forward and reverse energy, and without it reading energy from the meter passes while integration needs the same-phase power node; failures are `NodeMissingError` for this node |
| `MeterValidation.ValidatePowerNodes` | controller/meter/validation.py:162-212 | a missing, non-calculated or custom power node passes; a three-phase total needs its three phase nodes; otherwise it passes iff one alternative set of inputs is present |
| `MeterValidation.PowerAlternatives` | controller/meter/validation.py:193-210 | active power needs (V, I, PF) or (S, Q); reactive power (V, I, PF) or (S, P); apparent power (V, I) or (P, Q) |
| `MeterValidation.ValidatePfNodes` | controller/meter/validation.py:215-253 | a missing, non-calculated or custom power-factor node passes; a three-phase total needs active and reactive power on each phase, naming every absent one; otherwise it passes iff the same-phase active and reactive power exist |
| `MeterValidation.ValidatePfDirectionNodes` | controller/meter/validation.py:256-325 | a missing, non-calculated or custom direction node passes; a three-phase total needs each phase's direction inputs, naming every absent one; otherwise it passes iff its own phase's inputs are all present |
| `MeterValidation.DirectionNeedsByMode` | controller/meter/validation.py:283-304 | the direction needs the power factor and reactive power in negative-reactive-power mode, the power factor and reactive energy in separate-energy mode, and the power factor alone otherwise; the negative mode takes precedence |
| `MeterNodeSet.ValidUnitsCoverValidNodes` | controller/meter/nodes.py:26-58 | the unit table has an entry for every valid base name and for nothing else |
| `MeterNodeSet.ValidNodesArePlain` | controller/meter/nodes.py:26-41 | no valid base name starts with a phase token, so removing a phase prefix gives the base name back |
| `MeterNodeSet.ValidateMeterNodeByUnit` | controller/meter/nodes.py:60-74 | a non-custom numeric node named by a phase prefix (or none) and a valid base name passes exactly when its unit is one of that base name's units |
| `MeterNodeSet.CheckAllNodes` | controller/meter/nodes.py:124-125 | the name and unit stage passes iff every node passes `validate_node`, and fails only with `NodeUnknownError` or `UnitError` |
| `MeterNodeSet.CheckPhase` | controller/meter/nodes.py:139-146 | the dependency checks of one phase fail only with `NodeMissingError` |
| `MeterNodeSet.CheckPhases` | controller/meter/nodes.py:127-146 | the dependency stage passes iff every phase's checks pass, and fails only with `NodeMissingError` |
| `MeterNodeSet.ValidateNodeSetOrder` | controller/meter/nodes.py:109-150 | a bad name or unit is reported before any missing dependency, a missing dependency only when every name and unit is valid, a logging-period mismatch only when both earlier stages pass; the set passes iff all three stages pass |
| `MeterNodeSet.ValidatedNodeSetConsistent` | controller/meter/nodes.py:109-150 | a passing node set has no category with two logging, non-custom nodes of different periods, and every checked phase has the dependencies of its calculated nodes |
| `MeterNodeSet.NodeStageDecides` | controller/meter/nodes.py:124-125 | a failing name or unit check is the error `validate_nodes` raises |
| `MeterNodeSet.PhaseStageDecides` | controller/meter/nodes.py:127-150 | once names and units pass, the dependency stage and then the logging stage decide |
| `MeterNodeSet.CheckAllNodesFirstFailure` | controller/meter/nodes.py:124-125 | the first node in dict order that fails decides the name and unit stage |
| `MeterNodeSet.CheckPhasesFirstFailure` | controller/meter/nodes.py:137-146 | the first phase that fails decides the dependency stage |
| `MeterNodeSet.EnergyMeterNodes.constructor` | controller/meter/nodes.py:91-107 | stores type and options and keys the nodes by name, later nodes of one name replacing earlier ones, without validating |
| `MeterNodeSet.EnergyMeterNodes.ValidateNodes` | controller/meter/nodes.py:109-150 | returns the outcome of the three validation stages |
| `MeterNodeSet.CheckEveryNode` | controller/meter/nodes.py:124-125 | the loop over the nodes returns the name and unit stage's outcome |
| `MeterNodeSet.CheckEveryPhase` | controller/meter/nodes.py:127-146 | the loop over the phases returns the dependency stage's outcome |
| `Meter.LogNeverBeforeLastTimeOfDay` | controller/meter/meter.py:168-173 | no entry is due while the time of day is earlier than that of the last log, because the elapsed minutes compare times of day only |
| `Meter.LogDueEveryMinute` | controller/meter/meter.py:168-173 | with a one-minute period an entry is due exactly when at least one minute of time of day has passed since the last log |
| `Meter.ResetUnlogged` | controller/meter/meter.py:195-215 | resetting nodes under a list of keys keeps the set of node names |
| `Meter.ResetUnloggedSpec` | controller/meter/meter.py:195-215 | exactly the present, non-logging nodes under the keys are reset; every other node is unchanged and no node's configuration changes |
| `Meter.ResetEach` | controller/meter/meter.py:195-215 | the loop over the keys yields exactly the reset described above |
| `Meter.ResetDirectionalEnergy` | controller/meter/meter.py:179-215 | the directional reset keeps the set of node names |
| `Meter.EnergyKeyParts` | controller/meter/meter.py:196-212 | each key the reset builds starts with its phase prefix and ends with `_<type>_energy` |
| `Meter.DirKeyParts` | controller/meter/meter.py:195-199 | the forward and reverse keys of a prefix carry that prefix and the energy type's suffix |
| `Meter.PhaseKeyParts` | controller/meter/meter.py:203-215 | the per-phase keys a total visits carry the phase's prefix and the energy type's suffix |
| `Meter.EnergyResetKeyParts` | controller/meter/meter.py:190-215 | a key is visited for an energy type only when the node's name contains that type's energy fragment; it carries the node's prefix, or a phase prefix under `total_` |
| `Meter.ResetKeysMatchName` | controller/meter/meter.py:188-215 | a name with neither energy fragment resets nothing; every reset key is an energy of a type the name holds; outside `total_` every key carries the node's own prefix, while `total_` also reaches l1_, l2_ and l3_ |
| `Meter.LoggingNodeNotReset` | controller/meter/meter.py:198 | a logging node is never reset by its own directional reset |
| `Meter.LogStep` | controller/meter/meter.py:160-177 | one node of the logging loop keeps the set of node names and queues at most one measurement |
| `Meter.LogStepCases` | controller/meter/meter.py:160-177 | a disabled or non-logging node is skipped; on the first visit only the last log time is recorded; when due, one measurement holding the node's entry, starting at the last log time, goes to `<name>_<id>`, the node loses its value and logs at the current time, and only the directional energies its name selects are reset besides; otherwise nothing changes |
| `Meter.LogAll` | controller/meter/meter.py:160-177 | the logging loop keeps the set of node names and queues at most one measurement per node |
| `Meter.LogAllKeepsConfigs` | controller/meter/meter.py:148-177 | a logging pass changes no node's configuration |
| `Meter.LogStepKeepsConfigs` | controller/meter/meter.py:160-177 | one logging step changes no node's configuration |
| `Meter.CalculateStep` | controller/meter/meter.py:237-260 | one calculation task keeps the set of node names |
| `Meter.CalculateAll` | controller/meter/meter.py:232-260 | a calculation pass keeps the set of node names |
| `Meter.PowerDomainErrorKeepsNodes` | controller/meter/meter.py:249-258 | an active or reactive power whose square root or arc cosine is out of domain leaves every node, its target included, as it was, because the gathered `ValueError` is only logged |
| `Meter.CalculateStepFrame` | controller/meter/meter.py:237-260 | a calculation writes only its target and, for a power-factor direction, a reactive energy; it changes no configuration; a node that is not enabled and calculated, or matches no suffix, changes nothing, and a failed calculation is logged and changes nothing |
| `Meter.ApplyCalculationFrame` | controller/meter/meter.py:262-306 | a successful calculation writes only its target and its phase's reactive energy, and changes no configuration |
| `Meter.CalculateAllFrame` | controller/meter/meter.py:217-260 | a calculation pass changes no configuration and leaves every node that is not an enabled calculated node with a matching suffix unchanged, apart from reactive energies |
| `Meter.PublishMessages` | controller/meter/meter.py:327-334 | publishing queues at most one message, and none exactly when the payload is empty |
| `Meter.PublishPayloadExact` | controller/meter/meter.py:323-331 | the payload of a dict keyed by name holds exactly the nodes marked `publish` that have a value, each in its publish format |
| `Meter.PublishPayloadSpec` | controller/meter/meter.py:323-331 | over any keys of nodes keyed by name, the payload holds exactly the visited publishable nodes, each in its publish format |
| `Meter.LoggedNodeNotPublished` | controller/meter/meter.py:140-177 | a node whose entry was just submitted has no value, so publishing after logging leaves it out |
| `Meter.RecordSetSpec` | controller/meter/meter.py:369-373 | the record set holds no two equal records (same device id and name), one for every node, and only records of the given nodes |
| `Meter.RecordSetDistinct` | controller/meter/meter.py:369-373 | adding to a set never leaves two equal records |
| `Meter.RecordSetCovers` | controller/meter/meter.py:369-373 | every node's record has an equal one in the set |
| `Meter.RecordSetOnlyGiven` | controller/meter/meter.py:369-373 | every record in the set is the record of a given node |
| `Meter.CalculateEvery` | controller/meter/meter.py:237-244 | the loop over the calculated nodes yields the calculation pass above |
| `Meter.BuildPayload` | controller/meter/meter.py:330-331 | the loop over the published nodes builds exactly the payload above |
| `Meter.LogOne` | controller/meter/meter.py:160-177 | one iteration of the logging loop is the logging step above |
| `Meter.LogEvery` | controller/meter/meter.py:160-177 | the logging loop is the logging pass above |
| `Meter.EnergyMeter.constructor` | controller/meter/meter.py:65-108 | the meter starts disconnected with no calculation pass done, nothing queued, and its nodes keyed by name |
| `Meter.EnergyMeter.Create` | controller/meter/meter.py:92-96 | construction fails exactly when node-set validation fails, with that error; otherwise the meter holds the nodes keyed by name |
| `Meter.EnergyMeter.SetConnection` | controller/meter/meter.py:140 | sets the connection flag and nothing else the meter tracks |
| `Meter.EnergyMeter.ResetDirectional` | controller/meter/meter.py:179-215 | the nodes become the directional reset of the old nodes |
| `Meter.EnergyMeter.LogNodes` | controller/meter/meter.py:148-177 | the nodes become the logging pass of the old nodes and its measurements are appended to the queue; nothing else changes |
| `Meter.EnergyMeter.CalculateNodes` | controller/meter/meter.py:217-260 | the nodes become the calculation pass of the old nodes |
| `Meter.EnergyMeter.PublishNodes` | controller/meter/meter.py:308-334 | the publish queue gains the message for the current payload, or nothing when it is empty |
| `Meter.EnergyMeter.ProcessNodes` | controller/meter/meter.py:126-146 | connected, the meter clears the disconnection flag, calculates, logs and publishes what logging left; disconnected, it calculates once and then does nothing until reconnected |
| `Meter.EnergyMeter.GetMeterRecord` | controller/meter/meter.py:361-383 | the record holds the meter's identity, type and options and the set of its nodes' records |
| `MeterCalculation.SetTarget` | controller/meter/calculation.py:48 | writing a calculated value goes through the target's `set_value` and changes no other node |
| `MeterCalculation.PhaseTotal` | controller/meter/calculation.py:36-49 | the phase loop raises `KeyError` only for an absent phase node, and yields None only when some present phase has no value |
| `MeterCalculation.PhaseTotalSums` | controller/meter/calculation.py:36-49 | three phases with values add up in the base unit |
| `MeterCalculation.PhaseTotalNone` | controller/meter/calculation.py:41-43 | a phase without a value, after phases that are present with values, makes the total None |
| `MeterCalculation.SumPhaseValues` | controller/meter/calculation.py:37-45 | the accumulation loop over the phases yields the phase total above |
| `MeterCalculation.CalculateEnergy` | controller/meter/calculation.py:19-74 | an energy calculation that does not raise `KeyError` writes only its target and changes no configuration |
| `MeterCalculation.EnergyTotal` | controller/meter/calculation.py:36-49 | a total energy is the sum of its phases in the base unit, rescaled to the target's unit; a phase without a value clears the target; an absent first phase raises `KeyError` |
| `MeterCalculation.EnergyFromForwardReverse` | controller/meter/calculation.py:51-62 | with separate forward and reverse energies, a non-total energy is forward minus reverse in the base unit, rescaled; when either has no value the target is left as it is |
| `MeterCalculation.EnergyFromPower` | controller/meter/calculation.py:64-74 | reading energy from the meter leaves the target as it is; otherwise energy is the scaled power times its node's elapsed hours, with zero hours when the elapsed time is missing or zero |
| `MeterCalculation.ApparentPowerAsWrittenIgnoresReactive` | controller/meter/calculation.py:141-150 | as written, apparent power is computed from an active power value even when the reactive power node has no value, because line 144 reads the active node twice |
| `MeterCalculation.ApparentPower` | controller/meter/calculation.py:121-164 | apparent power has a value only from P and Q when both power nodes exist, and only from V and I otherwise, in each case when those nodes have values |
| `MeterCalculation.ApparentPowerPrefersPowerNodes` | controller/meter/calculation.py:141-150 | as intended, with both power nodes present apparent power is sqrt(P² + Q²) when both have values, and None otherwise, without trying V × I |
| `MeterCalculation.ApparentPowerFromVoltageCurrent` | controller/meter/calculation.py:152-161 | without both power nodes, apparent power is V × I when both have values, else None |
| `MeterCalculation.ActivePower` | controller/meter/calculation.py:167-213 | `ValueError` exactly when S and Q both exist with values and Q² exceeds S², as `math.sqrt` raises; otherwise a value from S and Q is the square root of the non-negative S² − Q², and without both nodes a value needs V, I and PF and is V × I × PF |
| `MeterCalculation.ReactivePower` | controller/meter/calculation.py:216-262 | `ValueError` exactly when P² exceeds S² in the S-and-P branch, or, without both of those nodes, when V, I and PF have values and PF lies outside [-1, 1], as `math.sqrt` and `math.acos` raise; otherwise a value from S and P is the square root of the non-negative S² − P², and one from V, I and PF is V × I × sin(acos PF) with PF in [-1, 1] |
| `MeterCalculation.PowerPrefersPowerNodes` | controller/meter/calculation.py:188-210 | active (reactive) power takes the S-and-Q (S-and-P) branch whenever both nodes exist, and then gives no value exactly when one of them has none, never falling back to V × I |
| `MeterCalculation.CalculatePower` | controller/meter/calculation.py:77-118 | a power calculation writes only its target and changes no configuration; a total can raise only `KeyError`, and a phase or single power raises exactly the `ValueError` of an out-of-domain active or reactive power |
| `MeterCalculation.PowerTotal` | controller/meter/calculation.py:96-109 | a total power is the sum of its phases in the base unit, rescaled; a phase without a value clears the target; an absent first phase raises `KeyError` |
| `MeterCalculation.PowerFactorOf` | controller/meter/calculation.py:300-303 | a zero active power gives a power factor of 0.0 |
| `MeterCalculation.SumPhasePowers` | controller/meter/calculation.py:283-298 | the accumulation loop over the phases yields the active and reactive power totals |
| `MeterCalculation.CalculatePf` | controller/meter/calculation.py:265-321 | a power-factor calculation writes only its target and never changes a configuration |
| `MeterCalculation.PhasePowerFactor` | controller/meter/calculation.py:308-321 | a phase's power factor is None when either power lacks a value, 0.0 when the active power is 0, and cos(atan(Q / P)) otherwise |
| `MeterCalculation.TotalPowerFactor` | controller/meter/calculation.py:282-305 | the total power factor is None when a phase lacks a value and 0.0 when the summed active power is 0 |
| `MeterCalculation.PowerTotalsSum` | controller/meter/calculation.py:286-298 | when every phase has both powers with values, the totals exist |
| `MeterCalculation.PfDirection` | controller/meter/calculation.py:324-379 | the direction is UNITARY exactly when the power-factor node exists and its value is 1 |
| `MeterCalculation.PfDirectionCases` | controller/meter/calculation.py:343-379 | UNITARY exactly when the power factor is exactly 1; LAGGING only from a positive Q in negative-reactive mode or from the reactive energy's positive direction in separate-energy mode; LEADING likewise from Q at or below 0 or the negative direction; with neither option only UNITARY or UNKNOWN |
| `MeterCalculation.CalculatePfDirection` | controller/meter/calculation.py:324-379 | the direction's name is written to the target; only a numeric reactive energy of the same phase can change besides, and it has its direction flags reset exactly on UNITARY |
| `MeterCalculation.FirstContained` | controller/meter/meter.py:241-244 | no method is chosen exactly when the name contains none of the fragments |
| `MeterCalculation.FirstContainedIsFirst` | controller/meter/meter.py:241-244 | the method chosen is that of the first fragment the name contains |
| `MeterCalculation.FirstContainedFrom` | controller/meter/meter.py:241-244 | a name containing some fragment is dispatched to that fragment's method or to an earlier one |
| `MeterCalculation.DirectionBeforePowerFactor` | controller/meter/meter.py:98-106 | a power-factor direction node is never sent to `calculate_pf`, because its fragment is tried before "_power_factor" |
| `MeterCalculation.DispatchNone` | controller/meter/meter.py:241-244 | a node whose name holds none of the fragments is not calculated |
| `MeterCalculation.ApplyCalculation` | controller/meter/meter.py:262-306 | a calculation method applied with the node's phase prefix keeps the set of node names |
| `LegacyMeter.UnitsCoverNodes` | controller/meter.py:63-95 | every valid base name has a unit set and nothing else has, so `validate_node` never raises `KeyError` |
| `LegacyMeter.ValidateNode` | controller/meter.py:97-105 | `NodeUnknownError` exactly when the name without its phase part is not a valid base name; `UnitError` exactly when it is but the unit is not among that name's units; no other outcome |
| `LegacyMeter.PrefixedNameValidates` | controller/meter.py:97-105 | a phase or total prefix before a valid base name leaves the check to that base name's units alone |
| `LegacyMeter.ValidateEnergyNodes` | controller/meter.py:124-142 | passes iff a calculated energy has its forward and reverse energies (separate mode) or its power (when energy is not read from the meter); otherwise `NodeMissingError` for that energy |
| `LegacyMeter.ValidatePowerNodes` | controller/meter.py:144-163 | passes iff a calculated power has V and I, and the power factor unless it is apparent power; otherwise `NodeMissingError` for that power |
| `LegacyMeter.ValidatePfNodes` | controller/meter.py:165-174 | passes iff a calculated power factor has its active and reactive power; otherwise `NodeMissingError` for it |
| `LegacyMeter.ValidatePfDirectionNodes` | controller/meter.py:176-197 | passes iff a calculated direction has its power factor, plus the reactive power in negative-reactive mode or the reactive energy in separate-energy mode; otherwise `NodeMissingError` for it |
| `LegacyMeter.ValidatePhase` | controller/meter.py:115-122 | one phase's seven checks pass iff every calculated node of the phase has the inputs its calculation reads |
| `LegacyMeter.ValidatePhaseBlamesPhase` | controller/meter.py:115-122 | a failing phase raises `NodeMissingError` naming one of that phase's own nodes |
| `LegacyMeter.ValidateEach` | controller/meter.py:113-114 | the name and unit loop passes iff every node of the dictionary passes `validate_node` |
| `LegacyMeter.ValidateNodes` | controller/meter.py:112-122 | the node set passes iff every node is known with a listed unit and phases l1_, l2_ and l3_ have the inputs of their calculated nodes; total_ and unprefixed nodes are not checked |
| `LegacyMeter.IndexEntries` | controller/meter.py:110 | the dictionary holds exactly the given names, each mapped to a given node of that name |
| `LegacyMeter.InsertionOrder` | controller/meter.py:110 | the dictionary's iteration order lists each given name once |
| `LegacyMeter.EnergyIncremental` | controller/meter.py:199-202 | every node of the dictionary is marked as below and the names stay |
| `LegacyMeter.MarkIncremental` | controller/meter.py:199-202 | a node whose name contains "energy" becomes incremental; nothing else about any node changes |
| `LegacyMeter.SetEnergyNodesIncremental` | controller/meter.py:199-202 | the loop over the dictionary's values yields exactly the marking above |
| `LegacyMeter.PyMul` | controller/meter.py:296-311 | Python's `*` on two numbers gives a number whose value is the product |
| `LegacyMeter.Store` | controller/meter.py:291 | storing a reading fails exactly when `set_value` would raise on its kind; otherwise only the target's state changes, as `set_value` says, and no configuration changes |
| `LegacyMeter.StoreNoneNoop` | controller/device.py:114-115 | storing None changes nothing |
| `LegacyMeter.EnergyAsWrittenFailsBeforeFirstReading` | controller/meter.py:293-296 | as written, a power node that has never been read has no elapsed time, so the energy calculation raises before its None check |
| `LegacyMeter.CalculateSeparateEnergy` | controller/meter.py:288-291 | the forward-minus-reverse branch changes no configuration |
| `LegacyMeter.SeparateEnergyCases` | controller/meter.py:288-291 | forward minus reverse is stored when both readings are present, and the nodes stay as they are otherwise; a missing forward or reverse node raises `KeyError`, forward first |
| `LegacyMeter.CalculateEnergyAsWritten` | controller/meter.py:287-296 | the energy calculation as written changes no configuration when it succeeds |
| `LegacyMeter.CalculateEnergy` | controller/meter.py:287-296 | the corrected energy calculation changes no configuration when it succeeds |
| `LegacyMeter.EnergyFromPower` | controller/meter.py:293-296 | the corrected energy calculation leaves the nodes as they are while the power has no reading or no elapsed time, stores power times elapsed hours otherwise, and agrees with the code as written wherever that does not raise |
| `LegacyMeter.CalculatePower` | controller/meter.py:298-311 | the power calculation changes no configuration when it succeeds, and raises `ValueError` exactly for a reactive power whose voltage and current have readings and whose power factor is a number outside [-1, 1] |
| `LegacyMeter.PowerValues` | controller/meter.py:298-311 | with the readings present, active power stores V·I·PF, reactive power V·I·sin(acos PF) or raises `ValueError` for a power factor outside [-1, 1], and apparent power V·I; another power type stores nothing |
| `LegacyMeter.PowerNeedsReadings` | controller/meter.py:298-311 | an absent voltage node raises `KeyError`; with the input nodes present, a missing V, I or (for active and reactive power) PF reading leaves the nodes unchanged |
| `LegacyMeter.CalculatePf` | controller/meter.py:313-319 | the power-factor calculation changes no configuration when it succeeds |
| `LegacyMeter.PfCases` | controller/meter.py:313-319 | a missing P or Q reading leaves the nodes unchanged; P = 0 stores 0.0; otherwise cos(atan(Q / P)) is stored |
| `LegacyMeter.CalculatePfDirection` | controller/meter.py:321-347 | the direction calculation changes no configuration when it succeeds |
| `LegacyMeter.PfDirectionCases` | controller/meter.py:331-347 | below the UNITARY threshold: with negative reactive power LAGGING for Q > 0 and LEADING otherwise, and a Q that is not a number raises; with separate energies LAGGING, LEADING or UNKNOWN by the reactive energy's direction flags, and a missing reactive-energy node raises; otherwise UNKNOWN |
| `LegacyMeter.PfDirectionUnitary` | controller/meter.py:322-329 | any truthy power factor of at least 0.99 stores UNITARY whatever the options, clears the direction flags of the phase's reactive energy when there is one, and changes no other node |
| `LegacyMeter.Dispatch` | controller/meter.py:282-285 | the chosen suffix is the first one, in dictionary order, that the name contains; none exactly when the name contains no suffix |
| `LegacyMeter.FirstContained` | controller/meter.py:282-285 | the search from a position finds the first suffix from there that the name contains, or none iff no later suffix is contained |
| `LegacyMeter.DirectionBeforePowerFactor` | controller/meter.py:235-243 | a direction node is never sent to `calculate_pf`, because "_power_factor_direction" is tried before "_power_factor" |
| `LegacyMeter.GetNodePhase` | controller/meter.py:207-212 | the phase is the first of l1_, l2_, l3_ the name starts with, and "" exactly when it starts with none |
| `LegacyMeter.CalculateStep` | controller/meter.py:276-285 | one node of the calculation loop changes no configuration when it does not raise |
| `LegacyMeter.CalculateAllFrame` | controller/meter.py:274-285 | the calculation loop keeps the node names and every configuration, also when it stops on an exception |
| `LegacyMeter.ResetUnlogged` | controller/meter.py:263-272 | the directional reset keeps the node names |
| `LegacyMeter.ResetUnloggedSpec` | controller/meter.py:263-272 | exactly the present, non-logging nodes under the keys are reset; every other node is unchanged and no configuration changes |
| `LegacyMeter.LoggingAsWrittenFailsOnSecondCycle` | controller/meter.py:254-257 | as written, the first visit of a logging node records the time and the next visit calls a helper that does not exist, so it raises and no entry is ever logged |
| `LegacyMeter.LogStepCases` | controller/meter.py:251-261 | with the helper the code evidently means, a due node submits one entry to `<name>_<id>`, restarts its statistics and remembers this time; the directional energies its name selects are reset unless they log on their own; a node that is not due changes nothing |
| `LegacyMeter.LogStepAgreesWhereAsWrittenRuns` | controller/meter.py:251-261 | the corrected logging step agrees with the code as written on every visit where that one does not raise |
| `LegacyMeter.PublishPayloadSpec` | controller/meter.py:349-355 | the payload names exactly the published nodes holding a value, each with its publish format, so `get_publish_format` never raises there |
| `LegacyMeter.MeterStateOf` | controller/meter.py:357-365 | the meter state fails exactly when the protocol was refused, and otherwise holds id, name, protocol, connection flag, options and type |
| `LegacyMeter.CalculateEvery` | controller/meter.py:274-285 | the calculation loop yields the nodes and the outcome of the calculation pass, keeping updates made before an exception |
| `LegacyMeter.CalculateAllStops` | controller/meter.py:274-285 | once the calculation has raised, later nodes are not visited |
| `LegacyMeter.LogEvery` | controller/meter.py:251-261 | the logging loop yields the logging pass |
| `LegacyMeter.PayloadOf` | controller/meter.py:349-354 | the publishing loop yields the payload above |
| `LegacyMeter.LegacyEnergyMeter.constructor` | controller/meter.py:214-227 | the meter starts disconnected with nothing queued and the protocol attribute the device check leaves |
| `LegacyMeter.LegacyEnergyMeter.Create` | controller/meter.py:214-233 | the dictionary of the nodes is built, every energy node made incremental, and construction fails exactly when `validate_nodes` fails on that dictionary |
| `LegacyMeter.LegacyEnergyMeter.SetConnected` | controller/device.py:247-249 | the meter is connected afterwards; nodes and queues stay |
| `LegacyMeter.LegacyEnergyMeter.SetDisconnected` | controller/device.py:251-253 | the meter is disconnected afterwards; nodes and queues stay |
| `LegacyMeter.LegacyEnergyMeter.CalculateNodes` | controller/meter.py:274-285 | the nodes and outcome are those of the calculation pass |
| `LegacyMeter.LegacyEnergyMeter.LogNodes` | controller/meter.py:251-261 | the nodes become the logging pass of the old nodes and its measurements are appended to the queue |
| `LegacyMeter.LegacyEnergyMeter.PublishNodes` | controller/meter.py:349-355 | one message is queued per cycle, even with an empty payload |
| `LegacyMeter.LegacyEnergyMeter.ProcessNodes` | controller/meter.py:245-249 | disconnected, nothing happens; connected, a calculation exception ends the cycle with the nodes as calculated so far and both queues unchanged; otherwise the nodes are calculated and then logged, the measurements of that logging are queued, and one message with the publish payload of the logged nodes is queued |
| `ProtocolRegistration.GetProtocolPlugin` | controller/registry/protocol.py:74-93 | the plugin registered for the protocol, and `NotImplemeted` exactly when none is |
| `ProtocolRegistration.StartupProtocolsCoverage` | controller/registry/protocol.py:109-126 | after import only Modbus RTU and OPC UA resolve, each to its own node factory; any other protocol is `NotImplemeted` |
| `ProtocolRegistration.ProtocolRegistry.constructor` | controller/registry/protocol.py:38 | the registry as the import leaves it |
| `ProtocolRegistration.ProtocolRegistry.RegisterProtocol` | controller/registry/protocol.py:60-72 | the protocol's entry is set to the given plugin; every other entry stays |
| `ProtocolRegistration.ProtocolRegistry.GetPlugin` | controller/registry/protocol.py:74-93 | the lookup above on the current registry |
| `ProtocolRegistration.ProtocolRegistry.GetBaseNodeFactory` | controller/registry/protocol.py:44-58 | the guard tests the module-level factory, which always exists, so the base factory is always returned and `NotImplemeted` is never raised |
| `ProtocolRegistration.RegisterProtocolThenGet` | controller/registry/protocol.py:60-93 | a protocol just registered resolves to its plugin, and every other protocol resolves as before |
| `ProtocolRegistration.FactoryInputOf` | controller/registry/protocol.py:100-123 | a factory first rebuilds the configuration from the record, passing its error on; the Modbus RTU factory then needs "register" and the OPC UA factory "node_id" in the record's config, a `KeyError` otherwise, and hands on that value |
| `ProtocolRegistration.CreateNode` | controller/registry/protocol.py:100-123 | the factory builds a node exactly when its record yields a configuration that validates and whose type has a processor; the node is of the factory's kind, has the validated configuration, and the protocol nodes carry the record's register or node id and start disconnected |
| `ProtocolRegistration.FactoryRoundTrip` | controller/registry/protocol.py:100-123 | a validated node's own record, given to its protocol's factory, gives back its configuration with the warnings derived afresh and the same register or node id, and that configuration validates unchanged |
| `TypeRegistration.CreateProcessor` | controller/registry/node_type.py:76-109 | each factory builds a fresh processor of its own class on the configuration; INT and FLOAT exactly are the numeric processors |
| `TypeRegistration.RegisterThenGet` | controller/registry/node_type.py:40-70 | a type just registered resolves to its factory, every other type resolves as before, and an unregistered type is `NotImplemeted` |
| `TypeRegistration.StartupRegistryComplete` | controller/registry/node_type.py:73-109 | after import every node type has a plugin: BOOL, STRING, INT and FLOAT each their own processor |
| `TypeRegistration.TypeRegistry.constructor` | controller/registry/node_type.py:35 | the registry as the import leaves it |
| `TypeRegistration.TypeRegistry.RegisterType` | controller/registry/node_type.py:40-50 | the type's entry is set to the factory; every other entry stays |
| `TypeRegistration.TypeRegistry.GetTypePlugin` | controller/registry/node_type.py:52-70 | the registered factory, and `NotImplemeted` exactly when the type has none |
| `Manager.BoolOr` | controller/manager.py:191-195 | `cfg.get(key, default)` on a boolean field: the default when the key is absent, the stored boolean otherwise, and an error exactly when the stored value is not a boolean |
| `Manager.OptBoolOr` | controller/manager.py:234-236 | the same for a field that may also hold None |
| `Manager.OptNumberOr` | controller/manager.py:197-198 | the same for a threshold, which holds a number or None |
| `Manager.UnitOf` | controller/manager.py:190 | `cfg["unit"]` raises `KeyError` exactly when "unit" is absent, and otherwise gives the stored string or None |
| `Manager.NodeTypeOf` | controller/manager.py:182 | `cfg["type"]` raises `KeyError` exactly when "type" is absent, and a found type is the one whose value is the stored string |
| `Manager.AddressingOf` | controller/manager.py:184-220 | a Modbus RTU node reads `cfg["register"]` and an OPC UA node `cfg["node_id"]`, each a `KeyError` exactly when absent; any other node has no address |
| `Manager.CommonFieldsOf` | controller/manager.py:191-198 | each common field takes its stored value or its default: publish True, calculated, logging and both alarms False, logging period 15, both alarm values 0.0 |
| `Manager.BuildNodesSpec` | controller/manager.py:178-240 | the rebuild succeeds exactly when every stored node builds, and then gives one node per stored node, in order, each the node its record builds |
| `Manager.BuildNodesFirstError` | controller/manager.py:180-238 | a failed rebuild raises the error of the first stored node that fails |
| `Manager.BuildNodeValid` | controller/manager.py:180-238 | a built node has its record's name and address and passes the node's own validation |
| `Manager.BuildNodeTypeFirst` | controller/manager.py:181-182 | the type is read first, so a missing type is a `KeyError` and an unknown one a `ValueError`, whatever else the record holds |
| `Manager.BuildNodeNeedsAddress` | controller/manager.py:184-207 | a Modbus RTU node without "register", or an OPC UA node without "node_id", raises `KeyError` for that key |
| `Manager.ProtocolNodesNotIncremental` | controller/manager.py:184-218 | a Modbus RTU or OPC UA node is never incremental, whatever its record says, and carries its protocol |
| `Manager.PlainNodeIncrementalFromRecord` | controller/manager.py:220-237 | a node without those protocols takes `incremental_node` from its record, defaulting to False |
| `Manager.CreateNodes` | controller/manager.py:167-240 | the loop over the stored nodes yields the rebuild above |
| `Manager.MeterOptionsOf` | controller/manager.py:149 | `EnergyMeterOptions(**meter_options)` succeeds exactly when the stored options are the four keyword arguments, and the flags keep the truthiness of the stored values |
| `Manager.ConnectionOptionsOf` | protocol/modbus_rtu/rtu_device.py:18-37 | `ModbusRTUOptions(**conn)` succeeds exactly when the stored options are its eight parameters; `OPCUAOptions(**conn)` exactly when "url" is present and no key falls outside its fields; a failure is the `TypeError`, and the OPC UA fields left out take their defaults (5, 5, None, None) |
| `Manager.CreateDeviceFromRecord` | controller/manager.py:122-165 | an unsupported protocol raises `ValueError`; otherwise the protocol picks the meter class, the meter options, then the connection options, then the nodes are built, each failure stopping the rest, and the meter has the record's id, name, type, connection options and rebuilt nodes |
| `Manager.DeviceManager.constructor` | controller/manager.py:41-42 | the manager starts with no devices |
| `Manager.DeviceManager.AddDevice` | controller/manager.py:70-78 | the device is added to the set |
| `Manager.DeviceManager.DeleteDevice` | controller/manager.py:80-88 | the device is removed; removing a device that is not managed changes nothing |
| `Manager.DeviceManager.GetDevice` | controller/manager.py:90-102 | the first device of the set's order with both the name and the id; the result is a managed device with both, and None exactly when no managed device has both |
| `MeterUtil.FirstPrefix` | util/functions/meter.py:25-28 | the prefix returned is one of the list that the name starts with, or "" |
| `MeterUtil.FirstPrefixIsFirstMatch` | util/functions/meter.py:25-28 | the prefix returned is the first of the list the name starts with, and "" exactly when it starts with none |
| `MeterUtil.FirstPrefixAt` | util/functions/meter.py:25-27 | a matching prefix with no earlier match is the one returned, so l1_l2_ wins over l1_ |
| `MeterUtil.PlainNameUnchanged` | util/functions/meter.py:42-51 | a name whose first token is not a phase token is returned unchanged and has the empty prefix |
| `MeterUtil.PhaseTokenRemoved` | util/functions/meter.py:45-49 | a leading l1, l2, l3 or total token is removed together with its underscore |
| `MeterUtil.LineTokensRemoved` | util/functions/meter.py:45-48 | a leading pair of l1, l2 and l3 tokens is removed as a whole |
| `MeterUtil.PhasePrefixRoundTrip` | util/functions/meter.py:17-51 | for a phase or total prefix and a plain base name, the phase part comes off exactly and that prefix is the one found |
| `MeterUtil.LinePrefixRoundTrip` | util/functions.py:41-48 | the same for a line-to-line prefix such as l1_l2_, in the copy of `remove_phase_string` in this file and in the one of util/functions/meter.py |
| `MeterUtil.PlainBaseFirstToken` | util/functions.py:44-50 | a plain base name does not start with a phase token, so this copy of `remove_phase_string` returns it unchanged |
| `MeterUtil.CreateDefaultNodeAttributes` | util/functions/meter.py:68-75 | a single-phase meter gets the SINGLEPHASE attribute and a three-phase meter GENERAL |
| `MeterUtil.FindNode` | util/functions/meter.py:78-86 | the node under the key, and None exactly when the key is absent |
| `MeterUtil.GetNode` | util/functions/meter.py:89-103 | the node under the key, and `KeyError` for that key exactly when it is absent |
| `Strings.Split` | util/functions/meter.py:42 | `str.split` gives at least one piece, and no piece holds the separator |
| `Strings.JoinSplit` | util/functions/meter.py:42-49 | joining the pieces of a split with the separator gives back the string |
| `Strings.SplitAfterToken` | util/functions/meter.py:42 | splitting a token, a separator and a rest gives the token followed by the pieces of the rest |
| `Strings.TrimLeft` | web/validation.py:25 | `lstrip` leaves a suffix of the string that does not start with whitespace |
| `Strings.TrimRight` | web/validation.py:25 | `rstrip` leaves a prefix of the string that does not end with whitespace |
| `Strings.Strip` | web/validation.py:25 | the stripped string is no longer than the input and neither starts nor ends with whitespace |
| `Strings.StripPadding` | web/validation.py:25 | `strip` removes exactly the whitespace around a core, and keeps whitespace inside it |
| `Strings.StripAllWhitespace` | web/validation.py:25 | a string of whitespace strips to "" |
| `Strings.NatToStringRoundTrip` | db/timedb.py:366 | the decimal digits of a natural number read back as that number |
| `Strings.IntToStringInjective` | db/timedb.py:366 | `str` of an integer is one-to-one, so distinct ids give distinct names |
| `UnitScaling.GetUnitFactor` | util/functions/calculation.py:12-27 | the factor is 1.0 for None or "", otherwise looked up by the first character (m 1e-3, k 1e3, M 1e6, G 1e9, anything else 1.0), and always positive |
| `UnitScaling.ScalingRoundTrip` | util/functions/calculation.py:30-71 | scaling to the base unit and back is the identity, in both orders |
| `UnitScaling.ScalingMonotone` | util/functions/calculation.py:30-71 | both scalings keep the order of values |
| `UnitScaling.KiloExample` | util/functions/calculation.py:51-71 | example: 1.5 kWh is 1500 Wh, and back |
| `Dates.FloorDiv` | util/functions/date.py:85-86 | `//` with a positive divisor gives the quotient rounded down |
| `Dates.RemoveSecPrecision` | util/functions/date.py:32-34 | a valid datetime stays valid when trimmed |
| `Dates.RemoveSecPrecisionKeepsMinute` | util/functions/date.py:32-34 | trimming keeps year, month, day, hour and minute, zeroes second and microsecond, and is idempotent |
| `Dates.RemoveSecPrecisionFloorsToMinute` | util/functions/date.py:32-34 | the trimmed instant is the start of the minute holding the datetime |
| `Dates.GetTimestamp` | util/functions/date.py:24-25 | `int(date.timestamp() * 1000)` truncates the microseconds since the epoch toward zero to whole milliseconds, for dates before 1970 as well as after |
| `Dates.TrimmedTimestampIsWholeMinutes` | util/functions/date.py:24-34 | the millisecond timestamp of a trimmed datetime is a whole number of minutes |
| `Dates.SubtractDatetimeMins` | util/functions/date.py:41-55 | the result is the difference of the minutes since midnight |
| `Dates.SubtractDatetimeMinsZeroAndAntisymmetric` | util/functions.py:79-93 | equal times give 0 and swapping the arguments negates the result, in this copy and the others |
| `Dates.SubtractDatetimeMinsReadsOnlyHourMinute` | util/functions.py:91-93 | only hour and minute matter; the date, seconds and microseconds do not |
| `Dates.SubtractDatetimeMinsRange` | util/functions/generic.py:40-54 | for valid datetimes the result lies in [-1439, 1439] |
| `Dates.ProcessTimeSpan` | util/functions/date.py:58-97 | a zero step is a `ZeroDivisionError`, and only a zero step is |
| `Dates.ProcessTimeSpanAligns` | util/functions/date.py:75-86 | for a positive step the aligned start is the greatest multiple of the step not above the trimmed start and the aligned end the least multiple not below the trimmed end |
| `Dates.DatestrUpToMin` | util/functions/date.py:37-38 | the minute string has 16 characters |
| `Dates.DatestrUpToMinRoundTrip` | util/functions/date.py:37-38 | the minute string reads back as year, month, day, hour and minute |
| `Dates.DatestrUpToMinSameMinute` | util/functions/date.py:32-38 | two valid datetimes give the same minute string exactly when they trim to the same minute |
| `Dates.IsoFormat` | db/timedb.py:334-335 | `isoformat()` has 19 characters, or 26 when the microsecond is not zero |
| `Dates.IsoFormatInjective` | db/timedb.py:334-335 | two valid datetimes give the same ISO string exactly when they are equal |
| `Dates.BeforeIsStrictTotal` | db/timedb.py:374 | the datetime order this comparison uses is irreflexive, total on distinct datetimes, and transitive |
| `Objects.ResolveType` | util/functions/objects.py:190-198 | a generic alias resolves to its class, a PEP 604 union to `types.UnionType`, a plain class to itself, and a typing special form to no class |
| `Objects.RequireField` | util/functions/objects.py:121-151 | an absent key raises `ValueError`; a present value is returned unchanged when the annotation is not a class, and otherwise exactly when it is an instance of that class |
| `Objects.PipeUnionRejectsEverything` | util/functions/objects.py:145-149 | a field annotated `X \| None` resolves to `types.UnionType`, of which no value is an instance, so every value, None included, is rejected |
| `Objects.RequiredNames` | util/functions/objects.py:46-50 | there are no more required names than fields |
| `Objects.RequiredNamesSpec` | util/functions/objects.py:46-50 | a name is required exactly when it is the name of a field with neither a default nor a factory |
| `Objects.OptionalNames` | util/functions/objects.py:52-54 | there are no more optional names than fields |
| `Objects.OptionalNamesSpec` | util/functions/objects.py:52-54 | a name is optional exactly when it is the name of a field with a default or a factory |
| `Objects.MissingNames` | util/functions/objects.py:57 | the missing names are exactly the required names that are neither given nor ignored |
| `Objects.RequiredKeysCheckSpec` | util/functions/objects.py:19-61 | `ValueError` exactly on a missing or empty input; otherwise `KeyError` exactly when some required, non-ignored field is absent; on success the optional names are exactly those of the fields with a default |
| `Objects.CheckRequiredKeys` | util/functions/objects.py:19-61 | the loop sorting the fields into required and optional, then the missing-field check, yields the check above |
| `Objects.AddValueToDict` | util/functions/objects.py:64-82 | the value is stored before it is checked, so the dictionary holds it even when `ValueError` is raised; the call raises exactly when `require_field` rejects the stored value |
| `Objects.DictFromFieldsOk` | util/functions/objects.py:85-118 | the build succeeds exactly when every given field passes its type check |
| `Objects.DictFromFieldsFirstError` | util/functions/objects.py:103-107 | a failed build names the first field, in order, whose given value fails its check |
| `Objects.DictFromFieldsKeys` | util/functions/objects.py:100-118 | a built dictionary holds exactly the names of the fields that are given or optional; an absent required field is left out |
| `Objects.DictFromFieldsGiven` | util/functions/objects.py:105-107 | every given field is copied with its given value |
| `Objects.DictFromFieldsValues` | util/functions/objects.py:103-116 | with distinct field names, each given field has its given value and each absent optional field its default, else its factory's value, else None |
| `Objects.CreateDictFromFields` | util/functions/objects.py:85-118 | the loop over the fields, from an empty dictionary, yields the build above |
| `Objects.OptionalFieldsHaveDefaults` | util/functions/objects.py:109-116 | with the optional names the key check returns, an absent optional field always has a default or a factory, so the None branch is never taken |
| `Objects.ConvertStrToEnum` | util/functions/objects.py:168-187 | the member whose name is the string, and `ValueError` exactly when no member has that name |
| `DataclassParse.ValidateFieldTypeAsRequireField` | web/parsers/nodes.py:246-260 | the field type check holds exactly when `require_field` with that class, or a generic alias of it, would not raise |
| `DataclassParse.Chars` | web/parsers/nodes.py:106 | `list` of a string has one one-character string per character |
| `DataclassParse.KeysCheckSpec` | web/parsers/nodes.py:103-109 | an empty payload lets `ValueError` escape; otherwise the MISSING_* error, listing the absent required fields, is raised exactly when there is one |
| `DataclassParse.FromDataclassSpec` | web/parsers/nodes.py:103-119 | in order: an empty payload lets `ValueError` escape; an absent required field gives the MISSING_* error listing exactly those fields; a given field failing its type check gives the INVALID_* error naming the first such field; otherwise the arguments hold every given value and every absent optional field's default, and nothing else |
| `DataclassParse.RejectingFieldFails` | web/parsers/nodes.py:103-119 | a required field whose annotation rejects every value makes every parse fail, as written and corrected |
| `DataclassParse.AllRequiredSpec` | web/parsers/device.py:119-131 | when every field is required, a non-empty payload parses exactly when it gives every field with an accepted value, and the arguments are the given values |
| `DataclassParse.AllRequiredAcceptedIff` | web/parsers/device.py:119-131 | the same acceptance condition, stated for a caller's own description of it |
| `DataclassParse.RequiredNamesMissing` | util/functions/objects.py:46-57 | the missing names are the required, non-ignored field names the input lacks |
| `DataclassParse.MissingNamesAre` | util/functions/objects.py:57-59 | where the required, non-ignored names are a known set, the missing names are its members the input lacks, and none are missing exactly when the input has them all |
| `DataclassParse.MissingDetailsAreCharacters` | web/parsers/nodes.py:105-109 | as written, the MISSING_* details differ from the intended list exactly when a required field is absent, and then hold the characters of the `KeyError` message, more entries than there are missing fields |
| `DataclassParse.MissingNameCounterexample` | web/parsers/nodes.py:240-244 | a payload lacking its one required field "name" gets, as written, the 29 characters of the message as its list instead of ["name"] |
| `Window.Added` | model/struct/sliding_window.py:27-35 | the new item comes first and the old items follow in order; the length grows by one up to the maximum and never exceeds it, so a full window loses its oldest item |
| `Window.ItemAt` | model/struct/sliding_window.py:37-48 | a deque index: non-negative counts from the most recent, negative from the oldest, and `IndexError` exactly outside those ranges |
| `Window.AddThenPopLeftRestores` | model/struct/sliding_window.py:35-58 | on a window that is not full, adding an item and popping the front gives back that item and the previous contents |
| `Window.AddToFullDropsOldest` | model/struct/sliding_window.py:23-35 | on a full window, adding drops exactly the oldest item |
| `Window.SlidingWindow.constructor` | model/struct/sliding_window.py:23-25 | the window starts empty with the given maximum |
| `Window.SlidingWindow.Add` | model/struct/sliding_window.py:27-35 | the contents become those of adding the item, and stay within the maximum |
| `Window.SlidingWindow.Peek` | model/struct/sliding_window.py:37-48 | the item at the index, or `IndexError`; the window is not changed |
| `Window.SlidingWindow.PopLeft` | model/struct/sliding_window.py:50-58 | removes and returns the most recent item, the rest keeping their order; `IndexError` on an empty window |
| `Window.SlidingWindow.PopRight` | model/struct/sliding_window.py:60-68 | removes and returns the oldest item, the rest keeping their order; `IndexError` on an empty window |
| `Window.SlidingWindow.GetList` | model/struct/sliding_window.py:70-78 | the contents from the most recent to the oldest, at most the maximum of them |
| `Safety.BearerSplit` | web/safety.py:212-213 | splitting a header that starts with "Bearer " gives at least two pieces, the second being the first word after the prefix |
| `Safety.BearerTokenIsNextWord` | web/safety.py:212-213 | the bearer token is the text after "Bearer " up to the next space |
| `Safety.ClientIdentifier` | web/safety.py:196-224 | the identifier is an active session token or the client's fingerprint |
| `Safety.ClientIdentifierCases` | web/safety.py:209-224 | the token of a Bearer header, else the cookie, identifies the client exactly when it is non-empty and an active session; otherwise the `ip:hash(user_agent)` fingerprint does, and only the session table matters |
| `Safety.IdentifierToken` | web/safety.py:208-214 | the cookie token is replaced only when the authorization header is a Bearer header |
| `Safety.AuthorizationToken` | web/safety.py:338-346 | the cookie is consulted only without a non-empty authorization header, and with one a token is found only if it is a Bearer header |
| `Safety.Fingerprint` | web/safety.py:220-224 | the fingerprint starts with the client's IP address followed by a colon |
| `Safety.RemoveRecordSpec` | web/safety.py:422-437 | removing a record drops exactly that record, keeps every other one, and keeps the table's invariant |
| `Safety.AfterClean` | web/safety.py:422-437 | cleaning leaves the sessions alone |
| `Safety.CleanSpec` | web/safety.py:422-437 | cleaning removes exactly this client's record for the endpoint, drops the client once it has no record left, keeps every other record, and keeps the invariant that no client maps to an empty table, every record counts a failure, and only a record at the maximum is blocked |
| `Safety.AfterIncrement` | web/safety.py:439-467 | counting a failure leaves the sessions alone |
| `Safety.IncrementSpec` | web/safety.py:452-467 | a record whose block has expired, or a new one, restarts at 0; then the count goes up by one, the last attempt becomes now, and from the fifth failure the client is blocked for 15 minutes from now |
| `Safety.IncrementLeavesOthers` | web/safety.py:439-467 | counting a failure changes no other record |
| `Safety.IncrementKeepsTableValid` | web/safety.py:454-464 | counting a failure keeps the invariant: a block only on a record that has reached the maximum |
| `Safety.IsBlocked` | web/safety.py:373-399 | the check leaves the sessions alone |
| `Safety.IsBlockedSpec` | web/safety.py:384-399 | a client is blocked exactly when its record for the path has a block still in the future, and then nothing changes; otherwise a record whose last attempt is more than 15 minutes old is deleted and nothing else changes; the invariant is kept |
| `Safety.UnlockedDate` | web/safety.py:401-411 | there is an unlock date exactly when the client's record for the path has a block |
| `Safety.RemainingRequests` | web/safety.py:413-420 | 5 without a record, and 5 minus the count when the count is not 0 |
| `Safety.IncrementAt` | web/safety.py:439-467 | repeated failures leave the sessions alone |
| `Safety.RepeatedFailures` | web/safety.py:439-467 | failures at non-decreasing instants within 15 minutes are all counted, and from the fifth the client is blocked until 15 minutes after the last one |
| `Safety.CheckAuthorizationToken` | web/safety.py:323-371 | an accepted token is an active session of the request, opened by the user the token names from the same IP |
| `Safety.CheckAuthorizationTokenSpec` | web/safety.py:339-371 | a non-empty Authorization header that is not a Bearer header means no token, whatever the cookie, and `TokenNotInRequest`; so does a valid token that is not an active session; an active session whose user differs from the token's or whose IP differs from the request's raises `TokenInRequestInvalid`, and one where both match returns the user, the token and the secret |
| `Safety.RequireStr` | util/functions/objects.py:141-151 | `require_field(d, key, str)` gives the stored string, and `ValueError` exactly when it is absent or not a string |
| `Safety.CreateJwtToken` | web/safety.py:226-273 | a failed login changes nothing; a login opens exactly one session under the new token for the configured user, from the request's IP with the payload's `auto_login` (False by default), and leaves the failure table alone |
| `Safety.LoginRejectsWeakPassword` | web/safety.py:226-273 | a password `validate_password` rejects never opens a session, whatever the stored hash |
| `Safety.UpdateJwtToken` | web/safety.py:275-305 | a failed refresh changes nothing, and a refresh leaves the failure table alone |
| `Safety.UpdateJwtTokenSpec` | web/safety.py:299-304 | a refresh removes the old session and adds one under the new token for the same user and `auto_login`; no other session changes |
| `Safety.DeleteJwtToken` | web/safety.py:307-321 | a failed logout changes nothing; a logout removes exactly the request's session |
| `Safety.LogoutEndsSession` | web/safety.py:307-371 | after a logout the same request is no longer authorised |
| `Safety.HTTPSafety.constructor` | web/safety.py:101-104 | both tables start empty |
| `Safety.HTTPSafety.CleanFailedRequests` | web/safety.py:422-437 | the state becomes the cleaned table |
| `Safety.HTTPSafety.IncrementFailedRequests` | web/safety.py:439-467 | the state becomes the incremented table |
| `Safety.HTTPSafety.IsBlockedNow` | web/safety.py:373-399 | the answer and the new state are those of the check |
| `Safety.HTTPSafety.GetUnlockedDate` | web/safety.py:401-411 | the unlock date of the current table |
| `Safety.HTTPSafety.GetRemainingRequests` | web/safety.py:413-420 | the remaining attempts of the current table |
| `Safety.HTTPSafety.CheckToken` | web/safety.py:323-371 | the token check on the current tables |
| `Safety.HTTPSafety.Login` | web/safety.py:226-273 | the result and the new state are those of the login |
| `Safety.HTTPSafety.Refresh` | web/safety.py:275-305 | the result and the new state are those of the refresh |
| `Safety.HTTPSafety.Logout` | web/safety.py:307-321 | the result and the new state are those of the logout |
| `Decorator.BlockedShortCircuits` | web/api/decorator.py:61-66 | a blocked client gets 429 with its unlock instant, which lies in the future; the endpoint is not run and nothing changes |
| `Decorator.SuccessCleans` | web/api/decorator.py:68-75 | when the client is not blocked, the token check (if required) passes and the endpoint succeeds, its result is returned and the client's record for the URL path is cleared from the state the endpoint left |
| `Decorator.AuthBeforeEndpoint` | web/api/decorator.py:68-77 | a protected endpoint is not run when the token check fails; the token check's exception is classified instead |
| `Decorator.HandleSpec` | web/api/decorator.py:77-109 | a no-increment exception, checked first, gives 401 and changes nothing; an increment exception counts one failure and gives 429 exactly when that blocks the client, else 401; any other exception gives 500 and changes nothing |
| `Decorator.CountedUnauthorizedRemaining` | web/api/decorator.py:96-105 | on a valid table a counted 401 reports between 1 and 4 remaining attempts, since a fifth failure always blocks |
| `Decorator.PresetClassification` | web/api/decorator.py:116-126 | every preset counts `TokenInRequestInvalid`, a missing user configuration and a `ValueError` (malformed JSON included), never counts `TokenNotInRequest`, and answers a `KeyError` with 500; only logout, change password and protected require a token; login counts invalid credentials and protected does not |
| `Decorator.AuthEndpoint` | web/api/decorator.py:53-113 | the response and the new safety state are those of the wrapper |
| `Decorator.Handle` | web/api/decorator.py:77-113 | a classified exception never yields a success; the 500 answer comes exactly when the exception is in neither list, and an uncounted 401 leaves the state as it was |
| `Decorator.Wrapped` | web/api/decorator.py:55-113 | a blocked client always gets 429, and a success implies the client was not blocked and the endpoint itself succeeded |
| `WebValidation.ValidatePasswordCountsCore` | web/validation.py:25 | surrounding whitespace does not count and interior whitespace does: a padded password is valid exactly when its core has at least five characters |
| `WebValidation.ValidatePasswordRejectsBlank` | web/validation.py:25 | the empty password and every whitespace-only password are rejected |
| `WebValidation.ValidatePassword` | web/validation.py:10-25 | an accepted password has at least five characters |
| `FieldParsers.BoolField` | web/parsers/helpers.py:12-28 | a boolean is returned as is; an absent or None optional field gives None without a record; anything else is recorded |
| `FieldParsers.StrField` | web/parsers/helpers.py:79-95 | the same for strings |
| `FieldParsers.IntField` | web/parsers/helpers.py:31-52 | `data[key]` raises for an absent key, so it is recorded even when optional; an int, bool or convertible string is converted; an explicit None of an optional field gives None without a record; anything else is recorded |
| `FieldParsers.FloatField` | web/parsers/helpers.py:55-76 | the same, also accepting floats |
| `FieldParsers.RequiredFieldRecordedIffNoValue` | web/parsers/helpers.py:12-95 | a required field is recorded exactly when it yields no value, for each of the four parsers |
| `FieldParsers.AbsentOptionalField` | web/parsers/helpers.py:12-95 | on an absent optional field the boolean and string parsers give None silently while the integer and float parsers record it |
| `FieldParsers.EnumField` | web/parsers/helpers.py:79-95 | a string converted to an enum appends its key at most once, by the string parser or by a failed conversion; a value results exactly when the stored string is a member value |
| `FieldParsers.FailingKeys` | web/parsers/helpers.py:12-95 | there are no more failing keys than fields |
| `FieldParsers.FailingKeysMembers` | web/parsers/helpers.py:12-95 | the failing keys are exactly those of the fields that fail, and none fail exactly when the list is empty |
| `FieldParsers.FailingKeysSnoc` | web/parsers/helpers.py:12-95 | parsing one more field extends the failing keys by its key exactly when it fails |
| `FieldParsers.MissingList.constructor` | web/parsers/helpers.py:12 | the shared list starts empty |
| `FieldParsers.MissingList.Append` | web/parsers/helpers.py:27 | the key is appended |
| `FieldParsers.MissingList.ParseBool` | web/parsers/helpers.py:12-28 | the value of the boolean parser, with its key appended exactly when it records |
| `FieldParsers.MissingList.ParseStr` | web/parsers/helpers.py:79-95 | the value of the string parser, with its key appended exactly when it records; the list stays the failing keys of the fields parsed so far |
| `FieldParsers.MissingList.ParseEnum` | web/parsers/helpers.py:79-95 | the value of the enum field and its appended keys; the list stays the failing keys of the fields parsed so far |
| `FieldParsers.MissingList.ParseInt` | web/parsers/helpers.py:31-52 | the value of the integer parser, with its key appended exactly when it records; the list stays the failing keys of the fields parsed so far |
| `FieldParsers.MissingList.ParseFloat` | web/parsers/helpers.py:55-76 | the value of the float parser, with its key appended exactly when it records |
| `ModbusRtuParser.CommFieldsParse` | web/parsers/protocol/modbus_rtu.py:46-91 | when no field is recorded every one of the nine yields a value, so the type test after the `missing` check always passes |
| `ModbusRtuParser.CommOptionsSpec` | web/parsers/protocol/modbus_rtu.py:23-104 | the options are built exactly when none of the nine required fields is recorded, and otherwise the MISSING_DEVICE_COMUNICATION_FIELDS error lists each failing field once, in parse order |
| `ModbusRtuParser.CommOptionsValues` | web/parsers/protocol/modbus_rtu.py:93-104 | built options hold exactly the payload's values, the integers converted by `int` |
| `ModbusRtuParser.CommOptionsBuilt` | web/parsers/protocol/modbus_rtu.py:75-104 | with no failing field, the options are built from each field parser's value |
| `ModbusRtuParser.ParseCommOptions` | web/parsers/protocol/modbus_rtu.py:23-104 | the nine parser calls on one `missing` list yield the result above |
| `ModbusRtuParser.NodeFieldsParse` | web/parsers/protocol/modbus_rtu.py:130-177 | when no node field is recorded, function, address and type yield values, so the type test always passes |
| `ModbusRtuParser.NodeOptionsSpec` | web/parsers/protocol/modbus_rtu.py:106-179 | the node options are built exactly when no field fails, and otherwise the MISSING_NODE_PROTOCOL_OPTIONS_FIELDS error lists the failing fields in parse order; a built value has a valid function and type, an endian mode that is absent or valid, and the payload's address and bit |
| `ModbusRtuParser.AbsentEndianModeAndBit` | web/parsers/protocol/modbus_rtu.py:154-168 | an absent `endian_mode` is accepted, but an absent `bit` is recorded by the integer parser although optional, so the payload is rejected |
| `ModbusRtuParser.ParseNodeOptions` | web/parsers/protocol/modbus_rtu.py:106-179 | the parser calls and enum conversions on one `missing` list yield the result above |
| `OpcUaParser.CommFieldsParse` | web/parsers/protocol/opc_ua.py:40-57 | when no field is recorded, url, read period and timeout yield values |
| `OpcUaParser.CommOptionsSpec` | web/parsers/protocol/opc_ua.py:17-71 | with the username checked for `str` or None, the options are built exactly when no field fails, and hold the payload's values, an absent or None username or password giving None; otherwise the error lists the failing fields |
| `OpcUaParser.UsernameTestRejectsStrings` | web/parsers/protocol/opc_ua.py:52-69 | the code as written and the corrected test part exactly on payloads that parse and carry a string username, where the written test raises `ValueError` |
| `OpcUaParser.UsernameCounterexample` | web/parsers/protocol/opc_ua.py:66 | a complete payload with username "operator" is rejected as written and accepted corrected |
| `OpcUaParser.StringUsernameRejected` | web/parsers/protocol/opc_ua.py:43-71 | every payload with all five fields well typed is rejected as written and accepted, with its values, corrected |
| `OpcUaParser.ParseCommOptions` | web/parsers/protocol/opc_ua.py:17-71 | the five parser calls on one `missing` list yield the corrected result |
| `OpcUaParser.NodeFieldsParse` | web/parsers/protocol/opc_ua.py:96-116 | when no node field is recorded both yield values, so the type test always passes |
| `OpcUaParser.NodeOptionsSpec` | web/parsers/protocol/opc_ua.py:74-118 | the node options are built exactly when `node_id` is a string and `type` is the value of an `OPCUANodeType` member, and then hold them; otherwise the error lists the failing fields in order |
| `OpcUaParser.ParseNodeOptions` | web/parsers/protocol/opc_ua.py:74-118 | the parser calls on one `missing` list yield the result above |
| `NoProtocolParser.NodeOptionsSpec` | web/parsers/protocol/no_protocol.py:17-58 | the options are built exactly when `type` is a string naming a `NoProtocolType` member; otherwise the error lists `type` alone |
| `NoProtocolParser.ParseNodeOptions` | web/parsers/protocol/no_protocol.py:17-58 | the parser call and the enum conversion on one `missing` list yield the result above |
| `NodeParser.ParseTime` | web/parsers/nodes.py:69-77 | a time text is accepted exactly when it is absent, empty or converts; a failed conversion gives the stage's INVALID code; a parsed time has zero seconds and microseconds |
| `NodeParser.FormattedTimeSpanOrder` | web/parsers/nodes.py:51-77 | the query is accepted exactly when the time zone, the formatted step, the presence of `start_time`, the start text and the end text all pass, and the first failing check decides the error (INVALID_TIME_ZONE, the step's `ValueError`, MISSING_START_TIME, INVALID_START_TIME, INVALID_END_TIME) |
| `NodeParser.FormattedTimeSpanResult` | web/parsers/nodes.py:56-79 | an accepted query keeps the time zone and flags, keeps the step only when formatted, gives a start time exactly when a non-empty one is passed, truncates times to the minute, and ends a formatted query without `end_time` now |
| `NodeParser.ConfigNeverParses` | web/parsers/nodes.py:103-119 | with the `BaseNodeRecordConfig` annotations as written (model/controller/node.py:63-78) every configuration payload is rejected |
| `NodeParser.ConfigFieldsShape` | model/controller/node.py:63-78 | the sixteen configuration field names are distinct and all of them are required |
| `NodeParser.ConfigFieldsRequired` | model/controller/node.py:63-78 | every configuration field is required, whatever its annotations |
| `NodeParser.ConfigFieldsAccepted` | web/parsers/nodes.py:111-112 | all corrected configuration fields are given and accepted exactly when the payload is well typed |
| `NodeParser.WellTypedConfigAccepted` | web/parsers/nodes.py:111-112 | every field of a well-typed configuration payload is accepted |
| `NodeParser.AcceptedConfigWellTyped` | web/parsers/nodes.py:111-112 | a payload whose fields are all given and accepted is well typed |
| `NodeParser.AcceptedConfigFlags` | model/controller/node.py:63-68 | an accepted configuration has boolean `enabled`, `publish`, `calculated` and `custom` and a string `type` |
| `NodeParser.AcceptedConfigAlarms` | model/controller/node.py:70-73 | an accepted configuration has boolean `logging`, `min_alarm` and `max_alarm` and an integer `logging_period` |
| `NodeParser.ParseNodeConfigSpec` | web/parsers/nodes.py:82-119 | the corrected configuration parser lets `ValueError` escape for an empty payload, and a parsed configuration gives every field with the payload's own value |
| `NodeParser.ConfigArguments` | web/parsers/nodes.py:103-119 | for any annotations: an empty payload lets `ValueError` escape, a payload lacking fields gets MISSING_NODE_CONFIG_FIELDS listing the missing names, and a parsed one carries every field's value |
| `NodeParser.ParseNodeConfigAccepts` | web/parsers/nodes.py:82-119 | the corrected parser accepts a non-empty configuration exactly when it is well typed |
| `NodeParser.AttributesPhaseAlwaysRejected` | web/parsers/nodes.py:194-210 | with `phase: NodePhase` as written (model/controller/node.py:100) a payload giving a phase is always INVALID_NODE_ATTRIBUTES_FIELDS, and only an absent phase gives the default |
| `NodeParser.ParseNodeAttributesSpec` | web/parsers/nodes.py:174-210 | the corrected attributes parser lets `ValueError` escape for an empty payload, keeps a string phase, defaults an absent one to "General", and rejects any other phase value as INVALID_NODE_ATTRIBUTES_FIELDS |
| `NodeParser.AttributesCounterexample` | web/parsers/nodes.py:194-210 | the payload `{"phase": "L1"}` is rejected as written and parsed to phase "L1" by the corrected parser |
| `NodeParser.ProtocolOptionsResolution` | web/parsers/nodes.py:146-171 | `NONE` parses against the no-protocol options, a registered protocol against its plugin's options, an unregistered one lets `NotImplemeted` through, and INVALID_PROTOCOL never comes from this stage |
| `NodeParser.ParseNodeProtocolOptionsIntended` | web/parsers/nodes.py:146-153 | a protocol other than `NONE` with no registered plugin gives INVALID_PROTOCOL, and `NotImplemeted` never escapes |
| `NodeParser.ProtocolOptionsUnregisteredEscapes` | web/parsers/nodes.py:146-153 | the written and the intended parser differ exactly on a protocol other than `NONE` without a registered plugin: `NotImplemeted` escapes from the one and INVALID_PROTOCOL comes from the other |
| `NodeParser.NonDictAttributes` | web/parsers/nodes.py:194-210 | attributes that are not a dictionary: a falsy value raises `ValueError`; a string containing "phase", or a list holding it, raises `TypeError` and any other string or list gives the default phase; a number, `True` or a date raises `TypeError` |
| `NodeParser.NodeAttributesOf` | web/parsers/nodes.py:272-276 | attributes that are neither `None` nor a dictionary go the way above, and a dictionary goes to the attributes parser |
| `NodeParser.NodeAttributesDefault` | web/parsers/nodes.py:272-276 | absent or `None` attributes default to "Singlephase" for a single-phase meter and "General" otherwise; a dictionary goes to the attributes parser |
| `NodeParser.ParseNodeFields` | web/parsers/nodes.py:245-280 | a parsed node keeps the payload's name and protocol and the results of the configuration, options and attributes stages; when name and protocol pass, the first failing stage in source order decides the error |
| `NodeParser.NodeConfigOf` | web/parsers/nodes.py:260-263 | a configuration that is absent or not a dictionary gives MISSING_NODE_CONFIG |
| `NodeParser.NodeProtocolOptionsOf` | web/parsers/nodes.py:266-269 | protocol options that are absent or not a dictionary give MISSING_NODE_PROTOCOL_OPTIONS |
| `NodeParser.ParseNodeKeys` | web/parsers/nodes.py:239-243 | an empty payload lets `ValueError` escape, a payload lacking `NodeRecord` fields gets MISSING_NODE_FIELDS listing them, and otherwise the field checks decide |
| `NodeParser.ParseNode` | web/parsers/nodes.py:213-280 | an empty payload lets `ValueError` escape; a parsed node carries the payload's own name and the configuration parsed from it |
| `NodeParser.ParseNodeHeaderOrder` | web/parsers/nodes.py:245-263 | in order: a non-string name gives MISSING_NODE_NAME, a non-string protocol MISSING_PROTOCOL, an unknown protocol INVALID_PROTOCOL, a non-dictionary configuration MISSING_NODE_CONFIG, then the configuration parser's error |
| `NodeParser.NodeProtocolOptionsStage` | web/parsers/nodes.py:266-269 | non-dictionary options give MISSING_NODE_PROTOCOL_OPTIONS, and dictionary options go to the protocol options parser |
| `NodeParser.ParseNodeKeepsNameAndProtocol` | web/parsers/nodes.py:278-280 | a parsed node carries the payload's own name and protocol |
| `NodeParser.NodeEntry` | web/parsers/nodes.py:308-313 | a list entry that is not a dictionary gives INVALID_NODE, and a dictionary goes to `parse_node` |
| `NodeParser.ParseNodes` | web/parsers/nodes.py:283-316 | the loop's result equals the fold of the entry parser over the list, starting from the empty set |
| `NodeParser.NodesFromOk` | web/parsers/nodes.py:306-314 | the list parses exactly when every entry parses |
| `NodeParser.NodesFromFirstError` | web/parsers/nodes.py:306-314 | the first failing entry decides the error |
| `NodeParser.NodesFromSize` | web/parsers/nodes.py:304-316 | the parsed set keeps at least the records it started with and grows by at most one per entry |
| `NodeParser.NodesFromKeepsRecords` | web/parsers/nodes.py:304-316 | the parsed set keeps every record already present and holds a record for every entry's name |
| `NodeParser.NodesFromFirstOccurrence` | web/parsers/nodes.py:314 | records are equal by (device id, name) (model/controller/node.py:138-150), so each name's record is the first entry carrying it and later duplicates are dropped |
| `NodeParser.NodesFromOnlyEntries` | web/parsers/nodes.py:304-316 | every record in the parsed set was already present or comes from an entry |
| `DeviceParser.DeviceOptionsFieldsShape` | model/controller/device.py:60-63 | the four meter option names are distinct and all of them are required |
| `DeviceParser.DeviceOptionsAccepted` | web/parsers/device.py:126-129 | every option field is given and accepted exactly when the four flags are booleans |
| `DeviceParser.ParseDeviceOptionsSpec` | web/parsers/device.py:95-131 | an empty payload lets `ValueError` escape, a payload lacking flags gets MISSING_DEVICE_OPTIONS_FIELDS listing them, a non-empty payload parses exactly when all four flags are booleans, and the options are those four flags |
| `DeviceParser.ParseCommunicationOptions` | web/parsers/device.py:162-165 | a protocol with no registered plugin lets `NotImplemeted` escape |
| `DeviceParser.ParseCommunicationOptionsSpec` | web/parsers/device.py:134-179 | a registered protocol checks the payload against its plugin's options fields with the MISSING/INVALID_DEVICE_COMMUNICATION_FIELDS codes, and INVALID_PROTOCOL never comes from this stage |
| `DeviceParser.ParseCommunicationOptionsIntended` | web/parsers/device.py:161-165 | a protocol with no registered plugin gives INVALID_PROTOCOL, and `NotImplemeted` never escapes |
| `DeviceParser.CommunicationOptionsUnregisteredEscapes` | web/parsers/device.py:161-165 | the written and the intended parser differ exactly on a protocol without a registered plugin: `NotImplemeted` escapes from the one and INVALID_PROTOCOL comes from the other |
| `DeviceParser.RequiredValue` | web/parsers/device.py:224-227 | the field is returned exactly when it is present and of the class; otherwise the `ValueError` naming it escapes as written, and the corrected parser raises the `is None` test's code |
| `DeviceParser.ParseHeader` | web/parsers/device.py:217-245 | an accepted header has an id exactly for an update (an `int` from the payload) and the payload's own name, protocol and type |
| `DeviceParser.DeviceOptionsOf` | web/parsers/device.py:248-251 | options that are absent or not a dictionary raise `ValueError` as written or MISSING_DEVICE_OPTIONS corrected; a dictionary goes to `parse_device_options` |
| `DeviceParser.CommunicationOptionsOf` | web/parsers/device.py:254-257 | communication options that are absent or not a dictionary raise `ValueError` as written or MISSING_DEVICE_OPTIONS corrected; a dictionary goes to `parse_communication_options` |
| `DeviceParser.ParseDeviceWith` | web/parsers/device.py:182-267 | an empty payload lets `ValueError` escape; missing keys (nodes excepted) give MISSING_DEVICE_FIELDS; then the header, options, communication options and node list decide in that order, and a parsed device holds each stage's result, its nodes parsed for its own meter type |
| `DeviceParser.ParseDevice` | web/parsers/device.py:182-267 | with the `is None` tests in effect: an empty payload lets `ValueError` escape, and a parsed device had every required key and carries the options parsed from the payload |
| `DeviceParser.ParseDeviceAsWritten` | web/parsers/device.py:182-267 | as written: the same, with the options parsed as the source does |
| `DeviceParser.ParseDeviceKeys` | web/parsers/device.py:209-214 | the names reported missing are exactly the name, protocol, type, options and communication options the payload lacks; `nodes` is never asked for and `id` is optional |
| `DeviceParser.DeviceRecordRequired` | model/controller/device.py:113-119 | the required record fields other than `nodes` are exactly name, protocol, type, options and communication options |
| `DeviceParser.ParseHeaderOrder` | web/parsers/device.py:217-245 | in order: an `int` id for an update, a `str` name, a `str` protocol naming a `Protocol` (else INVALID_PROTOCOL), a `str` type naming a meter type (else INVALID_TYPE); each rejected field raises its field failure |
| `DeviceParser.HeaderNeverRaisesMissingCodes` | web/parsers/device.py:217-241 | as written the header checks never raise MISSING_DEVICE_ID, MISSING_DEVICE_NAME, MISSING_PROTOCOL or MISSING_TYPE |
| `DeviceParser.MistypedNameEscapes` | web/parsers/device.py:224-227 | a payload with every required key and a non-string name fails with `ValueError` naming `name` as written, and with MISSING_DEVICE_NAME corrected |
| `DeviceParser.DeviceNameCounterexample` | web/parsers/device.py:224-227 | a new device whose name is the number 5 fails with `ValueError` as written and with MISSING_DEVICE_NAME corrected |
| `TimeDb.ToDbFormat` | db/timedb.py:63-110 | the loop's result equals the item-by-item conversion of the list |
| `TimeDb.FormatItemsUnfold` | db/timedb.py:88-108 | the first item's exception is raised, otherwise its point comes first, followed by the points of the rest |
| `TimeDb.PrependAppend` | db/timedb.py:108 | appending points one at a time in front of a result is the same as prepending them all at once |
| `TimeDb.PrependNothing` | db/timedb.py:86 | prepending no points leaves a result unchanged |
| `TimeDb.ItemPointErrors` | db/timedb.py:89-97 | an item lacking name, unit, start_time or end_time raises `ValueError`; one whose times are not datetimes raises at `strftime`; otherwise it converts |
| `TimeDb.ItemPoint` | db/timedb.py:89-108 | an item lacking a required key is rejected; a converted item's measurement is its name and its fields always hold both formatted times |
| `TimeDb.ItemFields` | db/timedb.py:92-108 | a point's measurement is the item's name and its time is the end time trimmed to the minute; its fields are exactly the unchanged non-`None` entries other than name and the two times, plus the times formatted to the minute, so they are never empty (the `None` return at 105-106 is unreachable) and hold the unit exactly when it is not `None` |
| `TimeDb.EndFieldIsPointTime` | db/timedb.py:97-103 | the formatted end time is the point's own time written to the minute |
| `TimeDb.RemoveSecPrecisionIdempotent` | util/functions/date.py:32-34 | trimming a time to the minute twice gives the same result as trimming it once |
| `TimeDb.FormatItemsSpec` | db/timedb.py:88-110 | the conversion succeeds exactly when every item converts, and then gives one point per item in the same order |
| `TimeDb.FormatItemsFirstError` | db/timedb.py:88-90 | the exception raised is that of the first item that fails |
| `TimeDb.DbName` | db/timedb.py:366 | the database name starts with the device name followed by `_` |
| `TimeDb.DbNameDistinguishesIds` | db/timedb.py:366 | for one device name, two ids give the same database exactly when they are equal |
| `TimeDb.VariableLogsQueryChecks` | db/timedb.py:371-379 | exactly one of the two times gives `ValueError`, an end not strictly after the start gives the other `ValueError`, and a built query reads the device's database and the node's measurement |
| `TimeDb.UnboundedVariant` | db/timedb.py:333-341 | without times the query reads every point, with the node's ungrouped columns |
| `TimeDb.RangeVariant` | db/timedb.py:268-319 | ordered times and no formatting give a query over the range between their ISO strings |
| `TimeDb.GroupedVariant` | db/timedb.py:295-322 | ordered times, formatting and a step give a numeric node a query grouped by the step (summed for an incremental node, aggregated statistics otherwise), and a non-numeric node `ValueError` |
| `TimeDb.MissingStepVariant` | db/timedb.py:323-325 | formatting without a step gives `ValueError` naming the node |
| `TimeDb.QueryColumnsMatchSpan` | db/timedb.py:244-341 | a query groups exactly when it has both times, formatting and a step, groups exactly when it selects summed or aggregated columns, and selects the raw value exactly when the node is not numeric |
| `TimeDb.RangeDeterminesTimes` | db/timedb.py:333-336 | a query built with a time span determines the two times it was built from |
| `DbQuery.Texts` | model/db.py:33 | one text per clause, in the same order |
| `DbQuery.TextsAppend` | model/db.py:24-33 | the texts of two clause lists appended are the two lists of texts appended |
| `DbQuery.Render` | model/db.py:22-33 | the appended-to list joined by spaces equals the space-join of the query's clauses |
| `DbQuery.ClausesOrdered` | model/db.py:24-32 | a query has two to six clauses, in the fixed order SELECT, FROM, WHERE, GROUP BY, FILL, tz, each at most once |
| `DbQuery.ClausesMandatory` | model/db.py:23-24 | a query starts with SELECT of its fields and FROM its measurement and has no other SELECT or FROM |
| `DbQuery.ClausesOptionalLists` | model/db.py:25-28 | a WHERE or GROUP BY clause is present exactly when its list is non-empty, and carries that list |
| `DbQuery.ClausesOptionalValues` | model/db.py:29-32 | a FILL or tz clause is present exactly when its value is not `None`, and carries that value |
| `DbQuery.JoinAppend` | model/db.py:33 | joining two non-empty lists is joining each and putting one separator between them |
| `DbQuery.RenderPrefix` | model/db.py:23-33 | the text begins with `SELECT <fields or *> FROM "<measurement>"`, and is exactly that when no optional clause is set |
| `DbQuery.MinimalQuery` | model/db.py:14-24 | a query with nothing optional set has only the SELECT and FROM clauses |
| `NodeSnapshot.InitialProc` | controller/registry/node_type.py:76-109 | INT and FLOAT nodes get a fresh numeric processor of their value type, and only they get a numeric one |
| `NodeSnapshot.GetNumericValue` | util/functions/meter.py:106-116 | an absent or non-numeric node gives `None`; a numeric node gives its processor's value |
| `NodeSnapshot.WithLastLog` | controller/meter/meter.py:165 | setting the last log time records that time and changes neither the configuration nor the node class |
| `NodeSnapshot.SetReading` | controller/node/processor/processor.py:49-72 | `set_value` changes neither the configuration, the node class nor the last log time; a disabled node is left as it is; on an enabled node the clock is stamped for every reading, also one of another kind, and `None` clears the value; a reading of another kind leaves the value as it was |
| `NodeSnapshot.Stamped` | controller/node/processor/processor.py:64-72 | `update_timestamp` alone sets the timestamp to now and changes neither the value nor the last log time |
| `NodeSnapshot.SetReadingText` | controller/node/processor/string_processor.py:25-30 | on an enabled STRING node a string becomes the value and the timestamp is now |
| `NodeSnapshot.SetReadingNumeric` | controller/node/processor/numeric_processor.py:134-190 | on an enabled, non-incremental numeric node a number becomes the value and `None` clears it |
| `NodeSnapshot.ResetNode` | controller/node/processor/processor.py:79-83 | `reset_value` leaves no value and keeps the configuration, the node class and the last log time |
| `NodeSnapshot.ResetNodeIdempotent` | controller/node/processor/numeric_processor.py:100-113 | resetting twice at the same clock reading is resetting once |
| `NodeSnapshot.ResetNodeDirection` | controller/node/processor/numeric_processor.py:73-78 | on a numeric node both direction flags are cleared; any other node is left as it is |
| `NodeSnapshot.NodePublishFormatKeys` | controller/node/processor/processor.py:85-100 | every node's publish format holds its value, type and unit |
| `NodeSnapshot.NodeSubmitLog` | controller/node/processor/processor.py:102-109 | the log entry holds exactly name, unit, start time (the previous last log time) and end time (the given time); afterwards the node has no value and its last log time is the given time |
| `NodeSnapshot.ValuesIn` | controller/meter/nodes.py:107 | the values listed come from keys of the order that are present, at most one per key |
| `NodeSnapshot.ValuesInIndex` | controller/meter/nodes.py:107 | when every key of the order is present, the values are the nodes under those keys, in order |
| `NodeSnapshot.ValuesComplete` | controller/meter/nodes.py:107 | every node of a dictionary is among its values |
| `NodeSnapshot.Insert` | controller/meter/nodes.py:107 | storing a node under its name updates that key and keeps the order listing each key once and every node under its own name |
| `NodeSnapshot.FromNodes` | controller/meter/nodes.py:107 | the dictionary built from the nodes is keyed by name and has a key exactly for each node's name |
| `NodeSnapshot.FromNodesLastWins` | controller/meter/nodes.py:107 | under each name sits the last node carrying it |
| `General.ProtocolFromValue` | model/controller/general.py:24-38 | `Protocol(s)` succeeds exactly when `s` is one of the valid protocol strings, and gives the member whose value is `s` |
| `General.ProtocolValueRoundTrip` | model/controller/general.py:24-38 | every protocol's value is valid and converts back to the same protocol |
| `General.EnergyMeterTypeFromValue` | model/controller/device.py:26-27 | `EnergyMeterType(s)` succeeds exactly for "SINGLE_PHASE" and "THREE_PHASE", and gives the member whose value is `s` |
| `General.EnergyMeterTypeValueRoundTrip` | model/controller/device.py:26-27 | every meter type converts back from its value |
| `Values.PyEqEquivalence` | controller/meter/validation.py:100-101 | the `!=` that finds mismatched logging periods rests on an equality that is reflexive, symmetric and transitive |
| `Values.PyEqAcrossNumbers` | controller/meter/validation.py:101 | an `int` and a `float` holding the same number are equal, as are `True` and 1, and a number never equals a string |

## Left out

- Device transports are not modelled: the Modbus RTU and OPC UA clients, their reconnect loops and the decoding of register words. MQTT is not modelled either. All of these are I/O.
- The asyncio plumbing is not modelled: the asyncio tasks and queues in `controller/meter/meter.py`, `DeviceManager.start`, `handle_devices`, `publish_devices_state` and the `EnergyMeter` start and stop, as well as `TimeDBClient.db_writer`, `init` and `close_connection`. The payloads these would put on a queue are returned as sequences instead.
- Clock reads (`time.time()`, `datetime.now()`, `get_current_date`) are not modelled. The current time is a parameter.
- `sqrt`, `sin`, `cos`, `atan`, `acos` and `round` are uninterpreted function parameters; the `ValueError` of `sqrt` on a negative argument and of `acos` outside [-1, 1] is modelled as an error of the power calculations, not of the parameters. Python floats are modelled as reals, so the model has no rounding error, no infinities and no NaN.
- `EnergyMeter.get_device` (controller/meter/meter.py:336-359), the legacy `get_device_state` and `get_meter_options` are not modelled. They only read fields the model already exposes.
- `Manager.BoolOr` rejects a stored value of the wrong Python type with `UnexpectedValue`. The source does no type check at controller/manager.py:182-236 and passes the value on into the `Node` constructor; the model's typed node configuration cannot carry such a value further.
- `Manager.OptBoolOr` rejects a stored value of the wrong Python type with `UnexpectedValue`. The source does no type check at controller/manager.py:182-236 and passes the value on into the `Node` constructor; the model's typed node configuration cannot carry such a value further.
- `Manager.OptNumberOr` rejects a stored value of the wrong Python type with `UnexpectedValue`. The source does no type check at controller/manager.py:182-236 and passes the value on into the `Node` constructor; the model's typed node configuration cannot carry such a value further.
- `Manager.UnitOf` rejects a stored value of the wrong Python type with `UnexpectedValue`. The source does no type check at controller/manager.py:182-236 and passes the value on into the `Node` constructor; the model's typed node configuration cannot carry such a value further.
- `Manager.AddressingOf` rejects a stored value of the wrong Python type with `UnexpectedValue`. The source does no type check at controller/manager.py:182-236 and passes the value on into the `Node` constructor; the model's typed node configuration cannot carry such a value further.
- `Manager.CommonFieldsOf` rejects a stored value of the wrong Python type with `UnexpectedValue`. The source does no type check at controller/manager.py:182-236 and passes the value on into the `Node` constructor; the model's typed node configuration cannot carry such a value further.
- `NodeModel.CreateFromNodeRecord` reports `FieldTypeMismatch` for a stored value whose type differs from its `NodeConfig` annotation. `NodeConfig(**filtered)` at model/controller/node.py:237-248 does no such check and keeps the value; the model's typed configuration cannot hold it.
- `Manager.ConnectionOptionsOf` takes the OPC UA defaults of `read_period` and `timeout` from `BaseCommunicationOptions` at model/controller/device.py:75-86, because controller/types/device.py, which `opcua_device.py` imports it from, is not part of this model.
- `NodeSnapshot.SetReading`: the source stores a number given to a BOOL or STRING processor, or a string given to a BOOL processor, as the processor's value. The model's processors hold values of their own kind only, so the model stamps the clock and keeps the old value. A string given to an INT or FLOAT processor makes the source raise `TypeError` in its statistics or direction update; the model stamps the clock and raises nothing. Calculations hand a string only to the power-factor direction node, which is a STRING node in a well-formed meter.
- `LegacyNode.SetValueResult` raises `TypeError` for the first non-number reading of an incremental INT or FLOAT node. The source stores that reading as the initial value and raises only at the next reading. The model also does not follow a node whose value is already a non-number, where Python's comparison of two strings would succeed.
- `LegacyDevice.DeviceNode.SetValue` requires a reading of the node's kind (a number or `None` on an INT or FLOAT node). The source compares or adds any other reading and raises `TypeError` after stamping the clock (controller/device.py:112-160); in the model the caller `LegacyMeter.Store` reports that case as `ReadingMismatch` and changes nothing.
- `Meter.CalculateAll` runs the calculation tasks one after another in key order. The source runs them with `asyncio.to_thread` and gathers them (controller/meter/meter.py:231-247), so their order and any interleaving of their writes are not modelled.
- `Meter.LogDue` and `Meter.LogDueEveryMinute` take a fixed UTC offset as a parameter. The source converts to local time, and daylight-saving changes are not modelled.
- `NodeParser.ParseNodeFields` builds a node record with protocol options. The `NodeRecord` of model/controller/node.py:113-136 has no `protocol_options` field, so the call at web/parsers/nodes.py:278-280 would raise `TypeError`. `BaseNodeProtocolOptions`, imported at web/parsers/nodes.py:13, is defined nowhere in that module either. The model follows the evident intent and keeps the options.
- `Manager.CreateNodes` returns the built nodes as a sequence in source order. The source collects them into a set, so the model keeps an order the source does not have.
- `Dates.ProcessTimeSpan` works on millisecond timestamps with a fixed UTC offset. The source's local-time conversion in `get_date_from_timestamp` and daylight saving are not modelled.
- `Objects.RequireField` reports a failed check as the field's name (`FieldError(field)`). The source raises a `ValueError` whose message names the field, and the model does not keep that message text.
- `Objects.AddValueToDict` reports the same `FieldError(field)`. The source re-raises the check's `ValueError` inside a longer "Failed to add value" message, and the model does not keep that text either.
- Several parts of `web/safety.py` are not modelled: `create_user_configuration`, `change_user_password` and the `user_config.json` file they handle, JWT encoding and decoding, argon2 hashing, Fernet `decrypt_password`, `require_env_variable` and `generate_random_number`. The decoded token user and the client address are parameters.
- The InfluxDB client calls of `db/timedb.py` are not modelled, and neither are `__fill_buckets` (which only prints), `delete_variable_data`, `delete_db` or the SQLite layer in `db/db.py`. Only the values that would be sent and the query chosen are modelled.
- The `if not fields: return None` branch of `to_db_format` is left out, because it cannot be taken: db/timedb.py:102-103 always add the formatted `start_time` and `end_time` to the fields.
- `parse_device_request` is not modelled. It decodes the form or JSON body of an HTTP request, which is I/O.
- The HTTP handlers in `web/api` are not modelled.
- The members of `ModbusRTUFunction` are a parameter, because that enumeration is not part of this model.
- Several helpers are called by the modelled files but defined in none of them: `get_time_zone_info`, `convert_isostr_to_date`, `validate_field_type`, `ProtocolRegistry.no_protocol_options` and `node_options_class`. Each is a parameter, or an abstract function with the behaviour its callers rely on.

## Findings

| source | as written | input that shows it | evidently intended | confidence | as-written member | corrected member |
|---|---|---|---|---|---|---|
| controller/meter/calculation.py:144 | the reactive power of the apparent-power sum is read from the active-power node | P and Q nodes both present; P has a value and Q has none | Q is read from the Q node, so a missing Q value gives no result | not executed | `MeterCalculation.ApparentPowerAsWrittenIgnoresReactive` | `MeterCalculation.ApparentPowerPrefersPowerNodes` |
| controller/node.py:566 | `round` is applied to the mean even when it is `None` | a FLOAT node that was never read, logged | a node without readings logs no mean | not executed | `LegacyNode.SubmitLogAsWrittenFailsWithoutReadings` | `LegacyNode.SubmitLogEntry` |
| controller/meter.py:257 | the call to `subtracte_datetime_mins` names a function that does not exist | any second logging cycle, where a previous log time is set | `subtract_datetime_mins` is called | not executed | `LegacyMeter.LoggingAsWrittenFailsOnSecondCycle` | `LegacyMeter.LogStepAgreesWhereAsWrittenRuns` |
| controller/meter.py:295 | `elapsed_time / 3600.0` is evaluated before the `None` check on the elapsed time | a power node still in its initial state, with no elapsed time | the energy step is skipped while the elapsed time is `None` | not executed | `LegacyMeter.EnergyAsWrittenFailsBeforeFirstReading` | `LegacyMeter.EnergyFromPower` |
| web/parsers/nodes.py:106 | the `KeyError` message string is passed to `list`, giving its characters | a node payload that lacks only "name" | the details list the missing field names | not executed | `DataclassParse.MissingNameCounterexample` | `DataclassParse.FromDataclassSpec` |
| web/parsers/protocol/opc_ua.py:66 | the username is checked against `(int, NoneType)` | a string username such as "user" | a string or `None` username is accepted | not executed | `OpcUaParser.UsernameCounterexample` | `OpcUaParser.ParseCommOptions` |
| web/parsers/nodes.py:104-112 | the type check rejects the `NodeType` and `X \| None` annotations of `BaseNodeRecordConfig` (model/controller/node.py:63-78) for every value | any node configuration payload | a well-typed configuration is accepted | not executed | `NodeParser.ConfigNeverParses` | `NodeParser.ParseNodeConfigAccepts` |
| web/parsers/nodes.py:195-203 | the type check rejects the `NodePhase` annotation of `phase` for every value | the attributes `{"phase": "L1"}` | a phase name is converted to its `NodePhase` member | not executed | `NodeParser.AttributesCounterexample` | `NodeParser.ParseNodeAttributesSpec` |
| web/parsers/device.py:217-257 | `require_field` raises before the `is None` checks, so the MISSING_DEVICE_* codes are never raised and a mistyped field escapes as `ValueError` | a device payload whose name is 5 | a missing or mistyped field gives its MISSING_DEVICE_* code | not executed | `DeviceParser.DeviceNameCounterexample` | `DeviceParser.MistypedNameEscapes` |
| web/parsers/device.py:164 | the `except` clause catches the built-in `NotImplementedError`, while the registry raises the project's own `NotImplemeted` (controller/exceptions.py:42), which is not a subclass of it | a device payload naming a protocol without a registered plugin | the request is rejected with INVALID_PROTOCOL | not executed | `DeviceParser.CommunicationOptionsUnregisteredEscapes` | `DeviceParser.ParseCommunicationOptionsIntended` |
| web/parsers/nodes.py:152 | the `except` clause catches the built-in `NotImplementedError`, not the `NotImplemeted` the registry raises | node protocol options for a protocol other than `NONE` without a registered plugin | the request is rejected with INVALID_PROTOCOL | not executed | `NodeParser.ProtocolOptionsUnregisteredEscapes` | `NodeParser.ParseNodeProtocolOptionsIntended` |
| controller/node/processor/processor.py:104-105 | `output` is copied from `additional_data` and then replaced by a fresh dictionary of the four base keys | a numeric node logging its mean, minimum and maximum | the caller's data is merged into the entry beside the base keys | not executed | `BaseProcessor.SubmitLogEntryDropsData` | `BaseProcessor.SubmitLogEntryMergedKeepsData` |
| controller/node/processor/numeric_processor.py:176 | `update_direction` receives the delta, and compares it with the current value rather than with zero | readings 100, 200, 260 on an incremental node with the default increment mode | the direction follows the published value, as the legacy controller/device.py:139-145 does | not executed | `NumericProcessor.IncrementalDirectionCounterexample` | `NumericProcessor.AfterSetIncrementalIntended` |
