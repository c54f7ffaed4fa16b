/**
 * A meter's node as the meter code sees it: its configuration, the protocol value in its
 * record, and the state of its processor. The meter logic (the `controller/meter` package) reads and
 * updates nodes through their processors; here each processor kind's state is a value and each
 * processor operation is its transition function.
 */
module NodeSnapshot {
  import opened Wrappers
  import opened Values
  import opened Dates
  import opened NodeModel
  import opened BaseProcessor
  import opened NumericProcessor
  import opened BoolProcessor
  import opened StringProcessor
  import opened NodeController

  /** The state of the processor a node type selects (`node_type.py`'s startup registrations). */
  datatype ProcState =
    | NumericProc(valueType: ValueType, num: NumericState)
    | BoolProc(b: BaseState<bool>)
    | StringProc(t: BaseState<string>)

  /** Which node class holds the configuration, with the protocol value it adds to its record. */
  datatype NodeKind = PlainNode | ModbusKind(register: Value) | OPCUAKind(nodeId: Value)

  datatype MeterNode = MeterNode(config: NodeConfig, kind: NodeKind, proc: ProcState)

  /** The processor a freshly built node of this configuration has. */
  function InitialProc(config: NodeConfig): (p: ProcState)
    ensures p.NumericProc? <==> config.nodeType in {INT, FLOAT}
    ensures config.nodeType == INT ==> p == NumericProc(IntType, InitialNumeric())
    ensures config.nodeType == FLOAT ==> p == NumericProc(FloatType, InitialNumeric())
  {
    match config.nodeType
    case INT => NumericProc(IntType, InitialNumeric())
    case FLOAT => NumericProc(FloatType, InitialNumeric())
    case BOOL => BoolProc(InitialBase())
    case STRING => StringProc(InitialBase())
  }

  /** `NodeProcessor.is_numeric_processor(node.processor)`. */
  predicate IsNumericNode(n: MeterNode)
  {
    n.proc.NumericProc?
  }

  /** `get_numeric_value`: the value of an existing numeric node, else `None`. */
  function GetNumericValue(n: Option<MeterNode>): (r: Option<real>)
    ensures n.None? || !IsNumericNode(n.value) ==> r.None?
    ensures n.Some? && IsNumericNode(n.value) ==> r == n.value.proc.num.base.value
  {
    if n.None? || !n.value.proc.NumericProc? then None else n.value.proc.num.base.value
  }

  /** `processor.value is not None`. */
  predicate HasValue(n: MeterNode)
  {
    match n.proc
    case NumericProc(_, s) => s.base.value.Some?
    case BoolProc(s) => s.value.Some?
    case StringProc(s) => s.value.Some?
  }

  /** `processor.value == 1.00`: a numeric 1.0, or `True` (which Python counts as 1). */
  predicate ValueIsOne(n: MeterNode)
  {
    match n.proc
    case NumericProc(_, s) => s.base.value == Some(1.0)
    case BoolProc(s) => s.value == Some(true)
    case StringProc(_) => false
  }

  /** `processor.elapsed_time`. */
  function ElapsedTime(n: MeterNode): Option<real>
  {
    match n.proc
    case NumericProc(_, s) => s.base.elapsedTime
    case BoolProc(s) => s.elapsedTime
    case StringProc(s) => s.elapsedTime
  }

  /** `processor.last_log_datetime`. */
  function LastLog(n: MeterNode): Option<DateTime>
  {
    match n.proc
    case NumericProc(_, s) => s.base.lastLogDatetime
    case BoolProc(s) => s.lastLogDatetime
    case StringProc(s) => s.lastLogDatetime
  }

  /** `processor.last_log_datetime = dateTime`. */
  function WithLastLog(n: MeterNode, dateTime: DateTime): (r: MeterNode)
    ensures LastLog(r) == Some(dateTime) && r.config == n.config && r.kind == n.kind
  {
    match n.proc
    case NumericProc(t, s) => n.(proc := NumericProc(t, s.(base := s.base.(lastLogDatetime := Some(dateTime)))))
    case BoolProc(s) => n.(proc := BoolProc(s.(lastLogDatetime := Some(dateTime))))
    case StringProc(s) => n.(proc := StringProc(s.(lastLogDatetime := Some(dateTime))))
  }

  /** What a calculation hands to `processor.set_value`: nothing, a number or a string. */
  datatype Reading = NoReading | Number(r: real) | Text(s: string)

  /** Whether the processor holds values of the reading's kind (`None` fits every processor). */
  predicate ReadingFits(p: ProcState, reading: Reading)
  {
    match p
    case NumericProc(_, _) => !reading.Text?
    case BoolProc(_) => reading.NoReading?
    case StringProc(_) => !reading.Number?
  }

  /** `processor.timestamp`. */
  function Timestamp(n: MeterNode): Option<real>
  {
    match n.proc
    case NumericProc(_, s) => s.base.timestamp
    case BoolProc(s) => s.timestamp
    case StringProc(s) => s.timestamp
  }

  /** `update_timestamp()` alone: the part of `prepare_set_value` that runs for any reading. */
  function Stamped(n: MeterNode, now: real): (r: MeterNode)
    ensures r.config == n.config && r.kind == n.kind && Timestamp(r) == Some(now)
    ensures HasValue(r) == HasValue(n) && LastLog(r) == LastLog(n)
  {
    match n.proc
    case NumericProc(t, s) => n.(proc := NumericProc(t, s.(base := AfterUpdateTimestamp(s.base, now))))
    case BoolProc(s) => n.(proc := BoolProc(AfterUpdateTimestamp(s, now)))
    case StringProc(s) => n.(proc := StringProc(AfterUpdateTimestamp(s, now)))
  }

  /**
   * `processor.set_value(reading)` at clock reading `now`. A number goes to a numeric
   * processor and a string to a string processor; `None` goes to any. A reading of another
   * kind still passes `prepare_set_value` on an enabled node, which stamps the clock; the
   * model's processors cannot hold the foreign value, so the value stays as it was.
   */
  function SetReading(n: MeterNode, reading: Reading, now: real): (r: MeterNode)
    ensures r.config == n.config && r.kind == n.kind
    ensures LastLog(r) == LastLog(n)
    ensures !n.config.enabled ==> r == n
    ensures n.config.enabled ==> Timestamp(r) == Some(now)
    ensures n.config.enabled && reading.NoReading? ==> !HasValue(r)
    ensures !ReadingFits(n.proc, reading) ==> HasValue(r) == HasValue(n)
  {
    if !ReadingFits(n.proc, reading) then
      if n.config.enabled then Stamped(n, now) else n
    else
      match n.proc
      case NumericProc(t, s) =>
        n.(proc := NumericProc(t, AfterSetValue(n.config, s, if reading.Number? then Some(reading.r) else None, now)))
      case BoolProc(s) => n.(proc := BoolProc(AfterBoolSetValue(n.config, s, None, now)))
      case StringProc(s) =>
        n.(proc := StringProc(AfterStringSetValue(n.config, s, if reading.Text? then Some(reading.s) else None, now)))
  }

  /** On an enabled string node a string becomes the value. */
  lemma SetReadingText(n: MeterNode, text: string, now: real)
    requires n.proc.StringProc? && n.config.enabled
    ensures var r := SetReading(n, Text(text), now);
      r.proc.StringProc? && r.proc.t.value == Some(text) && r.proc.t.timestamp == Some(now)
  {
    StringSetValueStores(n.config, n.proc.t, Some(text), now);
  }

  /** On an enabled numeric node a number becomes the value (non-incremental) and `None` clears it. */
  lemma SetReadingNumeric(n: MeterNode, reading: Reading, now: real)
    requires IsNumericNode(n) && n.config.enabled && !reading.Text?
    requires !IsSet(n.config.incremental.incrementalNode)
    ensures var r := SetReading(n, reading, now);
      && IsNumericNode(r)
      && r.proc.num.base.value == (if reading.Number? then Some(reading.r) else None)
  {
  }

  /** `processor.reset_value()`: the numeric processors' override, or the base one. */
  function ResetNode(n: MeterNode, now: real): (r: MeterNode)
    ensures r.config == n.config && r.kind == n.kind && !HasValue(r)
    ensures LastLog(r) == LastLog(n)
  {
    match n.proc
    case NumericProc(t, s) => n.(proc := NumericProc(t, AfterNumericResetValue(s, now)))
    case BoolProc(s) => n.(proc := BoolProc(AfterResetValue(s, now)))
    case StringProc(s) => n.(proc := StringProc(AfterResetValue(s, now)))
  }

  /** Resetting twice at the same clock reading is resetting once. */
  lemma ResetNodeIdempotent(n: MeterNode, now: real)
    ensures ResetNode(ResetNode(n, now), now) == ResetNode(n, now)
  {
  }

  /** `processor.reset_direction()` on a numeric processor; other nodes are left as they are. */
  function ResetNodeDirection(n: MeterNode): (r: MeterNode)
    ensures r.config == n.config && r.kind == n.kind
    ensures IsNumericNode(n) ==> IsNumericNode(r) && !r.proc.num.positiveDirection && !r.proc.num.negativeDirection
    ensures !IsNumericNode(n) ==> r == n
  {
    match n.proc
    case NumericProc(t, s) => n.(proc := NumericProc(t, AfterResetDirection(s)))
    case _ => n
  }

  /** `processor.get_publish_format()` (no additional data). */
  function NodePublishFormat(n: MeterNode, round: (real, int) -> real): map<string, Value>
  {
    match n.proc
    case NumericProc(_, s) => NumericPublishFormat(n.config, s, map[], round)
    case BoolProc(s) => BoolPublishFormat(n.config, s, map[])
    case StringProc(s) => StringPublishFormat(n.config, s, map[])
  }

  /** The publish format of every node holds its value, type and unit. */
  lemma NodePublishFormatKeys(n: MeterNode, round: (real, int) -> real)
    ensures {"value", "type", "unit"} <= NodePublishFormat(n, round).Keys
  {
    match n.proc
    case NumericProc(_, s) => NumericPublishFormatValue(n.config, s, map[], round);
    case BoolProc(s) => BoolPublishFormatValue(n.config, s, map[]);
    case StringProc(s) => StringPublishFormatValue(n.config, s, map[]);
  }

  /**
   * `processor.submit_log(dateTime)`: the entry, and the node after it. The numeric reset runs
   * twice (clock readings `now1` and `now2`); the other processors reset once, at `now1`.
   */
  function NodeSubmitLog(n: MeterNode, dateTime: DateTime, now1: real, now2: real,
                         round: (real, int) -> real): (r: (map<string, Value>, MeterNode))
    ensures r.0.Keys == {"name", "unit", "start_time", "end_time"}
    ensures r.0["start_time"] == OptDate(LastLog(n)) && r.0["end_time"] == Date(dateTime)
    ensures r.1.config == n.config && r.1.kind == n.kind && LastLog(r.1) == Some(dateTime) && !HasValue(r.1)
  {
    match n.proc
    case NumericProc(t, s) =>
      (SubmitLogEntry(n.config, s.base, dateTime, NumericLogData(n.config, s, map[], round)),
       n.(proc := NumericProc(t, AfterNumericSubmitLog(s, dateTime, now1, now2))))
    case BoolProc(s) =>
      (BoolSubmitLogEntry(n.config, s, dateTime, map[]), n.(proc := BoolProc(AfterSubmitLog(s, dateTime, now1))))
    case StringProc(s) =>
      (StringSubmitLogEntry(n.config, s, dateTime, map[]), n.(proc := StringProc(AfterSubmitLog(s, dateTime, now1))))
  }

  /** `node.get_node_record()` for the node's class. */
  function MeterNodeRecord(n: MeterNode): NodeRecord
  {
    match n.kind
    case PlainNode => NodeRecordOf(n.config)
    case ModbusKind(register) => ModbusRecordOf(n.config, register)
    case OPCUAKind(nodeId) => OPCUARecordOf(n.config, nodeId)
  }

  /**
   * A Python dict of nodes: the keys in insertion order and the node under each. Iterating over
   * `nodes.values()` visits `DictValues(d)`.
   */
  datatype NodeDict = NodeDict(order: seq<string>, nodes: map<string, MeterNode>)

  /** The order lists every key exactly once. */
  predicate ValidDict(d: NodeDict)
  {
    && (forall k :: k in d.nodes ==> k in d.order)
    && (forall i :: 0 <= i < |d.order| ==> d.order[i] in d.nodes)
    && (forall i, j :: 0 <= i < j < |d.order| ==> d.order[i] != d.order[j])
  }

  /** Every node sits under its own name, as in `{node.config.name: node for node in nodes}`. */
  predicate KeyedByName(d: NodeDict)
  {
    forall k :: k in d.nodes ==> d.nodes[k].config.name == k
  }

  function ValuesIn(order: seq<string>, nodes: map<string, MeterNode>): (r: seq<MeterNode>)
    ensures |r| <= |order|
    ensures forall n :: n in r ==> exists k :: k in order && k in nodes && nodes[k] == n
  {
    if order == [] then []
    else (if order[0] in nodes then [nodes[order[0]]] else []) + ValuesIn(order[1..], nodes)
  }

  /** `nodes.values()`, in insertion order. */
  function DictValues(d: NodeDict): seq<MeterNode>
  {
    ValuesIn(d.order, d.nodes)
  }

  /** When every key of the order is present, the values are the nodes under the keys, in order. */
  lemma {:induction false} ValuesInIndex(order: seq<string>, nodes: map<string, MeterNode>)
    requires forall k :: k in order ==> k in nodes
    ensures |ValuesIn(order, nodes)| == |order|
    ensures forall i :: 0 <= i < |order| ==> ValuesIn(order, nodes)[i] == nodes[order[i]]
  {
    if order != [] {
      ValuesInIndex(order[1..], nodes);
    }
  }

  /** Every node of a dict is among its values. */
  lemma ValuesComplete(d: NodeDict, k: string)
    requires ValidDict(d) && k in d.nodes
    ensures d.nodes[k] in DictValues(d)
  {
    ValuesInIndex(d.order, d.nodes);
    var i :| 0 <= i < |d.order| && d.order[i] == k;
    assert DictValues(d)[i] == d.nodes[k];
  }

  /** `d[node.config.name] = node`: a new key goes last, an existing one keeps its place. */
  function Insert(d: NodeDict, n: MeterNode): (r: NodeDict)
    ensures r.nodes == d.nodes[n.config.name := n]
    ensures ValidDict(d) ==> ValidDict(r)
    ensures KeyedByName(d) ==> KeyedByName(r)
  {
    if n.config.name in d.nodes then d.(nodes := d.nodes[n.config.name := n])
    else NodeDict(d.order + [n.config.name], d.nodes[n.config.name := n])
  }

  /** The dict built from nodes keyed by their names; a later node with a taken name replaces the earlier. */
  function FromNodes(ns: seq<MeterNode>): (r: NodeDict)
    ensures ValidDict(r) && KeyedByName(r)
    ensures forall k :: k in r.nodes <==> exists n :: n in ns && n.config.name == k
  {
    if ns == [] then NodeDict([], map[]) else Insert(FromNodes(ns[..|ns| - 1]), ns[|ns| - 1])
  }

  /** Under each name sits the last node with that name. */
  lemma {:induction false} FromNodesLastWins(ns: seq<MeterNode>, i: nat)
    requires i < |ns|
    requires forall j :: i < j < |ns| ==> ns[j].config.name != ns[i].config.name
    ensures FromNodes(ns).nodes[ns[i].config.name] == ns[i]
  {
    if i < |ns| - 1 {
      FromNodesLastWins(ns[..|ns| - 1], i);
    }
  }
}
