/**
 * The pure part of `TimeDBClient` (db/timedb.py): turning logged measurement items into
 * InfluxDB points, naming a device's database, and choosing which query reads a node's logs.
 *
 * Items are dictionaries of Python values. A point's `time` is the item's end time trimmed to
 * the minute, and its fields are every other non-`None` entry plus the start and end times
 * formatted to the minute. The query builders are modelled by the shape of the query they pick
 * (which columns, which time span) rather than by its InfluxQL text.
 */
module TimeDb {
  import opened Wrappers
  import opened Values
  import opened Dates
  import opened Strings

  /** The exceptions these operations raise. */
  datatype DbError =
    | MissingItemFields      // `ValueError`: an item lacks name, unit, start_time or end_time
    | NotADatetime           // `AttributeError`: strftime on a start or end time that is not a datetime
    | UnpairedTimes          // `ValueError`: only one of start_time and end_time was given
    | EndNotAfterStart       // `ValueError`: end_time <= start_time
    | WrongParameters(node: string) // `ValueError`: a formatted query without a time step
    | NonNumericFormatted    // `ValueError`: a formatted query on a non-numeric node

  /** An InfluxDB point: `{"measurement": ..., "fields": ..., "time": ...}`. */
  datatype Point = Point(measurement: Value, fields: map<string, Value>, time: DateTime)

  /** A value Python holds as a `datetime`. */
  predicate IsDatetime(v: Value)
  {
    v.Date? && Valid(v.d)
  }

  /** The keys every item must carry. */
  predicate HasRequiredKeys(item: map<string, Value>)
  {
    "name" in item && "unit" in item && "start_time" in item && "end_time" in item
  }

  /** The keys that do not become fields as they are. */
  predicate IsReservedKey(k: string)
  {
    k == "name" || k == "start_time" || k == "end_time"
  }

  /** The item's other entries whose value is not `None`. */
  function CopiedFields(item: map<string, Value>): map<string, Value>
  {
    map k | k in item && !IsReservedKey(k) && item[k] != Null :: item[k]
  }

  /** The point one item becomes, or the exception converting it raises. */
  function ItemPoint(item: map<string, Value>): (r: Result<Point, DbError>)
    ensures !HasRequiredKeys(item) ==> r == Err(MissingItemFields)
    ensures r.Ok? ==> HasRequiredKeys(item) && r.value.measurement == item["name"]
    ensures r.Ok? ==> "start_time" in r.value.fields && "end_time" in r.value.fields
  {
    if !HasRequiredKeys(item) then Err(MissingItemFields)
    else if !IsDatetime(item["start_time"]) || !IsDatetime(item["end_time"]) then Err(NotADatetime)
    else
      var start, end := item["start_time"].d, item["end_time"].d;
      var fields := CopiedFields(item)["start_time" := Str(DatestrUpToMin(start))]["end_time" := Str(DatestrUpToMin(end))];
      Ok(Point(item["name"], fields, RemoveSecPrecision(end)))
  }

  /** The points of all items, in order, or the exception of the first item that fails. */
  function FormatItems(data: seq<map<string, Value>>): Result<seq<Point>, DbError>
  {
    if data == [] then Ok([])
    else match ItemPoint(data[0])
      case Err(e) => Err(e)
      case Ok(p) =>
        match FormatItems(data[1..])
        case Err(e) => Err(e)
        case Ok(ps) => Ok([p] + ps)
  }

  /** `ps` put in front of the points of a successful result. */
  function Prepend(ps: seq<Point>, r: Result<seq<Point>, DbError>): Result<seq<Point>, DbError>
  {
    match r
    case Ok(qs) => Ok(ps + qs)
    case Err(e) => Err(e)
  }

  /**
   * `to_db_format`: one point per item, in order. The `if not fields: return None` branch is
   * left out: the fields always hold `start_time` and `end_time` (`ItemFields`), so it never
   * runs.
   */
  method ToDbFormat(data: seq<map<string, Value>>) returns (r: Result<seq<Point>, DbError>)
    ensures r == FormatItems(data)
  {
    var formatted: seq<Point> := [];
    var i := 0;
    assert data[i..] == data;
    PrependNothing(FormatItems(data));
    while i < |data|
      invariant 0 <= i <= |data|
      invariant FormatItems(data) == Prepend(formatted, FormatItems(data[i..]))
    {
      var item := data[i];
      FormatItemsUnfold(data[i..]);
      assert data[i..][0] == item && data[i..][1..] == data[i + 1..];
      if !HasRequiredKeys(item) {
        return Err(MissingItemFields);
      }
      var startTime, endTime := item["start_time"], item["end_time"];
      if !IsDatetime(startTime) || !IsDatetime(endTime) {
        return Err(NotADatetime);
      }
      var formattedStart := DatestrUpToMin(startTime.d);
      var formattedEnd := DatestrUpToMin(endTime.d);
      var endTimeTrimmed := RemoveSecPrecision(endTime.d);
      var fields := CopiedFields(item);
      fields := fields["start_time" := Str(formattedStart)];
      fields := fields["end_time" := Str(formattedEnd)];
      PrependAppend(formatted, Point(item["name"], fields, endTimeTrimmed), FormatItems(data[i + 1..]));
      formatted := formatted + [Point(item["name"], fields, endTimeTrimmed)];
      i := i + 1;
    }
    assert data[i..] == [];
    assert formatted + [] == formatted;
    return Ok(formatted);
  }

  /** One step of `FormatItems`: the first item's point, then the rest. */
  lemma FormatItemsUnfold(data: seq<map<string, Value>>)
    requires data != []
    ensures ItemPoint(data[0]).Err? ==> FormatItems(data) == Err(ItemPoint(data[0]).error)
    ensures ItemPoint(data[0]).Ok? ==> FormatItems(data) == Prepend([ItemPoint(data[0]).value], FormatItems(data[1..]))
  {
  }

  lemma PrependNothing(r: Result<seq<Point>, DbError>)
    ensures Prepend([], r) == r
  {
    if r.Ok? {
      assert [] + r.value == r.value;
    }
  }

  lemma PrependAppend(ps: seq<Point>, p: Point, r: Result<seq<Point>, DbError>)
    ensures Prepend(ps, Prepend([p], r)) == Prepend(ps + [p], r)
  {
    if r.Ok? {
      assert ps + ([p] + r.value) == (ps + [p]) + r.value;
    }
  }

  /** When an item is rejected, and with which exception. */
  lemma ItemPointErrors(item: map<string, Value>)
    ensures ItemPoint(item) == Err(MissingItemFields) <==> !HasRequiredKeys(item)
    ensures ItemPoint(item) == Err(NotADatetime) <==>
      HasRequiredKeys(item) && !(IsDatetime(item["start_time"]) && IsDatetime(item["end_time"]))
    ensures ItemPoint(item).Ok? <==>
      HasRequiredKeys(item) && IsDatetime(item["start_time"]) && IsDatetime(item["end_time"])
  {
  }

  /**
   * A point's measurement is the item's name and its time the end time trimmed to the minute.
   * Its fields are exactly the non-`None` entries other than name, start_time and end_time,
   * unchanged, plus the two times formatted to the minute: so they are never empty, never hold
   * the name, and hold the unit exactly when it is not `None`.
   */
  lemma ItemFields(item: map<string, Value>)
    requires ItemPoint(item).Ok?
    ensures var p := ItemPoint(item).value;
      && p.measurement == item["name"]
      && p.time == RemoveSecPrecision(item["end_time"].d)
      && p.time.second == 0 && p.time.microsecond == 0
      && (forall k :: k in p.fields <==> k == "start_time" || k == "end_time" || (k in item && k != "name" && item[k] != Null))
      && (forall k :: k in item && !IsReservedKey(k) && item[k] != Null ==> p.fields[k] == item[k])
      && p.fields["start_time"] == Str(DatestrUpToMin(item["start_time"].d))
      && p.fields["end_time"] == Str(DatestrUpToMin(item["end_time"].d))
      && p.fields != map[]
      && "name" !in p.fields
      && ("unit" in p.fields <==> item["unit"] != Null)
  {
  }

  /** The formatted end time is the point's own time written to the minute. */
  lemma EndFieldIsPointTime(item: map<string, Value>)
    requires ItemPoint(item).Ok?
    ensures var p := ItemPoint(item).value;
      Valid(p.time) && p.fields["end_time"] == Str(DatestrUpToMin(p.time))
  {
    var end := item["end_time"].d;
    RemoveSecPrecisionIdempotent(end);
    DatestrUpToMinSameMinute(end, RemoveSecPrecision(end));
  }

  lemma RemoveSecPrecisionIdempotent(d: DateTime)
    ensures RemoveSecPrecision(RemoveSecPrecision(d)) == RemoveSecPrecision(d)
  {
  }

  /**
   * The conversion succeeds exactly when every item converts; then there is one point per item,
   * in the same order.
   */
  lemma {:induction false} FormatItemsSpec(data: seq<map<string, Value>>)
    ensures FormatItems(data).Ok? <==> forall i :: 0 <= i < |data| ==> ItemPoint(data[i]).Ok?
    ensures FormatItems(data).Ok? ==>
      && |FormatItems(data).value| == |data|
      && forall i :: 0 <= i < |data| ==> FormatItems(data).value[i] == ItemPoint(data[i]).value
  {
    if data != [] {
      FormatItemsSpec(data[1..]);
      assert forall i :: 1 <= i < |data| ==> data[i] == data[1..][i - 1];
    }
  }

  /** The exception raised is that of the first item that fails. */
  lemma {:induction false} FormatItemsFirstError(data: seq<map<string, Value>>, k: nat)
    requires k < |data| && ItemPoint(data[k]).Err?
    requires forall i :: 0 <= i < k ==> ItemPoint(data[i]).Ok?
    ensures FormatItems(data) == Err(ItemPoint(data[k]).error)
  {
    if k > 0 {
      assert forall i :: 0 <= i < k - 1 ==> data[1..][i] == data[i + 1];
      FormatItemsFirstError(data[1..], k - 1);
    }
  }

  /** `f"{device_name}_{device_id}"`, the database that holds a device's logs. */
  function DbName(deviceName: string, deviceId: int): (r: string)
    ensures |r| > |deviceName| && r[..|deviceName|] == deviceName && r[|deviceName|] == '_'
  {
    deviceName + "_" + IntToString(deviceId)
  }

  /** For one device name, different ids give different databases. */
  lemma DbNameDistinguishesIds(deviceName: string, i: int, j: int)
    ensures DbName(deviceName, i) == DbName(deviceName, j) <==> i == j
  {
    var a, b := DbName(deviceName, i), DbName(deviceName, j);
    assert a[|deviceName| + 1..] == IntToString(i);
    assert b[|deviceName| + 1..] == IntToString(j);
    IntToStringInjective(i, j);
  }

  /** What the query builders read of a `Node`: its name, whether numeric, whether incremental. */
  datatype QueryTarget = QueryTarget(name: string, numeric: bool, incremental: bool)

  /** The columns a query selects. */
  datatype Columns =
    | RawValue              // start_time, end_time, value
    | ScaledValue           // start_time, end_time, value / unit factor
    | ScaledStatistics      // start_time, end_time, average, min, max, each / unit factor
    | SummedValue           // FIRST(start_time), LAST(end_time), SUM(value) / unit factor
    | AggregatedStatistics  // FIRST(start_time), LAST(end_time), SUM-based average, MIN, MAX, each / unit factor

  /** Which points a query reads. */
  datatype Span =
    | Unbounded
    | Between(start: string, end: string)                  // WHERE time >= start AND time <= end
    | Grouped(start: string, end: string, stepMs: int)     // the same, GROUP BY time(<step>ms) FILL(null)

  /** A query over one measurement. */
  datatype LogsQuery = LogsQuery(measurement: string, columns: Columns, span: Span)

  /** The columns of a query that does not group. */
  function UngroupedColumns(target: QueryTarget): Columns
  {
    if !target.numeric then RawValue else if target.incremental then ScaledValue else ScaledStatistics
  }

  /** `__build_query_without_time_span`. */
  function QueryWithoutTimeSpan(target: QueryTarget): LogsQuery
  {
    LogsQuery(target.name, UngroupedColumns(target), Unbounded)
  }

  /** `__build_query_with_time_span_non_formatted`. */
  function QueryWithTimeSpanNonFormatted(target: QueryTarget, startStr: string, endStr: string): LogsQuery
  {
    LogsQuery(target.name, UngroupedColumns(target), Between(startStr, endStr))
  }

  /** `__build_query_with_time_span_formatted`: only numeric nodes can be grouped. */
  function QueryWithTimeSpanFormatted(target: QueryTarget, startStr: string, endStr: string, stepMs: int): Result<LogsQuery, DbError>
  {
    if !target.numeric then Err(NonNumericFormatted)
    else Ok(LogsQuery(target.name, if target.incremental then SummedValue else AggregatedStatistics, Grouped(startStr, endStr, stepMs)))
  }

  /** Python truthiness of an `Optional[bool]` and an `Optional[int]`. */
  predicate TruthyFlag(b: Option<bool>)
  {
    b == Some(true)
  }

  predicate TruthyStep(n: Option<int>)
  {
    n.Some? && n.value != 0
  }

  /** `__build_query_with_time_span`: not formatted reads the range, formatted needs a step. */
  function QueryWithTimeSpan(target: QueryTarget, startStr: string, endStr: string, formatted: Option<bool>, stepMs: Option<int>): Result<LogsQuery, DbError>
  {
    if !TruthyFlag(formatted) then Ok(QueryWithTimeSpanNonFormatted(target, startStr, endStr))
    else if TruthyStep(stepMs) then QueryWithTimeSpanFormatted(target, startStr, endStr, stepMs.value)
    else Err(WrongParameters(target.name))
  }

  /** `isoformat() + "Z"`. */
  function IsoZ(d: DateTime): string
    requires Valid(d)
  {
    IsoFormat(d) + "Z"
  }

  /** A time argument Python could pass: `None` or a datetime. */
  predicate ValidTime(t: Option<DateTime>)
  {
    t.Some? ==> Valid(t.value)
  }

  /** `__build_query`: a time span only when both times are given. */
  function BuildQuery(target: QueryTarget, startTime: Option<DateTime>, endTime: Option<DateTime>, formatted: Option<bool>, stepMs: Option<int>): Result<LogsQuery, DbError>
    requires ValidTime(startTime) && ValidTime(endTime)
  {
    if startTime.Some? && endTime.Some? then
      QueryWithTimeSpan(target, IsoZ(startTime.value), IsoZ(endTime.value), formatted, stepMs)
    else Ok(QueryWithoutTimeSpan(target))
  }

  /**
   * What `get_variable_logs_between` sends: the device's database and the query, after checking
   * that the times come in a pair and in order. Connecting, creating the database and running
   * the query are not modelled.
   */
  function VariableLogsQuery(deviceName: string, deviceId: int, target: QueryTarget, startTime: Option<DateTime>, endTime: Option<DateTime>,
                             formatted: Option<bool>, stepMs: Option<int>): Result<(string, LogsQuery), DbError>
    requires ValidTime(startTime) && ValidTime(endTime)
  {
    if startTime.Some? != endTime.Some? then Err(UnpairedTimes)
    else if startTime.Some? && !Before(startTime.value, endTime.value) then Err(EndNotAfterStart)
    else match BuildQuery(target, startTime, endTime, formatted, stepMs)
      case Err(e) => Err(e)
      case Ok(q) => Ok((DbName(deviceName, deviceId), q))
  }

  /**
   * The argument checks: one time without the other is rejected, and so is an end that is not
   * strictly after the start; a query that is built always reads the device's database and the
   * node's measurement.
   */
  lemma VariableLogsQueryChecks(deviceName: string, deviceId: int, target: QueryTarget, startTime: Option<DateTime>, endTime: Option<DateTime>,
                                formatted: Option<bool>, stepMs: Option<int>)
    requires ValidTime(startTime) && ValidTime(endTime)
    ensures var r := VariableLogsQuery(deviceName, deviceId, target, startTime, endTime, formatted, stepMs);
      && (r == Err(UnpairedTimes) <==> startTime.Some? != endTime.Some?)
      && (r == Err(EndNotAfterStart) <==> startTime.Some? && endTime.Some? && !Before(startTime.value, endTime.value))
      && (r.Ok? ==> r.value.0 == DbName(deviceName, deviceId) && r.value.1.measurement == target.name)
  {
  }

  /** Without times, the query reads every point of the measurement. */
  lemma UnboundedVariant(deviceName: string, deviceId: int, target: QueryTarget, formatted: Option<bool>, stepMs: Option<int>)
    ensures var r := VariableLogsQuery(deviceName, deviceId, target, None, None, formatted, stepMs);
      r.Ok? && r.value.1.span == Unbounded && r.value.1.columns == UngroupedColumns(target)
  {
  }

  /** With ordered times and not formatted, the query reads the range between their ISO strings. */
  lemma RangeVariant(deviceName: string, deviceId: int, target: QueryTarget, s: DateTime, e: DateTime, formatted: Option<bool>, stepMs: Option<int>)
    requires Valid(s) && Valid(e) && Before(s, e) && !TruthyFlag(formatted)
    ensures var r := VariableLogsQuery(deviceName, deviceId, target, Some(s), Some(e), formatted, stepMs);
      r.Ok? && r.value.1.span == Between(IsoZ(s), IsoZ(e)) && r.value.1.columns == UngroupedColumns(target)
  {
  }

  /**
   * With ordered times, formatted, and a step: a numeric node gets a query grouped by the step,
   * summing an incremental node; any other node is rejected.
   */
  lemma GroupedVariant(deviceName: string, deviceId: int, target: QueryTarget, s: DateTime, e: DateTime, step: int)
    requires Valid(s) && Valid(e) && Before(s, e) && step != 0
    ensures var r := VariableLogsQuery(deviceName, deviceId, target, Some(s), Some(e), Some(true), Some(step));
      && (target.numeric ==> r.Ok? && r.value.1.span == Grouped(IsoZ(s), IsoZ(e), step)
                             && r.value.1.columns == (if target.incremental then SummedValue else AggregatedStatistics))
      && (!target.numeric ==> r == Err(NonNumericFormatted))
  {
  }

  /** With ordered times, formatted but without a step, the call is rejected. */
  lemma MissingStepVariant(deviceName: string, deviceId: int, target: QueryTarget, s: DateTime, e: DateTime, stepMs: Option<int>)
    requires Valid(s) && Valid(e) && Before(s, e) && !TruthyStep(stepMs)
    ensures VariableLogsQuery(deviceName, deviceId, target, Some(s), Some(e), Some(true), stepMs) == Err(WrongParameters(target.name))
  {
  }

  /**
   * A query groups exactly when it is formatted with a step, and selects the raw value exactly
   * when the node is not numeric.
   */
  lemma QueryColumnsMatchSpan(target: QueryTarget, startTime: Option<DateTime>, endTime: Option<DateTime>, formatted: Option<bool>, stepMs: Option<int>)
    requires ValidTime(startTime) && ValidTime(endTime)
    ensures var r := BuildQuery(target, startTime, endTime, formatted, stepMs);
      r.Ok? ==>
        && (r.value.span.Grouped? <==> startTime.Some? && endTime.Some? && TruthyFlag(formatted) && TruthyStep(stepMs))
        && (r.value.span.Grouped? <==> r.value.columns in {SummedValue, AggregatedStatistics})
        && (r.value.columns == RawValue <==> !target.numeric)
  {
  }

  /** A range query determines the two times it was built from. */
  lemma RangeDeterminesTimes(target: QueryTarget, s1: DateTime, e1: DateTime, s2: DateTime, e2: DateTime, formatted: Option<bool>, stepMs: Option<int>)
    requires Valid(s1) && Valid(e1) && Valid(s2) && Valid(e2)
    requires BuildQuery(target, Some(s1), Some(e1), formatted, stepMs).Ok?
    requires BuildQuery(target, Some(s1), Some(e1), formatted, stepMs) == BuildQuery(target, Some(s2), Some(e2), formatted, stepMs)
    ensures s1 == s2 && e1 == e2
  {
    var sp1 := BuildQuery(target, Some(s1), Some(e1), formatted, stepMs).value.span;
    assert sp1.start == IsoZ(s1) && sp1.end == IsoZ(e1);
    assert IsoFormat(s1) == IsoZ(s1)[..|IsoZ(s1)| - 1];
    assert IsoFormat(s2) == IsoZ(s2)[..|IsoZ(s2)| - 1];
    assert IsoFormat(e1) == IsoZ(e1)[..|IsoZ(e1)| - 1];
    assert IsoFormat(e2) == IsoZ(e2)[..|IsoZ(e2)| - 1];
    IsoFormatInjective(s1, s2);
    IsoFormatInjective(e1, e2);
  }
}
