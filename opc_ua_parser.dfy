/**
 * The OPC UA payload parsers of `web/parsers/protocol/opc_ua.py`: communication options (url,
 * read period and timeout required, username and password optional) and node protocol options
 * (node id and type).
 *
 * After the `missing` check the communication parser tests the parsed types again, and its test
 * admits a username only when it is an `int` or `None`. A parsed username is always a string, so
 * every payload that carries one is rejected with `ValueError`. `CommOptionsAsWritten` keeps that
 * check; `CommOptions` and `ParseCommOptions` check for `str` or `None`, as the annotation
 * `username: Optional[str]` intends.
 */
module OpcUaParser {
  import opened Wrappers
  import opened Values
  import opened FieldParsers
  import opened ApiErrors

  /** `OPCUAOptions`, as the parser builds it. */
  datatype OPCUAOptions = OPCUAOptions(url: string, readPeriod: int, timeout: int, username: Option<string>, password: Option<string>)

  /** `OPCUANodeOptions`, with the `OPCUANodeType` member kept as its value string. */
  datatype OPCUANodeOptions = OPCUANodeOptions(nodeId: string, nodeType: string)

  const NodeTypeValues: set<string> := {"BOOL", "INT", "FLOAT", "STRING"}

  /** The communication fields in parse order. */
  const CommFields: seq<PayloadField> := [
    PayloadField("url", StrKind, false), PayloadField("read_period", IntKind, false),
    PayloadField("timeout", IntKind, false), PayloadField("username", StrKind, true),
    PayloadField("password", StrKind, true)]

  /** When no communication field fails, the required ones yield their values. */
  lemma CommFieldsParse(d: map<string, Value>, intOfStr: StrConversion<int>)
    requires FailingKeys(d, CommFields, intOfStr) == []
    ensures StrField(d, "url", false).value.Some?
    ensures IntField(d, "read_period", false, intOfStr).value.Some? && IntField(d, "timeout", false, intOfStr).value.Some?
  {
    FailingKeysMembers(d, CommFields, intOfStr);
    assert !Fails(d, CommFields[0], intOfStr) && !Fails(d, CommFields[1], intOfStr) && !Fails(d, CommFields[2], intOfStr);
  }

  /** The options built from a payload whose fields all parse. */
  function BuiltOptions(d: map<string, Value>, intOfStr: StrConversion<int>): OPCUAOptions
    requires FailingKeys(d, CommFields, intOfStr) == []
  {
    CommFieldsParse(d, intOfStr);
    OPCUAOptions(StrField(d, "url", false).value.value, IntField(d, "read_period", false, intOfStr).value.value,
                 IntField(d, "timeout", false, intOfStr).value.value, StrField(d, "username", true).value,
                 StrField(d, "password", true).value)
  }

  /** `parse_opc_ua_meter_comm_options` as written: a parsed username fails the `(int, NoneType)` test. */
  function CommOptionsAsWritten(d: map<string, Value>, intOfStr: StrConversion<int>): Result<OPCUAOptions, Failure>
  {
    var missing := FailingKeys(d, CommFields, intOfStr);
    if |missing| > 0 then Err(InvalidRequestPayload(Device(MISSING_DEVICE_COMUNICATION_FIELDS), MissingFieldsDetail(missing)))
    else if StrField(d, "username", true).value.Some? then Err(ValueError(None))
    else Ok(BuiltOptions(d, intOfStr))
  }

  /** `parse_opc_ua_meter_comm_options` with the username checked for `(str, NoneType)`, which every parsed value passes. */
  function CommOptions(d: map<string, Value>, intOfStr: StrConversion<int>): Result<OPCUAOptions, Failure>
  {
    var missing := FailingKeys(d, CommFields, intOfStr);
    if |missing| > 0 then Err(InvalidRequestPayload(Device(MISSING_DEVICE_COMUNICATION_FIELDS), MissingFieldsDetail(missing)))
    else Ok(BuiltOptions(d, intOfStr))
  }

  /**
   * The options are built exactly when no field fails, and then hold the payload's values: an
   * absent or `None` username or password gives `None`. Otherwise the error lists the failing fields.
   */
  lemma CommOptionsSpec(d: map<string, Value>, intOfStr: StrConversion<int>)
    ensures CommOptions(d, intOfStr).Ok? <==> forall i :: 0 <= i < |CommFields| ==> !Fails(d, CommFields[i], intOfStr)
    ensures CommOptions(d, intOfStr).Err? ==>
      CommOptions(d, intOfStr) ==
        Err(InvalidRequestPayload(Device(MISSING_DEVICE_COMUNICATION_FIELDS), MissingFieldsDetail(FailingKeys(d, CommFields, intOfStr))))
    ensures CommOptions(d, intOfStr).Ok? ==>
      var o := CommOptions(d, intOfStr).value;
      "url" in d && d["url"] == Str(o.url) &&
      "read_period" in d && Some(o.readPeriod) == IntOf(d["read_period"], intOfStr) &&
      "timeout" in d && Some(o.timeout) == IntOf(d["timeout"], intOfStr) &&
      (o.username.Some? <==> "username" in d && d["username"].Str?) &&
      (o.username.Some? ==> d["username"] == Str(o.username.value)) &&
      (o.password.Some? <==> "password" in d && d["password"].Str?) &&
      (o.password.Some? ==> d["password"] == Str(o.password.value))
  {
    FailingKeysMembers(d, CommFields, intOfStr);
    if CommOptions(d, intOfStr).Ok? {
      CommFieldsParse(d, intOfStr);
    }
  }

  /**
   * The code as written and as intended part exactly on payloads that parse and carry a string
   * username: there the written check raises `ValueError` instead of returning the options.
   */
  lemma UsernameTestRejectsStrings(d: map<string, Value>, intOfStr: StrConversion<int>)
    ensures CommOptionsAsWritten(d, intOfStr) != CommOptions(d, intOfStr) <==>
      CommOptions(d, intOfStr).Ok? && "username" in d && d["username"].Str?
    ensures CommOptionsAsWritten(d, intOfStr) != CommOptions(d, intOfStr) ==>
      CommOptionsAsWritten(d, intOfStr) == Err(ValueError(None)) && CommOptions(d, intOfStr).value.username.Some?
  {
  }

  /** A payload with every field present and a string username, which the written check rejects. */
  lemma UsernameCounterexample(intOfStr: StrConversion<int>)
    ensures var d := map["url" := Str("opc.tcp://meter:4840"), "read_period" := Int(5), "timeout" := Int(5),
                         "username" := Str("operator"), "password" := Str("secret")];
      CommOptionsAsWritten(d, intOfStr) == Err(ValueError(None)) &&
      CommOptions(d, intOfStr) == Ok(OPCUAOptions("opc.tcp://meter:4840", 5, 5, Some("operator"), Some("secret")))
  {
    var d := map["url" := Str("opc.tcp://meter:4840"), "read_period" := Int(5), "timeout" := Int(5),
                 "username" := Str("operator"), "password" := Str("secret")];
    StringUsernameRejected(d, intOfStr);
  }

  /** Every payload with all five fields well typed is rejected by the written check and accepted by the intended one. */
  lemma StringUsernameRejected(d: map<string, Value>, intOfStr: StrConversion<int>)
    requires "url" in d && d["url"].Str? && "read_period" in d && d["read_period"].Int? && "timeout" in d && d["timeout"].Int?
    requires "username" in d && d["username"].Str? && "password" in d && d["password"].Str?
    ensures CommOptionsAsWritten(d, intOfStr) == Err(ValueError(None))
    ensures CommOptions(d, intOfStr) ==
      Ok(OPCUAOptions(d["url"].s, d["read_period"].i, d["timeout"].i, Some(d["username"].s), Some(d["password"].s)))
  {
    FailingKeysMembers(d, CommFields, intOfStr);
    forall i | 0 <= i < |CommFields|
      ensures !Fails(d, CommFields[i], intOfStr)
    {
    }
  }

  /** `parse_opc_ua_meter_comm_options` with the intended type test: five parser calls on one `missing` list. */
  method ParseCommOptions(d: map<string, Value>, intOfStr: StrConversion<int>) returns (r: Result<OPCUAOptions, Failure>)
    ensures r == CommOptions(d, intOfStr)
  {
    var missing := new MissingList();
    var url := missing.ParseStr(d, "url", false, intOfStr);
    var readPeriod := missing.ParseInt(d, "read_period", false, intOfStr);
    var timeout := missing.ParseInt(d, "timeout", false, intOfStr);
    var username := missing.ParseStr(d, "username", true, intOfStr);
    var password := missing.ParseStr(d, "password", true, intOfStr);
    assert missing.parsed == CommFields;
    if |missing.keys| > 0 {
      return Err(InvalidRequestPayload(Device(MISSING_DEVICE_COMUNICATION_FIELDS), MissingFieldsDetail(missing.keys)));
    }
    CommFieldsParse(d, intOfStr);
    return Ok(OPCUAOptions(url.value, readPeriod.value, timeout.value, username, password));
  }

  /** The node option fields in parse order. */
  const NodeFields: seq<PayloadField> := [PayloadField("node_id", StrKind, false), PayloadField("type", EnumKind(NodeTypeValues), false)]

  /** When no node option field fails, both yield their values. */
  lemma NodeFieldsParse(d: map<string, Value>, intOfStr: StrConversion<int>)
    requires FailingKeys(d, NodeFields, intOfStr) == []
    ensures StrField(d, "node_id", false).value.Some? && EnumField(d, "type", false, NodeTypeValues).value.Some?
  {
    FailingKeysMembers(d, NodeFields, intOfStr);
    assert !Fails(d, NodeFields[0], intOfStr) && !Fails(d, NodeFields[1], intOfStr);
  }

  /** `parse_opc_ua_node_protocol_options` as a value. */
  function NodeOptions(d: map<string, Value>, intOfStr: StrConversion<int>): Result<OPCUANodeOptions, Failure>
  {
    var missing := FailingKeys(d, NodeFields, intOfStr);
    if |missing| > 0 then Err(InvalidRequestPayload(Nodes(MISSING_NODE_PROTOCOL_OPTIONS_FIELDS), MissingFieldsDetail(missing)))
    else
      NodeFieldsParse(d, intOfStr);
      Ok(OPCUANodeOptions(StrField(d, "node_id", false).value.value, EnumField(d, "type", false, NodeTypeValues).value.value))
  }

  /**
   * The node options are built exactly when `node_id` is a string and `type` names an
   * `OPCUANodeType` member; otherwise the error lists the failing fields in order.
   */
  lemma NodeOptionsSpec(d: map<string, Value>, intOfStr: StrConversion<int>)
    ensures NodeOptions(d, intOfStr).Ok? <==>
      "node_id" in d && d["node_id"].Str? && "type" in d && d["type"].Str? && d["type"].s in NodeTypeValues
    ensures NodeOptions(d, intOfStr).Ok? ==>
      NodeOptions(d, intOfStr).value == OPCUANodeOptions(d["node_id"].s, d["type"].s)
    ensures NodeOptions(d, intOfStr).Err? ==>
      NodeOptions(d, intOfStr) ==
        Err(InvalidRequestPayload(Nodes(MISSING_NODE_PROTOCOL_OPTIONS_FIELDS), MissingFieldsDetail(FailingKeys(d, NodeFields, intOfStr))))
  {
    FailingKeysMembers(d, NodeFields, intOfStr);
    if NodeOptions(d, intOfStr).Ok? {
      NodeFieldsParse(d, intOfStr);
    } else {
      assert Fails(d, NodeFields[0], intOfStr) || Fails(d, NodeFields[1], intOfStr);
    }
  }

  /** `parse_opc_ua_node_protocol_options`: the string parsers and the enum conversion on one `missing` list. */
  method ParseNodeOptions(d: map<string, Value>, intOfStr: StrConversion<int>) returns (r: Result<OPCUANodeOptions, Failure>)
    ensures r == NodeOptions(d, intOfStr)
  {
    var missing := new MissingList();
    var nodeId := missing.ParseStr(d, "node_id", false, intOfStr);
    var nodeType := missing.ParseEnum(d, "type", false, NodeTypeValues, intOfStr);
    assert missing.parsed == NodeFields;
    if |missing.keys| > 0 {
      return Err(InvalidRequestPayload(Nodes(MISSING_NODE_PROTOCOL_OPTIONS_FIELDS), MissingFieldsDetail(missing.keys)));
    }
    NodeFieldsParse(d, intOfStr);
    return Ok(OPCUANodeOptions(nodeId.value, nodeType.value));
  }
}
