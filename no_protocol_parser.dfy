/**
 * The node protocol options parser of `web/parsers/protocol/no_protocol.py`, for nodes that
 * no protocol reads: a single `type` field naming a `NoProtocolType` member.
 */
module NoProtocolParser {
  import opened Wrappers
  import opened Values
  import opened FieldParsers
  import opened ApiErrors

  /** `NoProtocolNodeOptions`, with the `NoProtocolType` member kept as its value string. */
  datatype NoProtocolNodeOptions = NoProtocolNodeOptions(nodeType: string)

  const NodeTypeValues: set<string> := {"BOOL", "INT", "FLOAT", "STRING"}

  /** `parse_no_protocol_node_protocol_options` as a value. */
  function NodeOptions(d: map<string, Value>): Result<NoProtocolNodeOptions, Failure>
  {
    var t := EnumField(d, "type", false, NodeTypeValues);
    if |t.appended| > 0 then Err(InvalidRequestPayload(Nodes(MISSING_NODE_PROTOCOL_OPTIONS_FIELDS), MissingFieldsDetail(t.appended)))
    else Ok(NoProtocolNodeOptions(t.value.value))
  }

  /**
   * The options are built exactly when `type` is a string naming a member; otherwise the error
   * lists `type` alone.
   */
  lemma NodeOptionsSpec(d: map<string, Value>)
    ensures NodeOptions(d).Ok? <==> "type" in d && d["type"].Str? && d["type"].s in NodeTypeValues
    ensures NodeOptions(d).Ok? ==> NodeOptions(d).value == NoProtocolNodeOptions(d["type"].s)
    ensures NodeOptions(d).Err? ==>
      NodeOptions(d) == Err(InvalidRequestPayload(Nodes(MISSING_NODE_PROTOCOL_OPTIONS_FIELDS), MissingFieldsDetail(["type"])))
  {
  }

  /** `parse_no_protocol_node_protocol_options`: the string parser and the enum conversion on one `missing` list. */
  method ParseNodeOptions(d: map<string, Value>) returns (r: Result<NoProtocolNodeOptions, Failure>)
    ensures r == NodeOptions(d)
  {
    var missing := new MissingList();
    var nodeType := missing.ParseEnum(d, "type", false, NodeTypeValues, _ => None);
    assert missing.keys == EnumField(d, "type", false, NodeTypeValues).appended;
    if |missing.keys| > 0 {
      return Err(InvalidRequestPayload(Nodes(MISSING_NODE_PROTOCOL_OPTIONS_FIELDS), MissingFieldsDetail(missing.keys)));
    }
    return Ok(NoProtocolNodeOptions(nodeType.value));
  }
}
