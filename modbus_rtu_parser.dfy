/**
 * The Modbus RTU payload parsers of `web/parsers/protocol/modbus_rtu.py`: communication
 * options (nine required fields) and node protocol options (function, address, type,
 * endian mode, bit). Both parse every field into one shared `missing` list and reject the
 * payload when it is not empty.
 *
 * The values of `ModbusRTUFunction` are a parameter (`functions`): that enum is not part of
 * this model. The node type and endian mode values are those of `ModbusRTUNodeType` and
 * `ModbusRTUNodeMode`.
 */
module ModbusRtuParser {
  import opened Wrappers
  import opened Values
  import opened FieldParsers
  import opened ApiErrors

  /** `ModbusRTUOptions`, as the parser builds it. */
  datatype ModbusRTUOptions = ModbusRTUOptions(
    slaveId: int, port: string, baudrate: int, stopbits: int, parity: string,
    bytesize: int, readPeriod: int, timeout: int, retries: int)

  /** The node options the parser builds, with enum members kept as their value strings. */
  datatype ModbusRTUNodeOptions = ModbusRTUNodeOptions(
    functionCode: string, address: int, nodeType: string, endianMode: Option<string>, bit: Option<int>)

  const NodeTypeValues: set<string> :=
    {"BOOL", "INT_16", "UINT_16", "INT_32", "UINT_32", "FLOAT_32", "INT_64", "UINT_64", "FLOAT_64"}

  const NodeModeValues: set<string> := {"BIG_ENDIAN", "WORD_SWAP", "BYTE_SWAP", "WORD_BYTE_SWAP"}

  /** The communication fields in parse order, all required: `port` and `parity` are strings, the rest integers. */
  const CommFields: seq<PayloadField> := [
    PayloadField("slave_id", IntKind, false), PayloadField("port", StrKind, false),
    PayloadField("baudrate", IntKind, false), PayloadField("stopbits", IntKind, false),
    PayloadField("parity", StrKind, false), PayloadField("bytesize", IntKind, false),
    PayloadField("read_period", IntKind, false), PayloadField("timeout", IntKind, false),
    PayloadField("retries", IntKind, false)]

  /** When no communication field fails, each of them yields its value. */
  lemma CommFieldsParse(d: map<string, Value>, intOfStr: StrConversion<int>)
    requires FailingKeys(d, CommFields, intOfStr) == []
    ensures IntField(d, "slave_id", false, intOfStr).value.Some? && StrField(d, "port", false).value.Some?
    ensures IntField(d, "baudrate", false, intOfStr).value.Some? && IntField(d, "stopbits", false, intOfStr).value.Some?
    ensures StrField(d, "parity", false).value.Some? && IntField(d, "bytesize", false, intOfStr).value.Some?
    ensures IntField(d, "read_period", false, intOfStr).value.Some? && IntField(d, "timeout", false, intOfStr).value.Some?
    ensures IntField(d, "retries", false, intOfStr).value.Some?
  {
    FailingKeysMembers(d, CommFields, intOfStr);
    assert !Fails(d, CommFields[0], intOfStr) && !Fails(d, CommFields[1], intOfStr) && !Fails(d, CommFields[2], intOfStr);
    assert !Fails(d, CommFields[3], intOfStr) && !Fails(d, CommFields[4], intOfStr) && !Fails(d, CommFields[5], intOfStr);
    assert !Fails(d, CommFields[6], intOfStr) && !Fails(d, CommFields[7], intOfStr) && !Fails(d, CommFields[8], intOfStr);
  }

  /** `parse_modbus_rtu_meter_comm_options` as a value: the failing fields in parse order, or the options. */
  function CommOptions(d: map<string, Value>, intOfStr: StrConversion<int>): Result<ModbusRTUOptions, Failure>
  {
    var missing := FailingKeys(d, CommFields, intOfStr);
    if |missing| > 0 then Err(InvalidRequestPayload(Device(MISSING_DEVICE_COMUNICATION_FIELDS), MissingFieldsDetail(missing)))
    else
      CommFieldsParse(d, intOfStr);
      Ok(ModbusRTUOptions(
        IntField(d, "slave_id", false, intOfStr).value.value, StrField(d, "port", false).value.value,
        IntField(d, "baudrate", false, intOfStr).value.value, IntField(d, "stopbits", false, intOfStr).value.value,
        StrField(d, "parity", false).value.value, IntField(d, "bytesize", false, intOfStr).value.value,
        IntField(d, "read_period", false, intOfStr).value.value, IntField(d, "timeout", false, intOfStr).value.value,
        IntField(d, "retries", false, intOfStr).value.value))
  }

  /**
   * All nine fields are required: the options are built exactly when no field is recorded, and
   * otherwise the error lists each failing field once.
   */
  lemma CommOptionsSpec(d: map<string, Value>, intOfStr: StrConversion<int>)
    ensures CommOptions(d, intOfStr).Ok? <==> forall i :: 0 <= i < |CommFields| ==> !Fails(d, CommFields[i], intOfStr)
    ensures CommOptions(d, intOfStr).Err? ==>
      CommOptions(d, intOfStr) ==
        Err(InvalidRequestPayload(Device(MISSING_DEVICE_COMUNICATION_FIELDS), MissingFieldsDetail(FailingKeys(d, CommFields, intOfStr))))
  {
    FailingKeysMembers(d, CommFields, intOfStr);
  }

  /** Built options hold exactly the parsed values of the payload. */
  lemma CommOptionsValues(d: map<string, Value>, intOfStr: StrConversion<int>)
    requires CommOptions(d, intOfStr).Ok?
    ensures var o := CommOptions(d, intOfStr).value;
      "slave_id" in d && Some(o.slaveId) == IntOf(d["slave_id"], intOfStr) && "port" in d && d["port"] == Str(o.port) &&
      "baudrate" in d && Some(o.baudrate) == IntOf(d["baudrate"], intOfStr) &&
      "stopbits" in d && Some(o.stopbits) == IntOf(d["stopbits"], intOfStr) &&
      "parity" in d && d["parity"] == Str(o.parity) && "bytesize" in d && Some(o.bytesize) == IntOf(d["bytesize"], intOfStr) &&
      "read_period" in d && Some(o.readPeriod) == IntOf(d["read_period"], intOfStr) &&
      "timeout" in d && Some(o.timeout) == IntOf(d["timeout"], intOfStr) &&
      "retries" in d && Some(o.retries) == IntOf(d["retries"], intOfStr)
  {
    CommFieldsParse(d, intOfStr);
  }

  /** With no failing field, the options hold each field's parsed value. */
  lemma CommOptionsBuilt(d: map<string, Value>, intOfStr: StrConversion<int>)
    requires FailingKeys(d, CommFields, intOfStr) == []
    ensures CommOptions(d, intOfStr).Ok?
    ensures var o := CommOptions(d, intOfStr).value;
      && Some(o.slaveId) == IntField(d, "slave_id", false, intOfStr).value && Some(o.port) == StrField(d, "port", false).value
      && Some(o.baudrate) == IntField(d, "baudrate", false, intOfStr).value && Some(o.stopbits) == IntField(d, "stopbits", false, intOfStr).value
      && Some(o.parity) == StrField(d, "parity", false).value && Some(o.bytesize) == IntField(d, "bytesize", false, intOfStr).value
      && Some(o.readPeriod) == IntField(d, "read_period", false, intOfStr).value && Some(o.timeout) == IntField(d, "timeout", false, intOfStr).value
      && Some(o.retries) == IntField(d, "retries", false, intOfStr).value
  {
    CommFieldsParse(d, intOfStr);
  }

  /** Nine one-element appends to the empty list rebuild the nine-element list. */
  lemma NineFields(fs: seq<PayloadField>)
    requires |fs| == 9
    ensures [] + [fs[0]] + [fs[1]] + [fs[2]] + [fs[3]] + [fs[4]] + [fs[5]] + [fs[6]] + [fs[7]] + [fs[8]] == fs
  {
  }

  /** `parse_modbus_rtu_meter_comm_options`: nine parser calls on one `missing` list, then the decision. */
  method ParseCommOptions(d: map<string, Value>, intOfStr: StrConversion<int>) returns (r: Result<ModbusRTUOptions, Failure>)
    ensures r == CommOptions(d, intOfStr)
  {
    var missing := new MissingList();
    var slaveId := missing.ParseInt(d, "slave_id", false, intOfStr);
    var port := missing.ParseStr(d, "port", false, intOfStr);
    var baudrate := missing.ParseInt(d, "baudrate", false, intOfStr);
    var stopbits := missing.ParseInt(d, "stopbits", false, intOfStr);
    var parity := missing.ParseStr(d, "parity", false, intOfStr);
    var bytesize := missing.ParseInt(d, "bytesize", false, intOfStr);
    var readPeriod := missing.ParseInt(d, "read_period", false, intOfStr);
    var timeout := missing.ParseInt(d, "timeout", false, intOfStr);
    var retries := missing.ParseInt(d, "retries", false, intOfStr);
    NineFields(CommFields);
    assert missing.parsed == CommFields;
    if |missing.keys| > 0 {
      return Err(InvalidRequestPayload(Device(MISSING_DEVICE_COMUNICATION_FIELDS), MissingFieldsDetail(missing.keys)));
    }
    CommOptionsBuilt(d, intOfStr);
    return Ok(ModbusRTUOptions(slaveId.value, port.value, baudrate.value, stopbits.value, parity.value,
                               bytesize.value, readPeriod.value, timeout.value, retries.value));
  }

  /** The node option fields in parse order; `endian_mode` and `bit` are parsed as optional. */
  function NodeFields(functions: set<string>): seq<PayloadField>
  {
    [PayloadField("function", EnumKind(functions), false), PayloadField("address", IntKind, false),
     PayloadField("type", EnumKind(NodeTypeValues), false), PayloadField("endian_mode", EnumKind(NodeModeValues), true),
     PayloadField("bit", IntKind, true)]
  }

  /** When no node option field fails, the required ones yield their values. */
  lemma NodeFieldsParse(d: map<string, Value>, functions: set<string>, intOfStr: StrConversion<int>)
    requires FailingKeys(d, NodeFields(functions), intOfStr) == []
    ensures EnumField(d, "function", false, functions).value.Some? && IntField(d, "address", false, intOfStr).value.Some?
    ensures EnumField(d, "type", false, NodeTypeValues).value.Some?
  {
    FailingKeysMembers(d, NodeFields(functions), intOfStr);
    assert !Fails(d, NodeFields(functions)[0], intOfStr) && !Fails(d, NodeFields(functions)[1], intOfStr);
    assert !Fails(d, NodeFields(functions)[2], intOfStr);
  }

  /** `parse_modbus_rtu_node_protocol_options` as a value. */
  function NodeOptions(d: map<string, Value>, functions: set<string>, intOfStr: StrConversion<int>): Result<ModbusRTUNodeOptions, Failure>
  {
    var missing := FailingKeys(d, NodeFields(functions), intOfStr);
    if |missing| > 0 then Err(InvalidRequestPayload(Nodes(MISSING_NODE_PROTOCOL_OPTIONS_FIELDS), MissingFieldsDetail(missing)))
    else
      NodeFieldsParse(d, functions, intOfStr);
      Ok(ModbusRTUNodeOptions(
        EnumField(d, "function", false, functions).value.value, IntField(d, "address", false, intOfStr).value.value,
        EnumField(d, "type", false, NodeTypeValues).value.value, EnumField(d, "endian_mode", true, NodeModeValues).value,
        IntField(d, "bit", true, intOfStr).value))
  }

  /**
   * The node options are built exactly when no field fails, and otherwise the error carries the
   * failing fields in parse order. A built value has a valid function and type, an endian mode
   * that is absent or valid, and the parsed address and bit.
   */
  lemma NodeOptionsSpec(d: map<string, Value>, functions: set<string>, intOfStr: StrConversion<int>)
    ensures NodeOptions(d, functions, intOfStr).Ok? <==>
      forall i :: 0 <= i < |NodeFields(functions)| ==> !Fails(d, NodeFields(functions)[i], intOfStr)
    ensures NodeOptions(d, functions, intOfStr).Err? ==>
      NodeOptions(d, functions, intOfStr) ==
        Err(InvalidRequestPayload(Nodes(MISSING_NODE_PROTOCOL_OPTIONS_FIELDS),
                                  MissingFieldsDetail(FailingKeys(d, NodeFields(functions), intOfStr))))
    ensures NodeOptions(d, functions, intOfStr).Ok? ==>
      var o := NodeOptions(d, functions, intOfStr).value;
      o.functionCode in functions && o.nodeType in NodeTypeValues &&
      (o.endianMode.Some? ==> o.endianMode.value in NodeModeValues) &&
      "function" in d && d["function"] == Str(o.functionCode) && "type" in d && d["type"] == Str(o.nodeType) &&
      "address" in d && Some(o.address) == IntOf(d["address"], intOfStr) && o.bit == IntField(d, "bit", true, intOfStr).value
  {
    FailingKeysMembers(d, NodeFields(functions), intOfStr);
    if NodeOptions(d, functions, intOfStr).Ok? {
      NodeFieldsParse(d, functions, intOfStr);
    }
  }

  /** An absent `endian_mode` is accepted, but an absent `bit` is recorded, so the payload is rejected. */
  lemma AbsentEndianModeAndBit(d: map<string, Value>, functions: set<string>, intOfStr: StrConversion<int>)
    requires "endian_mode" !in d && "bit" !in d
    ensures !Fails(d, NodeFields(functions)[3], intOfStr)
    ensures Fails(d, NodeFields(functions)[4], intOfStr)
    ensures NodeOptions(d, functions, intOfStr).Err?
  {
    NodeOptionsSpec(d, functions, intOfStr);
  }

  /** `parse_modbus_rtu_node_protocol_options`: the parser calls and enum conversions on one `missing` list. */
  method ParseNodeOptions(d: map<string, Value>, functions: set<string>, intOfStr: StrConversion<int>)
    returns (r: Result<ModbusRTUNodeOptions, Failure>)
    ensures r == NodeOptions(d, functions, intOfStr)
  {
    var missing := new MissingList();
    var functionCode := missing.ParseEnum(d, "function", false, functions, intOfStr);
    var address := missing.ParseInt(d, "address", false, intOfStr);
    var nodeType := missing.ParseEnum(d, "type", false, NodeTypeValues, intOfStr);
    var endianMode := missing.ParseEnum(d, "endian_mode", true, NodeModeValues, intOfStr);
    var bit := missing.ParseInt(d, "bit", true, intOfStr);
    assert missing.parsed == NodeFields(functions);
    if |missing.keys| > 0 {
      return Err(InvalidRequestPayload(Nodes(MISSING_NODE_PROTOCOL_OPTIONS_FIELDS), MissingFieldsDetail(missing.keys)));
    }
    NodeFieldsParse(d, functions, intOfStr);
    return Ok(ModbusRTUNodeOptions(functionCode.value, address.value, nodeType.value, endianMode, bit));
  }
}
