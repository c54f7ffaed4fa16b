/**
 * The device request parsers of `web/parsers/device.py`: the meter options and communication
 * options sub-parsers, which check a payload against a dataclass's fields, and `parse_device`,
 * which checks the top-level device fields in order and then parses the node list.
 *
 * `parse_device` reads each top-level field with `require_field` and then tests the result for
 * `None` to raise MISSING_DEVICE_ID, MISSING_DEVICE_NAME, MISSING_PROTOCOL, MISSING_TYPE or
 * MISSING_DEVICE_OPTIONS. `require_field` never returns `None` for a class annotation: it raises
 * `ValueError` for an absent or mistyped field, and `parse_device` does not catch it. So as
 * written a device lacking its name (say) fails with that `ValueError`, and none of those codes
 * is ever raised. `ParseDeviceAsWritten` keeps that behaviour; `ParseDevice` raises the code the
 * `None` check names, as intended.
 */
module DeviceParser {
  import opened Wrappers
  import opened Values
  import opened Objects
  import opened ApiErrors
  import opened DataclassParse
  import opened General
  import ProtocolRegistration
  import NodeParser

  /* ------------------------------------------------------------- parse_device_options */

  /** The fields of `EnergyMeterOptions`: four required flags. */
  function DeviceOptionsFields(): seq<FieldSpec>
  {
    [ FieldSpec("read_energy_from_meter", ClassType(BoolClass), None, None),
      FieldSpec("read_separate_forward_reverse_energy", ClassType(BoolClass), None, None),
      FieldSpec("negative_reactive_power", ClassType(BoolClass), None, None),
      FieldSpec("frequency_reading", ClassType(BoolClass), None, None) ]
  }

  /** `EnergyMeterOptions(**arguments)` for arguments holding the four flags. */
  function MeterOptionsOf(arguments: map<string, Value>): EnergyMeterOptions
  {
    EnergyMeterOptions(
      BoolAt(arguments, "read_energy_from_meter"),
      BoolAt(arguments, "read_separate_forward_reverse_energy"),
      BoolAt(arguments, "negative_reactive_power"),
      BoolAt(arguments, "frequency_reading"))
  }

  /** The flag at `key`, `false` where there is none. */
  function BoolAt(arguments: map<string, Value>, key: string): bool
  {
    key in arguments && arguments[key].Bool? && arguments[key].b
  }

  /** `parse_device_options`. */
  function ParseDeviceOptions(options: map<string, Value>): Result<EnergyMeterOptions, Failure>
  {
    var arguments := FromDataclass(options, DeviceOptionsFields(), [], Device(MISSING_DEVICE_OPTIONS_FIELDS), Device(INVALID_DEVICE_OPTIONS_FIELDS));
    if arguments.Err? then Err(arguments.error) else Ok(MeterOptionsOf(arguments.value))
  }

  /** A payload carrying the four flags as booleans. */
  predicate MeterOptionsGiven(options: map<string, Value>)
  {
    && "read_energy_from_meter" in options && options["read_energy_from_meter"].Bool?
    && "read_separate_forward_reverse_energy" in options && options["read_separate_forward_reverse_energy"].Bool?
    && "negative_reactive_power" in options && options["negative_reactive_power"].Bool?
    && "frequency_reading" in options && options["frequency_reading"].Bool?
  }

  /** The option fields are distinct and all required. */
  lemma DeviceOptionsFieldsShape()
    ensures var fields := DeviceOptionsFields();
      && (forall i, j :: 0 <= i < j < |fields| ==> fields[i].name != fields[j].name)
      && (forall i :: 0 <= i < |fields| ==> IsRequired(fields[i]))
  {
  }

  /** Every field given and accepted is the same as the four flags being booleans. */
  lemma DeviceOptionsAccepted(options: map<string, Value>)
    ensures var fields := DeviceOptionsFields();
      (forall i :: 0 <= i < |fields| ==> fields[i].name in options && FieldAccepted(options, fields[i])) <==> MeterOptionsGiven(options)
  {
    var fields := DeviceOptionsFields();
    if MeterOptionsGiven(options) {
      forall i | 0 <= i < |fields|
        ensures fields[i].name in options && FieldAccepted(options, fields[i])
      {
      }
    }
    if forall i :: 0 <= i < |fields| ==> fields[i].name in options && FieldAccepted(options, fields[i]) {
      assert FieldAccepted(options, fields[0]) && FieldAccepted(options, fields[1]);
      assert FieldAccepted(options, fields[2]) && FieldAccepted(options, fields[3]);
    }
  }

  /**
   * An empty payload lets `ValueError` escape; one lacking flags lists them under
   * MISSING_DEVICE_OPTIONS_FIELDS; otherwise it parses exactly when all four are booleans, and
   * the options are those flags.
   */
  lemma ParseDeviceOptionsSpec(options: map<string, Value>)
    ensures var r := ParseDeviceOptions(options);
      && (options == map[] ==> r == Err(ValueError(None)))
      && (options != map[] && MissingNames(RequiredNames(DeviceOptionsFields()), options, []) != [] ==>
            r == Err(InvalidRequestPayload(Device(MISSING_DEVICE_OPTIONS_FIELDS), FieldsDetail(MissingNames(RequiredNames(DeviceOptionsFields()), options, [])))))
      && (options != map[] ==> (r.Ok? <==> MeterOptionsGiven(options)))
      && (r.Ok? ==> r.value == EnergyMeterOptions(
            options["read_energy_from_meter"].b, options["read_separate_forward_reverse_energy"].b,
            options["negative_reactive_power"].b, options["frequency_reading"].b))
  {
    var fields := DeviceOptionsFields();
    DeviceOptionsFieldsShape();
    AllRequiredSpec(options, fields, Device(MISSING_DEVICE_OPTIONS_FIELDS), Device(INVALID_DEVICE_OPTIONS_FIELDS));
    DeviceOptionsAccepted(options);
    RequiredNamesMissing(options, fields, []);
    if options != map[] && MissingNames(RequiredNames(fields), options, []) != [] {
      var n := MissingNames(RequiredNames(fields), options, [])[0];
      assert n in MissingNames(RequiredNames(fields), options, []);
    }
    var r := ParseDeviceOptions(options);
    if r.Ok? {
      assert fields[0].name in options && fields[1].name in options && fields[2].name in options && fields[3].name in options;
    }
  }

  /* ------------------------------------------------------------- parse_communication_options */

  /**
   * What the device parsers look up: the protocol registry, the dataclass fields of a plugin's
   * `options_class`, and what the node parser needs.
   */
  datatype DeviceContext = DeviceContext(
    registry: map<Protocol, ProtocolRegistration.ProtocolPlugin>,
    communicationFields: ProtocolRegistration.ProtocolPlugin -> seq<FieldSpec>,
    noProtocolFields: seq<FieldSpec>,
    nodeOptionsFields: ProtocolRegistration.ProtocolPlugin -> seq<FieldSpec>)

  /** The node parser's context for a meter of type `meterType`. */
  function NodeContextFor(ctx: DeviceContext, meterType: EnergyMeterType): NodeParser.NodeContext
  {
    NodeParser.NodeContext(meterType, ctx.registry, ctx.noProtocolFields, ctx.nodeOptionsFields)
  }

  /**
   * `parse_communication_options`: a protocol without a plugin raises `NotImplemeted`, which the
   * `except NotImplementedError` does not catch, so it escapes; otherwise the payload is checked
   * against the plugin's options class.
   */
  function ParseCommunicationOptions(options: map<string, Value>, protocol: Protocol, ctx: DeviceContext): (r: Result<map<string, Value>, Failure>)
    ensures protocol !in ctx.registry ==> r == Err(NotImplemeted)
  {
    var plugin := ProtocolRegistration.GetProtocolPlugin(ctx.registry, protocol);
    if plugin.Err? then Err(NotImplemeted)
    else FromDataclass(options, ctx.communicationFields(plugin.value), [],
                       Device(MISSING_DEVICE_COMMUNICATION_FIELDS), Device(INVALID_DEVICE_COMMUNICATION_FIELDS))
  }

  /**
   * A registered protocol checks the payload against its plugin's options fields; the INVALID_PROTOCOL
   * the `except` clause means to raise never comes from here.
   */
  lemma ParseCommunicationOptionsSpec(options: map<string, Value>, protocol: Protocol, ctx: DeviceContext)
    ensures var r := ParseCommunicationOptions(options, protocol, ctx);
      && (protocol in ctx.registry ==>
            r == FromDataclass(options, ctx.communicationFields(ctx.registry[protocol]), [],
                               Device(MISSING_DEVICE_COMMUNICATION_FIELDS), Device(INVALID_DEVICE_COMMUNICATION_FIELDS)))
      && r != Err(InvalidRequestPayload(Device(DeviceCode.INVALID_PROTOCOL), NoDetails))
  {
  }

  /** `parse_communication_options` with the `except` clause catching `NotImplemeted`, as its INVALID_PROTOCOL intends. */
  function ParseCommunicationOptionsIntended(options: map<string, Value>, protocol: Protocol, ctx: DeviceContext)
    : (r: Result<map<string, Value>, Failure>)
    ensures protocol !in ctx.registry ==> r == Err(InvalidRequestPayload(Device(DeviceCode.INVALID_PROTOCOL), NoDetails))
    ensures r != Err(NotImplemeted)
  {
    var plugin := ProtocolRegistration.GetProtocolPlugin(ctx.registry, protocol);
    if plugin.Err? then Err(InvalidRequestPayload(Device(DeviceCode.INVALID_PROTOCOL), NoDetails))
    else
      FromDataclass(options, ctx.communicationFields(plugin.value), [],
                    Device(MISSING_DEVICE_COMMUNICATION_FIELDS), Device(INVALID_DEVICE_COMMUNICATION_FIELDS))
  }

  /**
   * The written and the intended communication options parser part exactly on a protocol
   * without a registered plugin, where the written one lets `NotImplemeted` escape and the
   * intended one answers INVALID_PROTOCOL.
   */
  lemma CommunicationOptionsUnregisteredEscapes(options: map<string, Value>, protocol: Protocol, ctx: DeviceContext)
    ensures ParseCommunicationOptions(options, protocol, ctx) != ParseCommunicationOptionsIntended(options, protocol, ctx)
            <==> protocol !in ctx.registry
    ensures protocol !in ctx.registry ==>
      && ParseCommunicationOptions(options, protocol, ctx) == Err(NotImplemeted)
      && ParseCommunicationOptionsIntended(options, protocol, ctx) == Err(InvalidRequestPayload(Device(DeviceCode.INVALID_PROTOCOL), NoDetails))
  {
  }

  /* ------------------------------------------------------------- parse_device */

  /**
   * The fields of `EnergyMeterRecord`, of which `check_required_keys` reads only names and
   * defaults: name, protocol, type, options, communication options and nodes required (nodes is
   * ignored), `id` defaulting to `None`. The `Set[NodeRecord]` annotation is left untyped.
   */
  function DeviceRecordFields(): seq<FieldSpec>
  {
    [ FieldSpec("name", ClassType(StrClass), None, None),
      FieldSpec("protocol", ClassType(EnumClass("Protocol")), None, None),
      FieldSpec("type", ClassType(EnumClass("EnergyMeterType")), None, None),
      FieldSpec("options", GenericAlias(DictClass), None, None),
      FieldSpec("communication_options", GenericAlias(DictClass), None, None),
      FieldSpec("nodes", SpecialForm, None, None),
      FieldSpec("id", SpecialForm, Some(Null), None) ]
  }

  /** A parsed device: `EnergyMeterRecord` with its options parsed and its node set keyed by name. */
  datatype ParsedDevice = ParsedDevice(
    name: string,
    id: Option<Value>,
    protocol: Protocol,
    meterType: EnergyMeterType,
    options: EnergyMeterOptions,
    communicationOptions: map<string, Value>,
    nodes: map<string, NodeParser.ParsedNode>)

  /**
   * `require_field(device, key, t)` followed by the `is None` test: as written the field's
   * `ValueError` escapes; corrected, the test's error code is raised.
   */
  function RequiredValue(device: map<string, Value>, key: string, c: PyClass, missing: DeviceCode, asWritten: bool): (r: Result<Value, Failure>)
    ensures r.Ok? <==> key in device && IsInstanceOf(device[key], c)
    ensures r.Ok? ==> r.value == device[key]
    ensures r.Err? && asWritten ==> r.error == ValueError(Some(key))
    ensures r.Err? && !asWritten ==> r.error == InvalidRequestPayload(Device(missing), NoDetails)
  {
    var v := RequireField(device, key, ClassType(c));
    if v.Ok? then Ok(v.value)
    else if asWritten then Err(ValueError(Some(key)))
    else Err(InvalidRequestPayload(Device(missing), NoDetails))
  }

  /** The identity, protocol and type of a device payload. */
  datatype DeviceHeader = DeviceHeader(id: Option<Value>, name: string, protocol: Protocol, meterType: EnergyMeterType)

  /**
   * The checks of `parse_device` from the id to the type, in source order: an id for an update,
   * a name, a protocol naming a `Protocol` (INVALID_PROTOCOL), a type naming an
   * `EnergyMeterType` (INVALID_TYPE).
   */
  function ParseHeader(newDevice: bool, device: map<string, Value>, asWritten: bool): (r: Result<DeviceHeader, Failure>)
    ensures r.Ok? ==>
      && (newDevice <==> r.value.id.None?)
      && (!newDevice ==> "id" in device && IsInstanceOf(device["id"], IntClass) && r.value.id == Some(device["id"]))
      && "name" in device && device["name"] == Str(r.value.name)
      && "protocol" in device && device["protocol"] == Str(ProtocolValue(r.value.protocol))
      && "type" in device && device["type"] == Str(EnergyMeterTypeValue(r.value.meterType))
  {
    var id := if newDevice then Ok(None) else
      var v := RequiredValue(device, "id", IntClass, MISSING_DEVICE_ID, asWritten);
      if v.Err? then Err(v.error) else Ok(Some(v.value));
    if id.Err? then Err(id.error)
    else
      var name := RequiredValue(device, "name", StrClass, MISSING_DEVICE_NAME, asWritten);
      if name.Err? then Err(name.error)
      else
        var protocolText := RequiredValue(device, "protocol", StrClass, DeviceCode.MISSING_PROTOCOL, asWritten);
        if protocolText.Err? then Err(protocolText.error)
        else
          var protocol := ProtocolFromValue(protocolText.value.s);
          if protocol.None? then Err(InvalidRequestPayload(Device(DeviceCode.INVALID_PROTOCOL), NoDetails))
          else
            var typeText := RequiredValue(device, "type", StrClass, MISSING_TYPE, asWritten);
            if typeText.Err? then Err(typeText.error)
            else
              var meterType := EnergyMeterTypeFromValue(typeText.value.s);
              if meterType.None? then Err(InvalidRequestPayload(Device(INVALID_TYPE), NoDetails))
              else Ok(DeviceHeader(id.value, name.value.s, protocol.value, meterType.value))
  }

  /** The device options: a dictionary (MISSING_DEVICE_OPTIONS corrected), then `parse_device_options`. */
  function DeviceOptionsOf(device: map<string, Value>, asWritten: bool): (r: Result<EnergyMeterOptions, Failure>)
    ensures !("options" in device && device["options"].Dict?) ==>
      r == Err(if asWritten then ValueError(Some("options")) else InvalidRequestPayload(Device(MISSING_DEVICE_OPTIONS), NoDetails))
    ensures "options" in device && device["options"].Dict? ==> r == ParseDeviceOptions(device["options"].m)
  {
    var options := RequiredValue(device, "options", DictClass, MISSING_DEVICE_OPTIONS, asWritten);
    if options.Err? then Err(options.error) else ParseDeviceOptions(options.value.m)
  }

  /**
   * The communication options: a dictionary (corrected, MISSING_DEVICE_OPTIONS, the code the
   * source reuses here), then `parse_communication_options`.
   */
  function CommunicationOptionsOf(device: map<string, Value>, protocol: Protocol, ctx: DeviceContext, asWritten: bool): (r: Result<map<string, Value>, Failure>)
    ensures !("communication_options" in device && device["communication_options"].Dict?) ==>
      r == Err(if asWritten then ValueError(Some("communication_options")) else InvalidRequestPayload(Device(MISSING_DEVICE_OPTIONS), NoDetails))
    ensures "communication_options" in device && device["communication_options"].Dict? ==>
      r == ParseCommunicationOptions(device["communication_options"].m, protocol, ctx)
  {
    var options := RequiredValue(device, "communication_options", DictClass, MISSING_DEVICE_OPTIONS, asWritten);
    if options.Err? then Err(options.error) else ParseCommunicationOptions(options.value.m, protocol, ctx)
  }

  /**
   * `parse_device`, as written or corrected: the required keys (nodes ignored), the header, the
   * options, the communication options, and last the node list, parsed for the device's type.
   */
  function ParseDeviceWith(newDevice: bool, device: map<string, Value>, nodes: seq<Value>, ctx: DeviceContext, asWritten: bool): (r: Result<ParsedDevice, Failure>)
    ensures r.Ok? ==>
      && MissingNames(RequiredNames(DeviceRecordFields()), device, ["nodes"]) == []
      && ParseHeader(newDevice, device, asWritten) == Ok(DeviceHeader(r.value.id, r.value.name, r.value.protocol, r.value.meterType))
      && DeviceOptionsOf(device, asWritten) == Ok(r.value.options)
      && CommunicationOptionsOf(device, r.value.protocol, ctx, asWritten) == Ok(r.value.communicationOptions)
      && NodeParser.NodesFrom(nodes, NodeParser.EntryParser(NodeContextFor(ctx, r.value.meterType)), map[]) == Ok(r.value.nodes)
    ensures device == map[] ==> r == Err(ValueError(None))
    ensures var missing := MissingNames(RequiredNames(DeviceRecordFields()), device, ["nodes"]);
      device != map[] && missing != [] ==> r == Err(InvalidRequestPayload(Device(MISSING_DEVICE_FIELDS), FieldsDetail(missing)))
    ensures r.Err? && device != map[] && MissingNames(RequiredNames(DeviceRecordFields()), device, ["nodes"]) == [] ==>
      var header := ParseHeader(newDevice, device, asWritten);
      var options := DeviceOptionsOf(device, asWritten);
      if header.Err? then r.error == header.error
      else if options.Err? then r.error == options.error
      else
        var communication := CommunicationOptionsOf(device, header.value.protocol, ctx, asWritten);
        if communication.Err? then r.error == communication.error
        else NodeParser.NodesFrom(nodes, NodeParser.EntryParser(NodeContextFor(ctx, header.value.meterType)), map[]) == Err(r.error)
  {
    var keys := KeysCheck(device, DeviceRecordFields(), ["nodes"], Device(MISSING_DEVICE_FIELDS));
    if keys.Err? then Err(keys.error)
    else
      var header := ParseHeader(newDevice, device, asWritten);
      if header.Err? then Err(header.error)
      else
        var options := DeviceOptionsOf(device, asWritten);
        if options.Err? then Err(options.error)
        else
          var communication := CommunicationOptionsOf(device, header.value.protocol, ctx, asWritten);
          if communication.Err? then Err(communication.error)
          else
            var records := NodeParser.NodesFrom(nodes, NodeParser.EntryParser(NodeContextFor(ctx, header.value.meterType)), map[]);
            if records.Err? then Err(records.error)
            else Ok(ParsedDevice(header.value.name, header.value.id, header.value.protocol, header.value.meterType,
                                 options.value, communication.value, records.value))
  }

  /** `parse_device` as written: a field `require_field` rejects lets its `ValueError` escape. */
  function ParseDeviceAsWritten(newDevice: bool, device: map<string, Value>, nodes: seq<Value>, ctx: DeviceContext): (r: Result<ParsedDevice, Failure>)
    ensures device == map[] ==> r == Err(ValueError(None))
    ensures r.Ok? ==> MissingNames(RequiredNames(DeviceRecordFields()), device, ["nodes"]) == [] && DeviceOptionsOf(device, true) == Ok(r.value.options)
  {
    ParseDeviceWith(newDevice, device, nodes, ctx, true)
  }

  /** `parse_device` with its `is None` tests in effect. */
  function ParseDevice(newDevice: bool, device: map<string, Value>, nodes: seq<Value>, ctx: DeviceContext): (r: Result<ParsedDevice, Failure>)
    ensures device == map[] ==> r == Err(ValueError(None))
    ensures r.Ok? ==> MissingNames(RequiredNames(DeviceRecordFields()), device, ["nodes"]) == [] && DeviceOptionsOf(device, false) == Ok(r.value.options)
  {
    ParseDeviceWith(newDevice, device, nodes, ctx, false)
  }

  /** What a rejected top-level field raises: its `ValueError` as written, the `is None` test's code corrected. */
  function FieldFailure(key: string, missing: DeviceCode, asWritten: bool): Failure
  {
    if asWritten then ValueError(Some(key)) else InvalidRequestPayload(Device(missing), NoDetails)
  }

  /** The names `parse_device` requires before anything else: every record field but `nodes` and `id`. */
  function DeviceRequiredNames(): set<string>
  {
    {"name", "protocol", "type", "options", "communication_options"}
  }

  /**
   * The names the required-keys check reports missing are exactly those of name, protocol, type,
   * options and communication options the payload lacks: `nodes` is never asked for and `id`
   * is optional.
   */
  lemma ParseDeviceKeys(device: map<string, Value>)
    ensures forall n :: n in MissingNames(RequiredNames(DeviceRecordFields()), device, ["nodes"]) <==> n in DeviceRequiredNames() && n !in device
    ensures MissingNames(RequiredNames(DeviceRecordFields()), device, ["nodes"]) == [] <==> DeviceRequiredNames() <= device.Keys
  {
    DeviceRecordRequired();
    MissingNamesAre(device, DeviceRecordFields(), ["nodes"], DeviceRequiredNames());
  }

  /** The record's required, non-ignored names are the five of `DeviceRequiredNames`. */
  lemma DeviceRecordRequired()
    ensures var fields := DeviceRecordFields();
      forall n :: (exists i :: 0 <= i < |fields| && fields[i].name == n && IsRequired(fields[i]) && n !in ["nodes"]) <==> n in DeviceRequiredNames()
  {
    var fields := DeviceRecordFields();
    forall n | n in DeviceRequiredNames()
      ensures exists i :: 0 <= i < |fields| && fields[i].name == n && IsRequired(fields[i]) && n !in ["nodes"]
    {
      if n == "name" { assert fields[0].name == n && IsRequired(fields[0]); }
      else if n == "protocol" { assert fields[1].name == n && IsRequired(fields[1]); }
      else if n == "type" { assert fields[2].name == n && IsRequired(fields[2]); }
      else if n == "options" { assert fields[3].name == n && IsRequired(fields[3]); }
      else { assert fields[4].name == n && IsRequired(fields[4]); }
    }
  }

  /**
   * Then, in order: for an update an `int` id, a `str` name, a `str` protocol naming a
   * `Protocol` (INVALID_PROTOCOL), a `str` type naming an `EnergyMeterType` (INVALID_TYPE); a
   * rejected field raises its `FieldFailure`.
   */
  lemma ParseHeaderOrder(newDevice: bool, device: map<string, Value>, asWritten: bool)
    ensures var r := ParseHeader(newDevice, device, asWritten);
      var idOk := newDevice || ("id" in device && IsInstanceOf(device["id"], IntClass));
      var nameOk := "name" in device && device["name"].Str?;
      var protocolOk := "protocol" in device && device["protocol"].Str?;
      var typeOk := "type" in device && device["type"].Str?;
      && (!idOk ==> r == Err(FieldFailure("id", MISSING_DEVICE_ID, asWritten)))
      && (idOk && !nameOk ==> r == Err(FieldFailure("name", MISSING_DEVICE_NAME, asWritten)))
      && (idOk && nameOk && !protocolOk ==> r == Err(FieldFailure("protocol", DeviceCode.MISSING_PROTOCOL, asWritten)))
      && (idOk && nameOk && protocolOk && device["protocol"].s !in ValidProtocols() ==>
            r == Err(InvalidRequestPayload(Device(DeviceCode.INVALID_PROTOCOL), NoDetails)))
      && (idOk && nameOk && protocolOk && device["protocol"].s in ValidProtocols() && !typeOk ==>
            r == Err(FieldFailure("type", MISSING_TYPE, asWritten)))
      && (idOk && nameOk && protocolOk && device["protocol"].s in ValidProtocols() && typeOk ==>
            (r.Ok? <==> device["type"].s in {"SINGLE_PHASE", "THREE_PHASE"}) &&
            (r.Err? ==> r == Err(InvalidRequestPayload(Device(INVALID_TYPE), NoDetails))))
  {
  }

  /**
   * As written none of MISSING_DEVICE_ID, MISSING_DEVICE_NAME, MISSING_PROTOCOL and MISSING_TYPE
   * comes from the header checks: each rejected field raises `ValueError` instead.
   */
  lemma HeaderNeverRaisesMissingCodes(newDevice: bool, device: map<string, Value>, code: DeviceCode)
    requires code in {MISSING_DEVICE_ID, MISSING_DEVICE_NAME, DeviceCode.MISSING_PROTOCOL, MISSING_TYPE}
    ensures ParseHeader(newDevice, device, true) != Err(InvalidRequestPayload(Device(code), NoDetails))
  {
    ParseHeaderOrder(newDevice, device, true);
  }

  /**
   * A payload carrying every required key whose name is not a string: as written `ValueError`
   * naming `name` escapes, while the `is None` check means MISSING_DEVICE_NAME.
   */
  lemma MistypedNameEscapes(device: map<string, Value>, nodes: seq<Value>, ctx: DeviceContext)
    requires DeviceRequiredNames() <= device.Keys && !device["name"].Str?
    ensures ParseDeviceAsWritten(true, device, nodes, ctx) == Err(ValueError(Some("name")))
    ensures ParseDevice(true, device, nodes, ctx) == Err(InvalidRequestPayload(Device(MISSING_DEVICE_NAME), NoDetails))
  {
    ParseDeviceKeys(device);
    assert "name" in device;
    ParseHeaderOrder(true, device, true);
    ParseHeaderOrder(true, device, false);
  }

  /** A new device whose name is the number 5. */
  lemma DeviceNameCounterexample(nodes: seq<Value>, ctx: DeviceContext)
    ensures var device := map["name" := Int(5), "protocol" := Str("MODBUS_RTU"), "type" := Str("THREE_PHASE"),
                              "options" := Dict(map[]), "communication_options" := Dict(map[])];
      && ParseDeviceAsWritten(true, device, nodes, ctx) == Err(ValueError(Some("name")))
      && ParseDevice(true, device, nodes, ctx) == Err(InvalidRequestPayload(Device(MISSING_DEVICE_NAME), NoDetails))
  {
    var device := map["name" := Int(5), "protocol" := Str("MODBUS_RTU"), "type" := Str("THREE_PHASE"),
                      "options" := Dict(map[]), "communication_options" := Dict(map[])];
    MistypedNameEscapes(device, nodes, ctx);
  }
}
