/**
 * The pattern every sub-parser of `web/parsers/nodes.py` and `web/parsers/device.py` follows on
 * a payload dictionary and a dataclass: `check_required_keys`, whose `KeyError` becomes a
 * MISSING_* error, then `create_dict_from_fields`, whose `ValueError` becomes an INVALID_* error.
 *
 * The MISSING_* error's details are written `list(e.args[0])`. The argument of that `KeyError` is
 * its message, "Missing required fields: a, b", so the list holds the message's characters, not
 * the field names. `FromDataclassAsWritten` keeps that; `FromDataclass` lists the missing names,
 * as the `fields` key of the details intends, and is what the parsers use.
 */
module DataclassParse {
  import opened Wrappers
  import opened Values
  import opened Strings
  import opened Objects
  import opened ApiErrors

  /**
   * `validate_field_type(data, key, t)`, which the `objects.py` shown does not define: taken to
   * hold when `key` is given with an instance of the class `c` that `t` resolves to (`dict` for
   * `Dict[str, Any]`).
   */
  predicate ValidateFieldType(data: map<string, Value>, key: string, c: PyClass)
  {
    key in data && IsInstanceOf(data[key], c)
  }

  /** The check holds exactly when `require_field` with that class would not raise. */
  lemma ValidateFieldTypeAsRequireField(data: map<string, Value>, key: string, c: PyClass)
    ensures ValidateFieldType(data, key, c) <==> RequireField(data, key, ClassType(c)).Ok?
    ensures ValidateFieldType(data, key, c) <==> RequireField(data, key, GenericAlias(c)).Ok?
  {
  }

  /** `e.args[0]` of the exception an `Objects` error stands for: its message, or the field for a field error. */
  function ErrorArgument(e: ObjectsError): string
  {
    match e
    case MissingInput => "Missing input dataclass"
    case MissingFields(message) => message
    case FieldError(field) => field
  }

  /** `list(s)` of a Python string: its characters, each a string of length one. */
  function Chars(s: string): (r: seq<string>)
    ensures |r| == |s|
    ensures forall i :: 0 <= i < |s| ==> r[i] == [s[i]]
  {
    seq(|s|, i requires 0 <= i < |s| => [s[i]])
  }

  /** `check_required_keys` with its errors mapped as intended: the optional names, or the failure. */
  function KeysCheck(input: map<string, Value>, fields: seq<FieldSpec>, ignore: seq<string>, missingCode: ErrorCode)
    : Result<seq<string>, Failure>
  {
    var check := RequiredKeysCheck(Some(input), fields, ignore);
    if check.Err? then
      if check.error.MissingInput? then Err(ValueError(None))
      else Err(InvalidRequestPayload(missingCode, FieldsDetail(MissingNames(RequiredNames(fields), input, ignore))))
    else Ok(check.value)
  }

  /**
   * The key check fails with `ValueError` exactly on an empty payload, and otherwise with the
   * MISSING_* error, listing exactly the absent required fields, exactly when there is one.
   */
  lemma KeysCheckSpec(input: map<string, Value>, fields: seq<FieldSpec>, ignore: seq<string>, missingCode: ErrorCode)
    ensures var r := KeysCheck(input, fields, ignore, missingCode);
      && (r == Err(ValueError(None)) <==> input == map[])
      && (input != map[] ==>
            (r.Err? <==> exists i :: 0 <= i < |fields| && IsRequired(fields[i]) && fields[i].name !in input && fields[i].name !in ignore))
      && (input != map[] && r.Err? ==> r == Err(InvalidRequestPayload(missingCode, FieldsDetail(MissingNames(RequiredNames(fields), input, ignore)))))
      && (r.Ok? ==> forall i :: 0 <= i < |fields| && IsRequired(fields[i]) && fields[i].name !in ignore ==> fields[i].name in input)
  {
    RequiredKeysCheckSpec(Some(input), fields, ignore);
  }

  /** The sub-parser as intended: the MISSING_* details list the missing field names. */
  function FromDataclass(input: map<string, Value>, fields: seq<FieldSpec>, ignore: seq<string>, missingCode: ErrorCode, invalidCode: ErrorCode)
    : Result<map<string, Value>, Failure>
  {
    var keys := KeysCheck(input, fields, ignore, missingCode);
    if keys.Err? then Err(keys.error)
    else
      var arguments := DictFromFields(input, fields, keys.value, map[]);
      if arguments.Err? then Err(InvalidRequestPayload(invalidCode, FieldDetail(ErrorArgument(arguments.error))))
      else Ok(arguments.value)
  }

  /** The sub-parser as written: the MISSING_* details are `list(e.args[0])`. */
  function FromDataclassAsWritten(input: map<string, Value>, fields: seq<FieldSpec>, ignore: seq<string>, missingCode: ErrorCode, invalidCode: ErrorCode)
    : Result<map<string, Value>, Failure>
  {
    var check := RequiredKeysCheck(Some(input), fields, ignore);
    if check.Err? && check.error.MissingFields? then Err(InvalidRequestPayload(missingCode, FieldsDetail(Chars(ErrorArgument(check.error)))))
    else FromDataclass(input, fields, ignore, missingCode, invalidCode)
  }

  /**
   * What the sub-parser decides, in order: an empty payload lets `ValueError` escape; an absent
   * required, non-ignored field gives the MISSING_* error listing exactly those fields; a given
   * field failing its type check gives the INVALID_* error naming the first such field; otherwise
   * the arguments hold every given value and the default of every absent optional field.
   */
  lemma FromDataclassSpec(input: map<string, Value>, fields: seq<FieldSpec>, ignore: seq<string>, missingCode: ErrorCode, invalidCode: ErrorCode)
    requires forall i, j :: 0 <= i < j < |fields| ==> fields[i].name != fields[j].name
    ensures var r := FromDataclass(input, fields, ignore, missingCode, invalidCode);
      (r == Err(ValueError(None)) <==> input == map[]) &&
      (input != map[] && (exists i :: 0 <= i < |fields| && IsRequired(fields[i]) && fields[i].name !in input && fields[i].name !in ignore) ==>
        r.Err? && r.error.InvalidRequestPayload? && r.error.code == missingCode && r.error.details.FieldsDetail? &&
        forall n :: n in r.error.details.fields <==>
          exists i :: 0 <= i < |fields| && fields[i].name == n && IsRequired(fields[i]) && n !in input && n !in ignore)
    ensures var r := FromDataclass(input, fields, ignore, missingCode, invalidCode);
      RequiredKeysCheck(Some(input), fields, ignore).Ok? ==>
        (r.Ok? <==> forall i :: 0 <= i < |fields| ==> FieldAccepted(input, fields[i])) &&
        (r.Err? ==> exists i ::
          0 <= i < |fields| && !FieldAccepted(input, fields[i]) && r == Err(InvalidRequestPayload(invalidCode, FieldDetail(fields[i].name))) &&
          forall j :: 0 <= j < i ==> FieldAccepted(input, fields[j]))
    ensures var r := FromDataclass(input, fields, ignore, missingCode, invalidCode);
      r.Ok? ==> forall i :: 0 <= i < |fields| ==>
        (fields[i].name in input ==> fields[i].name in r.value && r.value[fields[i].name] == input[fields[i].name]) &&
        (fields[i].name !in input && !IsRequired(fields[i]) ==> fields[i].name in r.value && r.value[fields[i].name] == FieldDefault(fields[i]))
    ensures var r := FromDataclass(input, fields, ignore, missingCode, invalidCode);
      r.Ok? ==> forall k :: k in r.value <==> exists i :: 0 <= i < |fields| && fields[i].name == k && (k in input || !IsRequired(fields[i]))
  {
    RequiredKeysCheckSpec(Some(input), fields, ignore);
    var check := RequiredKeysCheck(Some(input), fields, ignore);
    if check.Ok? {
      DictFromFieldsOk(input, fields, check.value, map[]);
      DictFromFieldsFirstError(input, fields, check.value, map[]);
      DictFromFieldsValues(input, fields, check.value, map[]);
      DictFromFieldsKeys(input, fields, check.value, map[]);
    } else if input != map[] {
      RequiredNamesMissing(input, fields, ignore);
    }
  }

  /** A required, non-ignored field whose annotation rejects every value makes every parse fail. */
  lemma RejectingFieldFails(input: map<string, Value>, fields: seq<FieldSpec>, ignore: seq<string>, missingCode: ErrorCode, invalidCode: ErrorCode, k: nat)
    requires k < |fields| && IsRequired(fields[k]) && fields[k].name !in ignore
    requires forall d: map<string, Value> :: RequireField(d, fields[k].name, fields[k].typ).Err?
    ensures FromDataclass(input, fields, ignore, missingCode, invalidCode).Err?
    ensures FromDataclassAsWritten(input, fields, ignore, missingCode, invalidCode).Err?
  {
    RequiredKeysCheckSpec(Some(input), fields, ignore);
    var check := RequiredKeysCheck(Some(input), fields, ignore);
    if check.Ok? {
      assert !FieldAccepted(input, fields[k]) by {
        assert RequireField(input, fields[k].name, fields[k].typ).Err?;
      }
      DictFromFieldsOk(input, fields, check.value, map[]);
    }
  }

  /**
   * For fields that are all required: a non-empty payload parses exactly when it gives every
   * field with a value its annotation accepts, and the arguments are the given values.
   */
  lemma AllRequiredSpec(input: map<string, Value>, fields: seq<FieldSpec>, missingCode: ErrorCode, invalidCode: ErrorCode)
    requires forall i :: 0 <= i < |fields| ==> IsRequired(fields[i])
    ensures var r := FromDataclass(input, fields, [], missingCode, invalidCode);
      && (input == map[] ==> r == Err(ValueError(None)))
      && (input != map[] && (exists i :: 0 <= i < |fields| && fields[i].name !in input) ==>
            r == Err(InvalidRequestPayload(missingCode, FieldsDetail(MissingNames(RequiredNames(fields), input, [])))))
      && (input != map[] ==> (r.Ok? <==> forall i :: 0 <= i < |fields| ==> fields[i].name in input && FieldAccepted(input, fields[i])))
      && (r.Ok? ==> forall i :: 0 <= i < |fields| ==> fields[i].name in r.value && r.value[fields[i].name] == input[fields[i].name])
  {
    KeysCheckSpec(input, fields, [], missingCode);
    var keys := KeysCheck(input, fields, [], missingCode);
    if keys.Ok? {
      DictFromFieldsOk(input, fields, keys.value, map[]);
      DictFromFieldsGiven(input, fields, keys.value, map[]);
    }
  }

  /** With every field required, a non-empty input parses exactly when `given` holds, `given` being "every field is present and accepted". */
  lemma AllRequiredAcceptedIff(input: map<string, Value>, fields: seq<FieldSpec>, missingCode: ErrorCode, invalidCode: ErrorCode, given: bool)
    requires forall i :: 0 <= i < |fields| ==> IsRequired(fields[i])
    requires input != map[]
    requires given <==> forall i :: 0 <= i < |fields| ==> fields[i].name in input && FieldAccepted(input, fields[i])
    ensures FromDataclass(input, fields, [], missingCode, invalidCode).Ok? <==> given
  {
    AllRequiredSpec(input, fields, missingCode, invalidCode);
  }

  /** The missing names are the required, non-ignored names the input lacks. */
  lemma RequiredNamesMissing(input: map<string, Value>, fields: seq<FieldSpec>, ignore: seq<string>)
    ensures forall n :: n in MissingNames(RequiredNames(fields), input, ignore) <==>
      exists i :: 0 <= i < |fields| && fields[i].name == n && IsRequired(fields[i]) && n !in input && n !in ignore
  {
    RequiredNamesSpec(fields);
  }

  /** Where the required, non-ignored names are a known set, the missing names are its members the input lacks. */
  lemma MissingNamesAre(input: map<string, Value>, fields: seq<FieldSpec>, ignore: seq<string>, names: set<string>)
    requires forall n :: (exists i :: 0 <= i < |fields| && fields[i].name == n && IsRequired(fields[i]) && n !in ignore) <==> n in names
    ensures forall n :: n in MissingNames(RequiredNames(fields), input, ignore) <==> n in names && n !in input
    ensures MissingNames(RequiredNames(fields), input, ignore) == [] <==> names <= input.Keys
  {
    RequiredNamesMissing(input, fields, ignore);
    var missing := MissingNames(RequiredNames(fields), input, ignore);
    if missing != [] {
      assert missing[0] in missing;
    }
    if !(names <= input.Keys) {
      var n :| n in names && n !in input;
      assert n in missing;
    }
  }

  /**
   * The written parser differs from the intended one exactly on a payload that lacks a required
   * field, and there its list is the message's characters: one entry per character, more entries
   * than there are missing fields.
   */
  lemma MissingDetailsAreCharacters(input: map<string, Value>, fields: seq<FieldSpec>, ignore: seq<string>, missingCode: ErrorCode, invalidCode: ErrorCode)
    ensures var missing := MissingNames(RequiredNames(fields), input, ignore);
      var written := FromDataclassAsWritten(input, fields, ignore, missingCode, invalidCode);
      (written != FromDataclass(input, fields, ignore, missingCode, invalidCode) <==> input != map[] && missing != []) &&
      (input != map[] && missing != [] ==>
        written == Err(InvalidRequestPayload(missingCode, FieldsDetail(Chars("Missing required fields: " + Join(missing, ", "))))) &&
        |written.error.details.fields| > |missing|)
  {
    var missing := MissingNames(RequiredNames(fields), input, ignore);
    JoinLength(missing, ", ");
  }

  /** A node payload lacking only its name: the written details spell out the message instead of listing "name". */
  lemma MissingNameCounterexample(fields: seq<FieldSpec>, missingCode: ErrorCode, invalidCode: ErrorCode)
    requires fields == [FieldSpec("name", ClassType(StrClass), None, None)]
    ensures var input := map["protocol" := Str("NONE")];
      FromDataclass(input, fields, [], missingCode, invalidCode) == Err(InvalidRequestPayload(missingCode, FieldsDetail(["name"]))) &&
      FromDataclassAsWritten(input, fields, [], missingCode, invalidCode) ==
        Err(InvalidRequestPayload(missingCode, FieldsDetail(Chars("Missing required fields: " + "name")))) &&
      |Chars("Missing required fields: " + "name")| == 29
  {
    var input := map["protocol" := Str("NONE")];
    assert "protocol" in input && input != map[];
    assert fields[1..] == [];
    assert RequiredNames(fields) == ["name"];
    assert ["name"][1..] == [];
    assert MissingNames(["name"], input, []) == ["name"];
    assert Join(["name"], ", ") == "name";
  }
}
