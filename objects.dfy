/**
 * The dataclass reflection helpers of `util/functions/objects.py`, over an explicit description
 * of a dataclass's fields: the required-key check, the building of a constructor dictionary with
 * defaults, and the type-checked field access `require_field`.
 *
 * A field's annotation is a `TypeExpr`. `typing.get_origin` of a generic alias (`Dict[str, Any]`)
 * is its class, of a PEP 604 union (`str | None`) the class `types.UnionType`, and of a typing
 * special form (`Optional[...]`, `Union[...]`) the form itself, which is not a class.
 */
module Objects {
  import opened Wrappers
  import opened Values
  import opened Strings

  /** The runtime classes an annotation can resolve to. */
  datatype PyClass = IntClass | FloatClass | StrClass | BoolClass | DictClass | ListClass | NoneClass
                   | DatetimeClass | EnumClass(name: string) | UnionTypeClass

  /** A field annotation: a class, a generic alias of a class, a PEP 604 union, or a typing special form. */
  datatype TypeExpr = ClassType(c: PyClass) | GenericAlias(origin: PyClass) | PipeUnion | SpecialForm

  /** `isinstance(v, c)` for a payload value (`bool` is an `int`; no payload value is an enum member or a `types.UnionType`). */
  predicate IsInstanceOf(v: Value, c: PyClass)
  {
    match c
    case IntClass => v.Int? || v.Bool?
    case FloatClass => v.Float?
    case StrClass => v.Str?
    case BoolClass => v.Bool?
    case DictClass => v.Dict?
    case ListClass => v.List?
    case NoneClass => v.Null?
    case DatetimeClass => v.Date?
    case EnumClass(_) => false
    case UnionTypeClass => false
  }

  /** `get_origin(t) or t`, as `resolve_type` and `require_field` compute it; `None` where it is not a class. */
  function ResolveType(t: TypeExpr): (r: Option<PyClass>)
    ensures r.None? <==> t.SpecialForm?
    ensures t.PipeUnion? ==> r == Some(UnionTypeClass)
    ensures t.ClassType? ==> r == Some(t.c)
    ensures t.GenericAlias? ==> r == Some(t.origin)
  {
    match t
    case ClassType(c) => Some(c)
    case GenericAlias(origin) => Some(origin)
    case PipeUnion => Some(UnionTypeClass)
    case SpecialForm => None
  }

  datatype ObjectsError = MissingInput | MissingFields(message: string) | FieldError(field: string)

  /** `require_field(data, key, t)`: the value unchanged, after the presence check and the class check. */
  function RequireField(data: map<string, Value>, key: string, t: TypeExpr): (r: Result<Value, ObjectsError>)
    ensures key !in data ==> r == Err(FieldError(key))
    ensures r.Ok? ==> key in data && r.value == data[key]
    ensures key in data && t.SpecialForm? ==> r == Ok(data[key])
    ensures key in data && t.ClassType? ==> (r.Ok? <==> IsInstanceOf(data[key], t.c))
    ensures r.Err? ==> r.error == FieldError(key)
  {
    if key !in data then Err(FieldError(key))
    else
      var origin := ResolveType(t);
      if origin.Some? && !IsInstanceOf(data[key], origin.value) then Err(FieldError(key))
      else Ok(data[key])
  }

  /** A field annotated `X | None` rejects every value, `None` included. */
  lemma PipeUnionRejectsEverything(data: map<string, Value>, key: string)
    ensures RequireField(data, key, PipeUnion).Err?
  {
  }

  /** `dataclasses.Field`: its name, annotation, default and the value its `default_factory` builds. */
  datatype FieldSpec = FieldSpec(name: string, typ: TypeExpr, default: Option<Value>, factory: Option<Value>)

  /** `field.default == field.default_factory == MISSING`. */
  predicate IsRequired(f: FieldSpec)
  {
    f.default.None? && f.factory.None?
  }

  function RequiredNames(fields: seq<FieldSpec>): (r: seq<string>)
    ensures |r| <= |fields|
  {
    if fields == [] then []
    else (if IsRequired(fields[0]) then [fields[0].name] else []) + RequiredNames(fields[1..])
  }

  /** The required names are exactly the names of the required fields. */
  lemma {:induction false} RequiredNamesSpec(fields: seq<FieldSpec>)
    ensures forall n :: n in RequiredNames(fields) <==> exists i :: 0 <= i < |fields| && fields[i].name == n && IsRequired(fields[i])
  {
    if fields != [] {
      RequiredNamesSpec(fields[1..]);
      assert forall i :: 1 <= i < |fields| ==> fields[i] == fields[1..][i - 1];
    }
  }

  function OptionalNames(fields: seq<FieldSpec>): (r: seq<string>)
    ensures |r| <= |fields|
  {
    if fields == [] then []
    else (if !IsRequired(fields[0]) then [fields[0].name] else []) + OptionalNames(fields[1..])
  }

  /** The optional names are exactly the names of the fields with a default. */
  lemma {:induction false} OptionalNamesSpec(fields: seq<FieldSpec>)
    ensures forall n :: n in OptionalNames(fields) <==> exists i :: 0 <= i < |fields| && fields[i].name == n && !IsRequired(fields[i])
  {
    if fields != [] {
      OptionalNamesSpec(fields[1..]);
      assert forall i :: 1 <= i < |fields| ==> fields[i] == fields[1..][i - 1];
    }
  }

  /** The required names that are neither given nor ignored, in field order. */
  function MissingNames(required: seq<string>, input: map<string, Value>, ignore: seq<string>): (r: seq<string>)
    ensures forall n :: n in r <==> n in required && n !in input && n !in ignore
  {
    if required == [] then []
    else (if required[0] !in input && required[0] !in ignore then [required[0]] else []) + MissingNames(required[1..], input, ignore)
  }

  /**
   * `check_required_keys` as a value: `ValueError` for a missing or empty input, `KeyError` naming
   * the missing required fields, else the names of the optional fields.
   */
  function RequiredKeysCheck(input: Option<map<string, Value>>, fields: seq<FieldSpec>, ignore: seq<string>): (r: Result<seq<string>, ObjectsError>)
  {
    if input.None? || input.value == map[] then Err(MissingInput)
    else
      var missing := MissingNames(RequiredNames(fields), input.value, ignore);
      if missing != [] then Err(MissingFields("Missing required fields: " + Join(missing, ", ")))
      else Ok(OptionalNames(fields))
  }

  /**
   * The check fails with `ValueError` exactly on a missing or empty input, and otherwise with
   * `KeyError` exactly when some required, non-ignored field is absent.
   */
  lemma RequiredKeysCheckSpec(input: Option<map<string, Value>>, fields: seq<FieldSpec>, ignore: seq<string>)
    ensures RequiredKeysCheck(input, fields, ignore) == Err(MissingInput) <==> input.None? || input.value == map[]
    ensures input.Some? && input.value != map[] ==>
      (RequiredKeysCheck(input, fields, ignore).Err? <==>
        exists i :: 0 <= i < |fields| && IsRequired(fields[i]) && fields[i].name !in input.value && fields[i].name !in ignore)
    ensures RequiredKeysCheck(input, fields, ignore).Ok? ==>
      forall n :: n in RequiredKeysCheck(input, fields, ignore).value <==>
        exists i :: 0 <= i < |fields| && fields[i].name == n && !IsRequired(fields[i])
  {
    RequiredNamesSpec(fields);
    OptionalNamesSpec(fields);
    if input.Some? && input.value != map[] {
      var missing := MissingNames(RequiredNames(fields), input.value, ignore);
      if missing != [] {
        assert missing[0] in missing;
      } else {
        forall i | 0 <= i < |fields| && IsRequired(fields[i]) && fields[i].name !in input.value
          ensures fields[i].name in ignore
        {
          assert fields[i].name in RequiredNames(fields);
        }
      }
    }
  }

  /** `check_required_keys`: the loop sorting the fields into required and optional, then the missing-field check. */
  method CheckRequiredKeys(input: Option<map<string, Value>>, fields: seq<FieldSpec>, ignore: seq<string>)
    returns (r: Result<seq<string>, ObjectsError>)
    ensures r == RequiredKeysCheck(input, fields, ignore)
  {
    if input.None? || input.value == map[] {
      return Err(MissingInput);
    }
    var required: seq<string> := [];
    var optional: seq<string> := [];
    for i := 0 to |fields|
      invariant required + RequiredNames(fields[i..]) == RequiredNames(fields)
      invariant optional + OptionalNames(fields[i..]) == OptionalNames(fields)
    {
      assert fields[i..][1..] == fields[i + 1..];
      if IsRequired(fields[i]) {
        required := required + [fields[i].name];
      } else {
        optional := optional + [fields[i].name];
      }
    }
    assert fields[|fields|..] == [];
    assert required == RequiredNames(fields) && optional == OptionalNames(fields);
    var missing := MissingNames(required, input.value, ignore);
    if missing != [] {
      return Err(MissingFields("Missing required fields: " + Join(missing, ", ")));
    }
    return Ok(optional);
  }

  /**
   * `add_value_to_dict`: the value is stored before it is checked, so the dictionary holds it
   * even when the check raises `ValueError`.
   */
  method AddValueToDict(d: map<string, Value>, f: FieldSpec, value: Value) returns (d': map<string, Value>, r: Outcome<ObjectsError>)
    ensures d' == d[f.name := value]
    ensures r.Pass? <==> RequireField(d', f.name, f.typ).Ok?
    ensures r.Fail? ==> r.error == FieldError(f.name)
  {
    d' := d[f.name := value];
    var origin := ResolveType(f.typ);
    if origin.Some? && !IsInstanceOf(value, origin.value) {
      r := Fail(FieldError(f.name));
    } else {
      r := Pass;
    }
  }

  /** The value `create_dict_from_fields` stores for an absent optional field: its default, else its factory's value, else `None`. */
  function FieldDefault(f: FieldSpec): Value
  {
    if f.default.Some? then f.default.value else if f.factory.Some? then f.factory.value else Null
  }

  /** `create_dict_from_fields` as a value: the fields in order, added to `acc`; the first failing type check raises. */
  function DictFromFields(input: map<string, Value>, fields: seq<FieldSpec>, optional: seq<string>, acc: map<string, Value>): Result<map<string, Value>, ObjectsError>
    decreases |fields|
  {
    if fields == [] then Ok(acc)
    else
      var f := fields[0];
      if f.name in input then
        if RequireField(acc[f.name := input[f.name]], f.name, f.typ).Err? then Err(FieldError(f.name))
        else DictFromFields(input, fields[1..], optional, acc[f.name := input[f.name]])
      else if f.name in optional then DictFromFields(input, fields[1..], optional, acc[f.name := FieldDefault(f)])
      else DictFromFields(input, fields[1..], optional, acc)
  }

  /** A field whose name is given passes the check exactly when its given value does. */
  predicate FieldAccepted(input: map<string, Value>, f: FieldSpec)
  {
    f.name in input ==> RequireField(input, f.name, f.typ).Ok?
  }

  /** The build succeeds exactly when every given field passes its type check. */
  lemma {:induction false} DictFromFieldsOk(input: map<string, Value>, fields: seq<FieldSpec>, optional: seq<string>, acc: map<string, Value>)
    decreases |fields|
    ensures DictFromFields(input, fields, optional, acc).Ok? <==> forall i :: 0 <= i < |fields| ==> FieldAccepted(input, fields[i])
  {
    if fields != [] {
      var f := fields[0];
      var acc' := if f.name in input then acc[f.name := input[f.name]] else if f.name in optional then acc[f.name := FieldDefault(f)] else acc;
      if f.name in input {
        assert RequireField(acc', f.name, f.typ) == RequireField(input, f.name, f.typ);
      }
      DictFromFieldsOk(input, fields[1..], optional, acc');
      assert forall i :: 1 <= i < |fields| ==> fields[i] == fields[1..][i - 1];
    }
  }

  /** On failure the error names the first field, in order, whose given value fails its check. */
  lemma {:induction false} DictFromFieldsFirstError(input: map<string, Value>, fields: seq<FieldSpec>, optional: seq<string>, acc: map<string, Value>)
    decreases |fields|
    ensures var r := DictFromFields(input, fields, optional, acc);
      r.Err? ==> (exists i ::
                   0 <= i < |fields| && !FieldAccepted(input, fields[i]) && r.error == FieldError(fields[i].name) &&
                   forall j :: 0 <= j < i ==> FieldAccepted(input, fields[j]))
  {
    if fields != [] {
      var f := fields[0];
      var tail := fields[1..];
      var acc' := if f.name in input then acc[f.name := input[f.name]] else if f.name in optional then acc[f.name := FieldDefault(f)] else acc;
      var r := DictFromFields(input, fields, optional, acc);
      if f.name in input {
        assert RequireField(acc', f.name, f.typ) == RequireField(input, f.name, f.typ);
      }
      if f.name in input && RequireField(input, f.name, f.typ).Err? {
        assert !FieldAccepted(input, fields[0]);
      } else {
        assert r == DictFromFields(input, tail, optional, acc');
        DictFromFieldsFirstError(input, tail, optional, acc');
        if r.Err? {
          var k :| 0 <= k < |tail| && !FieldAccepted(input, tail[k]) && r.error == FieldError(tail[k].name)
                   && forall j :: 0 <= j < k ==> FieldAccepted(input, tail[j]);
          assert fields[k + 1] == tail[k];
          assert forall j :: 1 <= j < k + 1 ==> fields[j] == tail[j - 1];
        }
      }
    }
  }

  /** A built dictionary holds the accumulated keys and the names of the given or optional fields, and nothing else. */
  lemma {:induction false} DictFromFieldsKeys(input: map<string, Value>, fields: seq<FieldSpec>, optional: seq<string>, acc: map<string, Value>)
    decreases |fields|
    ensures var r := DictFromFields(input, fields, optional, acc);
      r.Ok? ==> forall k :: k in r.value <==> (k in acc || exists i :: 0 <= i < |fields| && fields[i].name == k && (k in input || k in optional))
  {
    if fields != [] {
      var f := fields[0];
      var acc' := if f.name in input then acc[f.name := input[f.name]] else if f.name in optional then acc[f.name := FieldDefault(f)] else acc;
      DictFromFieldsKeys(input, fields[1..], optional, acc');
      assert forall i :: 1 <= i < |fields| ==> fields[i] == fields[1..][i - 1];
      var r := DictFromFields(input, fields, optional, acc);
      if r.Ok? {
        assert r == DictFromFields(input, fields[1..], optional, acc');
        forall k | k in r.value
          ensures k in acc || exists i :: 0 <= i < |fields| && fields[i].name == k && (k in input || k in optional)
        {
          if k in acc' && k !in acc {
            assert fields[0].name == k;
          } else if k !in acc' {
            var i :| 0 <= i < |fields[1..]| && fields[1..][i].name == k && (k in input || k in optional);
            assert fields[i + 1].name == k;
          }
        }
      }
    }
  }

  /** Whatever the field names, a built dictionary maps each given field to its given value. */
  lemma {:induction false} DictFromFieldsGiven(input: map<string, Value>, fields: seq<FieldSpec>, optional: seq<string>, acc: map<string, Value>)
    decreases |fields|
    ensures var r := DictFromFields(input, fields, optional, acc);
      r.Ok? ==> forall k :: ((k in acc && k in input && acc[k] == input[k]) || exists i :: 0 <= i < |fields| && fields[i].name == k && k in input) ==>
        k in r.value && r.value[k] == input[k]
  {
    if fields != [] {
      var f := fields[0];
      var tail := fields[1..];
      var acc' := if f.name in input then acc[f.name := input[f.name]] else if f.name in optional then acc[f.name := FieldDefault(f)] else acc;
      var r := DictFromFields(input, fields, optional, acc);
      if r.Ok? {
        assert r == DictFromFields(input, tail, optional, acc');
        DictFromFieldsGiven(input, tail, optional, acc');
        forall k | (k in acc && k in input && acc[k] == input[k]) || exists i :: 0 <= i < |fields| && fields[i].name == k && k in input
          ensures k in r.value && r.value[k] == input[k]
        {
          if k in acc && k in input && acc[k] == input[k] {
            assert k in acc' && acc'[k] == input[k];
          } else {
            var i :| 0 <= i < |fields| && fields[i].name == k && k in input;
            if i == 0 {
              assert k in acc' && acc'[k] == input[k];
            } else {
              assert tail[i - 1].name == k;
            }
          }
        }
      }
    }
  }

  /**
   * With distinct field names, a built dictionary maps each given field to its given value, each
   * absent optional field to its default, and keeps every accumulated key no field names.
   */
  lemma {:induction false} DictFromFieldsValues(input: map<string, Value>, fields: seq<FieldSpec>, optional: seq<string>, acc: map<string, Value>)
    requires forall i, j :: 0 <= i < j < |fields| ==> fields[i].name != fields[j].name
    decreases |fields|
    ensures var r := DictFromFields(input, fields, optional, acc);
      r.Ok? ==> forall i :: 0 <= i < |fields| ==>
        (fields[i].name in input ==> fields[i].name in r.value && r.value[fields[i].name] == input[fields[i].name]) &&
        (fields[i].name !in input && fields[i].name in optional ==> fields[i].name in r.value && r.value[fields[i].name] == FieldDefault(fields[i]))
    ensures var r := DictFromFields(input, fields, optional, acc);
      r.Ok? ==> forall k :: k in acc && (forall i :: 0 <= i < |fields| ==> fields[i].name != k) ==> k in r.value && r.value[k] == acc[k]
  {
    if fields != [] {
      var f := fields[0];
      var tail := fields[1..];
      var acc' := if f.name in input then acc[f.name := input[f.name]] else if f.name in optional then acc[f.name := FieldDefault(f)] else acc;
      var r := DictFromFields(input, fields, optional, acc);
      assert forall i :: 1 <= i < |fields| ==> fields[i] == tail[i - 1];
      if r.Ok? {
        assert r == DictFromFields(input, tail, optional, acc');
        DictFromFieldsValues(input, tail, optional, acc');
        assert forall i :: 0 <= i < |tail| ==> tail[i].name != f.name;
      }
    }
  }

  /** `create_dict_from_fields`: the loop over the fields, in order, from an empty dictionary. */
  method CreateDictFromFields(input: map<string, Value>, fields: seq<FieldSpec>, optional: seq<string>) returns (r: Result<map<string, Value>, ObjectsError>)
    ensures r == DictFromFields(input, fields, optional, map[])
  {
    var output: map<string, Value> := map[];
    for i := 0 to |fields|
      invariant DictFromFields(input, fields[i..], optional, output) == DictFromFields(input, fields, optional, map[])
    {
      assert fields[i..][1..] == fields[i + 1..];
      var f := fields[i];
      if f.name in input {
        var status;
        output, status := AddValueToDict(output, f, input[f.name]);
        if status.Fail? {
          return Err(status.error);
        }
      } else if f.name in optional {
        output := output[f.name := FieldDefault(f)];
      }
    }
    assert fields[|fields|..] == [];
    return Ok(output);
  }

  /** With the optional names `check_required_keys` returns, an absent optional field always has a default or a factory. */
  lemma OptionalFieldsHaveDefaults(fields: seq<FieldSpec>, f: FieldSpec)
    requires f in fields && f.name in OptionalNames(fields)
    requires forall i, j :: 0 <= i < j < |fields| ==> fields[i].name != fields[j].name
    ensures f.default.Some? || f.factory.Some?
  {
    OptionalNamesSpec(fields);
  }

  /** `convert_str_to_enum(s, enum)`: the member named `s` (by name, not by value), else `ValueError`. */
  function ConvertStrToEnum<E>(s: string, members: map<string, E>): (r: Result<E, ObjectsError>)
    ensures r.Ok? <==> s in members
    ensures r.Ok? ==> r.value == members[s]
  {
    if s in members then Ok(members[s]) else Err(FieldError(s))
  }
}
