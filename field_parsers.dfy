/**
 * The payload field parsers of `web/parsers/helpers.py`. Each parser reads one key of a
 * request dictionary and, when the value is absent or unusable, appends that key to the
 * caller's `missing` list, which every parser of one payload shares.
 *
 * Python's `int(str)` and `float(str)` conversions are parameters (`IntOfStr`, `FloatOfStr`):
 * `None` stands for the `ValueError` they raise.
 */
module FieldParsers {
  import opened Wrappers
  import opened Values

  type StrConversion<T> = string -> Option<T>

  /** What a field parser returns, and whether it appended its key to `missing`. */
  datatype Parsed<T> = Parsed(value: Option<T>, recorded: bool)

  /** `data.get(key)`: the value, or `None` when the key is absent. */
  function Get(data: map<string, Value>, key: string): Value
  {
    if key in data then data[key] else Null
  }

  /** The list after a parser that may append `key`. */
  function Record(missing: seq<string>, key: string, recorded: bool): seq<string>
  {
    if recorded then missing + [key] else missing
  }

  /**
   * `parse_bool_field_from_dict`: a boolean is returned as is; an absent or `None` value of an
   * optional field gives `None` without a record; anything else is recorded.
   */
  function BoolField(data: map<string, Value>, key: string, optional: bool): (r: Parsed<bool>)
    ensures r.value.Some? <==> key in data && data[key].Bool?
    ensures r.value.Some? ==> r.value.value == data[key].b
    ensures !r.recorded <==> r.value.Some? || (optional && (key !in data || data[key].Null?))
  {
    var v := Get(data, key);
    if v.Bool? then Parsed(Some(v.b), false)
    else if v.Null? && optional then Parsed(None, false)
    else Parsed(None, true)
  }

  /** `parse_str_field_from_dict`: the same shape as the boolean parser, for strings. */
  function StrField(data: map<string, Value>, key: string, optional: bool): (r: Parsed<string>)
    ensures r.value.Some? <==> key in data && data[key].Str?
    ensures r.value.Some? ==> r.value.value == data[key].s
    ensures !r.recorded <==> r.value.Some? || (optional && (key !in data || data[key].Null?))
  {
    var v := Get(data, key);
    if v.Str? then Parsed(Some(v.s), false)
    else if v.Null? && optional then Parsed(None, false)
    else Parsed(None, true)
  }

  /** `int(v)` for a value that is a Python `int` (a `bool` included) or a `str`. */
  function IntOf(v: Value, intOfStr: StrConversion<int>): Option<int>
  {
    match v
    case Int(i) => Some(i)
    case Bool(b) => Some(if b then 1 else 0)
    case Str(s) => intOfStr(s)
    case _ => None
  }

  /**
   * `parse_int_field_from_dict`: it indexes `data[key]`, so an absent key raises `KeyError` and
   * is recorded even for an optional field; an `int`, `bool` or convertible `str` is converted;
   * an explicit `None` of an optional field gives `None` without a record.
   */
  function IntField(data: map<string, Value>, key: string, optional: bool, intOfStr: StrConversion<int>): (r: Parsed<int>)
    ensures key !in data ==> r == Parsed(None, true)
    ensures r.value.Some? <==> key in data && IntOf(data[key], intOfStr).Some?
    ensures r.value.Some? ==> r.value == IntOf(data[key], intOfStr)
    ensures !r.recorded <==> r.value.Some? || (optional && key in data && data[key].Null?)
  {
    if key !in data then Parsed(None, true)
    else
      var v := data[key];
      var converted := IntOf(v, intOfStr);
      if converted.Some? then Parsed(converted, false)
      else if v.Null? && optional then Parsed(None, false)
      else Parsed(None, true)
  }

  /** `float(v)` for a value that is a Python `float`, `int` (a `bool` included) or `str`. */
  function FloatOf(v: Value, floatOfStr: StrConversion<real>): Option<real>
  {
    match v
    case Float(r) => Some(r)
    case Int(i) => Some(i as real)
    case Bool(b) => Some(if b then 1.0 else 0.0)
    case Str(s) => floatOfStr(s)
    case _ => None
  }

  /** `parse_float_field_from_dict`: the integer parser's shape, also accepting floats. */
  function FloatField(data: map<string, Value>, key: string, optional: bool, floatOfStr: StrConversion<real>): (r: Parsed<real>)
    ensures key !in data ==> r == Parsed(None, true)
    ensures r.value.Some? <==> key in data && FloatOf(data[key], floatOfStr).Some?
    ensures r.value.Some? ==> r.value == FloatOf(data[key], floatOfStr)
    ensures !r.recorded <==> r.value.Some? || (optional && key in data && data[key].Null?)
  {
    if key !in data then Parsed(None, true)
    else
      var v := data[key];
      var converted := FloatOf(v, floatOfStr);
      if converted.Some? then Parsed(converted, false)
      else if v.Null? && optional then Parsed(None, false)
      else Parsed(None, true)
  }

  /** A required field parses cleanly exactly when it yields a value. */
  lemma RequiredFieldRecordedIffNoValue(data: map<string, Value>, key: string, intOfStr: StrConversion<int>, floatOfStr: StrConversion<real>)
    ensures BoolField(data, key, false).recorded <==> BoolField(data, key, false).value.None?
    ensures StrField(data, key, false).recorded <==> StrField(data, key, false).value.None?
    ensures IntField(data, key, false, intOfStr).recorded <==> IntField(data, key, false, intOfStr).value.None?
    ensures FloatField(data, key, false, floatOfStr).recorded <==> FloatField(data, key, false, floatOfStr).value.None?
  {
  }

  /**
   * The optional forms differ on an absent key: the boolean and string parsers accept it, the
   * integer and float parsers record it.
   */
  lemma AbsentOptionalField(data: map<string, Value>, key: string, intOfStr: StrConversion<int>, floatOfStr: StrConversion<real>)
    requires key !in data
    ensures BoolField(data, key, true) == Parsed(None, false)
    ensures StrField(data, key, true) == Parsed(None, false)
    ensures IntField(data, key, true, intOfStr) == Parsed(None, true)
    ensures FloatField(data, key, true, floatOfStr) == Parsed(None, true)
  {
  }

  /** What a string field with an enum conversion leaves: the member value, and the keys it appended. */
  datatype EnumParsed = EnumParsed(value: Option<string>, appended: seq<string>)

  /**
   * A string field whose value is then converted with `Enum(value)`: the key is appended once,
   * by the string parser or by a failed conversion, never by both.
   */
  function EnumField(data: map<string, Value>, key: string, optional: bool, values: set<string>): (r: EnumParsed)
    ensures r.appended == [] || r.appended == [key]
    ensures r.value.Some? <==> key in data && data[key].Str? && data[key].s in values
    ensures r.value.Some? ==> r.value.value == data[key].s
    ensures r.appended == [] <==> r.value.Some? || (optional && (key !in data || data[key].Null?))
  {
    var s := StrField(data, key, optional);
    if s.recorded then EnumParsed(None, [key])
    else if s.value.Some? && s.value.value !in values then EnumParsed(None, [key])
    else EnumParsed(s.value, [])
  }

  /** How a payload field is parsed: as a string, an integer, or a string converted to an enum with the given values. */
  datatype FieldKind = StrKind | IntKind | EnumKind(values: set<string>)

  /** One field of a payload parser, in parse order. */
  datatype PayloadField = PayloadField(key: string, kind: FieldKind, optional: bool)

  /** Whether parsing a field appends its key to `missing`. */
  predicate Fails(d: map<string, Value>, f: PayloadField, intOfStr: StrConversion<int>)
  {
    match f.kind
    case StrKind => StrField(d, f.key, f.optional).recorded
    case IntKind => IntField(d, f.key, f.optional, intOfStr).recorded
    case EnumKind(values) => EnumField(d, f.key, f.optional, values).appended != []
  }

  /** The keys of the failing fields, in parse order. */
  function FailingKeys(d: map<string, Value>, fields: seq<PayloadField>, intOfStr: StrConversion<int>): (r: seq<string>)
    ensures |r| <= |fields|
  {
    if fields == [] then []
    else (if Fails(d, fields[0], intOfStr) then [fields[0].key] else []) + FailingKeys(d, fields[1..], intOfStr)
  }

  /** The failing keys are exactly the keys of the fields that fail; there are none exactly when no field fails. */
  lemma {:induction false} FailingKeysMembers(d: map<string, Value>, fields: seq<PayloadField>, intOfStr: StrConversion<int>)
    ensures forall k :: k in FailingKeys(d, fields, intOfStr) <==>
      exists i :: 0 <= i < |fields| && fields[i].key == k && Fails(d, fields[i], intOfStr)
    ensures FailingKeys(d, fields, intOfStr) == [] <==> forall i :: 0 <= i < |fields| ==> !Fails(d, fields[i], intOfStr)
  {
    if fields != [] {
      FailingKeysMembers(d, fields[1..], intOfStr);
      assert forall i :: 1 <= i < |fields| ==> fields[i] == fields[1..][i - 1];
      forall k | k in FailingKeys(d, fields, intOfStr)
        ensures exists i :: 0 <= i < |fields| && fields[i].key == k && Fails(d, fields[i], intOfStr)
      {
        if !(Fails(d, fields[0], intOfStr) && k == fields[0].key) {
          var j :| 0 <= j < |fields[1..]| && fields[1..][j].key == k && Fails(d, fields[1..][j], intOfStr);
          assert fields[j + 1] == fields[1..][j];
        }
      }
    }
  }

  /** Parsing one more field extends the failing keys by that field's key exactly when it fails. */
  lemma {:induction false} FailingKeysSnoc(d: map<string, Value>, fields: seq<PayloadField>, f: PayloadField, intOfStr: StrConversion<int>)
    ensures FailingKeys(d, fields + [f], intOfStr) ==
      FailingKeys(d, fields, intOfStr) + (if Fails(d, f, intOfStr) then [f.key] else [])
  {
    if fields != [] {
      assert (fields + [f])[1..] == fields[1..] + [f];
      FailingKeysSnoc(d, fields[1..], f, intOfStr);
    }
  }

  /**
   * The caller's shared `missing` list. The ghost `parsed` lists the string, integer and enum
   * fields parsed so far; `missing` holds the keys of those that failed, in order.
   */
  class MissingList {
    var keys: seq<string>
    ghost var parsed: seq<PayloadField>

    constructor()
      ensures keys == [] && parsed == []
    {
      keys := [];
      parsed := [];
    }

    /** `missing.append(key)`. */
    method Append(key: string)
      modifies this
      ensures keys == old(keys) + [key] && parsed == old(parsed)
    {
      keys := keys + [key];
    }

    method ParseBool(data: map<string, Value>, key: string, optional: bool) returns (v: Option<bool>)
      modifies this
      ensures v == BoolField(data, key, optional).value
      ensures keys == Record(old(keys), key, BoolField(data, key, optional).recorded)
      ensures parsed == old(parsed)
    {
      var value := Get(data, key);
      if value.Bool? {
        return Some(value.b);
      } else if value.Null? && optional {
        return None;
      }
      keys := keys + [key];
      return None;
    }

    method ParseStr(data: map<string, Value>, key: string, optional: bool, ghost intOfStr: StrConversion<int>) returns (v: Option<string>)
      requires keys == FailingKeys(data, parsed, intOfStr)
      modifies this
      ensures v == StrField(data, key, optional).value
      ensures keys == Record(old(keys), key, StrField(data, key, optional).recorded)
      ensures parsed == old(parsed) + [PayloadField(key, StrKind, optional)]
      ensures keys == FailingKeys(data, parsed, intOfStr)
    {
      FailingKeysSnoc(data, parsed, PayloadField(key, StrKind, optional), intOfStr);
      parsed := parsed + [PayloadField(key, StrKind, optional)];
      var value := Get(data, key);
      if value.Str? {
        return Some(value.s);
      } else if value.Null? && optional {
        return None;
      }
      keys := keys + [key];
      return None;
    }

    /**
     * A string field followed by `Enum(value)`: the string parser records a missing or
     * mistyped value, and a parsed string that is not one of `values` is replaced by `None`
     * and its key appended.
     */
    method ParseEnum(data: map<string, Value>, key: string, optional: bool, values: set<string>, ghost intOfStr: StrConversion<int>)
      returns (v: Option<string>)
      requires keys == FailingKeys(data, parsed, intOfStr)
      modifies this
      ensures v == EnumField(data, key, optional, values).value
      ensures keys == old(keys) + EnumField(data, key, optional, values).appended
      ensures parsed == old(parsed) + [PayloadField(key, EnumKind(values), optional)]
      ensures keys == FailingKeys(data, parsed, intOfStr)
    {
      FailingKeysSnoc(data, parsed, PayloadField(key, EnumKind(values), optional), intOfStr);
      parsed := parsed + [PayloadField(key, EnumKind(values), optional)];
      var s := StrField(data, key, optional);
      v := s.value;
      if s.recorded {
        keys := keys + [key];
      } else if v.Some? && v.value !in values {
        v := None;
        keys := keys + [key];
      }
    }

    method ParseInt(data: map<string, Value>, key: string, optional: bool, intOfStr: StrConversion<int>) returns (v: Option<int>)
      requires keys == FailingKeys(data, parsed, intOfStr)
      modifies this
      ensures v == IntField(data, key, optional, intOfStr).value
      ensures keys == Record(old(keys), key, IntField(data, key, optional, intOfStr).recorded)
      ensures parsed == old(parsed) + [PayloadField(key, IntKind, optional)]
      ensures keys == FailingKeys(data, parsed, intOfStr)
    {
      FailingKeysSnoc(data, parsed, PayloadField(key, IntKind, optional), intOfStr);
      parsed := parsed + [PayloadField(key, IntKind, optional)];
      if key !in data {
        keys := keys + [key];
        return None;
      }
      var value := data[key];
      var converted := IntOf(value, intOfStr);
      if converted.Some? {
        return converted;
      } else if value.Null? && optional {
        return None;
      }
      keys := keys + [key];
      return None;
    }

    method ParseFloat(data: map<string, Value>, key: string, optional: bool, floatOfStr: StrConversion<real>) returns (v: Option<real>)
      modifies this
      ensures v == FloatField(data, key, optional, floatOfStr).value
      ensures keys == Record(old(keys), key, FloatField(data, key, optional, floatOfStr).recorded)
      ensures parsed == old(parsed)
    {
      if key !in data {
        keys := keys + [key];
        return None;
      }
      var value := data[key];
      var converted := FloatOf(value, floatOfStr);
      if converted.Some? {
        return converted;
      } else if value.Null? && optional {
        return None;
      }
      keys := keys + [key];
      return None;
    }
  }
}
