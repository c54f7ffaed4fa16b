/**
 * `QueryVariableLogs` (model/db.py): an InfluxQL query over one measurement, and `render`,
 * which writes its clauses in a fixed order and joins them with single spaces.
 */
module DbQuery {
  import opened Wrappers
  import opened Strings

  /** The dataclass: the measurement, the selected fields, WHERE conditions, GROUP BY keys, FILL and tz. */
  datatype QueryVariableLogs = QueryVariableLogs(
    variable: string,
    fields: seq<string>,
    where: seq<string>,
    groupBy: seq<string>,
    fill: Option<string>,
    timezone: Option<string>)

  /** One clause of a rendered query. */
  datatype Clause =
    | Select(fields: seq<string>)
    | From(variable: string)
    | Where(conditions: seq<string>)
    | GroupBy(keys: seq<string>)
    | Fill(value: string)
    | Tz(zone: string)

  /** The position of a clause kind in an InfluxQL query. */
  function Rank(c: Clause): nat
  {
    match c
    case Select(_) => 0
    case From(_) => 1
    case Where(_) => 2
    case GroupBy(_) => 3
    case Fill(_) => 4
    case Tz(_) => 5
  }

  /** The text of a clause: `*` when no field is selected, the measurement double-quoted. */
  function ClauseText(c: Clause): string
  {
    match c
    case Select(fields) => "SELECT " + (if fields == [] then "*" else Join(fields, ", "))
    case From(variable) => "FROM \"" + variable + "\""
    case Where(conditions) => "WHERE " + Join(conditions, " AND ")
    case GroupBy(keys) => "GROUP BY " + Join(keys, ", ")
    case Fill(value) => "FILL(" + value + ")"
    case Tz(zone) => "tz('" + zone + "')"
  }

  function Texts(cs: seq<Clause>): (r: seq<string>)
    ensures |r| == |cs| && forall i :: 0 <= i < |cs| ==> r[i] == ClauseText(cs[i])
  {
    if cs == [] then [] else [ClauseText(cs[0])] + Texts(cs[1..])
  }

  /** The clauses a query renders: SELECT and FROM always, each optional clause when set. */
  function Clauses(q: QueryVariableLogs): seq<Clause>
  {
    [Select(q.fields), From(q.variable)] + WhereClause(q) + GroupByClause(q) + FillClause(q) + TzClause(q)
  }

  function WhereClause(q: QueryVariableLogs): seq<Clause>
  {
    if q.where != [] then [Where(q.where)] else []
  }

  function GroupByClause(q: QueryVariableLogs): seq<Clause>
  {
    if q.groupBy != [] then [GroupBy(q.groupBy)] else []
  }

  function FillClause(q: QueryVariableLogs): seq<Clause>
  {
    match q.fill
    case Some(x) => [Fill(x)]
    case None => []
  }

  function TzClause(q: QueryVariableLogs): seq<Clause>
  {
    match q.timezone
    case Some(z) => [Tz(z)]
    case None => []
  }

  lemma {:induction false} TextsAppend(cs: seq<Clause>, more: seq<Clause>)
    ensures Texts(cs + more) == Texts(cs) + Texts(more)
  {
    if cs != [] {
      assert (cs + more)[1..] == cs[1..] + more;
      TextsAppend(cs[1..], more);
    } else {
      assert cs + more == more;
    }
  }

  /** `render`: the clause strings appended to a list in order, then joined by single spaces. */
  method Render(query: QueryVariableLogs) returns (text: string)
    ensures text == Join(Texts(Clauses(query)), " ")
  {
    var select := if query.fields != [] then Join(query.fields, ", ") else "*";
    var q := ["SELECT " + select, "FROM \"" + query.variable + "\""];
    ghost var clauses := [Select(query.fields), From(query.variable)];
    assert q == Texts(clauses);
    if query.where != [] {
      q := q + ["WHERE " + Join(query.where, " AND ")];
      assert WhereClause(query) == [Where(query.where)];
    }
    TextsAppend(clauses, WhereClause(query));
    clauses := clauses + WhereClause(query);
    assert q == Texts(clauses);
    if query.groupBy != [] {
      q := q + ["GROUP BY " + Join(query.groupBy, ", ")];
      assert GroupByClause(query) == [GroupBy(query.groupBy)];
    }
    TextsAppend(clauses, GroupByClause(query));
    clauses := clauses + GroupByClause(query);
    assert q == Texts(clauses);
    if query.fill.Some? {
      q := q + ["FILL(" + query.fill.value + ")"];
      assert FillClause(query) == [Fill(query.fill.value)];
    }
    TextsAppend(clauses, FillClause(query));
    clauses := clauses + FillClause(query);
    assert q == Texts(clauses);
    if query.timezone.Some? {
      q := q + ["tz('" + query.timezone.value + "')"];
      assert TzClause(query) == [Tz(query.timezone.value)];
    }
    TextsAppend(clauses, TzClause(query));
    clauses := clauses + TzClause(query);
    assert q == Texts(clauses);
    assert clauses == Clauses(query);
    text := Join(q, " ");
  }

  /** The clauses come in the fixed order SELECT, FROM, WHERE, GROUP BY, FILL, tz, each at most once. */
  lemma ClausesOrdered(q: QueryVariableLogs)
    ensures var cs := Clauses(q);
      2 <= |cs| <= 6 && forall i, j :: 0 <= i < j < |cs| ==> Rank(cs[i]) < Rank(cs[j])
  {
  }

  /** The query starts with SELECT of its fields and FROM its measurement, and has no other SELECT or FROM. */
  lemma ClausesMandatory(q: QueryVariableLogs)
    ensures var cs := Clauses(q);
      && cs[0] == Select(q.fields) && cs[1] == From(q.variable)
      && (forall f :: Select(f) in cs <==> f == q.fields)
      && (forall v :: From(v) in cs <==> v == q.variable)
  {
  }

  /** A WHERE or GROUP BY clause is present exactly when its list is non-empty, and carries that list. */
  lemma ClausesOptionalLists(q: QueryVariableLogs)
    ensures var cs := Clauses(q);
      && (forall w :: Where(w) in cs <==> q.where != [] && w == q.where)
      && (forall g :: GroupBy(g) in cs <==> q.groupBy != [] && g == q.groupBy)
  {
  }

  /** A FILL or tz clause is present exactly when its value is set, and carries that value. */
  lemma ClausesOptionalValues(q: QueryVariableLogs)
    ensures var cs := Clauses(q);
      && (forall x :: Fill(x) in cs <==> q.fill == Some(x))
      && (forall z :: Tz(z) in cs <==> q.timezone == Some(z))
  {
  }

  /** `" ".join` of several strings: the first, a space, then the join of the rest. */
  lemma {:induction false} JoinAppend(a: seq<string>, b: seq<string>, sep: string)
    requires a != [] && b != []
    ensures Join(a + b, sep) == Join(a, sep) + sep + Join(b, sep)
  {
    if |a| == 1 {
      assert (a + b)[1..] == b;
    } else {
      assert (a + b)[1..] == a[1..] + b;
      JoinAppend(a[1..], b, sep);
    }
  }

  /**
   * The rendered text begins with `SELECT <fields or *> FROM "<variable>"`, and an optional
   * clause adds its text after one more space.
   */
  lemma RenderPrefix(q: QueryVariableLogs)
    ensures var text := Join(Texts(Clauses(q)), " ");
      var head := ClauseText(Select(q.fields)) + " " + ClauseText(From(q.variable));
      && StartsWith(text, head)
      && (Clauses(q) == [Select(q.fields), From(q.variable)] ==> text == head)
  {
    var cs := Clauses(q);
    var head2 := [Select(q.fields), From(q.variable)];
    assert cs == head2 + cs[2..];
    assert Texts(head2) == [ClauseText(Select(q.fields)), ClauseText(From(q.variable))];
    var ts := Texts(cs);
    assert ts == Texts(head2) + ts[2..];
    assert Join(Texts(head2), " ") == ClauseText(Select(q.fields)) + " " + ClauseText(From(q.variable));
    if ts[2..] != [] {
      JoinAppend(Texts(head2), ts[2..], " ");
    } else {
      assert ts == Texts(head2);
    }
  }

  /** Only the two mandatory clauses when nothing optional is set. */
  lemma MinimalQuery(variable: string, fields: seq<string>)
    ensures Clauses(QueryVariableLogs(variable, fields, [], [], None, None)) == [Select(fields), From(variable)]
  {
  }
}
