/** The backend's database service (backend/src/services/database_service.py)
    as far as it is decided in Python: the text and the positional
    parameters of the source search, the dictionary made of a row, and the
    values an insert sends. PostgreSQL itself (ILIKE, AND/OR precedence,
    ordering) is the `Connection` oracle. */
module Database {
  import opened Wrappers
  import opened Text
  import opened Json

  /** A positional parameter: a LIKE pattern the service built, or a value
      passed on as given. */
  datatype Param = Like(pattern: string) | Value(v: Json)

  /** A row of the sources table; `createdAt` is the timestamp already in
      ISO form, `None` for null. */
  datatype Row = Row(
    id: int, title: Json, authors: Json, abstractText: Json, url: Json,
    year: Json, field: Json, kind: Json, createdAt: Option<string>)

  /** The dictionary the service hands back for a row. */
  datatype Source = Source(
    id: int, title: Json, authors: Json, abstractText: Json, url: Json,
    year: Json, field: Json, kind: Json, createdAt: Option<string>)

  /** The database as the service sees it. `createTable` is the error
      creating the table raises, if any. */
  datatype Connection = Connection(
    createTable: Option<string>,
    fetch: (string, seq<Param>) -> Result<seq<Row>>,
    fetchRow: int -> Result<Option<Row>>,
    insert: seq<Json> -> Result<int>)

  const Select := "\n                SELECT id, title, authors, abstract, url, year, field, type, created_at\n                FROM sources\n                WHERE title ILIKE $1 OR abstract ILIKE $1\n            "
  const Order := " ORDER BY created_at DESC"

  /** `f'%{text}%'`. */
  function Wrap(text: string): string {
    "%" + text + "%"
  }

  /** `$k`. */
  function Placeholder(k: nat): string {
    "$" + NatToString(k)
  }

  // ------------------------------------------------------------ the search

  /** A filter that is in force: the column, its comparison, and the
      parameter it binds. */
  datatype Filter = Filter(column: string, op: string, param: Param)

  /** `filters.get(k)` when it is truthy. */
  function Given(filters: seq<(string, Json)>, k: string): Option<Json> {
    match Get(filters, k)
    case Some(v) => if Truthy(v) then Some(v) else None
    case None => None
  }

  /** The filter a truthy member `k` puts in force, if any. */
  function Part(filters: seq<(string, Json)>, k: string, repr: Json -> string): (r: seq<Filter>)
    ensures |r| == if Given(filters, k).Some? then 1 else 0
  {
    match Given(filters, k)
    case None => []
    case Some(v) =>
      if k == "year" then [Filter("year", " = ", Value(v))]
      else [Filter(k, " ILIKE ", Like(Wrap(Show(v, repr))))]
  }

  /** The filters in force, in the order year, field, type: a year binds its
      value, a field or a type binds a pattern around its text. */
  function Active(filters: seq<(string, Json)>, repr: Json -> string): (r: seq<Filter>)
    ensures |r| <= 3
    ensures |r| == (if Given(filters, "year").Some? then 1 else 0)
      + (if Given(filters, "field").Some? then 1 else 0) + (if Given(filters, "type").Some? then 1 else 0)
  {
    Part(filters, "year", repr) + Part(filters, "field", repr) + Part(filters, "type", repr)
  }

  /** The clauses of `fs`, the first naming placeholder `start`, each next
      one the number after. */
  function Clauses(fs: seq<Filter>, start: nat): string {
    if |fs| == 0 then ""
    else " AND " + fs[0].column + fs[0].op + Placeholder(start) + Clauses(fs[1..], start + 1)
  }

  function Params(fs: seq<Filter>): (r: seq<Param>)
    ensures |r| == |fs| && forall i :: 0 <= i < |fs| ==> r[i] == fs[i].param
  {
    seq(|fs|, i requires 0 <= i < |fs| => fs[i].param)
  }

  /** Appends one filter's clause as the source does: the clause names the
      parameter it is about to append. */
  function AddFilter(sql: string, params: seq<Param>, f: Filter): (string, seq<Param>) {
    (sql + " AND " + f.column + f.op + Placeholder(|params| + 1), params + [f.param])
  }

  /** The year clause, whose placeholder is written as the literal `$2`. */
  function AddYear(sql: string, params: seq<Param>, v: Json): (string, seq<Param>) {
    (sql + " AND year = $2", params + [Value(v)])
  }

  /** Adds the clause for member `k` if it is truthy, as the source does. */
  function AddMember(acc: (string, seq<Param>), filters: seq<(string, Json)>, k: string, repr: Json -> string): (string, seq<Param>) {
    match Given(filters, k)
    case None => acc
    case Some(v) =>
      if k == "year" then AddYear(acc.0, acc.1, v)
      else AddFilter(acc.0, acc.1, Filter(k, " ILIKE ", Like(Wrap(Show(v, repr)))))
  }

  /** The text and parameters for the filters `fs`, numbered from `$2`. */
  function Built(query: string, fs: seq<Filter>): (string, seq<Param>) {
    (Select + Clauses(fs, 2), [Like(Wrap(query))] + Params(fs))
  }

  /** `search_sources` up to the fetch: the SQL text and its parameters.
      Whatever filters are in force, the i-th clause names `$(i+2)` and the
      parameter at that position is the one it compares with; the first
      parameter is the pattern around the query, used by both `$1`s; the
      text always ends with the ordering. */
  function SearchQuery(query: string, filters: seq<(string, Json)>, repr: Json -> string): (r: (string, seq<Param>))
    ensures r.0 == Select + Clauses(Active(filters, repr), 2) + Order
    ensures r.1 == [Like(Wrap(query))] + Params(Active(filters, repr))
    ensures 1 <= |r.1| <= 4 && r.1[0] == Like(Wrap(query))
    ensures EndsWith(r.0, Order)
  {
    var y := Part(filters, "year", repr);
    var f := Part(filters, "field", repr);
    var t := Part(filters, "type", repr);
    var afterYear := AddMember((Select, [Like(Wrap(query))]), filters, "year", repr);
    var afterField := AddMember(afterYear, filters, "field", repr);
    var afterType := AddMember(afterField, filters, "type", repr);
    var none: seq<Filter> := [];
    assert Select + Clauses(none, 2) == Select;
    assert [Like(Wrap(query))] + Params(none) == [Like(Wrap(query))];
    assert Built(query, none) == (Select, [Like(Wrap(query))]);
    AddMemberBuilt(query, none, filters, "year", repr);
    assert none + y == y;
    assert Active(filters, repr) == y + f + t;
    AddMemberBuilt(query, y, filters, "field", repr);
    AddMemberBuilt(query, y + f, filters, "type", repr);
    assert afterType == Built(query, Active(filters, repr));
    var r := (afterType.0 + Order, afterType.1);
    assert r.0[|r.0| - |Order|..] == Order;
    r
  }

  /** One member's step keeps the text and parameters equal to those built
      from the filters so far, followed by its own. */
  lemma AddMemberBuilt(query: string, fs: seq<Filter>, filters: seq<(string, Json)>, k: string, repr: Json -> string)
    requires k == "year" ==> fs == []
    ensures AddMember(Built(query, fs), filters, k, repr) == Built(query, fs + Part(filters, k, repr))
  {
    var part := Part(filters, k, repr);
    var b := Built(query, fs);
    if |part| == 0 {
      assert fs + part == fs;
    } else {
      var f := part[0];
      assert part == [f];
      AddFilterBuilt(query, fs, f);
      if k == "year" {
        assert NatToString(2) == "2";
        assert |b.1| + 1 == 2;
        assert f == Filter("year", " = ", Value(Given(filters, k).value));
        assert " AND " + f.column + f.op + Placeholder(2) == " AND year = $2";
        assert b.0 + " AND " + f.column + f.op + Placeholder(2) == b.0 + (" AND " + f.column + f.op + Placeholder(2));
        assert AddYear(b.0, b.1, Given(filters, k).value) == AddFilter(b.0, b.1, f);
      }
    }
  }

  /** Appending a filter's clause and parameter numbers it after the ones
      already there. */
  lemma AddFilterBuilt(query: string, fs: seq<Filter>, f: Filter)
    ensures AddFilter(Built(query, fs).0, Built(query, fs).1, f) == Built(query, fs + [f])
  {
    var b := Built(query, fs);
    ClausesAppend(fs, f, 2);
    assert Params(fs + [f]) == Params(fs) + [f.param];
    assert |b.1| + 1 == 2 + |fs|;
    assert (Select + Clauses(fs, 2)) + " AND " + f.column + f.op + Placeholder(2 + |fs|)
      == Select + (Clauses(fs, 2) + " AND " + f.column + f.op + Placeholder(2 + |fs|));
    assert b.1 + [f.param] == [Like(Wrap(query))] + (Params(fs) + [f.param]);
  }

  lemma {:induction false} ClausesAppend(fs: seq<Filter>, f: Filter, start: nat)
    ensures Clauses(fs + [f], start) == Clauses(fs, start) + " AND " + f.column + f.op + Placeholder(start + |fs|)
    decreases |fs|
  {
    if |fs| > 0 {
      assert (fs + [f])[1..] == fs[1..] + [f];
      ClausesAppend(fs[1..], f, start + 1);
    }
  }

  /** `search_sources`: the row dictionaries in the order the database
      returns them; filters that are not a mapping have no `get`. */
  function SearchSources(conn: Connection, query: Json, filters: Json, repr: Json -> string): (r: Result<seq<Source>>)
    ensures !filters.JObj? ==> r.Err?
    ensures filters.JObj? ==> var q := SearchQuery(Show(query, repr), filters.fields, repr);
      (r.Ok? <==> conn.fetch(q.0, q.1).Ok?) &&
      (r.Ok? ==> (|r.value| == |conn.fetch(q.0, q.1).value|
         && forall i :: 0 <= i < |r.value| ==> r.value[i] == FromRow(conn.fetch(q.0, q.1).value[i])))
  {
    if !filters.JObj? then Err("AttributeError: object has no attribute 'get'")
    else
      var q := SearchQuery(Show(query, repr), filters.fields, repr);
      var rows :- conn.fetch(q.0, q.1);
      Ok(seq(|rows|, i requires 0 <= i < |rows| => FromRow(rows[i])))
  }

  // --------------------------------------------------------------- the rows

  /** The dictionary made of a row: a null or empty author list becomes
      `[]`, everything else is carried over. */
  function FromRow(row: Row): (s: Source)
    ensures s.id == row.id && s.title == row.title && s.abstractText == row.abstractText && s.url == row.url
    ensures s.year == row.year && s.field == row.field && s.kind == row.kind && s.createdAt == row.createdAt
    ensures Truthy(row.authors) ==> s.authors == row.authors
    ensures !Truthy(row.authors) ==> s.authors == JArr([])
  {
    Source(row.id, row.title, if Truthy(row.authors) then row.authors else JArr([]),
           row.abstractText, row.url, row.year, row.field, row.kind, row.createdAt)
  }

  /** `get_source_by_id`: `None` exactly when no row has the id. */
  function SourceById(conn: Connection, id: int): (r: Result<Option<Source>>)
    ensures r.Ok? <==> conn.fetchRow(id).Ok?
    ensures r.Ok? ==> (r.value.None? <==> conn.fetchRow(id).value.None?)
    ensures r.Ok? && r.value.Some? ==> r.value.value == FromRow(conn.fetchRow(id).value.value)
  {
    var row :- conn.fetchRow(id);
    match row
    case None => Ok(None)
    case Some(x) => Ok(Some(FromRow(x)))
  }

  /** The columns an insert fills, in order. */
  const Columns := ["title", "authors", "abstract", "url", "year", "field", "type"]

  /** The values `insert_source` sends for a source dictionary: each
      column's member, null when missing, and `[]` for missing authors. */
  function InsertValues(source: seq<(string, Json)>): (r: seq<Json>)
    ensures |r| == |Columns|
    ensures forall i :: 0 <= i < |Columns| && i != 1 ==> r[i] == Get(source, Columns[i]).GetOr(JNull)
    ensures r[1] == Get(source, "authors").GetOr(JArr([]))
  {
    seq(|Columns|, i requires 0 <= i < |Columns| =>
      Get(source, Columns[i]).GetOr(if i == 1 then JArr([]) else JNull))
  }

  /** `insert_source`: the new row's id, as the database returns it for the
      seven column values $1..$7. */
  function InsertSource(conn: Connection, source: seq<(string, Json)>): (r: Result<int>)
    ensures r == conn.insert([Get(source, "title").GetOr(JNull), Get(source, "authors").GetOr(JArr([])),
                              Get(source, "abstract").GetOr(JNull), Get(source, "url").GetOr(JNull),
                              Get(source, "year").GetOr(JNull), Get(source, "field").GetOr(JNull),
                              Get(source, "type").GetOr(JNull)])
  {
    var v := InsertValues(source);
    assert v == [v[0], v[1], v[2], v[3], v[4], v[5], v[6]];
    conn.insert(InsertValues(source))
  }

  /** The row a table holds after storing `values` under `id`. */
  function Stored(id: int, values: seq<Json>, createdAt: Option<string>): Row
    requires |values| == |Columns|
  {
    Row(id, values[0], values[1], values[2], values[3], values[4], values[5], values[6], createdAt)
  }

  /** Writing a source and reading its row back: every member comes back as
      given (null when it was missing), and the authors come back as `[]`
      whenever they were missing, null or empty. */
  lemma InsertThenRead(source: seq<(string, Json)>, id: int, createdAt: Option<string>)
    ensures var s := FromRow(Stored(id, InsertValues(source), createdAt));
      s.id == id && s.title == Get(source, "title").GetOr(JNull)
      && s.abstractText == Get(source, "abstract").GetOr(JNull) && s.url == Get(source, "url").GetOr(JNull)
      && s.year == Get(source, "year").GetOr(JNull) && s.field == Get(source, "field").GetOr(JNull)
      && s.kind == Get(source, "type").GetOr(JNull)
    ensures var a := Get(source, "authors");
      FromRow(Stored(id, InsertValues(source), createdAt)).authors
        == if a.Some? && Truthy(a.value) then a.value else JArr([])
  {
    var v := InsertValues(source);
    assert v[0] == Get(source, Columns[0]).GetOr(JNull);
    assert v[2] == Get(source, Columns[2]).GetOr(JNull);
    assert v[3] == Get(source, Columns[3]).GetOr(JNull);
    assert v[4] == Get(source, Columns[4]).GetOr(JNull);
    assert v[5] == Get(source, Columns[5]).GetOr(JNull);
    assert v[6] == Get(source, Columns[6]).GetOr(JNull);
  }
}
