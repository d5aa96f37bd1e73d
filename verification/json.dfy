/** JSON values as Python's `json.loads` and JavaScript's `JSON.parse`
    produce them. Objects are field lists in document order, which is also
    the iteration order of a Python dict; numbers are integers. */
module Json {
  import opened Wrappers
  import opened Text

  datatype Json =
    | JNull
    | JBool(b: bool)
    | JNum(n: int)
    | JStr(s: string)
    | JArr(items: seq<Json>)
    | JObj(fields: seq<(string, Json)>)

  predicate HasKey(fields: seq<(string, Json)>, k: string) {
    exists i :: 0 <= i < |fields| && fields[i].0 == k
  }

  /** `d.get(k)`: a repeated key keeps its last value, as `json.loads` does. */
  function Get(fields: seq<(string, Json)>, k: string): (r: Option<Json>)
    ensures r.Some? <==> HasKey(fields, k)
    ensures r.Some? ==> exists i :: 0 <= i < |fields| && fields[i] == (k, r.value)
  {
    if |fields| == 0 then None
    else if fields[|fields| - 1].0 == k then Some(fields[|fields| - 1].1)
    else
      var r := Get(fields[..|fields| - 1], k);
      assert forall i :: 0 <= i < |fields| - 1 ==> fields[..|fields| - 1][i] == fields[i];
      r
  }

  /** A key given later wins: `{**a, k: v}` reads back `v` at `k`. */
  lemma {:induction false} GetLast(fields: seq<(string, Json)>, k: string, v: Json)
    ensures Get(fields + [(k, v)], k) == Some(v)
  {
  }

  /** Keys written after `k` do not hide an earlier `k` unless they are `k`. */
  lemma {:induction false} GetAppend(a: seq<(string, Json)>, b: seq<(string, Json)>, k: string)
    ensures Get(a + b, k) == if HasKey(b, k) then Get(b, k) else Get(a, k)
    decreases |b|
  {
    if |b| == 0 {
      assert a + b == a;
    } else {
      var b' := b[..|b| - 1];
      assert (a + b)[..|a + b| - 1] == a + b';
      GetAppend(a, b', k);
      if b[|b| - 1].0 != k {
        assert HasKey(b, k) <==> HasKey(b', k) by {
          if HasKey(b, k) {
            var i :| 0 <= i < |b| && b[i].0 == k;
            assert b'[i] == b[i];
          }
          if HasKey(b', k) {
            var i :| 0 <= i < |b'| && b'[i].0 == k;
            assert b[i] == b'[i];
          }
        }
      }
    }
  }

  /** No key occurs twice, as in a dict display with distinct keys. */
  predicate DistinctKeys(fields: seq<(string, Json)>) {
    forall i, j :: 0 <= i < j < |fields| ==> fields[i].0 != fields[j].0
  }

  /** In an object without repeated keys every member reads back. */
  lemma {:induction false} GetDistinct(fields: seq<(string, Json)>, i: nat)
    requires DistinctKeys(fields) && i < |fields|
    ensures Get(fields, fields[i].0) == Some(fields[i].1)
    decreases |fields|
  {
    var n := |fields| - 1;
    if i < n {
      var init := fields[..n];
      assert init[i] == fields[i];
      assert DistinctKeys(init) by {
        forall a, b | 0 <= a < b < |init| ensures init[a].0 != init[b].0 {
          assert init[a] == fields[a] && init[b] == fields[b];
        }
      }
      GetDistinct(init, i);
    }
  }

  /** The distinct keys of an object in first-occurrence order: what
      iterating a Python dict yields. */
  function Keys(fields: seq<(string, Json)>): (r: seq<string>)
    ensures forall i, j :: 0 <= i < j < |r| ==> r[i] != r[j]
    ensures forall k :: k in r <==> HasKey(fields, k)
    ensures |r| <= |fields|
  {
    if |fields| == 0 then []
    else
      var init := fields[..|fields| - 1];
      var ks := Keys(init);
      assert forall i :: 0 <= i < |init| ==> init[i] == fields[i];
      assert forall k :: HasKey(fields, k) <==> HasKey(init, k) || fields[|fields| - 1].0 == k;
      if fields[|fields| - 1].0 in ks then ks else ks + [fields[|fields| - 1].0]
  }

  /** Python's `bool(v)`. */
  predicate Truthy(v: Json) {
    match v
    case JNull => false
    case JBool(b) => b
    case JNum(n) => n != 0
    case JStr(s) => |s| > 0
    case JArr(items) => |items| > 0
    case JObj(fields) => |fields| > 0
  }

  /** JavaScript's truthiness: every array and object is truthy. */
  predicate JsTruthy(v: Json) {
    match v
    case JNull => false
    case JBool(b) => b
    case JNum(n) => n != 0
    case JStr(s) => |s| > 0
    case JArr(_) => true
    case JObj(_) => true
  }

  /** Python's `len(v)`; `None` is the `TypeError` raised for a number,
      a boolean or `None`. */
  function Len(v: Json): (r: Option<nat>)
    ensures r.Some? <==> (v.JStr? || v.JArr? || v.JObj?)
    ensures r.Some? ==> (r.value > 0 <==> Truthy(v))
  {
    match v
    case JStr(s) => Some(|s|)
    case JArr(items) => Some(|items|)
    case JObj(fields) => Some(|Keys(fields)|)
    case _ => None
  }

  /** The elements `for x in v` visits: list items, the characters of a
      string, the keys of an object. */
  function Iterate(v: Json): (r: Result<seq<Json>>)
    ensures r.Ok? <==> Len(v).Some?
    ensures r.Ok? ==> |r.value| == Len(v).value
    ensures v.JArr? ==> r == Ok(v.items)
  {
    match v
    case JArr(items) => Ok(items)
    case JStr(s) => Ok(seq(|s|, i requires 0 <= i < |s| => JStr([s[i]])))
    case JObj(fields) =>
      var ks := Keys(fields);
      Ok(seq(|ks|, i requires 0 <= i < |ks| => JStr(ks[i])))
    case _ => Err("TypeError: object is not iterable")
  }

  /** `v.get(k, default)`; anything but an object raises `AttributeError`. */
  function GetOr(v: Json, k: string, default: Json): (r: Result<Json>)
    ensures r.Ok? <==> v.JObj?
    ensures v.JObj? && !HasKey(v.fields, k) ==> r == Ok(default)
  {
    match v
    case JObj(fields) => Ok(Get(fields, k).GetOr(default))
    case _ => Err("AttributeError: object has no attribute 'get'")
  }

  /** The integer Python sees in arithmetic and comparisons: booleans are
      0 and 1; anything else raises `TypeError` (`None`). */
  function AsInt(v: Json): (r: Option<int>)
    ensures r.Some? <==> v.JNum? || v.JBool?
    ensures v.JNum? ==> r == Some(v.n)
    ensures v.JBool? ==> r == Some(if v.b then 1 else 0)
  {
    match v
    case JNum(n) => Some(n)
    case JBool(b) => Some(if b then 1 else 0)
    case _ => None
  }

  /** Python's `str(n)` for any integer. */
  function IntToString(n: int): (r: string)
    ensures |r| >= 1
    ensures n >= 0 ==> r == NatToString(n)
    ensures n < 0 ==> r == "-" + NatToString(-n)
  {
    if n >= 0 then NatToString(n) else "-" + NatToString(-n)
  }

  /** Python's `str(v)` (also what an f-string shows). Strings, None,
      booleans and integers are rendered here; lists and dicts by
      `container`, which stands for Python's repr. */
  function Show(v: Json, container: Json -> string): (r: string)
    ensures v.JStr? ==> r == v.s
    ensures v.JNull? ==> r == "None"
    ensures v.JNum? ==> r == IntToString(v.n)
  {
    match v
    case JStr(s) => s
    case JNull => "None"
    case JBool(b) => if b then "True" else "False"
    case JNum(n) => IntToString(n)
    case _ => container(v)
  }
}
