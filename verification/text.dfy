/** String helpers with the semantics of the Python and JavaScript built-ins
    the handlers call: `strip`/`trim`, `lower`/`toLowerCase`, `startswith`,
    `endswith`, `in`, `split('\n')`, `join`, slicing `[:n]`, `int()` and
    decimal rendering. Whitespace is the set both languages agree on, case
    is ASCII only, and digits are ASCII digits. */
module Text {
  import opened Wrappers

  /** The characters both `str.isspace` and `String.prototype.trim` treat
      as whitespace: tab through carriage return, the space, the no-break
      space and the Unicode space separators and line and paragraph
      separators. Python alone also counts U+001C..U+001F and U+0085, and
      JavaScript alone U+FEFF; those are not whitespace here. */
  predicate IsSpace(c: char) {
    var n := c as int;
    (9 <= n <= 13) || n == 0x20 || n == 0xA0 || n == 0x1680 || (0x2000 <= n <= 0x200A)
      || n == 0x2028 || n == 0x2029 || n == 0x202F || n == 0x205F || n == 0x3000
  }

  predicate IsBlank(s: string) {
    forall i :: 0 <= i < |s| ==> IsSpace(s[i])
  }

  function TrimLeft(s: string): (r: string)
    ensures |r| <= |s| && r == s[|s| - |r|..]
    ensures IsBlank(s[..|s| - |r|])
    ensures |r| == 0 || !IsSpace(r[0])
  {
    if |s| > 0 && IsSpace(s[0]) then TrimLeft(s[1..]) else s
  }

  function TrimRight(s: string): (r: string)
    ensures |r| <= |s| && r == s[..|r|]
    ensures IsBlank(s[|r|..])
    ensures |r| == 0 || !IsSpace(r[|r| - 1])
  {
    if |s| > 0 && IsSpace(s[|s| - 1]) then TrimRight(s[..|s| - 1]) else s
  }

  /** Python's `str.strip()` with no argument; also JavaScript's `trim()`. */
  function Strip(s: string): (r: string)
    ensures |r| <= |s|
    ensures |r| == 0 || (!IsSpace(r[0]) && !IsSpace(r[|r| - 1]))
  {
    TrimRight(TrimLeft(s))
  }

  /** Stripping only removes whitespace: the result is a contiguous piece of
      the input with blanks on either side. */
  lemma StripIsInfix(s: string)
    ensures exists i :: (0 <= i <= |s| - |Strip(s)|
      && Strip(s) == s[i..i + |Strip(s)|] && IsBlank(s[..i]) && IsBlank(s[i + |Strip(s)|..]))
  {
    var l := TrimLeft(s);
    var i := |s| - |l|;
    var r := TrimRight(l);
    TakeOfDrop(s, i, |r|);
    DropOfDrop(s, i, |r|);
    assert r == Strip(s) && r == s[i..i + |r|];
    assert IsBlank(s[..i]) && IsBlank(s[i + |r|..]);
  }

  lemma TakeOfDrop<T>(s: seq<T>, i: nat, n: nat)
    requires i + n <= |s|
    ensures s[i..][..n] == s[i..i + n]
  {
  }

  lemma DropOfDrop<T>(s: seq<T>, i: nat, n: nat)
    requires i + n <= |s|
    ensures s[i..][n..] == s[i + n..]
  {
  }

  /** A string is blank exactly when stripping leaves nothing. */
  lemma StripEmptyIffBlank(s: string)
    ensures Strip(s) == "" <==> IsBlank(s)
  {
    StripIsInfix(s);
    var l := TrimLeft(s);
    assert |l| > 0 ==> l[0] == s[|s| - |l|];
    if Strip(s) == "" {
      var i :| 0 <= i <= |s| && IsBlank(s[..i]) && IsBlank(s[i..]);
      forall k | 0 <= k < |s| ensures IsSpace(s[k]) {
        if k < i { assert s[..i][k] == s[k]; } else { assert s[i..][k - i] == s[k]; }
      }
    }
  }

  lemma {:induction false} TrimLeftKeeps(s: string)
    requires |s| == 0 || !IsSpace(s[0])
    ensures TrimLeft(s) == s
  {
  }

  lemma {:induction false} TrimRightKeeps(s: string)
    requires |s| == 0 || !IsSpace(s[|s| - 1])
    ensures TrimRight(s) == s
  {
  }

  lemma StripIdempotent(s: string)
    ensures Strip(Strip(s)) == Strip(s)
  {
    var r := Strip(s);
    TrimLeftKeeps(r);
    TrimRightKeeps(r);
  }

  function LowerChar(c: char): char {
    if 'A' <= c <= 'Z' then (c as int - 'A' as int + 'a' as int) as char else c
  }

  /** `str.lower()` / `toLowerCase()`, on ASCII letters. */
  function Lower(s: string): (r: string)
    ensures |r| == |s|
    ensures forall i :: 0 <= i < |s| ==> r[i] == LowerChar(s[i])
  {
    seq(|s|, i requires 0 <= i < |s| => LowerChar(s[i]))
  }

  predicate StartsWith(s: string, p: string) {
    |p| <= |s| && s[..|p|] == p
  }

  predicate EndsWith(s: string, p: string) {
    |p| <= |s| && s[|s| - |p|..] == p
  }

  /** Python's `p in s` / JavaScript's `s.includes(p)`. */
  predicate Contains(s: string, p: string) {
    StartsWith(s, p) || (|s| > 0 && Contains(s[1..], p))
  }

  /** Python's `s[:n]` on a string or list, for a non-negative `n`. */
  function Take<T>(s: seq<T>, n: nat): (r: seq<T>)
    ensures |r| == if |s| <= n then |s| else n
    ensures r == s[..|r|]
  {
    if |s| <= n then s else s[..n]
  }

  /** Python's `s.split(c)` for a one-character separator: always at least
      one piece, and no piece contains the separator. */
  function Split(s: string, c: char): (r: seq<string>)
    ensures |r| >= 1
    ensures forall k :: 0 <= k < |r| ==> c !in r[k]
  {
    if |s| == 0 then [""]
    else if s[0] == c then [""] + Split(s[1..], c)
    else
      var t := Split(s[1..], c);
      [[s[0]] + t[0]] + t[1..]
  }

  /** `sep.join(parts)`. */
  function Join(sep: string, parts: seq<string>): string {
    if |parts| == 0 then ""
    else if |parts| == 1 then parts[0]
    else parts[0] + sep + Join(sep, parts[1..])
  }

  lemma {:induction false} JoinLength(sep: string, parts: seq<string>)
    requires |parts| >= 1
    ensures |Join(sep, parts)| == SumLengths(parts) + (|parts| - 1) * |sep|
  {
    if |parts| > 1 {
      JoinLength(sep, parts[1..]);
    }
  }

  function SumLengths(parts: seq<string>): nat {
    if |parts| == 0 then 0 else |parts[0]| + SumLengths(parts[1..])
  }

  /** Joining the pieces of a split with the same separator gives back the
      original text. */
  lemma {:induction false} JoinSplit(s: string, c: char)
    ensures Join([c], Split(s, c)) == s
  {
    if |s| == 0 {
    } else if s[0] == c {
      var t := Split(s[1..], c);
      JoinSplit(s[1..], c);
      assert ([""] + t)[1..] == t;
      assert s == [c] + s[1..];
    } else {
      var t := Split(s[1..], c);
      JoinSplit(s[1..], c);
      var r := [[s[0]] + t[0]] + t[1..];
      if |t| == 1 {
        assert s == [s[0]] + s[1..];
      } else {
        assert r[1..] == t[1..];
        assert s == [s[0]] + s[1..];
      }
    }
  }

  /** Splitting a join of separator-free pieces gives back the pieces. */
  lemma {:induction false} SplitJoin(parts: seq<string>, c: char)
    requires |parts| >= 1
    requires forall k :: 0 <= k < |parts| ==> c !in parts[k]
    ensures Split(Join([c], parts), c) == parts
  {
    if |parts| == 1 {
      SplitNoSeparator(parts[0], c);
    } else {
      SplitJoin(parts[1..], c);
      SplitPrefix(parts[0], Join([c], parts[1..]), c);
      assert [parts[0]] + parts[1..] == parts;
    }
  }

  lemma {:induction false} SplitNoSeparator(s: string, c: char)
    requires c !in s
    ensures Split(s, c) == [s]
  {
    if |s| > 0 {
      assert s[0] != c && c !in s[1..];
      SplitNoSeparator(s[1..], c);
      assert [s[0]] + s[1..] == s;
    }
  }

  lemma {:induction false} SplitPrefix(p: string, rest: string, c: char)
    requires c !in p
    ensures Split(p + [c] + rest, c) == [p] + Split(rest, c)
  {
    if |p| == 0 {
      assert (p + [c] + rest)[1..] == rest;
    } else {
      assert (p + [c] + rest)[1..] == p[1..] + [c] + rest;
      assert c !in p[1..];
      SplitPrefix(p[1..], rest, c);
      assert [p[0]] + p[1..] == p;
    }
  }

  predicate IsDigit(c: char) {
    '0' <= c <= '9'
  }

  function DigitValue(c: char): nat
    requires IsDigit(c)
  {
    c as int - '0' as int
  }

  function DigitChar(d: nat): (c: char)
    requires d < 10
    ensures IsDigit(c) && DigitValue(c) == d
  {
    ('0' as int + d) as char
  }

  predicate AllDigits(s: string) {
    forall i :: 0 <= i < |s| ==> IsDigit(s[i])
  }

  /** The value of a string of decimal digits. */
  function DigitsValue(s: string): nat
    requires AllDigits(s)
  {
    if |s| == 0 then 0 else 10 * DigitsValue(s[..|s| - 1]) + DigitValue(s[|s| - 1])
  }

  /** Python's `str(n)` for a natural number. */
  function NatToString(n: nat): (r: string)
    ensures |r| >= 1 && AllDigits(r)
  {
    if n < 10 then [DigitChar(n)] else NatToString(n / 10) + [DigitChar(n % 10)]
  }

  lemma {:induction false} NatToStringValue(n: nat)
    ensures DigitsValue(NatToString(n)) == n
  {
    var r := NatToString(n);
    if n >= 10 {
      NatToStringValue(n / 10);
      assert r[..|r| - 1] == NatToString(n / 10);
    }
  }

  /** Python's `int(s)` on a decimal string: surrounding whitespace, an
      optional sign, then at least one ASCII digit. `None` stands for the
      `ValueError` the built-in raises. Underscores between digits and
      non-ASCII decimal digits, which the built-in also accepts, are not
      modelled. */
  function ParseInt(s: string): (r: Option<int>)
  {
    ParseSigned(Strip(s))
  }

  function ParseSigned(t: string): Option<int> {
    if |t| > 0 && t[0] == '-' then
      match ParseDigits(t[1..])
      case Some(v) => Option<int>.Some(-(v as int))
      case None => None
    else if |t| > 0 && t[0] == '+' then
      match ParseDigits(t[1..])
      case Some(v) => Some(v)
      case None => None
    else
      match ParseDigits(t)
      case Some(v) => Some(v)
      case None => None
  }

  function ParseDigits(t: string): Option<nat> {
    if |t| > 0 && AllDigits(t) then Some(DigitsValue(t)) else None
  }

  /** `int(str(n)) == n`: parsing undoes rendering. */
  lemma ParseRendered(n: nat)
    ensures ParseInt(NatToString(n)) == Some(n)
  {
    var r := NatToString(n);
    DigitsUnstripped(r);
    NatToStringValue(n);
    ParseOfDigits(r, n);
  }

  lemma DigitsUnstripped(r: string)
    requires |r| > 0 && AllDigits(r)
    ensures Strip(r) == r
  {
    assert IsDigit(r[0]) && IsDigit(r[|r| - 1]);
    TrimLeftKeeps(r);
    TrimRightKeeps(r);
  }

  lemma ParseOfDigits(r: string, n: nat)
    requires |r| > 0 && AllDigits(r) && DigitsValue(r) == n && Strip(r) == r
    ensures ParseInt(r) == Some(n)
  {
    SignedOfDigits(r, n);
  }

  lemma SignedOfDigits(r: string, n: nat)
    requires |r| > 0 && AllDigits(r) && DigitsValue(r) == n
    ensures ParseSigned(r) == Some(n)
  {
    assert IsDigit(r[0]);
  }

  predicate NoDigit(s: string) {
    forall i :: 0 <= i < |s| ==> !IsDigit(s[i])
  }

  /** Parsing rejects text that has no digit at all. */
  lemma ParseNeedsDigit(s: string)
    requires NoDigit(s)
    ensures ParseInt(s) == None
  {
    StripKeepsNoDigit(s);
    SignedNeedsDigit(Strip(s));
  }

  lemma StripKeepsNoDigit(s: string)
    requires NoDigit(s)
    ensures NoDigit(Strip(s))
  {
    var a := TrimLeft(s);
    forall k | 0 <= k < |a|
      ensures !IsDigit(a[k])
    {
      assert a[k] == s[|s| - |a| + k];
    }
    var b := TrimRight(a);
    forall k | 0 <= k < |b|
      ensures !IsDigit(b[k])
    {
      assert b[k] == a[k];
    }
  }

  lemma SignedNeedsDigit(t: string)
    requires NoDigit(t)
    ensures ParseSigned(t) == None
  {
    assert |t| > 0 ==> !IsDigit(t[0]);
    assert |t| > 1 ==> t[1..][0] == t[1];
  }
}
