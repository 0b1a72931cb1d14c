/** String and sequence helpers that the page models share: JavaScript's
    `trim`, `split` and `join`, leftmost substring search, decimal
    formatting of a counter, and "is a subsequence of". */
module Text {

  datatype Option<T> = None | Some(value: T) {
    /** `x ?? default` */
    function GetOr(default: T): T {
      if Some? then value else default
    }
  }

  /** The ASCII characters that `String.prototype.trim` removes. */
  predicate IsSpace(c: char) {
    c == ' ' || c == '\t' || c == '\n' || c == '\r' || c == '\U{0B}' || c == '\U{0C}'
  }

  function TrimStart(s: string): (r: string)
    ensures |r| <= |s| && r == s[|s| - |r|..]
    ensures r == [] || !IsSpace(r[0])
    ensures forall i :: 0 <= i < |s| - |r| ==> IsSpace(s[i])
  {
    if s != [] && IsSpace(s[0]) then
      var r := TrimStart(s[1..]);
      assert s[|s| - |r|..] == s[1..][|s| - 1 - |r|..];
      assert forall i :: 1 <= i < |s| - |r| ==> s[i] == s[1..][i - 1];
      r
    else s
  }

  function TrimEnd(s: string): (r: string)
    ensures |r| <= |s| && r == s[..|r|]
    ensures r == [] || !IsSpace(r[|r| - 1])
    ensures forall i :: |r| <= i < |s| ==> IsSpace(s[i])
  {
    if s != [] && IsSpace(s[|s| - 1]) then
      var r := TrimEnd(s[..|s| - 1]);
      assert s[..|r|] == s[..|s| - 1][..|r|];
      assert forall i :: |r| <= i < |s| - 1 ==> s[i] == s[..|s| - 1][i];
      r
    else s
  }

  /** `s.trim()`: the longest infix that neither starts nor ends with whitespace. */
  function Trim(s: string): (r: string)
    ensures |r| <= |s|
    ensures r == [] || (!IsSpace(r[0]) && !IsSpace(r[|r| - 1]))
  {
    TrimEnd(TrimStart(s))
  }

  /** Whitespace around a text that neither starts nor ends with whitespace is
      exactly what `trim` removes. */
  lemma TrimPadded(lead: string, x: string, trail: string)
    requires x != [] && !IsSpace(x[0]) && !IsSpace(x[|x| - 1])
    requires forall i :: 0 <= i < |lead| ==> IsSpace(lead[i])
    requires forall i :: 0 <= i < |trail| ==> IsSpace(trail[i])
    ensures Trim(lead + x + trail) == x
  {
    assert lead + x + trail == lead + (x + trail);
    TrimStartPadded(lead, x + trail);
    TrimEndPadded(x, trail);
  }

  lemma TrimStartPadded(lead: string, y: string)
    requires y != [] && !IsSpace(y[0])
    requires forall i :: 0 <= i < |lead| ==> IsSpace(lead[i])
    ensures TrimStart(lead + y) == y
  {
    var s := lead + y;
    assert s[|lead|] == y[0];
    assert s[|lead|..] == y;
  }

  lemma TrimEndPadded(x: string, trail: string)
    requires x != [] && !IsSpace(x[|x| - 1])
    requires forall i :: 0 <= i < |trail| ==> IsSpace(trail[i])
    ensures TrimEnd(x + trail) == x
  {
    var s := x + trail;
    assert s[|x| - 1] == x[|x| - 1];
    assert s[..|x|] == x;
  }

  /** `parts.join(sep)` */
  function Join(parts: seq<string>, sep: string): string {
    if |parts| == 0 then ""
    else if |parts| == 1 then parts[0]
    else parts[0] + sep + Join(parts[1..], sep)
  }

  /** Index of the first `d` in `s`. */
  function FirstIndex(s: string, d: char): (i: nat)
    requires d in s
    ensures i < |s| && s[i] == d && d !in s[..i]
  {
    if s[0] == d then 0
    else
      assert d in s[1..] by { assert s == [s[0]] + s[1..]; }
      var k := FirstIndex(s[1..], d);
      assert s[..k + 1] == [s[0]] + s[1..][..k];
      k + 1
  }

  /** `s.split(d)` for a one-character separator: never empty, no part holds `d`,
      and joining the parts with `d` gives back `s`. */
  function Split(s: string, d: char): (parts: seq<string>)
    ensures |parts| >= 1
    ensures forall k :: 0 <= k < |parts| ==> d !in parts[k]
    ensures Join(parts, [d]) == s
    decreases |s|
  {
    if d in s then
      var i := FirstIndex(s, d);
      var rest := Split(s[i + 1..], d);
      var parts := [s[..i]] + rest;
      assert parts[1..] == rest;
      assert s == s[..i] + [d] + s[i + 1..];
      parts
    else
      [s]
  }

  lemma {:induction false} SplitJoin(parts: seq<string>, d: char)
    requires |parts| >= 1
    requires forall k :: 0 <= k < |parts| ==> d !in parts[k]
    ensures Split(Join(parts, [d]), d) == parts
    decreases |parts|
  {
    if |parts| > 1 {
      var s := Join(parts, [d]);
      var tail := Join(parts[1..], [d]);
      assert s == parts[0] + [d] + tail;
      assert s[|parts[0]|] == d;
      assert s[..|parts[0]|] == parts[0];
      assert d in s;
      var i := FirstIndex(s, d);
      assert i == |parts[0]|;
      assert s[i + 1..] == tail;
      SplitJoin(parts[1..], d);
      assert Split(s, d) == [s[..i]] + Split(tail, d);
    } else {
      assert Join(parts, [d]) == parts[0];
    }
  }

  /** `pat` occurs in `s` starting at index `k`. */
  predicate OccursAt(s: string, pat: string, k: nat) {
    k + |pat| <= |s| && s[k..k + |pat|] == pat
  }

  /** `s.indexOf(pat, from)`: the leftmost occurrence at or after `from`. */
  function Find(s: string, pat: string, from: nat): (r: Option<nat>)
    ensures r.Some? ==> from <= r.value && OccursAt(s, pat, r.value)
    ensures r.Some? ==> forall k :: from <= k < r.value ==> !OccursAt(s, pat, k)
    ensures r.None? ==> forall k :: from <= k ==> !OccursAt(s, pat, k)
    decreases |s| - from
  {
    if from + |pat| > |s| then None
    else if s[from..from + |pat|] == pat then Some(from)
    else Find(s, pat, from + 1)
  }

  /** `s.match(/<open>([\s\S]*?)<close>/)` for literal tags: the leftmost
      `open`, then the first `close` after it. Gives (start of `open`, start of
      `close`), or None when no `open` is followed by a `close`. */
  function TagPair(s: string, open: string, close: string): (r: Option<(nat, nat)>)
    ensures r.Some? ==> OccursAt(s, open, r.value.0) && forall k: nat :: k < r.value.0 ==> !OccursAt(s, open, k)
    ensures r.Some? ==> r.value.0 + |open| <= r.value.1 && OccursAt(s, close, r.value.1)
    ensures r.Some? ==> forall k :: r.value.0 + |open| <= k < r.value.1 ==> !OccursAt(s, close, k)
    ensures r.None? <==> forall o: nat, c: nat :: OccursAt(s, open, o) && o + |open| <= c ==> !OccursAt(s, close, c)
  {
    match Find(s, open, 0)
    case None => None
    case Some(o) =>
      match Find(s, close, o + |open|)
      case None => None
      case Some(c) =>
        assert OccursAt(s, open, o) && OccursAt(s, close, c);
        Some((o, c))
  }

  function Digit(d: nat): (c: char)
    requires d < 10
  {
    ('0' as int + d) as char
  }

  function DigitValue(c: char): nat {
    if '0' <= c <= '9' then c as int - '0' as int else 0
  }

  /** `${n}` for a non-negative integer. */
  function Decimal(n: nat): (s: string)
    ensures |s| >= 1
    ensures forall k :: 0 <= k < |s| ==> '0' <= s[k] <= '9'
  {
    if n < 10 then [Digit(n)] else Decimal(n / 10) + [Digit(n % 10)]
  }

  function ParseDecimal(s: string): nat {
    if s == [] then 0 else ParseDecimal(s[..|s| - 1]) * 10 + DigitValue(s[|s| - 1])
  }

  lemma {:induction false} ParseDecimalInverts(n: nat)
    ensures ParseDecimal(Decimal(n)) == n
  {
    if n >= 10 {
      var s := Decimal(n);
      assert s[..|s| - 1] == Decimal(n / 10);
      ParseDecimalInverts(n / 10);
    }
  }

  /** Different counts print differently. */
  lemma DecimalInjective(a: nat, b: nat)
    requires Decimal(a) == Decimal(b)
    ensures a == b
  {
    ParseDecimalInverts(a);
    ParseDecimalInverts(b);
  }

  /** `a` is `b` with some elements deleted, the rest in their original order. */
  predicate Subseq<T(==)>(a: seq<T>, b: seq<T>)
    decreases |b|
  {
    a == [] || (b != [] && if a[0] == b[0] then Subseq(a[1..], b[1..]) else Subseq(a, b[1..]))
  }
}
