/** Small helpers shared by every module: an Option type and the string
    operations the JavaScript handlers rely on (trim, case mapping, prefix and
    substring tests, decimal rendering and `parseInt`). Characters are handled
    as ASCII: Unicode whitespace beyond ASCII and non-ASCII case mapping are
    not modelled. */
module Common {

  datatype Option<+T> = None | Some(value: T) {
    function GetOr(default: T): T {
      if Some? then value else default
    }
  }

  /** The whitespace that `String.prototype.trim` removes (ASCII part). */
  predicate IsSpace(c: char) {
    c == ' ' || c == '\t' || c == '\n' || c == '\r' || c == '\U{B}' || c == '\U{C}'
  }

  function TrimStart(s: string): string {
    if s != [] && IsSpace(s[0]) then TrimStart(s[1..]) else s
  }

  function TrimEnd(s: string): string {
    if s != [] && IsSpace(s[|s| - 1]) then TrimEnd(s[..|s| - 1]) else s
  }

  /** `s.trim()`. */
  function Trim(s: string): string {
    TrimEnd(TrimStart(s))
  }

  /** `TrimStart` drops a prefix made only of whitespace, and what remains
      does not start with whitespace. */
  lemma {:induction false} TrimStartFacts(s: string)
    ensures |TrimStart(s)| <= |s| && TrimStart(s) == s[|s| - |TrimStart(s)|..]
    ensures TrimStart(s) != [] ==> !IsSpace(TrimStart(s)[0])
    ensures forall i :: 0 <= i < |s| - |TrimStart(s)| ==> IsSpace(s[i])
  {
    if s != [] && IsSpace(s[0]) {
      var tail := s[1..];
      TrimStartFacts(tail);
      var t := TrimStart(tail);
      assert TrimStart(s) == t;
      assert tail[|tail| - |t|..] == s[|s| - |t|..];
      assert forall i :: 1 <= i < |s| - |t| ==> s[i] == tail[i - 1];
    } else {
      assert TrimStart(s) == s;
    }
  }

  /** `TrimEnd` drops a suffix made only of whitespace, and what remains
      does not end with whitespace. */
  lemma {:induction false} TrimEndFacts(s: string)
    ensures |TrimEnd(s)| <= |s| && TrimEnd(s) == s[..|TrimEnd(s)|]
    ensures TrimEnd(s) != [] ==> !IsSpace(TrimEnd(s)[|TrimEnd(s)| - 1])
    ensures forall i :: |TrimEnd(s)| <= i < |s| ==> IsSpace(s[i])
  {
    if s != [] && IsSpace(s[|s| - 1]) {
      TrimEndFacts(s[..|s| - 1]);
    }
  }

  /** `s.trim()` is the infix of `s` left after dropping whitespace at both
      ends; it neither starts nor ends with whitespace. */
  lemma TrimFacts(s: string)
    ensures |Trim(s)| <= |TrimStart(s)| <= |s|
    ensures Trim(s) == s[|s| - |TrimStart(s)|..|s| - |TrimStart(s)| + |Trim(s)|]
    ensures Trim(s) != [] ==> !IsSpace(Trim(s)[0]) && !IsSpace(Trim(s)[|Trim(s)| - 1])
  {
    var t := TrimStart(s);
    TrimStartFacts(s);
    TrimEndFacts(t);
    var r := TrimEnd(t);
    var k := |s| - |t|;
    assert t == s[k..];
    assert r == t[..|r|];
    assert s[k..][..|r|] == s[k..k + |r|];
  }

  /** Trimming twice trims nothing more. */
  lemma TrimIdempotent(s: string)
    ensures Trim(Trim(s)) == Trim(s)
  {
    var r := Trim(s);
    TrimFacts(s);
    assert TrimStart(r) == r;
    assert TrimEnd(r) == r;
  }

  /** A string consisting only of whitespace trims to the empty string. */
  lemma {:induction false} TrimAllSpace(s: string)
    requires forall i :: 0 <= i < |s| ==> IsSpace(s[i])
    ensures Trim(s) == ""
  {
    if s != [] {
      TrimAllSpace(s[1..]);
      assert TrimStart(s) == TrimStart(s[1..]);
    }
  }

  /** A string that neither starts nor ends with whitespace trims to itself. */
  lemma TrimNoEdgeSpace(t: string)
    requires t != [] ==> !IsSpace(t[0]) && !IsSpace(t[|t| - 1])
    ensures Trim(t) == t
  {
  }

  function UpperChar(c: char): char {
    if 'a' <= c <= 'z' then (c as int - 32) as char else c
  }

  function LowerChar(c: char): char {
    if 'A' <= c <= 'Z' then (c as int + 32) as char else c
  }

  /** `s.toUpperCase()` on ASCII letters. */
  function ToUpper(s: string): (r: string)
    ensures |r| == |s|
    ensures forall i :: 0 <= i < |s| ==> r[i] == UpperChar(s[i])
  {
    seq(|s|, i requires 0 <= i < |s| => UpperChar(s[i]))
  }

  /** `s.toLowerCase()` on ASCII letters. */
  function ToLower(s: string): (r: string)
    ensures |r| == |s|
    ensures forall i :: 0 <= i < |s| ==> r[i] == LowerChar(s[i])
  {
    seq(|s|, i requires 0 <= i < |s| => LowerChar(s[i]))
  }

  /** Upper-casing is idempotent and keeps whitespace where it was. */
  lemma ToUpperIdempotent(s: string)
    ensures ToUpper(ToUpper(s)) == ToUpper(s)
    ensures forall i :: 0 <= i < |s| ==> (IsSpace(ToUpper(s)[i]) <==> IsSpace(s[i]))
  {
    assert forall i :: 0 <= i < |s| ==> ToUpper(ToUpper(s))[i] == ToUpper(s)[i];
  }

  predicate StartsWith(s: string, prefix: string) {
    |prefix| <= |s| && s[..|prefix|] == prefix
  }

  /** `s.includes(sub)`. */
  predicate Contains(s: string, sub: string) {
    exists i :: 0 <= i <= |s| - |sub| && InfixAt(s, sub, i)
  }

  predicate InfixAt(s: string, sub: string, i: int) {
    0 <= i <= |s| - |sub| && s[i..i + |sub|] == sub
  }

  predicate IsDigit(c: char) {
    '0' <= c <= '9'
  }

  function DigitChar(d: int): (c: char)
    requires 0 <= d < 10
    ensures IsDigit(c) && DigitValue(c) == d
  {
    ('0' as int + d) as char
  }

  function DigitValue(c: char): int
    requires IsDigit(c)
  {
    c as int - '0' as int
  }

  predicate AllDigits(s: string) {
    forall i :: 0 <= i < |s| ==> IsDigit(s[i])
  }

  /** The decimal value of a string of digits, read left to right. */
  function DigitsValue(s: string): (n: nat)
    requires AllDigits(s)
  {
    if s == [] then 0 else 10 * DigitsValue(s[..|s| - 1]) + DigitValue(s[|s| - 1])
  }

  /** Decimal rendering of a natural number, without leading zeros. */
  function NatToString(n: nat): (r: string)
    ensures r != [] && AllDigits(r)
    ensures |r| > 1 ==> r[0] != '0'
  {
    if n < 10 then [DigitChar(n)] else NatToString(n / 10) + [DigitChar(n % 10)]
  }

  /** `String(n)` for an integer. */
  function IntToString(n: int): (r: string)
    ensures r != []
  {
    if n < 0 then "-" + NatToString(-n) else NatToString(n)
  }

  /** Reading back a rendered number gives the number. */
  lemma {:induction false} NatToStringValue(n: nat)
    ensures DigitsValue(NatToString(n)) == n
  {
    if n >= 10 {
      NatToStringValue(n / 10);
      var s := NatToString(n);
      assert s[..|s| - 1] == NatToString(n / 10);
    }
  }

  /** The longest prefix of `s` made of digits. */
  function DigitPrefix(s: string): (r: string)
    ensures AllDigits(r) && |r| <= |s| && r == s[..|r|]
    ensures |r| < |s| ==> !IsDigit(s[|r|])
  {
    if s != [] && IsDigit(s[0]) then [s[0]] + DigitPrefix(s[1..]) else []
  }

  /** `parseInt(s, 10)`: leading whitespace, an optional sign, then the
      longest run of digits; `None` stands for NaN (no digit at all). */
  function ParseInt(s: string): (r: Option<int>)
    ensures r.None? <==> DigitPrefix(SignStripped(TrimStart(s))) == []
  {
    var t := TrimStart(s);
    var neg := t != [] && t[0] == '-';
    var ds := DigitPrefix(SignStripped(t));
    var v: int := if ds == [] then 0 else DigitsValue(ds);
    if ds == [] then None else Some(if neg then -v else v)
  }

  function SignStripped(t: string): string {
    if t != [] && (t[0] == '-' || t[0] == '+') then t[1..] else t
  }

  lemma DigitPrefixOfDigits(s: string)
    requires AllDigits(s)
    ensures DigitPrefix(s) == s
  {
  }

  lemma TrimStartNoSpace(s: string)
    requires s != [] && !IsSpace(s[0])
    ensures TrimStart(s) == s
  {
  }

  /** `parseInt(String(n), 10) == n`: the decimal rendering round-trips. */
  lemma ParseIntOfIntToString(n: int)
    ensures ParseInt(IntToString(n)) == Some(n)
  {
    var m: nat := if n < 0 then -n else n;
    var digits := NatToString(m);
    NatToStringValue(m);
    DigitPrefixOfDigits(digits);
    var s := IntToString(n);
    if n < 0 {
      assert s == "-" + digits;
      TrimStartNoSpace(s);
      assert SignStripped(s) == digits;
    } else {
      assert s == digits;
      assert IsDigit(s[0]);
      TrimStartNoSpace(s);
      assert SignStripped(s) == digits;
    }
  }

  // ---------------------------------------------------------------------
  // Sets of integers in ascending order

  lemma {:induction false} MinExists(s: set<int>)
    requires s != {}
    ensures exists m :: m in s && forall x :: x in s ==> m <= x
  {
    var y := Pick(s);
    if s != {y} {
      MinExists(s - {y});
      var m :| m in s - {y} && forall x :: x in s - {y} ==> m <= x;
      var least := if y < m then y else m;
      forall x | x in s
        ensures least <= x
      {
        if x != y {
          assert x in s - {y};
        }
      }
    } else {
      forall x | x in s
        ensures y <= x
      {
      }
    }
  }

  /** Some element of a non-empty set. */
  ghost function Pick(s: set<int>): (y: int)
    requires s != {}
    ensures y in s
  {
    NonEmptyHasElement(s);
    var y :| y in s; y
  }

  lemma NonEmptyHasElement(s: set<int>)
    requires s != {}
    ensures exists y :: y in s
  {
    if forall y :: y !in s {
      assert false;
    }
  }

  function Min(s: set<int>): (m: int)
    requires s != {}
    ensures m in s && forall x :: x in s ==> m <= x
  {
    MinExists(s);
    var m :| m in s && forall x :: x in s ==> m <= x; m
  }

  /** The elements of a set in ascending order. */
  function SortedKeys(s: set<int>): (ks: seq<int>)
    ensures |ks| == |s|
    ensures forall i :: 0 <= i < |ks| ==> ks[i] in s
    ensures forall x :: x in s ==> x in ks
    ensures forall i, j :: 0 <= i < j < |ks| ==> ks[i] < ks[j]
    decreases |s|
  {
    if s == {} then []
    else
      var m := Min(s);
      var rest := SortedKeys(s - {m});
      ConsAscending(m, rest);
      ConsCovers(s, m, rest);
      [m] + rest
  }

  lemma ConsAscending(m: int, rest: seq<int>)
    requires forall i, j :: 0 <= i < j < |rest| ==> rest[i] < rest[j]
    requires forall i :: 0 <= i < |rest| ==> m < rest[i]
    ensures forall i, j :: 0 <= i < j < |[m] + rest| ==> ([m] + rest)[i] < ([m] + rest)[j]
  {
  }

  lemma ConsCovers(s: set<int>, m: int, rest: seq<int>)
    requires m in s
    requires forall i :: 0 <= i < |rest| ==> rest[i] in s - {m}
    requires forall x :: x in s - {m} ==> x in rest
    ensures forall i :: 0 <= i < |[m] + rest| ==> ([m] + rest)[i] in s
    ensures forall x :: x in s ==> x in [m] + rest
  {
  }

  /** The keys of a list, as a set. */
  function KeySet(ks: seq<int>): set<int> {
    if ks == [] then {} else {ks[0]} + KeySet(ks[1..])
  }

  lemma {:induction false} KeySetMembers(ks: seq<int>)
    ensures forall x :: x in KeySet(ks) <==> x in ks
  {
    if ks != [] {
      KeySetMembers(ks[1..]);
      assert ks == [ks[0]] + ks[1..];
    }
  }

  /** A list without repetitions has as many keys as elements. */
  lemma {:induction false} KeySetSize(ks: seq<int>)
    requires forall i, j :: 0 <= i < j < |ks| ==> ks[i] != ks[j]
    ensures |KeySet(ks)| == |ks|
  {
    if ks != [] {
      KeySetMembers(ks[1..]);
      KeySetSize(ks[1..]);
      assert ks[0] !in ks[1..];
    }
  }

  /** A list without repetitions that holds exactly the elements of `s`
      lists each of them once. */
  lemma ListsSet(ks: seq<int>, s: set<int>)
    requires forall i, j :: 0 <= i < j < |ks| ==> ks[i] != ks[j]
    requires forall k :: k in ks <==> k in s
    ensures KeySet(ks) == s && |ks| == |s|
  {
    KeySetMembers(ks);
    forall k
      ensures k in KeySet(ks) <==> k in s
    {
      if k in s {
        assert k in ks;
      }
    }
    KeySetSize(ks);
  }

  lemma SeqAssoc<T>(a: seq<T>, b: seq<T>, c: seq<T>)
    ensures (a + b) + c == a + (b + c)
  {
  }

  /** A property of each position's pair of two equally long lists holds
      after one more pair is appended with the property. */
  lemma AppendPairs<A, B>(ok: (nat, A, B) -> bool, xs: seq<A>, ys: seq<B>, x: A, y: B)
    requires |xs| == |ys|
    requires forall j :: 0 <= j < |xs| ==> ok(j, xs[j], ys[j])
    requires ok(|xs|, x, y)
    ensures forall j :: 0 <= j < |xs| + 1 ==> ok(j, (xs + [x])[j], (ys + [y])[j])
  {
    assert forall j :: 0 <= j < |xs| ==> (xs + [x])[j] == xs[j] && (ys + [y])[j] == ys[j];
  }

  /** `xs.map(f)`: the image of each element, in order. */
  function MapSeq<A, B>(f: A -> B, xs: seq<A>): (r: seq<B>)
    ensures |r| == |xs|
    ensures forall i :: 0 <= i < |xs| ==> r[i] == f(xs[i])
  {
    if xs == [] then []
    else
      var n := |xs| - 1;
      assert forall i :: 0 <= i < n ==> xs[..n][i] == xs[i];
      MapSeq(f, xs[..n]) + [f(xs[n])]
  }

  /** Mapping one more element appends its image. */
  lemma MapSeqStep<A, B>(f: A -> B, xs: seq<A>, i: nat)
    requires i < |xs|
    ensures MapSeq(f, xs[..i + 1]) == MapSeq(f, xs[..i]) + [f(xs[i])]
  {
    assert xs[..i + 1][..i] == xs[..i];
  }
}
