/** The string operations of Go that the remote grammar and the monitor rely on. */
module Text {
  import opened Common

  predicate HasPrefix(s: string, p: string) {
    |p| <= |s| && s[..|p|] == p
  }

  /** Length of the longest prefix of s whose characters all satisfy p. */
  function Span(s: string, p: char -> bool): (n: nat)
    ensures n <= |s|
    ensures forall i :: 0 <= i < n ==> p(s[i])
    ensures n < |s| ==> !p(s[n])
  {
    if s != "" && p(s[0]) then 1 + Span(s[1..], p) else 0
  }

  lemma SpanIs(s: string, p: char -> bool, n: nat)
    requires n <= |s| && (forall i :: 0 <= i < n ==> p(s[i])) && (n < |s| ==> !p(s[n]))
    ensures Span(s, p) == n
  {
    if n > 0 {
      SpanIs(s[1..], p, n - 1);
    }
  }

  // ---- decimal numbers: strconv.Atoi and strconv.Itoa ----

  predicate IsDigit(c: char) { '0' <= c <= '9' }

  predicate DigitsFrom(s: string, lo: nat) { forall i :: lo <= i < |s| ==> IsDigit(s[i]) }

  /** Value of the digits s[lo..hi]. */
  function DigitsValue(s: string, lo: nat, hi: nat): nat
    requires lo <= hi <= |s| && DigitsFrom(s, lo)
  {
    if hi == lo then 0 else 10 * DigitsValue(s, lo, hi - 1) + (s[hi - 1] as int - '0' as int)
  }

  /** An optional sign and at least one digit; a value out of the machine range is an error in
      Go and out of every range that the program compares with, so it is left unbounded. */
  function Atoi(s: string): Option<int> {
    if |s| >= 2 && (s[0] == '+' || s[0] == '-') && DigitsFrom(s, 1) then
      Some(if s[0] == '-' then 0 - DigitsValue(s, 1, |s|) else DigitsValue(s, 1, |s|) as int)
    else if s != "" && DigitsFrom(s, 0) then Some(DigitsValue(s, 0, |s|))
    else None
  }

  lemma {:induction false} DigitsOfPrefix(s: string, t: string, hi: nat)
    requires hi <= |s| && DigitsFrom(s, 0) && DigitsFrom(s + t, 0)
    ensures DigitsValue(s + t, 0, hi) == DigitsValue(s, 0, hi)
  {
    if hi > 0 { DigitsOfPrefix(s, t, hi - 1); }
  }

  function Itoa(n: nat): (s: string)
    ensures s != "" && DigitsFrom(s, 0) && DigitsValue(s, 0, |s|) == n
  {
    var d := [('0' as int + n % 10) as char];
    if n < 10 then d
    else
      DigitsOfPrefix(Itoa(n / 10), d, |Itoa(n / 10)|);
      Itoa(n / 10) + d
  }

  // ---- byte-wise string order, as Go compares strings ----

  predicate Less(s: string, t: string) {
    t != "" && (s == "" || s[0] < t[0] || (s[0] == t[0] && Less(s[1..], t[1..])))
  }

  lemma {:induction false} LessTotal(s: string, t: string)
    ensures Less(s, t) || s == t || Less(t, s)
  {
    if s != "" && t != "" && s[0] == t[0] {
      LessTotal(s[1..], t[1..]);
      assert s == [s[0]] + s[1..] && t == [t[0]] + t[1..];
    }
  }

  lemma {:induction false} LessAsymmetric(s: string, t: string)
    requires Less(s, t)
    ensures !Less(t, s) && s != t
  {
    if s != "" && s[0] == t[0] {
      LessAsymmetric(s[1..], t[1..]);
    }
  }

  lemma {:induction false} LessTransitive(s: string, t: string, u: string)
    requires Less(s, t) && Less(t, u)
    ensures Less(s, u)
  {
    if s != "" && s[0] == t[0] && t[0] == u[0] {
      LessTransitive(s[1..], t[1..], u[1..]);
    }
  }

  // ---- strings.TrimSpace, strings.Index, strings.LastIndex ----

  /** unicode.IsSpace */
  predicate IsSpace(c: char) {
    var n := c as int;
    9 <= n <= 13 || n == 0x20 || n == 0x85 || n == 0xA0 || n == 0x1680 || 0x2000 <= n <= 0x200a
    || n == 0x2028 || n == 0x2029 || n == 0x202f || n == 0x205f || n == 0x3000
  }

  /** Neither end of s is white space. */
  predicate Trimmed(s: string) {
    s == "" || (!IsSpace(s[0]) && !IsSpace(s[|s| - 1]))
  }

  function TextStart(s: string, from: nat): (i: nat)
    requires from <= |s|
    ensures from <= i <= |s| && (i < |s| ==> !IsSpace(s[i]))
    decreases |s| - from
  {
    if from < |s| && IsSpace(s[from]) then TextStart(s, from + 1) else from
  }

  function TextEnd(s: string, from: nat, to: nat): (i: nat)
    requires from <= to <= |s|
    ensures from <= i <= to && (from < i ==> !IsSpace(s[i - 1]))
  {
    if from < to && IsSpace(s[to - 1]) then TextEnd(s, from, to - 1) else to
  }

  function TrimSpace(s: string): (r: string)
    ensures Trimmed(r)
    ensures Trimmed(s) ==> r == s
  {
    var i := TextStart(s, 0);
    s[i..TextEnd(s, i, |s|)]
  }

  /** Position of the first c, or |s| when there is none. */
  function IndexOf(s: string, c: char): (i: nat)
    ensures i <= |s| && (forall j :: 0 <= j < i ==> s[j] != c) && (i < |s| ==> s[i] == c)
  {
    IndexFrom(s, c, 0)
  }

  function IndexFrom(s: string, c: char, from: nat): (i: nat)
    requires from <= |s|
    ensures from <= i <= |s| && (forall j :: from <= j < i ==> s[j] != c) && (i < |s| ==> s[i] == c)
    decreases |s| - from
  {
    if from == |s| || s[from] == c then from else IndexFrom(s, c, from + 1)
  }

  predicate Has(s: string, c: char) { IndexOf(s, c) < |s| }

  lemma TrimSpaceKeepsOut(s: string, c: char)
    requires !Has(s, c)
    ensures !Has(TrimSpace(s), c)
  {
    var i := TextStart(s, 0);
    var t := TrimSpace(s);
    assert forall j :: 0 <= j < |t| ==> t[j] == s[i + j];
  }

  /** Position of the last c, or -1 when there is none. */
  function LastIndexOf(s: string, c: char): (i: int)
    ensures -1 <= i < |s| && (forall j :: i < j < |s| ==> s[j] != c) && (0 <= i ==> s[i] == c)
  {
    LastIndexBefore(s, c, |s|)
  }

  function LastIndexBefore(s: string, c: char, to: nat): (i: int)
    requires to <= |s|
    ensures -1 <= i < to && (forall j :: i < j < to ==> s[j] != c) && (0 <= i ==> s[i] == c)
  {
    if to == 0 then -1 else if s[to - 1] == c then to - 1 else LastIndexBefore(s, c, to - 1)
  }

  lemma IndexIs(s: string, c: char, i: nat)
    requires i < |s| && s[i] == c && forall j :: 0 <= j < i ==> s[j] != c
    ensures IndexOf(s, c) == i
  {}

  lemma LastIndexIs(s: string, c: char, i: nat)
    requires i < |s| && s[i] == c && forall j :: i < j < |s| ==> s[j] != c
    ensures LastIndexOf(s, c) == i
  {}
}
