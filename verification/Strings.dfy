/** Go's string operations on ASCII text. */
module Strings {

  function LowerChar(c: char): char {
    if 'A' <= c <= 'Z' then c + 'a' - 'A' else c
  }

  function UpperChar(c: char): char {
    if 'a' <= c <= 'z' then c - 'a' + 'A' else c
  }

  function Lower(s: string): (r: string)
    ensures |r| == |s| && forall i | 0 <= i < |s| :: r[i] == LowerChar(s[i])
  {
    seq(|s|, i requires 0 <= i < |s| => LowerChar(s[i]))
  }

  function Upper(s: string): (r: string)
    ensures |r| == |s| && forall i | 0 <= i < |s| :: r[i] == UpperChar(s[i])
  {
    seq(|s|, i requires 0 <= i < |s| => UpperChar(s[i]))
  }

  lemma LowerConcat(s: string, t: string)
    ensures Lower(s + t) == Lower(s) + Lower(t)
  {
  }

  predicate Contains(s: string, q: string) {
    exists k | 0 <= k <= |s| :: q <= s[k..]
  }

  /** The other way to say it: q with something around it. */
  lemma ContainsSplit(s: string, q: string) returns (before: string, after: string)
    requires Contains(s, q)
    ensures s == before + q + after
  {
    var k :| 0 <= k <= |s| && q <= s[k..];
    before, after := s[..k], s[k + |q|..];
    assert s[k..] == q + after;
  }

  lemma ContainsMiddle(before: string, q: string, after: string)
    ensures Contains(before + q + after, q)
  {
    assert (before + q + after)[|before|..] == q + after;
  }

  predicate IsSpace(c: char) {
    c == ' ' || '\t' <= c <= '\r'
  }

  function TrimLeft(s: string): string {
    if s != "" && IsSpace(s[0]) then TrimLeft(s[1..]) else s
  }

  function TrimRight(s: string): string {
    if s != "" && IsSpace(s[|s| - 1]) then TrimRight(s[..|s| - 1]) else s
  }

  /** strings.TrimSpace */
  function TrimSpace(s: string): string {
    TrimRight(TrimLeft(s))
  }

  predicate IsTrimmed(s: string) {
    s == "" || (!IsSpace(s[0]) && !IsSpace(s[|s| - 1]))
  }

  predicate AllSpace(s: string) {
    forall i | 0 <= i < |s| :: IsSpace(s[i])
  }

  lemma {:induction false} TrimLeftParts(s: string) returns (lead: string)
    ensures s == lead + TrimLeft(s) && AllSpace(lead)
    ensures TrimLeft(s) == "" || !IsSpace(TrimLeft(s)[0])
  {
    if s != "" && IsSpace(s[0]) {
      var rest := TrimLeftParts(s[1..]);
      lead := [s[0]] + rest;
    } else {
      lead := "";
    }
  }

  lemma {:induction false} TrimRightParts(s: string) returns (tail: string)
    ensures s == TrimRight(s) + tail && AllSpace(tail)
    ensures TrimRight(s) == "" || !IsSpace(TrimRight(s)[|TrimRight(s)| - 1])
  {
    if s != "" && IsSpace(s[|s| - 1]) {
      var rest := TrimRightParts(s[..|s| - 1]);
      tail := rest + [s[|s| - 1]];
    } else {
      tail := "";
    }
  }

  /** Trimming takes space off both ends and nothing else. */
  lemma TrimParts(s: string) returns (lead: string, tail: string)
    ensures s == lead + TrimSpace(s) + tail && AllSpace(lead) && AllSpace(tail) && IsTrimmed(TrimSpace(s))
  {
    lead := TrimLeftParts(s);
    tail := TrimRightParts(TrimLeft(s));
  }

  lemma TrimTrimmed(s: string)
    requires IsTrimmed(s)
    ensures TrimSpace(s) == s
  {
  }

  /** Go's < on strings. */
  predicate TextLess(s: string, t: string) {
    t != "" && (s == "" || s[0] < t[0] || (s[0] == t[0] && TextLess(s[1..], t[1..])))
  }

  lemma {:induction false} TextLessTotal(s: string, t: string)
    ensures s != t ==> (TextLess(s, t) <==> !TextLess(t, s))
    ensures s == t ==> !TextLess(s, t)
  {
    if s != "" && t != "" {
      TextLessTotal(s[1..], t[1..]);
      assert s == [s[0]] + s[1..] && t == [t[0]] + t[1..];
    }
  }

  lemma {:induction false} TextLessTransitive(s: string, t: string, u: string)
    requires TextLess(s, t) && TextLess(t, u)
    ensures TextLess(s, u)
  {
    if s != "" && s[0] == t[0] == u[0] {
      TextLessTransitive(s[1..], t[1..], u[1..]);
    }
  }
}
