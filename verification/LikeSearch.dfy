/** escapeLike against the SQL LIKE matcher, and what SearchOwners finds and in which order. */
module LikeSearch {
  import opened Strings
  import opened Wrappers

  /** strings.ReplaceAll with a one-character needle. */
  function ReplaceAll(s: string, needle: char, with: string): string {
    if s == "" then "" else (if s[0] == needle then with else [s[0]]) + ReplaceAll(s[1..], needle, with)
  }

  /** The three passes of escapeLike. */
  function EscapeLike(s: string): string {
    ReplaceAll(ReplaceAll(ReplaceAll(s, '\\', "\\\\"), '%', "\\%"), '_', "\\_")
  }

  predicate IsSpecial(c: char) {
    c == '\\' || c == '%' || c == '_'
  }

  /** The reference: a backslash before each special character. */
  function EscapeEach(s: string): string {
    if s == "" then "" else (if IsSpecial(s[0]) then ['\\', s[0]] else [s[0]]) + EscapeEach(s[1..])
  }

  lemma {:induction false} ReplaceAllConcat(s: string, t: string, needle: char, with: string)
    ensures ReplaceAll(s + t, needle, with) == ReplaceAll(s, needle, with) + ReplaceAll(t, needle, with)
  {
    if s == "" {
      assert s + t == t;
    } else {
      assert (s + t)[1..] == s[1..] + t;
      ReplaceAllConcat(s[1..], t, needle, with);
    }
  }

  /** Later passes touch neither the backslashes nor the escapes of earlier passes. */
  lemma {:induction false} PassesAreOneEscape(s: string)
    ensures EscapeLike(s) == EscapeEach(s)
  {
    if s != "" {
      PassesAreOneEscape(s[1..]);
      var head := [s[0]];
      assert s == head + s[1..];
      ReplaceAllConcat(head, s[1..], '\\', "\\\\");
      var h1 := ReplaceAll(head, '\\', "\\\\");
      var t1 := ReplaceAll(s[1..], '\\', "\\\\");
      ReplaceAllConcat(h1, t1, '%', "\\%");
      var h2 := ReplaceAll(h1, '%', "\\%");
      ReplaceAllConcat(h2, ReplaceAll(t1, '%', "\\%"), '_', "\\_");
      EscapeOneChar(s[0]);
    }
  }

  lemma ReplaceOne(c: char, needle: char, with: string)
    ensures ReplaceAll([c], needle, with) == if c == needle then with else [c]
  {
    assert [c][1..] == "" && with + "" == with && [c] + "" == [c];
  }

  lemma ReplaceTwo(c: char, d: char, needle: char, with: string)
    ensures ReplaceAll([c, d], needle, with)
         == (if c == needle then with else [c]) + (if d == needle then with else [d])
  {
    assert [c, d] == [c] + [d];
    ReplaceAllConcat([c], [d], needle, with);
    ReplaceOne(c, needle, with);
    ReplaceOne(d, needle, with);
  }

  lemma EscapeOneChar(c: char)
    ensures EscapeLike([c]) == if IsSpecial(c) then ['\\', c] else [c]
  {
    ReplaceOne(c, '\\', "\\\\");
    if c == '\\' {
      ReplaceTwo('\\', '\\', '%', "\\%");
      ReplaceTwo('\\', '\\', '_', "\\_");
    } else {
      ReplaceOne(c, '%', "\\%");
      ReplaceOne(c, '_', "\\_");
      ReplaceTwo('\\', c, '_', "\\_");
    }
  }

  /* ---------- LIKE ... ESCAPE '\' ---------- */

  /** The pattern does not end in a lone escape character (which PostgreSQL reports as an error). */
  predicate WellFormed(p: string) {
    if p == "" then true
    else if p[0] == '\\' then |p| > 1 && WellFormed(p[2..])
    else WellFormed(p[1..])
  }

  predicate Like(p: string, s: string)
    decreases |p| + |s|
  {
    if p == "" then s == ""
    else if p[0] == '\\' then |p| > 1 && s != "" && s[0] == p[1] && Like(p[2..], s[1..])
    else if p[0] == '%' then Like(p[1..], s) || (s != "" && Like(p, s[1..]))
    else s != "" && (p[0] == '_' || s[0] == p[0]) && Like(p[1..], s[1..])
  }

  /** An escaped query at the head of a pattern matches exactly itself. */
  lemma {:induction false} EscapedHead(q: string, rest: string, s: string)
    ensures Like(EscapeEach(q) + rest, s) <==> q <= s && Like(rest, s[|q|..])
    ensures WellFormed(EscapeEach(q) + rest) == WellFormed(rest)
  {
    if q == "" {
      assert EscapeEach(q) + rest == rest && s[0..] == s;
    } else {
      var p := EscapeEach(q) + rest;
      var tail := EscapeEach(q[1..]) + rest;
      assert p == (if IsSpecial(q[0]) then ['\\', q[0]] else [q[0]]) + tail;
      EscapedHead(q[1..], rest, if s == "" then "" else s[1..]);
      if s != "" {
        assert q <= s <==> q[0] == s[0] && q[1..] <= s[1..];
        if |q| <= |s| { assert s[1..][|q[1..]|..] == s[|q|..]; }
      }
      if IsSpecial(q[0]) { assert p[2..] == tail; } else { assert p[1..] == tail; }
    }
  }

  lemma {:induction false} PercentHead(p: string, s: string)
    ensures Like("%" + p, s) <==> exists k | 0 <= k <= |s| :: Like(p, s[k..])
    decreases |s|
  {
    assert ("%" + p)[1..] == p && s[0..] == s;
    if s != "" {
      PercentHead(p, s[1..]);
      assert forall k | 0 <= k <= |s[1..]| :: s[1..][k..] == s[k + 1..];
      if Like("%" + p, s[1..]) {
        var k :| 0 <= k <= |s[1..]| && Like(p, s[1..][k..]);
        assert Like(p, s[k + 1..]);
      }
      if k :| 0 < k <= |s| && Like(p, s[k..]) {
        assert s[1..][k - 1..] == s[k..];
        assert Like(p, s[1..][k - 1..]);
      }
    }
  }

  lemma AnyTail(s: string)
    ensures Like("%", s)
  {
    assert "%" + "" == "%" && Like("", s[|s|..]);
    PercentHead("", s);
  }

  /** The three patterns of SearchOwners mean equality, prefix and substring, for all strings. */
  lemma EscapingIsExact(q: string, s: string)
    ensures Like(EscapeLike(q), s) <==> s == q
    ensures Like(EscapeLike(q) + "%", s) <==> q <= s
    ensures Like("%" + EscapeLike(q) + "%", s) <==> Contains(s, q)
    ensures WellFormed(EscapeLike(q)) && WellFormed(EscapeLike(q) + "%") && WellFormed("%" + EscapeLike(q) + "%")
  {
    PassesAreOneEscape(q);
    var e := EscapeEach(q);
    assert e + "" == e;
    EscapedHead(q, "", s);
    if q <= s && Like("", s[|q|..]) { assert s == q + s[|q|..]; }
    PrefixPattern(q, s);
    PercentHead(e + "%", s);
    assert "%" + e + "%" == "%" + (e + "%");
    forall k | 0 <= k <= |s| ensures Like(e + "%", s[k..]) <==> q <= s[k..] { PrefixPattern(q, s[k..]); }
    assert ("%" + (e + "%"))[1..] == e + "%";
    assert WellFormed("%") by { assert "%"[1..] == ""; }
  }

  lemma PrefixPattern(q: string, s: string)
    ensures Like(EscapeEach(q) + "%", s) <==> q <= s
    ensures WellFormed(EscapeEach(q) + "%") == WellFormed("%")
  {
    EscapedHead(q, "%", s);
    if q <= s { AnyTail(s[|q|..]); }
  }

  /* ---------- ILIKE ---------- */

  /** Both sides folded with LOWER, on ASCII text. */
  predicate ILike(p: string, s: string) {
    Like(Lower(p), Lower(s))
  }

  lemma {:induction false} LowerOfEscape(q: string)
    ensures Lower(EscapeEach(q)) == EscapeEach(Lower(q))
  {
    if q != "" {
      LowerOfEscape(q[1..]);
      var h := if IsSpecial(q[0]) then ['\\', q[0]] else [q[0]];
      LowerConcat(h, EscapeEach(q[1..]));
      assert Lower(q)[1..] == Lower(q[1..]);
      assert Lower(h) == if IsSpecial(LowerChar(q[0])) then ['\\', LowerChar(q[0])] else [LowerChar(q[0])];
    }
  }

  lemma ILikeIsExact(q: string, s: string)
    ensures ILike(EscapeLike(q) + "%", s) <==> Lower(q) <= Lower(s)
    ensures ILike("%" + EscapeLike(q) + "%", s) <==> Contains(Lower(s), Lower(q))
  {
    PassesAreOneEscape(q);
    PassesAreOneEscape(Lower(q));
    LowerOfEscape(q);
    LowerConcat(EscapeEach(q), "%");
    LowerConcat("%", EscapeEach(q));
    LowerConcat("%" + EscapeEach(q), "%");
    assert Lower("%") == "%";
    EscapingIsExact(Lower(q), Lower(s));
  }

  /* ---------- SearchOwners ---------- */

  /** A row of company_users; first_name, last_name and role are nullable. */
  datatype Owner = Owner(phone: string, first: Option<string>, last: Option<string>, role: Option<string>)

  datatype Truth = Yes | No | Null

  /** SQL's OR. */
  function Or(a: Truth, b: Truth): Truth {
    if a == Yes || b == Yes then Yes else if a == Null || b == Null then Null else No
  }

  function ILikeField(field: Option<string>, p: string): Truth {
    match field
    case None => Null
    case Some(s) => if ILike(p, s) then Yes else No
  }

  /** phone ILIKE p OR first_name ILIKE p OR last_name ILIKE p */
  function AnyILike(u: Owner, p: string): Truth {
    Or(Or(ILikeField(Some(u.phone), p), ILikeField(u.first, p)), ILikeField(u.last, p))
  }

  function Trim(s: string): string {
    if s != "" && s[0] == ' ' then Trim(s[1..])
    else if s != "" && s[|s| - 1] == ' ' then Trim(s[..|s| - 1])
    else s
  }

  predicate IsOwner(u: Owner) {
    Trim(if u.role.Some? then u.role.value else "") == "OWNER"
  }

  predicate AllBlank(s: string) {
    forall i | 0 <= i < |s| :: s[i] == ' '
  }

  lemma {:induction false} TrimParts(s: string) returns (lead: string, tail: string)
    ensures s == lead + Trim(s) + tail && AllBlank(lead) && AllBlank(tail)
    decreases |s|
  {
    if s != "" && s[0] == ' ' {
      lead, tail := TrimParts(s[1..]);
      lead := " " + lead;
    } else if s != "" && s[|s| - 1] == ' ' {
      lead, tail := TrimParts(s[..|s| - 1]);
      tail := tail + " ";
    } else {
      lead, tail := "", "";
    }
  }

  lemma {:induction false} TrimOf(lead: string, core: string, tail: string)
    requires AllBlank(lead) && AllBlank(tail) && core != "" && core[0] != ' ' && core[|core| - 1] != ' '
    ensures Trim(lead + core + tail) == core
    decreases |lead| + |tail|
  {
    var s := lead + core + tail;
    if lead != "" {
      assert s[1..] == lead[1..] + core + tail;
      TrimOf(lead[1..], core, tail);
    } else if tail != "" {
      assert s[0] == core[0] && s[..|s| - 1] == lead + core + tail[..|tail| - 1];
      TrimOf(lead, core, tail[..|tail| - 1]);
    } else {
      assert s == core;
    }
  }

  /** An owner is a user whose role is OWNER between any number of spaces. */
  lemma OwnerRole(u: Owner)
    ensures IsOwner(u) <==>
              u.role.Some? && exists a, b :: AllBlank(a) && AllBlank(b) && u.role.value == a + "OWNER" + b
  {
    assert Trim("") == "";
    if IsOwner(u) && u.role.Some? {
      var lead, tail := TrimParts(u.role.value);
    }
    if u.role.Some? {
      forall a, b | AllBlank(a) && AllBlank(b) && u.role.value == a + "OWNER" + b ensures IsOwner(u) {
        TrimOf(a, "OWNER", b);
      }
    }
  }

  /** The WHERE clause. */
  predicate Found(u: Owner, q: string) {
    IsOwner(u) && AnyILike(u, "%" + EscapeLike(q) + "%") == Yes
  }

  predicate SomeField(u: Owner, ok: string -> bool) {
    ok(u.phone) || (u.first.Some? && ok(u.first.value)) || (u.last.Some? && ok(u.last.value))
  }

  predicate Exact(u: Owner, q: string) {
    SomeField(u, s => Lower(Trim(s)) == Lower(q))
  }

  predicate Starts(u: Owner, q: string) {
    SomeField(u, s => Lower(q) <= Lower(s))
  }

  /** The two kinds of match in words: some field that is not NULL equals the query up to case and outer
      spaces, or starts with it up to case. */
  lemma MatchesInWords(u: Owner, q: string)
    ensures Exact(u, q) <==>
              || Lower(Trim(u.phone)) == Lower(q)
              || (u.first.Some? && Lower(Trim(u.first.value)) == Lower(q))
              || (u.last.Some? && Lower(Trim(u.last.value)) == Lower(q))
    ensures Starts(u, q) <==>
              || Lower(q) <= Lower(u.phone)
              || (u.first.Some? && Lower(q) <= Lower(u.first.value))
              || (u.last.Some? && Lower(q) <= Lower(u.last.value))
  {
  }

  /** Position of a truth value under ORDER BY ... DESC, where nulls come first. */
  function DescRank(t: Truth): nat {
    match t case Null => 0 case Yes => 1 case No => 2
  }

  /** The ORDER BY clause: row u comes strictly before row v. */
  predicate Before(u: Owner, v: Owner, q: string) {
    var start, part := EscapeLike(q) + "%", "%" + EscapeLike(q) + "%";
    if Exact(u, q) != Exact(v, q) then Exact(u, q)
    else if AnyILike(u, start) != AnyILike(v, start) then DescRank(AnyILike(u, start)) < DescRank(AnyILike(v, start))
    else if AnyILike(u, part) != AnyILike(v, part) then DescRank(AnyILike(u, part)) < DescRank(AnyILike(v, part))
    else TextLess(u.phone, v.phone)
  }

  lemma StartKey(u: Owner, q: string)
    ensures AnyILike(u, EscapeLike(q) + "%") ==
              if Starts(u, q) then Yes else if u.first.None? || u.last.None? then Null else No
  {
    ILikeIsExact(q, u.phone);
    if u.first.Some? { ILikeIsExact(q, u.first.value); }
    if u.last.Some? { ILikeIsExact(q, u.last.value); }
  }

  predicate ContainsFolded(s: string, q: string) {
    Contains(Lower(s), Lower(q))
  }

  lemma PartKey(field: Option<string>, q: string)
    ensures ILikeField(field, "%" + EscapeLike(q) + "%")
         == if field.None? then Null else if ContainsFolded(field.value, q) then Yes else No
  {
    if field.Some? { ILikeIsExact(q, field.value); }
  }

  /** The search finds exactly the owners with the query, in any case, inside one of their fields. */
  lemma FoundMeansContains(u: Owner, q: string)
    ensures Found(u, q) <==>
              IsOwner(u) && (|| ContainsFolded(u.phone, q)
                             || (u.first.Some? && ContainsFolded(u.first.value, q))
                             || (u.last.Some? && ContainsFolded(u.last.value, q)))
  {
    PartKey(Some(u.phone), q);
    PartKey(u.first, q);
    PartKey(u.last, q);
  }

  /** Exact matches always come first. Among rows alike in that, a row that starts with the query comes
      before a row that does not, as documented, exactly when the latter has no NULL name. */
  lemma DocumentedOrderIff(u: Owner, v: Owner, q: string)
    requires Found(u, q) && Found(v, q)
    ensures Exact(u, q) && !Exact(v, q) ==> Before(u, v, q)
    ensures Exact(u, q) == Exact(v, q) && Starts(u, q) && !Starts(v, q) ==>
              (Before(u, v, q) <==> v.first.Some? && v.last.Some?)
  {
    StartKey(u, q);
    StartKey(v, q);
  }

  lemma FoundByPhone(u: Owner, q: string, k: nat)
    requires k <= |u.phone| && Lower(q) <= Lower(u.phone)[k..] && IsOwner(u)
    ensures Found(u, q)
  {
    assert ContainsFolded(u.phone, q);
    FoundMeansContains(u, q);
  }

  lemma SampleRows(u: Owner, v: Owner, q: string)
    requires q == "+9" && u == Owner("+998", Some("A"), Some("B"), Some("OWNER"))
    requires v == Owner("1+9", Some("A"), None, Some("OWNER"))
    ensures Starts(u, q) && !Starts(v, q) && !Exact(u, q) && !Exact(v, q) && IsOwner(u) && IsOwner(v)
    ensures Lower(q) <= Lower(u.phone)[0..] && Lower(q) <= Lower(v.phone)[1..]
  {
    assert Lower(q) == "+9" && Lower(u.phone) == "+998" && Lower(v.phone) == "1+9";
    assert Lower("A") == "a" && Lower("B") == "b";
    assert Trim(u.phone) == "+998" && Trim(v.phone) == "1+9";
    assert Trim("A") == "A" && Trim("B") == "B" && Trim("OWNER") == "OWNER";
    assert Lower(u.phone)[0..] == "+998" && Lower(v.phone)[1..] == "+9";
  }

  /** An owner without a last name overtakes one whose phone starts with the query. */
  lemma NullNameOvertakes(u: Owner, v: Owner, q: string)
    requires q == "+9" && u == Owner("+998", Some("A"), Some("B"), Some("OWNER"))
    requires v == Owner("1+9", Some("A"), None, Some("OWNER"))
    ensures Found(u, q) && Found(v, q) && Starts(u, q) && !Starts(v, q) && Before(v, u, q)
  {
    SampleRows(u, v, q);
    FoundByPhone(u, q, 0);
    FoundByPhone(v, q, 1);
    NullStart(u, v, q);
  }

  lemma NullStart(u: Owner, v: Owner, q: string)
    requires Exact(u, q) == Exact(v, q) && Starts(u, q) && !Starts(v, q) && (v.first.None? || v.last.None?)
    ensures Before(v, u, q)
  {
    StartKey(u, q);
    StartKey(v, q);
  }
}
