/** City codes: three letters of the name, a running number for repeats, eight bytes at most. */
module CityCodes {
  import opened Decimal
  import opened Filtering
  import opened Strings

  /** A dataset entry; `country` is the alpha-2 code found for it, "" when there is none. */
  datatype City = City(name: string, country: string)

  datatype CityRef = CityRef(id: string, code: string, name: string, country: string)

  predicate IsLetter(c: char) {
    'a' <= c <= 'z' || 'A' <= c <= 'Z'
  }

  /** The matches of [a-zA-Z]+, left to right. */
  function AlphaRuns(s: string): (parts: seq<string>)
    ensures forall i | 0 <= i < |parts| :: parts[i] != "" && forall j | 0 <= j < |parts[i]| :: IsLetter(parts[i][j])
    decreases |s|
  {
    if s == "" then []
    else if !IsLetter(s[0]) then AlphaRuns(s[1..])
    else var n := RunLength(s); [s[..n]] + AlphaRuns(s[n..])
  }

  function RunLength(s: string): (n: nat)
    ensures n <= |s| && (forall i | 0 <= i < n :: IsLetter(s[i]))
    ensures s != "" && IsLetter(s[0]) ==> n > 0
  {
    if s == "" || !IsLetter(s[0]) then 0 else 1 + RunLength(s[1..])
  }

  function Letters(s: string): (r: string)
    ensures forall i | 0 <= i < |r| :: 'A' <= r[i] <= 'Z'
  {
    if s == "" then "" else (if IsLetter(s[0]) then [UpperChar(s[0])] else "") + Letters(s[1..])
  }

  function Join(parts: seq<string>): string {
    if parts == [] then "" else parts[0] + Join(parts[1..])
  }

  lemma {:induction false} LettersConcat(s: string, t: string)
    ensures Letters(s + t) == Letters(s) + Letters(t)
  {
    if s == "" {
      assert s + t == t;
    } else {
      assert (s + t)[1..] == s[1..] + t;
      LettersConcat(s[1..], t);
    }
  }

  lemma LettersOfRun(run: string, parts: seq<string>, rest: string)
    requires Letters(Join(parts)) == Letters(rest)
    ensures Letters(Join([run] + parts)) == Letters(run + rest)
  {
    assert ([run] + parts)[1..] == parts;
    LettersConcat(run, Join(parts));
    LettersConcat(run, rest);
  }

  /** The runs hold all the letters, in order. */
  lemma {:induction false} RunsHoldLetters(s: string)
    ensures Letters(Join(AlphaRuns(s))) == Letters(s)
    decreases |s|
  {
    if s != "" {
      if IsLetter(s[0]) {
        var n := RunLength(s);
        RunsHoldLetters(s[n..]);
        LettersOfRun(s[..n], AlphaRuns(s[n..]), s[n..]);
        assert s == s[..n] + s[n..];
      } else {
        RunsHoldLetters(s[1..]);
      }
    }
  }

  function FirstThree(s: string): string {
    if |s| <= 3 then s else s[..3]
  }

  /** The inner loop: letters of one run until the code is full. */
  method AddRun(code0: string, part: string) returns (code: string)
    requires |code0| < 3 && forall j | 0 <= j < |part| :: IsLetter(part[j])
    ensures code == FirstThree(code0 + Letters(part))
  {
    code := code0;
    for j := 0 to |part|
      invariant |code| < 3 && code + Letters(part[j..]) == code0 + Letters(part)
    {
      assert part[j..][1..] == part[j + 1..];
      ghost var rest := Letters(part[j + 1..]);
      assert Letters(part[j..]) == [UpperChar(part[j])] + rest;
      ghost var before := code;
      code := code + [UpperChar(part[j])];
      assert before + ([UpperChar(part[j])] + rest) == code + rest;
      if |code| >= 3 {
        assert (code + rest)[..3] == code;
        return;
      }
    }
    assert part[|part|..] == "" && code + "" == code;
  }

  /** The letters of the runs from i on. */
  ghost function LettersFrom(parts: seq<string>, i: nat): string
    requires i <= |parts|
  {
    Letters(Join(parts[i..]))
  }

  lemma NextRun(parts: seq<string>, i: nat)
    requires i < |parts|
    ensures LettersFrom(parts, i) == Letters(parts[i]) + LettersFrom(parts, i + 1)
  {
    assert parts[i..][1..] == parts[i + 1..];
    LettersConcat(parts[i], Join(parts[i + 1..]));
  }

  lemma CodeSoFar(before: string, run: string, rest: string, code: string)
    requires |before| < 3 && code == FirstThree(before + run)
    ensures |code| < 3 ==> before + (run + rest) == code + rest
    ensures |code| >= 3 ==> FirstThree(before + (run + rest)) == code
  {
    assert before + (run + rest) == (before + run) + rest;
  }

  function IsLetterOf(): char -> bool {
    (c: char) => 'a' <= c <= 'z' || 'A' <= c <= 'Z'
  }

  lemma {:induction false} LettersPicked(s: string)
    ensures Letters(s) == Upper(Pick(s, IsLetterOf()))
  {
    if s != "" {
      var n := |s| - 1;
      LettersPicked(s[..n]);
      assert s == s[..n] + [s[n]];
      LettersConcat(s[..n], [s[n]]);
      assert [s[n]][1..] == "";
    }
  }

  /** The letters of a name are its characters a-z and A-Z, in order, in upper case. */
  lemma LettersInWords(s: string) returns (kept: string)
    ensures Filters(s, (c: char) => 'a' <= c <= 'z' || 'A' <= c <= 'Z', kept)
    ensures Letters(s) == Upper(kept)
  {
    var isLetter := (c: char) => 'a' <= c <= 'z' || 'A' <= c <= 'Z';
    kept := Pick(s, isLetter);
    PickFilters(s, isLetter);
    PickSame(s, isLetter, IsLetterOf());
    LettersPicked(s);
  }

  /** codeFromName: the first three letters, or fewer if there are no more, in upper case. */
  method CodeFromName(name: string) returns (code: string)
    ensures code == FirstThree(Letters(name))
    ensures code <= Letters(name) && |code| == if |Letters(name)| < 3 then |Letters(name)| else 3
  {
    var parts := AlphaRuns(name);
    RunsHoldLetters(name);
    assert parts[0..] == parts;
    code := "";
    for i := 0 to |parts|
      invariant |code| < 3 && code + LettersFrom(parts, i) == Letters(name)
    {
      NextRun(parts, i);
      ghost var before := code;
      code := AddRun(code, parts[i]);
      CodeSoFar(before, Letters(parts[i]), LettersFrom(parts, i + 1), code);
      if |code| >= 3 {
        return;
      }
    }
    assert code + "" == code;
  }

  /* ---------- codes ---------- */

  function Country(c: City): string {
    if c.country == "" then "XX" else c.country
  }

  function Base(c: City): string {
    var code := FirstThree(Letters(c.name));
    if code == "" then "XXX" else code
  }

  predicate IsBase(b: string) {
    1 <= |b| <= 3 && forall i | 0 <= i < |b| :: 'A' <= b[i] <= 'Z'
  }

  function Key(c: City): (string, string) {
    (Country(c), Base(c))
  }

  function Keys(cities: seq<City>): (ks: seq<(string, string)>)
    ensures |ks| == |cities| && forall i | 0 <= i < |cities| :: ks[i] == Key(cities[i])
  {
    seq(|cities|, i requires 0 <= i < |cities| => Key(cities[i]))
  }

  /** How often a (country, base code) occurs. */
  function Count(keys: seq<(string, string)>, k: (string, string)): nat {
    if keys == [] then 0
    else Count(keys[..|keys| - 1], k) + if keys[|keys| - 1] == k then 1 else 0
  }

  /** The position of entry i among those with its country and base code. */
  function Rank(keys: seq<(string, string)>, i: nat): nat
    requires i < |keys|
  {
    Count(keys[..i], keys[i])
  }

  function Truncate(s: string): string {
    if |s| > 8 then s[..8] else s
  }

  function Label(b: string, n: nat): string {
    if n == 0 then b else Truncate(b + Itoa(n))
  }

  function CodeAt(keys: seq<(string, string)>, i: nat): string
    requires i < |keys|
  {
    Label(keys[i].1, Rank(keys, i))
  }

  function RefOf(cities: seq<City>, i: nat): CityRef
    requires i < |cities|
  {
    var code := CodeAt(Keys(cities), i);
    CityRef(code + "-" + Country(cities[i]), code, cities[i].name, Country(cities[i]))
  }

  function SeenCount(seen: map<string, map<string, nat>>, k: (string, string)): nat {
    if k.0 in seen && k.1 in seen[k.0] then seen[k.0][k.1] else 0
  }

  /** The running number of a city, counted up in the nested map. */
  method NextNumber(seen0: map<string, map<string, nat>>, country: string, code: string)
    returns (n: nat, seen: map<string, map<string, nat>>)
    ensures n == SeenCount(seen0, (country, code))
    ensures forall k :: SeenCount(seen, k) == SeenCount(seen0, k) + if k == (country, code) then 1 else 0
  {
    seen := seen0;
    if country !in seen {
      seen := seen[country := map[]];
    }
    n := if code in seen[country] then seen[country][code] else 0;
    var row: map<string, nat> := seen[country];
    seen := seen[country := row[code := n + 1]];
  }

  method CountryAndBase(c: City) returns (country: string, code: string)
    ensures (country, code) == Key(c)
  {
    country := c.country;
    if country == "" {
      country := "XX";
    }
    code := CodeFromName(c.name);
    if code == "" {
      code := "XXX";
    }
  }

  method Numbered(code0: string, n: nat) returns (code: string)
    ensures code == Label(code0, n)
  {
    code := code0;
    if n > 0 {
      code := code + Itoa(n);
      if |code| > 8 {
        code := code[..8];
      }
    }
  }

  lemma CountNext(keys: seq<(string, string)>, i: nat, k: (string, string))
    requires i < |keys|
    ensures Count(keys[..i + 1], k) == Count(keys[..i], k) + if keys[i] == k then 1 else 0
  {
    assert keys[..i + 1][..i] == keys[..i];
  }

  /** The nested map holds the counts of the cities read so far. */
  ghost predicate Counted(seen: map<string, map<string, nat>>, keys: seq<(string, string)>, i: nat)
    requires i <= |keys|
  {
    forall k :: SeenCount(seen, k) == Count(keys[..i], k)
  }

  lemma CountedNext(before: map<string, map<string, nat>>, after: map<string, map<string, nat>>,
                    keys: seq<(string, string)>, i: nat)
    requires i < |keys| && Counted(before, keys, i)
    requires forall k :: SeenCount(after, k) == SeenCount(before, k) + if k == keys[i] then 1 else 0
    ensures Counted(after, keys, i + 1)
  {
    forall k ensures SeenCount(after, k) == Count(keys[..i + 1], k) {
      CountNext(keys, i, k);
    }
  }

  lemma RefIs(cities: seq<City>, i: nat, n: nat, code: string, ref: CityRef)
    requires i < |cities| && n == Rank(Keys(cities), i) && code == Label(Base(cities[i]), n)
    requires ref == CityRef(code + "-" + Country(cities[i]), code, cities[i].name, Country(cities[i]))
    ensures ref == RefOf(cities, i)
  {
  }

  /** One turn of the loop of LoadCities. */
  method NextRef(cities: seq<City>, i: nat, seen: map<string, map<string, nat>>)
    returns (ref: CityRef, next: map<string, map<string, nat>>)
    requires i < |cities| && Counted(seen, Keys(cities), i)
    ensures ref == RefOf(cities, i) && Counted(next, Keys(cities), i + 1)
  {
    ghost var keys := Keys(cities);
    var country, base := CountryAndBase(cities[i]);
    var n;
    n, next := NextNumber(seen, country, base);
    assert n == Rank(keys, i);
    CountedNext(seen, next, keys, i);
    var code := Numbered(base, n);
    ref := CityRef(code + "-" + country, code, cities[i].name, country);
    RefIs(cities, i, n, code, ref);
  }

  ghost predicate Listed(list: seq<CityRef>, cities: seq<City>, n: nat)
    requires n <= |cities|
  {
    |list| == n && forall i | 0 <= i < n :: list[i] == RefOf(cities, i)
  }

  lemma ListedNext(list: seq<CityRef>, cities: seq<City>, n: nat, ref: CityRef)
    requires n < |cities| && Listed(list, cities, n) && ref == RefOf(cities, n)
    ensures Listed(list + [ref], cities, n + 1)
  {
    var more := list + [ref];
    assert |more| == n + 1;
    forall i | 0 <= i < n + 1 ensures more[i] == RefOf(cities, i) {
      assert more[i] == if i < n then list[i] else ref;
    }
  }

  /** The loop of LoadCities over the dataset. */
  method LoadCities(cities: seq<City>) returns (list: seq<CityRef>)
    ensures Listed(list, cities, |cities|)
  {
    var seen: map<string, map<string, nat>> := map[];
    list := [];
    for i := 0 to |cities|
      invariant Listed(list, cities, i)
      invariant Counted(seen, Keys(cities), i)
    {
      var ref;
      ref, seen := NextRef(cities, i, seen);
      ListedNext(list, cities, i, ref);
      list := list + [ref];
    }
  }

  /* ---------- distinctness ---------- */

  ghost predicate AllBases(keys: seq<(string, string)>) {
    forall i | 0 <= i < |keys| :: IsBase(keys[i].1)
  }

  lemma KeysHaveBases(cities: seq<City>)
    ensures AllBases(Keys(cities))
  {
  }

  /** How many labels of eight bytes a base code has room for. */
  function Room(b: string): nat
    requires IsBase(b)
  {
    Pow10(8 - |b|)
  }

  lemma LabelShape(b: string, n: nat)
    requires IsBase(b)
    ensures |Label(b, n)| <= 8
    ensures n < Room(b) ==> Label(b, n) == if n == 0 then b else b + Itoa(n)
  {
    ItoaLength(n, 8 - |b|);
  }

  /** The capital letters a code starts with. */
  function Prefix(s: string): string {
    if s != "" && 'A' <= s[0] <= 'Z' then [s[0]] + Prefix(s[1..]) else ""
  }

  lemma {:induction false} PrefixOfBase(b: string, t: string)
    requires forall i | 0 <= i < |b| :: 'A' <= b[i] <= 'Z'
    requires t == "" || IsDigit(t[0])
    ensures Prefix(b + t) == b
  {
    if b == "" {
      assert b + t == t;
    } else {
      assert (b + t)[1..] == b[1..] + t;
      PrefixOfBase(b[1..], t);
    }
  }

  lemma LabelParts(b: string, n: nat) returns (t: string)
    requires IsBase(b) && n < Room(b)
    ensures Label(b, n) == b + t && (n == 0 ==> t == "") && (n > 0 ==> t == Itoa(n))
    ensures Prefix(Label(b, n)) == b
  {
    LabelShape(b, n);
    t := if n == 0 then "" else Itoa(n);
    assert b + "" == b;
    PrefixOfBase(b, t);
  }

  lemma LabelsDiffer(b1: string, n1: nat, b2: string, n2: nat)
    requires IsBase(b1) && IsBase(b2) && n1 < Room(b1) && n2 < Room(b2)
    requires Label(b1, n1) == Label(b2, n2)
    ensures b1 == b2 && n1 == n2
  {
    var t1 := LabelParts(b1, n1);
    var t2 := LabelParts(b2, n2);
    assert t1 == Label(b1, n1)[|b1|..] && t2 == Label(b2, n2)[|b2|..];
    if n1 > 0 && n2 > 0 { ItoaInjective(n1, n2); }
  }

  lemma CutToEight(b: string, k: nat)
    requires |b| + k == 8 && k >= 1
    ensures Truncate(b + (['1'] + Zeros(k))) == Truncate(b + (['1'] + Zeros(k - 1)))
  {
    var t := b + (['1'] + Zeros(k - 1));
    assert b + (['1'] + Zeros(k)) == t + ['0'];
  }

  /** The first index that no longer fits is cut down to a tenth of itself. */
  lemma LabelsCollide(b: string)
    requires IsBase(b)
    ensures Label(b, Room(b)) == Label(b, Pow10(7 - |b|)) && Pow10(7 - |b|) < Room(b)
  {
    var k := 8 - |b|;
    ItoaOfPow10(k);
    ItoaOfPow10(k - 1);
    CutToEight(b, k);
  }

  lemma {:induction false} RankBelowCount(keys: seq<(string, string)>, i: nat)
    requires i < |keys|
    ensures Rank(keys, i) < Count(keys, keys[i])
  {
    var n := |keys| - 1;
    if i < n {
      assert keys[..n][..i] == keys[..i];
      RankBelowCount(keys[..n], i);
    }
  }

  lemma {:induction false} RankIsFound(keys: seq<(string, string)>, k: (string, string), r: nat) returns (i: nat)
    requires r < Count(keys, k)
    ensures i < |keys| && keys[i] == k && Rank(keys, i) == r
  {
    var n := |keys| - 1;
    if r < Count(keys[..n], k) {
      i := RankIsFound(keys[..n], k, r);
      assert keys[..n][..i] == keys[..i];
    } else {
      i := n;
    }
  }

  lemma RanksDiffer(keys: seq<(string, string)>, i: nat, j: nat)
    requires i < j < |keys| && keys[i] == keys[j]
    ensures Rank(keys, i) < Rank(keys, j)
  {
    assert keys[..j][..i] == keys[..i];
    RankBelowCount(keys[..j], i);
  }

  ghost predicate Fits(keys: seq<(string, string)>)
    requires AllBases(keys)
  {
    forall i | 0 <= i < |keys| :: Count(keys, keys[i]) <= Room(keys[i].1)
  }

  predicate Clash(keys: seq<(string, string)>, i: nat, j: nat)
    requires i < |keys| && j < |keys|
  {
    keys[i].0 == keys[j].0 && CodeAt(keys, i) == CodeAt(keys, j)
  }

  ghost predicate CodesDistinct(keys: seq<(string, string)>) {
    forall i, j | 0 <= i < j < |keys| :: !Clash(keys, i, j)
  }

  lemma FittingCodesDiffer(keys: seq<(string, string)>, i: nat, j: nat)
    requires AllBases(keys) && Fits(keys) && i < j < |keys|
    ensures !Clash(keys, i, j)
  {
    RankBelowCount(keys, i);
    RankBelowCount(keys, j);
    if Clash(keys, i, j) {
      LabelsDiffer(keys[i].1, Rank(keys, i), keys[j].1, Rank(keys, j));
      RanksDiffer(keys, i, j);
    }
  }

  lemma OverfullCodesCollide(keys: seq<(string, string)>, i: nat)
    requires AllBases(keys) && i < |keys| && Count(keys, keys[i]) > Room(keys[i].1)
    ensures !CodesDistinct(keys)
  {
    var k := keys[i];
    LabelsCollide(k.1);
    var p := RankIsFound(keys, k, Pow10(7 - |k.1|));
    var q := RankIsFound(keys, k, Room(k.1));
    assert Clash(keys, p, q) && Clash(keys, q, p) && p != q;
  }

  lemma CodesDistinctIffFits(keys: seq<(string, string)>)
    requires AllBases(keys)
    ensures CodesDistinct(keys) <==> Fits(keys)
  {
    if Fits(keys) {
      forall i, j | 0 <= i < j < |keys| ensures !Clash(keys, i, j) {
        FittingCodesDiffer(keys, i, j);
      }
    } else {
      var i :| 0 <= i < |keys| && Count(keys, keys[i]) > Room(keys[i].1);
      OverfullCodesCollide(keys, i);
    }
  }

  lemma CodeFits(cities: seq<City>, i: nat)
    requires i < |cities|
    ensures |RefOf(cities, i).code| <= 8
  {
    KeysHaveBases(cities);
    LabelShape(Keys(cities)[i].1, Rank(Keys(cities), i));
  }

  /** Two entries that a client cannot tell apart by country and code. */
  predicate SameCode(cities: seq<City>, i: nat, j: nat)
    requires i < |cities| && j < |cities|
  {
    RefOf(cities, i).country == RefOf(cities, j).country && RefOf(cities, i).code == RefOf(cities, j).code
  }

  ghost predicate RefsDistinct(cities: seq<City>) {
    forall i, j | 0 <= i < j < |cities| :: !SameCode(cities, i, j)
  }

  lemma ClashOfRefs(cities: seq<City>, i: nat, j: nat)
    requires i < |cities| && j < |cities|
    ensures Clash(Keys(cities), i, j) <==> SameCode(cities, i, j)
  {
  }

  lemma RefsDistinctIff(cities: seq<City>)
    ensures RefsDistinct(cities) <==> CodesDistinct(Keys(cities))
  {
    if RefsDistinct(cities) {
      forall i, j | 0 <= i < j < |cities| ensures !Clash(Keys(cities), i, j) {
        ClashOfRefs(cities, i, j);
      }
    } else {
      var i, j :| 0 <= i < j < |cities| && SameCode(cities, i, j);
      ClashOfRefs(cities, i, j);
    }
  }

  /** Every generated code has at most eight bytes, and (country, code) is unique in the list exactly
      when no base code is used more than 10^(8 - its length) times in a country. */
  lemma UniqueIff(cities: seq<City>)
    ensures forall i | 0 <= i < |cities| :: |RefOf(cities, i).code| <= 8
    ensures RefsDistinct(cities) <==> AllBases(Keys(cities)) && Fits(Keys(cities))
  {
    KeysHaveBases(cities);
    CodesDistinctIffFits(Keys(cities));
    RefsDistinctIff(cities);
    forall i | 0 <= i < |cities| ensures |RefOf(cities, i).code| <= 8 {
      CodeFits(cities, i);
    }
  }

  /** The code of a city that n cities of its country and base precede: the base alone for n = 0, the base
      and n in decimal as long as that fits into eight bytes, and otherwise the first eight bytes of it. */
  lemma CodeOfNth(cities: seq<City>, i: nat)
    requires i < |cities|
    ensures
      var c, r := cities[i], RefOf(cities, i);
      var letters := Letters(c.name);
      var base := if |letters| == 0 then "XXX" else if |letters| < 3 then letters else letters[..3];
      var country := if c.country == "" then "XX" else c.country;
      var n := Count(Keys(cities[..i]), (country, base));
      && r.country == country && r.name == c.name && r.id == r.code + "-" + country
      && (n == 0 ==> r.code == base)
      && (n > 0 && |base + Itoa(n)| <= 8 ==> r.code == base + Itoa(n))
      && (n > 0 && |base + Itoa(n)| > 8 ==> r.code == (base + Itoa(n))[..8])
  {
    var c := cities[i];
    var letters := Letters(c.name);
    var base := if |letters| == 0 then "XXX" else if |letters| < 3 then letters else letters[..3];
    var country := if c.country == "" then "XX" else c.country;
    KeysOfPrefix(cities, i);
    assert letters[..|letters|] == letters;
    assert Keys(cities)[i] == (country, base);
    LabelInWords(base, Rank(Keys(cities), i));
  }

  lemma LabelInWords(b: string, n: nat)
    ensures n == 0 ==> Label(b, n) == b
    ensures n > 0 && |b + Itoa(n)| <= 8 ==> Label(b, n) == b + Itoa(n)
    ensures n > 0 && |b + Itoa(n)| > 8 ==> Label(b, n) == (b + Itoa(n))[..8]
  {
  }

  lemma {:induction false} KeysOfPrefix(cities: seq<City>, i: nat)
    requires i <= |cities|
    ensures Keys(cities)[..i] == Keys(cities[..i])
  {
  }

  /** Count is the number of positions that hold the key. */
  lemma {:induction false} CountInWords(keys: seq<(string, string)>, k: (string, string))
    ensures Count(keys, k) == |set i | 0 <= i < |keys| && keys[i] == k|
  {
    if keys != [] {
      var n := |keys| - 1;
      CountInWords(keys[..n], k);
      var before := set i | 0 <= i < |keys[..n]| && keys[..n][i] == k;
      var all := set i | 0 <= i < |keys| && keys[i] == k;
      assert all == if keys[n] == k then before + {n} else before;
    }
  }

  lemma RoomOfThree(b: string)
    requires IsBase(b)
    ensures Room(b) >= 100000 && (|b| == 3 ==> Room(b) == 100000)
  {
    assert Pow10(1) == 10 && Pow10(2) == 100 && Pow10(3) == 1000 && Pow10(4) == 10000 && Pow10(5) == 100000;
    assert Pow10(6) == 10 * Pow10(5) && Pow10(7) == 10 * Pow10(6);
  }

  function UpToDash(s: string): string {
    if s == "" || s[0] == '-' then "" else [s[0]] + UpToDash(s[1..])
  }

  lemma {:induction false} UpToDashOf(code: string, country: string)
    requires '-' !in code
    ensures UpToDash(code + "-" + country) == code
  {
    if code == "" {
      assert code + "-" + country == "-" + country;
    } else {
      assert (code + "-" + country)[1..] == code[1..] + "-" + country;
      UpToDashOf(code[1..], country);
    }
  }

  lemma LabelHasNoDash(b: string, n: nat)
    requires IsBase(b)
    ensures '-' !in Label(b, n)
  {
    var s := b + Itoa(n);
    forall i | 0 <= i < |s| ensures s[i] != '-' {
      if i >= |b| { assert s[i] == Itoa(n)[i - |b|]; }
    }
  }

  /** With at most 100000 cities per country and base code all codes and all ids are distinct. */
  lemma IdsDistinct(cities: seq<City>, i: nat, j: nat)
    requires forall k | 0 <= k < |cities| :: Count(Keys(cities), Key(cities[k])) <= 100000
    requires i < j < |cities|
    ensures RefOf(cities, i).id != RefOf(cities, j).id
    ensures RefOf(cities, i).country != RefOf(cities, j).country || RefOf(cities, i).code != RefOf(cities, j).code
  {
    var keys := Keys(cities);
    KeysHaveBases(cities);
    forall k | 0 <= k < |keys| ensures Count(keys, keys[k]) <= Room(keys[k].1) {
      assert Count(keys, Key(cities[k])) <= 100000;
      RoomOfThree(keys[k].1);
    }
    FittingCodesDiffer(keys, i, j);
    var a, b := RefOf(cities, i), RefOf(cities, j);
    LabelHasNoDash(keys[i].1, Rank(keys, i));
    LabelHasNoDash(keys[j].1, Rank(keys, j));
    UpToDashOf(a.code, a.country);
    UpToDashOf(b.code, b.country);
    assert a.country == a.id[|a.code| + 1..] && b.country == b.id[|b.code| + 1..];
  }
}
