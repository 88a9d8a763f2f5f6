/** Search in the city and country directories: the filter, the ranking and the order of the answer. */
module ReferenceSearch {
  import opened Filtering
  import opened Strings
  import opened StableSort
  import opened Wrappers

  /* ---------- normalisation ---------- */

  /** What the Replacer of normRefSearch deletes. */
  predicate IsDropped(c: char) {
    c in {' ', '-', '_', '\'', '\U{2019}', '`', '\U{02BB}', '\U{02BC}', '.', ',', '(', ')'}
  }

  function Strip(s: string): string {
    if s == "" then "" else (if IsDropped(s[0]) then "" else [s[0]]) + Strip(s[1..])
  }

  function Norm(s: string): string {
    Strip(Lower(TrimSpace(s)))
  }

  /** q as the handlers use it: for codes, and normalised. */
  function CodeQuery(q: string): string { Upper(TrimSpace(q)) }

  function NormQuery(q: string): string { Norm(TrimSpace(q)) }

  lemma {:induction false} StripConcat(s: string, t: string)
    ensures Strip(s + t) == Strip(s) + Strip(t)
  {
    if s == "" {
      assert s + t == t;
    } else {
      assert (s + t)[1..] == s[1..] + t;
      StripConcat(s[1..], t);
    }
  }

  function Kept(): char -> bool {
    (c: char) => !IsDropped(c)
  }

  lemma {:induction false} StripPicks(s: string)
    ensures Strip(s) == Pick(s, Kept())
  {
    if s != "" {
      var n := |s| - 1;
      StripPicks(s[..n]);
      assert s == s[..n] + [s[n]];
      StripConcat(s[..n], [s[n]]);
      assert [s[n]][1..] == "";
    }
  }

  /** The normal form keeps the trimmed text in lower case, without spaces and the listed punctuation. */
  lemma NormInWords(s: string)
    ensures Filters(Lower(TrimSpace(s)),
                    (c: char) => c !in {' ', '-', '_', '\'', '\U{2019}', '`', '\U{02BB}', '\U{02BC}', '.', ',', '(',
                        ')'},
                    Norm(s))
  {
    var kept := (c: char) => c !in {' ', '-', '_', '\'', '\U{2019}', '`', '\U{02BB}', '\U{02BC}', '.', ',', '(', ')'};
    var text := Lower(TrimSpace(s));
    StripPicks(text);
    PickSame(text, Kept(), kept);
    PickFilters(text, kept);
  }

  lemma NormOfTrimmed(s: string)
    ensures Norm(TrimSpace(s)) == Norm(s)
  {
    var lead, tail := TrimParts(s);
    TrimTrimmed(TrimSpace(s));
  }

  lemma SkipLead(lead: string, x: string, before: string, t: string, after: string)
    requires lead + x == before + t + after && AllSpace(lead) && t != "" && !IsSpace(t[0])
    ensures |lead| <= |before| && x == before[|lead|..] + t + after
  {
    var s := lead + x;
    assert s[|before|] == (before + t + after)[|before|] == t[0];
    assert forall i | 0 <= i < |lead| :: s[i] == lead[i];
    assert before[..|lead|] + before[|lead|..] == before;
    assert x == s[|lead|..] == (before + t + after)[|lead|..];
  }

  lemma SkipTail(x: string, tail: string, before: string, t: string, after: string)
    requires x + tail == before + t + after && AllSpace(tail) && t != "" && !IsSpace(t[|t| - 1])
    ensures |tail| <= |after| && x == before + t + after[..|after| - |tail|]
  {
    var s, k := x + tail, |before| + |t| - 1;
    assert s[k] == (before + t + after)[k] == t[|t| - 1];
    forall i | |x| <= i < |s| ensures IsSpace(s[i]) {
      assert s[i] == tail[i - |x|];
    }
    assert x == s[..|x|] == (before + t + after)[..|x|];
  }

  /** Text without space at its ends that occurs in s occurs in the trimmed s. */
  lemma FoundInTrimmed(s: string, t: string)
    requires t != "" && IsTrimmed(t) && Contains(s, t)
    ensures Contains(TrimSpace(s), t)
  {
    var lead, tail := TrimParts(s);
    var before, after := ContainsSplit(s, t);
    assert s == lead + (TrimSpace(s) + tail);
    SkipLead(lead, TrimSpace(s) + tail, before, t, after);
    SkipTail(TrimSpace(s), tail, before[|lead|..], t, after);
    ContainsMiddle(before[|lead|..], t, after[..|after| - |tail|]);
  }

  lemma LowerUpper(t: string)
    ensures Lower(Upper(t)) == Lower(t)
    ensures IsTrimmed(t) ==> IsTrimmed(Upper(t))
  {
  }

  /** A code that contains the raw query also contains it in normal form. */
  lemma RawMatchIsNormMatch(code: string, q: string)
    requires TrimSpace(q) != "" && Contains(code, CodeQuery(q))
    ensures Contains(Norm(code), NormQuery(q))
  {
    var t := TrimSpace(q);
    var lead, tail := TrimParts(q);
    TrimTrimmed(t);
    LowerUpper(t);
    FoundInTrimmed(code, Upper(t));
    var before, after := ContainsSplit(TrimSpace(code), Upper(t));
    LowerConcat(before + Upper(t), after);
    LowerConcat(before, Upper(t));
    StripConcat(Lower(before) + Lower(t), Lower(after));
    StripConcat(Lower(before), Lower(t));
    ContainsMiddle(Strip(Lower(before)), Strip(Lower(t)), Strip(Lower(after)));
  }

  /* ---------- rank ---------- */

  /** consider: an exact match gives the base rank, a prefix two more, any other occurrence four more. */
  function Consider(best: nat, field: string, base: nat, q: string): nat {
    if field == "" || q == "" then best
    else if field == q then (if base < best then base else best)
    else if q <= field then (if base + 2 < best then base + 2 else best)
    else if Contains(field, q) then (if base + 4 < best then base + 4 else best)
    else best
  }

  function ConsiderNames(best: nat, names: seq<string>, q: string): nat {
    if names == [] then best
    else ConsiderNames(Consider(best, Norm(names[0]), 1, q), names[1..], q)
  }

  function Rank(code: string, names: seq<string>, q: string): nat {
    if code == CodeQuery(q) then 0
    else ConsiderNames(Consider(9, Norm(code), 0, NormQuery(q)), names, NormQuery(q))
  }

  /** How well a field is hit: 0 exactly, 1 at its start, from 2 on anywhere. */
  predicate Hit(field: string, q: string, h: nat) {
    if h == 0 then field == q else if h == 1 then q <= field else Contains(field, q)
  }

  predicate SomeHit(names: seq<string>, q: string, h: nat) {
    exists i | 0 <= i < |names| :: Hit(Norm(names[i]), q, h)
  }

  lemma ContainsPrefix(s: string, q: string)
    requires q <= s
    ensures Contains(s, q)
  {
    assert s[0..] == s;
  }

  lemma ConsiderLevel(best: nat, field: string, base: nat, q: string, k: nat)
    requires q != "" && k <= 8 && base <= 1
    ensures Consider(best, field, base, q) <= k <==> best <= k || (k >= base && Hit(field, q, (k - base) / 2))
  {
    if q <= field { ContainsPrefix(field, q); }
  }

  lemma {:induction false} NamesLevel(best: nat, names: seq<string>, q: string, k: nat)
    requires q != "" && k <= 8
    ensures ConsiderNames(best, names, q) <= k <==> best <= k || (k >= 1 && SomeHit(names, q, (k - 1) / 2))
  {
    if names != [] {
      ConsiderLevel(best, Norm(names[0]), 1, q, k);
      NamesLevel(Consider(best, Norm(names[0]), 1, q), names[1..], q, k);
      if k >= 1 {
        SomeHitSplit(names, q, (k - 1) / 2);
      }
    }
  }

  lemma SomeHitSplit(names: seq<string>, q: string, h: nat)
    requires names != []
    ensures SomeHit(names, q, h) <==> Hit(Norm(names[0]), q, h) || SomeHit(names[1..], q, h)
  {
    if SomeHit(names, q, h) && !Hit(Norm(names[0]), q, h) {
      var i :| 0 <= i < |names| && Hit(Norm(names[i]), q, h);
      assert Hit(Norm(names[1..][i - 1]), q, h);
    }
    if SomeHit(names[1..], q, h) {
      var i :| 0 <= i < |names[1..]| && Hit(Norm(names[1..][i]), q, h);
      assert Hit(Norm(names[i + 1]), q, h);
    }
  }

  /** What every rank means: the code is worth 0, 2 or 4 and a name 1, 3 or 5 for an exact hit, a hit at
      the start and a hit anywhere, and the best one counts. */
  lemma RankLevels(code: string, names: seq<string>, q: string, k: nat)
    requires NormQuery(q) != "" && k <= 8
    ensures Rank(code, names, q) <= k <==>
              || code == CodeQuery(q)
              || Hit(Norm(code), NormQuery(q), k / 2)
              || (k >= 1 && SomeHit(names, NormQuery(q), (k - 1) / 2))
  {
    if code != CodeQuery(q) {
      ConsiderLevel(9, Norm(code), 0, NormQuery(q), k);
      NamesLevel(Consider(9, Norm(code), 0, NormQuery(q)), names, NormQuery(q), k);
    }
  }

  predicate SomeName(names: seq<string>, q: string) {
    exists i | 0 <= i < |names| :: Contains(Norm(names[i]), q)
  }

  /** For a query with a normal form the rank is below 9 exactly if the code or a name has a match. */
  lemma RankBelowNine(code: string, names: seq<string>, q: string)
    requires NormQuery(q) != ""
    ensures Rank(code, names, q) < 9 <==>
              Contains(code, CodeQuery(q)) || Contains(Norm(code), NormQuery(q)) || SomeName(names, NormQuery(q))
  {
    assert TrimSpace("") == "";
    RankLevels(code, names, q, 8);
    if Contains(code, CodeQuery(q)) {
      RawMatchIsNormMatch(code, q);
    }
    if code == CodeQuery(q) {
      ContainsPrefix(code, code);
    }
    if SomeHit(names, NormQuery(q), 3) {
      var i :| 0 <= i < |names| && Hit(Norm(names[i]), NormQuery(q), 3);
      assert Contains(Norm(names[i]), NormQuery(q));
    }
    if SomeName(names, NormQuery(q)) {
      var i :| 0 <= i < |names| && Contains(Norm(names[i]), NormQuery(q));
      assert Hit(Norm(names[i]), NormQuery(q), 3);
    }
  }

  /** Without a normal form nothing is considered: only the code itself can be hit. */
  lemma {:induction false} NothingConsidered(best: nat, names: seq<string>)
    ensures ConsiderNames(best, names, "") == best
  {
    if names != [] {
      NothingConsidered(best, names[1..]);
    }
  }

  /* ---------- filtered and sorted ---------- */

  /** An answer to a search: the entries of rank below 9, each as often as in the directory, by key. */
  ghost predicate Answers<T(!new)>(r: seq<T>, s: seq<T>, p: T -> bool, key: T -> Key) {
    && Sorted(r, key)
    && multiset(r) == multiset(Pick(s, p))
    && Stably(Pick(s, p), r, key)
    && (forall x :: x in r <==> x in s && p(x))
  }

  lemma SortedPick<T(!new)>(s: seq<T>, p: T -> bool, key: T -> Key)
    ensures Answers(Sort(Pick(s, p), key), s, p, key)
  {
    var r := Sort(Pick(s, p), key);
    SortIsStable(Pick(s, p), key);
    forall x ensures x in r <==> x in s && p(x) {
      Picked(s, p, x);
      assert x in r <==> x in multiset(r);
      assert x in Pick(s, p) <==> x in multiset(Pick(s, p));
    }
  }

  lemma ZeroFirst<T>(r: seq<T>, key: T -> Key, i: nat, j: nat)
    requires Sorted(r, key) && i < |r| && j < |r| && key(r[j]).rank == 0 < key(r[i]).rank
    ensures j < i
  {
    assert Less(key(r[j]), key(r[i]));
  }

  /** When filter and rank agree, the answer holds the ranked entries, those of rank 0 first. */
  lemma RankedAnswer<T(!new)>(s: seq<T>, p: T -> bool, key: T -> Key, scope: T -> bool, r: seq<T>)
    requires forall x | x in s :: p(x) <==> scope(x) && key(x).rank < 9
    requires Answers(r, s, p, key)
    ensures forall x :: x in r <==> x in s && scope(x) && key(x).rank < 9
    ensures forall i, j | 0 <= i < |r| && 0 <= j < |r| && key(r[j]).rank == 0 < key(r[i]).rank :: j < i
  {
    forall i, j | 0 <= i < |r| && 0 <= j < |r| && key(r[j]).rank == 0 < key(r[i]).rank ensures j < i {
      ZeroFirst(r, key, i, j);
    }
  }

  function Project<T, U>(s: seq<T>, f: T -> U): seq<U> {
    seq(|s|, i requires 0 <= i < |s| => f(s[i]))
  }

  predicate KnownLanguage(lang: string) {
    lang in {"ru", "uz", "en", "tr", "zh"}
  }

  /* ---------- cities ---------- */

  datatype City = City(id: string, code: string, nameRu: string, nameEn: Option<string>, country: string)

  datatype CityItem = CityItem(id: string, code: string, name: string, country: string)

  function English(c: City): string {
    if c.nameEn.Some? then TrimSpace(c.nameEn.value) else ""
  }

  /** cityNameByLang: Russian for ru, otherwise English, each falling back to the other. */
  function CityName(c: City, lang: string): string {
    var ru, en := TrimSpace(c.nameRu), English(c);
    if lang == "ru" then (if ru != "" then ru else en) else (if en != "" then en else ru)
  }

  /** The filter of the handler. */
  predicate CityMatches(c: City, q: string) {
    NormQuery(q) == ""
    || Contains(c.code, CodeQuery(q)) || Contains(Norm(c.code), NormQuery(q))
    || Contains(Norm(c.nameRu), NormQuery(q))
    || (c.nameEn.Some? && Contains(Norm(c.nameEn.value), NormQuery(q)))
  }

  function CityRank(c: City, lang: string, q: string): nat {
    Rank(c.code, [CityName(c, lang), TrimSpace(c.nameRu), English(c)], q)
  }

  function CityKey(lang: string, q: string): City -> Key {
    (c: City) => Key(CityRank(c, lang, q), c.country, c.code, CityName(c, lang))
  }

  function CityScope(country: string): City -> bool {
    (c: City) => country == "" || c.country == country
  }

  function CityFilter(country: string, q: string): City -> bool {
    (c: City) => CityScope(country)(c) && CityMatches(c, q)
  }

  /** Of all directories, a city survives the filter exactly if it is ranked. */
  lemma CityFilterIsRank(c: City, lang: string, q: string)
    requires NormQuery(q) != ""
    ensures CityMatches(c, q) <==> CityRank(c, lang, q) < 9
  {
    var names := [CityName(c, lang), TrimSpace(c.nameRu), English(c)];
    RankBelowNine(c.code, names, q);
    NormOfTrimmed(c.nameRu);
    if c.nameEn.Some? { NormOfTrimmed(c.nameEn.value); }
    assert Norm("") == "";
    assert names[0] == CityName(c, lang) && names[1] == TrimSpace(c.nameRu) && names[2] == English(c);
    assert SomeName(names, NormQuery(q)) <==>
      || Contains(Norm(names[0]), NormQuery(q))
      || Contains(Norm(names[1]), NormQuery(q))
      || Contains(Norm(names[2]), NormQuery(q));
  }

  function CityOrder(cities: seq<City>, country: string, lang: string, q: string): seq<City> {
    var hits := Pick(cities, CityFilter(country, q));
    if NormQuery(q) == "" then hits else Sort(hits, CityKey(lang, q))
  }

  function CityItemOf(lang: string): City -> CityItem {
    (c: City) => CityItem(c.id, c.code, CityName(c, lang), c.country)
  }

  /** The answer holds the ranked cities of the country, sorted, and what has rank 0 (every hit on the
      code does) comes before everything else. */
  lemma CitySearch(cities: seq<City>, country: string, lang: string, q: string)
    requires NormQuery(q) != ""
    ensures
      var r := CityOrder(cities, country, lang, q);
      && Answers(r, cities, CityFilter(country, q), CityKey(lang, q))
      && (forall c :: c in r <==> c in cities && CityScope(country)(c) && CityKey(lang, q)(c).rank < 9)
      && (forall i, j | 0 <= i < |r| && 0 <= j < |r| &&
            CityKey(lang, q)(r[j]).rank == 0 < CityKey(lang, q)(r[i]).rank :: j < i)
      && (forall i | 0 <= i < |r| && r[i].code == CodeQuery(q) :: CityKey(lang, q)(r[i]).rank == 0)
  {
    var scope := CityScope(country);
    forall c | c in cities ensures CityFilter(country, q)(c) <==> scope(c) && CityKey(lang, q)(c).rank < 9 {
      CityFilterIsRank(c, lang, q);
    }
    SortedPick(cities, CityFilter(country, q), CityKey(lang, q));
    RankedAnswer(cities, CityFilter(country, q), CityKey(lang, q), scope, CityOrder(cities, country, lang, q));
  }

  method FilterCities(cities: seq<City>, country: string, query: string) returns (tmp: seq<City>)
    ensures tmp == Pick(cities, CityFilter(country, query))
  {
    tmp := [];
    for i := 0 to |cities|
      invariant tmp == Pick(cities[..i], CityFilter(country, query))
    {
      assert cities[..i + 1][..i] == cities[..i];
      assert CityScope(country)(cities[i]) <==> country == "" || cities[i].country == country;
      if (country != "" && cities[i].country != country) || !CityMatches(cities[i], query) {
        continue;
      }
      tmp := tmp + [cities[i]];
    }
    assert cities[..|cities|] == cities;
  }

  method CityItems(tmp: seq<City>, lang: string) returns (out: seq<CityItem>)
    ensures out == Project(tmp, CityItemOf(lang))
  {
    out := [];
    for i := 0 to |tmp|
      invariant |out| == i && forall j | 0 <= j < i :: out[j] == CityItemOf(lang)(tmp[j])
    {
      out := out + [CityItem(tmp[i].id, tmp[i].code, CityName(tmp[i], lang), tmp[i].country)];
    }
  }

  /** The order of the answer: by rank, then by country, code and name. */
  lemma CitiesInOrder(cities: seq<City>, country: string, lang: string, q: string, i: nat, j: nat)
    requires NormQuery(q) != "" && i < j < |CityOrder(cities, country, lang, q)|
    ensures
      var a, b := CityOrder(cities, country, lang, q)[i], CityOrder(cities, country, lang, q)[j];
      && CityRank(a, lang, q) <= CityRank(b, lang, q)
      && (CityRank(a, lang, q) == CityRank(b, lang, q) ==>
            && !TextLess(b.country, a.country)
            && (a.country == b.country ==>
                  && !TextLess(b.code, a.code)
                  && (a.code == b.code ==> !TextLess(CityName(b, lang), CityName(a, lang)))))
  {
    SortedPick(cities, CityFilter(country, q), CityKey(lang, q));
    SortedInWords(CityOrder(cities, country, lang, q), CityKey(lang, q), i, j);
  }

  /** Without a query in normal form the answer is the cities of the country, or all cities when no
      country is given: each as often as in the directory, and in its order. */
  lemma CitiesWithoutQuery(cities: seq<City>, country: string, lang: string, q: string)
    requires NormQuery(q) == ""
    ensures Filters(cities, CityScope(country), CityOrder(cities, country, lang, q))
    ensures forall c :: c in CityOrder(cities, country, lang, q) <==>
          c in cities && (country == "" || c.country == country)
    ensures country == "" ==> CityOrder(cities, country, lang, q) == cities
  {
    var inside := CityScope(country);
    forall c | c in cities ensures CityFilter(country, q)(c) == inside(c) {
      assert CityMatches(c, q);
    }
    PickSame(cities, CityFilter(country, q), inside);
    PickFilters(cities, inside);
    if country == "" { PickAll(cities, inside); }
    forall c ensures c in Pick(cities, inside) <==> c in cities && (country == "" || c.country == country) {
      Picked(cities, inside, c);
    }
  }

  /** cityNameByLang in words: the trimmed name in the language's script, unless it is blank and the
      other is not. */
  lemma NameInLanguage(c: City, lang: string)
    ensures
      var ru, en := TrimSpace(c.nameRu), if c.nameEn.Some? then TrimSpace(c.nameEn.value) else "";
      && CityName(c, lang) in {ru, en}
      && (lang == "ru" && ru != "" ==> CityName(c, lang) == ru)
      && (lang != "ru" && en != "" ==> CityName(c, lang) == en)
      && (CityName(c, lang) == "" <==> ru == "" && en == "")
  {
  }

  /** The items of the answer, one for one: id, code and country of the city, and its name. */
  lemma CityItemsShow(cities: seq<City>, lang: string, k: nat)
    requires k < |cities|
    ensures
      var items := Project(cities, CityItemOf(lang));
      && |items| == |cities|
      && items[k].id == cities[k].id && items[k].code == cities[k].code && items[k].country == cities[k].country
      && items[k].name == CityName(cities[k], lang)
  {
  }

  /** The handler; None is the answer to an unknown language. */
  method GetReferenceCities(cities: seq<City>, language: string, countryCode: string, query: string)
    returns (items: Option<seq<CityItem>>)
    ensures items == if !KnownLanguage(Lower(TrimSpace(language))) then None
              else var lang := Lower(TrimSpace(language));
                Some(Project(CityOrder(cities, TrimSpace(countryCode), lang, query), CityItemOf(lang)))
  {
    var lang, country := Lower(TrimSpace(language)), TrimSpace(countryCode);
    if !KnownLanguage(lang) {
      return None;
    }
    var tmp := FilterCities(cities, country, query);
    if NormQuery(query) != "" {
      tmp := Sort(tmp, CityKey(lang, query));
    }
    var out := CityItems(tmp, lang);
    items := Some(out);
  }

  /* ---------- countries ---------- */

  /** A country code with its name in each of the five languages. */
  datatype Country = Country(code: string, ru: string, uz: string, en: string, tr: string, zh: string) {
    function Names(): seq<string> { [ru, uz, en, tr, zh] }

    function Name(lang: string): string {
      match lang case "ru" => ru case "uz" => uz case "tr" => tr case "zh" => zh case _ => en
    }
  }

  datatype CountryItem = CountryItem(code: string, name: string)

  predicate CountryMatches(c: Country, q: string) {
    TrimSpace(q) == ""
    || Contains(c.code, CodeQuery(q)) || Contains(Norm(c.code), NormQuery(q))
    || SomeName(c.Names(), NormQuery(q))
  }

  function CountryRank(c: Country, q: string): nat {
    Rank(c.code, c.Names(), q)
  }

  function CountryKey(lang: string, q: string): Country -> Key {
    (c: Country) => Key(CountryRank(c, q), "", c.code, c.Name(lang))
  }

  function CountryFilter(q: string): Country -> bool {
    c => CountryMatches(c, q)
  }

  /** The filter and the rank agree exactly for queries with a normal form, and on an exact code; a
      query of punctuation passes every country but ranks none. */
  lemma CountryFilterIsRankIff(c: Country, q: string)
    requires TrimSpace(q) != ""
    ensures (CountryMatches(c, q) <==> CountryRank(c, q) < 9) <==> NormQuery(q) != "" || c.code == CodeQuery(q)
  {
    if NormQuery(q) != "" {
      RankBelowNine(c.code, c.Names(), q);
    } else {
      ContainsPrefix(Norm(c.code), "");
      NothingConsidered(9, c.Names());
    }
  }

  /** A failing query: "-" passes the filter for every country and ranks a country with another code 9. */
  lemma DashPassesUnranked(c: Country)
    requires c.code != "-"
    ensures CountryMatches(c, "-") && CountryRank(c, "-") == 9
  {
    assert TrimSpace("-") == "-" && Lower("-") == "-" && Upper("-") == "-" && Strip("-") == "";
    ContainsPrefix(Norm(c.code), "");
    NothingConsidered(9, c.Names());
  }

  function CountryOrder(countries: seq<Country>, lang: string, q: string): seq<Country> {
    var hits := Pick(countries, CountryFilter(q));
    if TrimSpace(q) == "" then hits else Sort(hits, CountryKey(lang, q))
  }

  function CountryItemOf(lang: string): Country -> CountryItem {
    (c: Country) => CountryItem(c.code, c.Name(lang))
  }

  lemma CountrySearch(countries: seq<Country>, lang: string, q: string)
    requires NormQuery(q) != ""
    ensures
      var r := CountryOrder(countries, lang, q);
      && Answers(r, countries, CountryFilter(q), CountryKey(lang, q))
      && (forall c :: c in r <==> c in countries && CountryKey(lang, q)(c).rank < 9)
      && (forall i, j | 0 <= i < |r| && 0 <= j < |r| &&
            CountryKey(lang, q)(r[j]).rank == 0 < CountryKey(lang, q)(r[i]).rank :: j < i)
      && (forall i | 0 <= i < |r| && r[i].code == CodeQuery(q) :: CountryKey(lang, q)(r[i]).rank == 0)
  {
    assert TrimSpace(q) != "" by { assert NormQuery("") == ""; }
    forall c | c in countries ensures CountryFilter(q)(c) <==> true && CountryKey(lang, q)(c).rank < 9 {
      CountryFilterIsRankIff(c, q);
    }
    SortedPick(countries, CountryFilter(q), CountryKey(lang, q));
    RankedAnswer(countries, CountryFilter(q), CountryKey(lang, q), c => true, CountryOrder(countries, lang, q));
  }

  lemma CountriesInOrder(countries: seq<Country>, lang: string, q: string, i: nat, j: nat)
    requires TrimSpace(q) != "" && i < j < |CountryOrder(countries, lang, q)|
    ensures
      var a, b := CountryOrder(countries, lang, q)[i], CountryOrder(countries, lang, q)[j];
      && CountryRank(a, q) <= CountryRank(b, q)
      && (CountryRank(a, q) == CountryRank(b, q) ==>
            && !TextLess(b.code, a.code)
            && (a.code == b.code ==> !TextLess(b.Name(lang), a.Name(lang))))
  {
    SortedPick(countries, CountryFilter(q), CountryKey(lang, q));
    SortedInWords(CountryOrder(countries, lang, q), CountryKey(lang, q), i, j);
  }

  /** Without a query the answer is the directory. */
  lemma CountriesWithoutQuery(countries: seq<Country>, lang: string, q: string)
    requires TrimSpace(q) == ""
    ensures CountryOrder(countries, lang, q) == countries
  {
    PickAll(countries, CountryFilter(q));
  }

  /** The items of the answer, one for one: the code and the name in the asked language. */
  lemma CountryItemsShow(countries: seq<Country>, lang: string, k: nat)
    requires k < |countries|
    ensures
      var items := Project(countries, CountryItemOf(lang));
      && |items| == |countries| && items[k].code == countries[k].code
      && (lang == "ru" ==> items[k].name == countries[k].ru)
      && (lang == "uz" ==> items[k].name == countries[k].uz)
      && (lang == "en" ==> items[k].name == countries[k].en)
      && (lang == "tr" ==> items[k].name == countries[k].tr)
      && (lang == "zh" ==> items[k].name == countries[k].zh)
  {
  }

  method GetReferenceCountries(countries: seq<Country>, language: string, query: string)
    returns (items: Option<seq<CountryItem>>)
    ensures items == if !KnownLanguage(Lower(TrimSpace(language))) then None
              else var lang := Lower(TrimSpace(language));
                Some(Project(CountryOrder(countries, lang, query), CountryItemOf(lang)))
  {
    var lang := Lower(TrimSpace(language));
    if !KnownLanguage(lang) {
      return None;
    }
    var hits := [];
    for i := 0 to |countries|
      invariant hits == Pick(countries[..i], CountryFilter(query))
    {
      assert countries[..i + 1][..i] == countries[..i];
      if !CountryMatches(countries[i], query) {
        continue;
      }
      hits := hits + [countries[i]];
    }
    assert countries[..|countries|] == countries;
    if TrimSpace(query) != "" {
      hits := Sort(hits, CountryKey(lang, query));
    }
    items := Some(Project(hits, CountryItemOf(lang)));
  }
}
