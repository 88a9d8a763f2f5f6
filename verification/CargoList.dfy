/**
 cargo.Repo.List: the WHERE text it assembles with numbered placeholders, as a small syntax with an
 evaluator, and the pages that LIMIT and OFFSET cut out of the ordered result.
 */
module CargoList {
  import opened Strings
  import opened Wrappers
  import L = Lifecycle

  type Id = L.Id

  function StatusName(s: L.CargoStatus): string {
    match s
    case Created => "CREATED"
    case PendingModeration => "PENDING_MODERATION"
    case SearchingAll => "SEARCHING_ALL"
    case SearchingCompany => "SEARCHING_COMPANY"
    case Refused => "REJECTED"
    case Assigned => "ASSIGNED"
    case InProgress => "IN_PROGRESS"
    case InTransit => "IN_TRANSIT"
    case Delivered => "DELIVERED"
    case Completed => "COMPLETED"
    case Cancelled => "CANCELLED"
  }

  /** The names under which the statuses are stored and asked for. */
  lemma StatusNames()
    ensures StatusName(L.Created) == "CREATED" && StatusName(L.PendingModeration) == "PENDING_MODERATION"
    ensures StatusName(L.SearchingAll) == "SEARCHING_ALL" && StatusName(L.SearchingCompany) == "SEARCHING_COMPANY"
    ensures StatusName(L.Refused) == "REJECTED" && StatusName(L.Assigned) == "ASSIGNED"
    ensures StatusName(L.InProgress) == "IN_PROGRESS" && StatusName(L.InTransit) == "IN_TRANSIT"
    ensures StatusName(L.Delivered) == "DELIVERED" && StatusName(L.Completed) == "COMPLETED"
    ensures StatusName(L.Cancelled) == "CANCELLED"
  {
  }

  /** A cargo row as the query sees it; `offered` is whether offers has a row for it. */
  datatype Row = Row(cargo: L.Cargo, weight: real, truckType: string, created: int, offered: bool)

  datatype Filter = Filter(
    status: seq<string>,
    forDriverCompany: Option<Id>,
    weightMin: Option<real>,
    weightMax: Option<real>,
    truckType: string,
    createdFrom: string,
    createdTo: string,
    withOffers: Option<bool>)

  /** A condition of the WHERE clause; `n` is the number after the dollar sign. */
  datatype Cond =
    | NotDeleted
    | SearchingFor(n: nat)       // (status = 'SEARCHING_ALL' OR (status = 'SEARCHING_COMPANY' AND company_id = $n))
    | StatusAny(n: nat)
    | WeightAtLeast(n: nat)
    | WeightAtMost(n: nat)
    | TruckIs(n: nat)
    | CreatedFrom(n: nat)
    | CreatedTo(n: nat)
    | HasOffers

  datatype Arg = Uuid(id: Id) | Texts(texts: seq<string>) | Number(number: real) | Text(text: string) | Int(value: int)

  /* ---------- what the text means ---------- */

  predicate Digits(s: string) {
    forall i | 0 <= i < |s| :: '0' <= s[i] <= '9'
  }

  function Value(s: string): nat
    requires Digits(s)
  {
    if s == "" then 0 else 10 * Value(s[..|s| - 1]) + (s[|s| - 1] - '0') as nat
  }

  predicate IsLeapYear(y: nat) {
    y % 4 == 0 && (y % 100 != 0 || y % 400 == 0)
  }

  function DaysIn(y: nat, m: nat): nat {
    if m == 2 then (if IsLeapYear(y) then 29 else 28) else if m in {4, 6, 9, 11} then 30 else 31
  }

  /** A YYYY-MM-DD parameter cast to a date of the calendar, as the number yyyymmdd. */
  function DateOf(s: string): Option<int> {
    if |s| == 10 && s[4] == '-' && s[7] == '-' && Digits(s[..4]) && Digits(s[5..7]) && Digits(s[8..]) then
      var y, m, d := Value(s[..4]), Value(s[5..7]), Value(s[8..]);
      if y >= 1 && 1 <= m <= 12 && 1 <= d <= DaysIn(y, m) then Some(10000 * y + 100 * m + d) else None
    else None
  }

  function Param(args: seq<Arg>, n: nat): Option<Arg> {
    if 1 <= n <= |args| then Some(args[n - 1]) else None
  }

  /** The value of one condition on a row; None is a query error (unbound or mistyped parameter). */
  function Eval(c: Cond, args: seq<Arg>, row: Row): Option<bool> {
    match c
    case NotDeleted => Some(!row.cargo.deleted)
    case HasOffers => Some(row.offered)
    case SearchingFor(n) =>
      (match Param(args, n)
       case Some(Uuid(id)) =>
         Some(StatusName(row.cargo.status) == "SEARCHING_ALL"
              || (StatusName(row.cargo.status) == "SEARCHING_COMPANY" && row.cargo.company == Some(id)))
       case _ => None)
    case StatusAny(n) =>
      (match Param(args, n) case Some(Texts(ts)) => Some(StatusName(row.cargo.status) in ts) case _ => None)
    case WeightAtLeast(n) =>
      (match Param(args, n) case Some(Number(x)) => Some(row.weight >= x) case _ => None)
    case WeightAtMost(n) =>
      (match Param(args, n) case Some(Number(x)) => Some(row.weight <= x) case _ => None)
    case TruckIs(n) =>
      (match Param(args, n) case Some(Text(t)) => Some(row.truckType == t) case _ => None)
    case CreatedFrom(n) =>
      (match Param(args, n)
       case Some(Text(t)) => if DateOf(t).Some? then Some(row.created >= DateOf(t).value) else None
       case _ => None)
    case CreatedTo(n) =>
      (match Param(args, n)
       case Some(Text(t)) => if DateOf(t).Some? then Some(row.created <= DateOf(t).value) else None
       case _ => None)
  }

  function And(a: Option<bool>, b: Option<bool>): Option<bool> {
    if a.Some? && b.Some? then Some(a.value && b.value) else None
  }

  /** The conditions joined by AND. */
  function Where(conds: seq<Cond>, args: seq<Arg>, row: Row): Option<bool> {
    if conds == [] then Some(true)
    else And(Where(conds[..|conds| - 1], args, row), Eval(conds[|conds| - 1], args, row))
  }

  function Placeholder(c: Cond): seq<nat> {
    if c.NotDeleted? || c.HasOffers? then [] else [c.n]
  }

  function Placeholders(conds: seq<Cond>): seq<nat> {
    if conds == [] then [] else Placeholders(conds[..|conds| - 1]) + Placeholder(conds[|conds| - 1])
  }

  function UpTo(k: nat): seq<nat> {
    seq(k, i requires 0 <= i < k => i + 1)
  }

  /* ---------- what the filter means ---------- */

  predicate ContainsSearching(statuses: seq<string>) {
    "SEARCHING_ALL" in statuses || "SEARCHING_COMPANY" in statuses || "SEARCHING" in statuses
  }

  predicate DatesOk(f: Filter) {
    && (f.createdFrom != "" ==> DateOf(f.createdFrom).Some?)
    && (f.createdTo != "" ==> DateOf(f.createdTo).Some?)
  }

  predicate StatusMatches(f: Filter, row: Row) {
    if f.forDriverCompany.Some? && ContainsSearching(f.status) then
      || row.cargo.status == L.SearchingAll
      || (row.cargo.status == L.SearchingCompany && row.cargo.company == f.forDriverCompany)
    else
      f.status == [] || StatusName(row.cargo.status) in f.status
  }

  predicate Matches(f: Filter, row: Row)
    requires DatesOk(f)
  {
    && !row.cargo.deleted
    && StatusMatches(f, row)
    && (f.weightMin.Some? ==> row.weight >= f.weightMin.value)
    && (f.weightMax.Some? ==> row.weight <= f.weightMax.value)
    && (f.truckType != "" ==> row.truckType == f.truckType)
    && (f.createdFrom != "" ==> row.created >= DateOf(f.createdFrom).value)
    && (f.createdTo != "" ==> row.created <= DateOf(f.createdTo).value)
    && (f.withOffers == Some(true) ==> row.offered)
  }

  /** The filter in words: undeleted, and every field that is given says something about the row. A driver
      who asks for a searching status sees what is open to all and what is open to the own company. */
  lemma FilterInWords(f: Filter, row: Row)
    requires DatesOk(f)
    ensures
      var asksSearching := exists i ::
          0 <= i < |f.status| && f.status[i] in {"SEARCHING_ALL", "SEARCHING_COMPANY", "SEARCHING"};
      Matches(f, row) <==>
        && !row.cargo.deleted
        && (f.forDriverCompany.Some? && asksSearching ==>
              || row.cargo.status == L.SearchingAll
              || (row.cargo.status == L.SearchingCompany && row.cargo.company == f.forDriverCompany))
        && (!(f.forDriverCompany.Some? && asksSearching) && f.status != [] ==> StatusName(row.cargo.status) in f.status)
        && (forall x | f.weightMin == Some(x) :: row.weight >= x)
        && (forall x | f.weightMax == Some(x) :: row.weight <= x)
        && (f.truckType == "" || row.truckType == f.truckType)
        && (forall d | f.createdFrom != "" && DateOf(f.createdFrom) == Some(d) :: row.created >= d)
        && (forall d | f.createdTo != "" && DateOf(f.createdTo) == Some(d) :: row.created <= d)
        && (f.withOffers == Some(true) ==> row.offered)
  {
    if ContainsSearching(f.status) {
      var i :| 0 <= i < |f.status| && f.status[i] in {"SEARCHING_ALL", "SEARCHING_COMPANY", "SEARCHING"};
    }
  }

  /* ---------- dates ---------- */

  lemma {:induction false} ValueInjective(a: string, b: string)
    requires Digits(a) && Digits(b) && |a| == |b| && Value(a) == Value(b)
    ensures a == b
  {
    if a != "" {
      var n := |a| - 1;
      ValueInjective(a[..n], b[..n]);
      assert a == a[..n] + [a[n]] && b == b[..n] + [b[n]];
    }
  }

  lemma FirstCharDecides(c: char, d: char, x: string, y: string)
    ensures TextLess([c] + x, [d] + y) <==> c < d || (c == d && TextLess(x, y))
  {
    assert ([c] + x)[1..] == x && ([d] + y)[1..] == y;
  }

  lemma {:induction false} DigitsOrder(a: string, b: string, x: string, y: string)
    requires Digits(a) && Digits(b) && |a| == |b|
    ensures TextLess(a + x, b + y) <==> Value(a) < Value(b) || (a == b && TextLess(x, y))
  {
    if a == "" {
      assert a + x == x && b + y == y;
    } else {
      var n := |a| - 1;
      assert a == a[..n] + [a[n]] && b == b[..n] + [b[n]];
      assert a + x == a[..n] + ([a[n]] + x) && b + y == b[..n] + ([b[n]] + y);
      DigitsOrder(a[..n], b[..n], [a[n]] + x, [b[n]] + y);
      FirstCharDecides(a[n], b[n], x, y);
      if Value(a[..n]) == Value(b[..n]) { ValueInjective(a[..n], b[..n]); }
    }
  }

  lemma DateParts(s: string) returns (y: string, m: string, d: string)
    requires DateOf(s).Some?
    ensures s == y + ("-" + (m + ("-" + d))) && |y| == 4 && |m| == 2 && |d| == 2
    ensures Digits(y) && Digits(m) && Digits(d) && Value(m) <= 12 && Value(d) <= 31
    ensures DateOf(s) == Some(10000 * Value(y) + 100 * Value(m) + Value(d))
  {
    y, m, d := s[..4], s[5..7], s[8..];
    assert s == s[..4] + ([s[4]] + (s[5..7] + ([s[7]] + s[8..])));
  }

  /** Calendar dates compare like their texts. */
  lemma DatesCompareAsText(s: string, t: string)
    requires DateOf(s).Some? && DateOf(t).Some?
    ensures DateOf(s).value < DateOf(t).value <==> TextLess(s, t)
    ensures DateOf(s) == DateOf(t) <==> s == t
  {
    var y1, m1, d1 := DateParts(s);
    var y2, m2, d2 := DateParts(t);
    if Value(y1) == Value(y2) { ValueInjective(y1, y2); }
    if Value(m1) == Value(m2) { ValueInjective(m1, m2); }
    if Value(d1) == Value(d2) { ValueInjective(d1, d2); }
    DigitsOrder(d1, d2, "", "");
    assert d1 + "" == d1 && d2 + "" == d2;
    FirstCharDecides('-', '-', d1, d2);
    DigitsOrder(m1, m2, "-" + d1, "-" + d2);
    FirstCharDecides('-', '-', m1 + ("-" + d1), m2 + ("-" + d2));
    DigitsOrder(y1, y2, "-" + (m1 + ("-" + d1)), "-" + (m2 + ("-" + d2)));
  }

  /* ---------- the builder ---------- */

  /** Placeholders are numbered by the arguments they use. */
  ghost predicate WellNumbered(conds: seq<Cond>, args: seq<Arg>, argNum: nat) {
    Placeholders(conds) == UpTo(|args|) && argNum == |args| + 1
  }

  lemma UpToNext(k: nat)
    ensures UpTo(k + 1) == UpTo(k) + [k + 1]
  {
  }

  lemma {:induction false} LaterArgsIrrelevant(conds: seq<Cond>, args: seq<Arg>, more: seq<Arg>, row: Row)
    requires forall i | 0 <= i < |Placeholders(conds)| :: Placeholders(conds)[i] <= |args|
    ensures Where(conds, args + more, row) == Where(conds, args, row)
  {
    if conds != [] {
      var init, last := conds[..|conds| - 1], conds[|conds| - 1];
      assert Placeholders(conds) == Placeholders(init) + Placeholder(last);
      forall i | 0 <= i < |Placeholders(init)| ensures Placeholders(init)[i] <= |args| {
        assert Placeholders(conds)[i] == Placeholders(init)[i];
      }
      LaterArgsIrrelevant(init, args, more, row);
      if !last.NotDeleted? && !last.HasOffers? {
        assert Placeholders(conds)[|Placeholders(init)|] == last.n;
      }
    }
  }

  /** Appending a condition together with its argument conjoins its meaning. */
  lemma AppendArg(conds: seq<Cond>, args: seq<Arg>, argNum: nat, c: Cond, a: Arg)
    requires WellNumbered(conds, args, argNum) && Placeholder(c) == [argNum]
    ensures WellNumbered(conds + [c], args + [a], argNum + 1)
    ensures forall row :: Where(conds + [c], args + [a], row) == And(Where(conds, args, row), Eval(c, args + [a], row))
  {
    assert (conds + [c])[..|conds|] == conds;
    UpToNext(|args|);
    forall row ensures Where(conds + [c], args + [a], row) == And(Where(conds, args, row), Eval(c, args + [a], row)) {
      LaterArgsIrrelevant(conds, args, [a], row);
    }
  }

  lemma AppendPlain(conds: seq<Cond>, args: seq<Arg>, argNum: nat, c: Cond)
    requires WellNumbered(conds, args, argNum) && Placeholder(c) == []
    ensures WellNumbered(conds + [c], args, argNum)
    ensures forall row :: Where(conds + [c], args, row) == And(Where(conds, args, row), Eval(c, args, row))
  {
    assert (conds + [c])[..|conds|] == conds;
    assert Placeholders(conds) + [] == Placeholders(conds);
  }

  /** statusListContainsSearching */
  method StatusListContainsSearching(statuses: seq<string>) returns (found: bool)
    ensures found <==> ContainsSearching(statuses)
  {
    for i := 0 to |statuses|
      invariant !ContainsSearching(statuses[..i])
    {
      if statuses[i] == "SEARCHING_ALL" || statuses[i] == "SEARCHING_COMPANY" || statuses[i] == "SEARCHING" {
        return true;
      }
    }
    return false;
  }

  datatype Query = Query(conds: seq<Cond>, args: seq<Arg>, limitN: nat, offsetN: nat)

  function ClampLimit(limit: int): (r: nat)
    ensures 1 <= r <= 100
  {
    if limit <= 0 then 20 else if limit > 100 then 100 else limit
  }

  function OffsetOf(page: int, limit: int): nat {
    if page <= 1 then 0 else (page - 1) * ClampLimit(limit)
  }

  lemma OffsetIsClamped(page: int, limit: int, pageSize: int)
    requires pageSize == ClampLimit(limit)
    ensures OffsetOf(page, limit) == if (page - 1) * pageSize < 0 then 0 else (page - 1) * pageSize
  {
    if page < 1 { assert (page - 1) * pageSize < 0; }
    if page > 1 { assert (page - 1) * pageSize > 0; }
  }

  /** LIMIT and OFFSET in words: 20 rows for a limit that is not positive, never more than 100, and the full
      pages before this one. */
  lemma PagingInWords(page: int, limit: int)
    ensures ClampLimit(limit) == if limit <= 0 then 20 else if limit > 100 then 100 else limit
    ensures OffsetOf(page, limit) == if page >= 1 then (page - 1) * ClampLimit(limit) else 0
  {
  }

  function DatePart(text: string, ok: int -> bool): Option<bool> {
    if text == "" then Some(true) else if DateOf(text).None? then None else Some(ok(DateOf(text).value))
  }

  /** What each field of the filter contributes, field by field. */
  function Parts(f: Filter, row: Row): seq<Option<bool>> {
    [ Some(!row.cargo.deleted),
      Some(StatusMatches(f, row)),
      Some((f.weightMin.Some? ==> row.weight >= f.weightMin.value)
           && (f.weightMax.Some? ==> row.weight <= f.weightMax.value)),
      Some(f.truckType != "" ==> row.truckType == f.truckType),
      DatePart(f.createdFrom, d => row.created >= d),
      DatePart(f.createdTo, d => row.created <= d),
      Some(f.withOffers == Some(true) ==> row.offered) ]
  }

  function Conjunction(parts: seq<Option<bool>>): Option<bool> {
    if parts == [] then Some(true) else And(Conjunction(parts[..|parts| - 1]), parts[|parts| - 1])
  }

  lemma PartsMeanMatches(f: Filter, row: Row)
    ensures Conjunction(Parts(f, row)) == if DatesOk(f) then Some(Matches(f, row)) else None
  {
    var p := Parts(f, row);
    assert p[..6][..5] == p[..5] && p[..5][..4] == p[..4] && p[..4][..3] == p[..3];
    assert p[..3][..2] == p[..2] && p[..2][..1] == p[..1];
    assert Conjunction(p[..1]) == p[0] by { assert p[..1][..0] == []; }
    assert Conjunction(p[..2]) == And(p[0], p[1]);
    assert Conjunction(p[..4]) == And(And(And(p[0], p[1]), p[2]), p[3]);
    assert Conjunction(p[..5]) == And(Conjunction(p[..4]), p[4]);
    assert Conjunction(p[..6]) == And(Conjunction(p[..5]), p[5]);
    assert Conjunction(p) == And(And(And(And(And(And(p[0], p[1]), p[2]), p[3]), p[4]), p[5]), p[6]);
  }

  /** The text assembled so far means the first k parts of the filter. */
  ghost predicate Means(conds: seq<Cond>, args: seq<Arg>, argNum: nat, f: Filter, k: nat)
    requires k <= 7
  {
    && WellNumbered(conds, args, argNum)
    && forall row :: Where(conds, args, row) == Conjunction(Parts(f, row)[..k])
  }

  lemma NextPart(conds: seq<Cond>, args: seq<Arg>, conds': seq<Cond>, args': seq<Arg>, argNum': nat, f: Filter, k: nat)
    requires k < 7
    requires forall row :: Where(conds, args, row) == Conjunction(Parts(f, row)[..k])
    requires WellNumbered(conds', args', argNum')
    requires forall row :: Where(conds', args', row) == And(Where(conds, args, row), Parts(f, row)[k])
    ensures Means(conds', args', argNum', f, k + 1)
  {
    forall row ensures Where(conds', args', row) == Conjunction(Parts(f, row)[..k + 1]) {
      assert Parts(f, row)[..k + 1][..k] == Parts(f, row)[..k];
    }
  }

  /** The next part of the filter, put into one condition with one argument. */
  lemma AddPart(conds: seq<Cond>, args: seq<Arg>, argNum: nat, c: Cond, a: Arg, f: Filter, k: nat)
    requires k < 7 && Means(conds, args, argNum, f, k) && Placeholder(c) == [argNum]
    requires forall row :: Eval(c, args + [a], row) == Parts(f, row)[k]
    ensures Means(conds + [c], args + [a], argNum + 1, f, k + 1)
  {
    AppendArg(conds, args, argNum, c, a);
    NextPart(conds, args, conds + [c], args + [a], argNum + 1, f, k);
  }

  /** A part of the filter that asks for nothing. */
  lemma SkipPart(conds: seq<Cond>, args: seq<Arg>, argNum: nat, f: Filter, k: nat)
    requires k < 7 && Means(conds, args, argNum, f, k)
    requires forall row :: Parts(f, row)[k] == Some(true)
    ensures Means(conds, args, argNum, f, k + 1)
  {
    forall row ensures Where(conds, args, row) == And(Where(conds, args, row), Parts(f, row)[k]) {
      WhereDefined(conds, args, row, f, k);
    }
    NextPart(conds, args, conds, args, argNum, f, k);
  }

  lemma WhereDefined(conds: seq<Cond>, args: seq<Arg>, row: Row, f: Filter, k: nat)
    requires k < 7 && Parts(f, row)[k] == Some(true)
    ensures Where(conds, args, row) == And(Where(conds, args, row), Parts(f, row)[k])
  {
  }

  lemma SearchingMeans(f: Filter, args: seq<Arg>, n: nat, row: Row)
    requires f.forDriverCompany.Some? && ContainsSearching(f.status)
    requires Param(args, n) == Some(Uuid(f.forDriverCompany.value))
    ensures Eval(SearchingFor(n), args, row) == Some(StatusMatches(f, row))
  {
  }

  lemma StatusAnyMeans(f: Filter, args: seq<Arg>, n: nat, row: Row)
    requires f.status != [] && !(f.forDriverCompany.Some? && ContainsSearching(f.status))
    requires Param(args, n) == Some(Texts(f.status))
    ensures Eval(StatusAny(n), args, row) == Some(StatusMatches(f, row))
  {
  }

  method AddStatus(f: Filter, conds0: seq<Cond>, args0: seq<Arg>, argNum0: nat)
    returns (conds: seq<Cond>, args: seq<Arg>, argNum: nat)
    requires Means(conds0, args0, argNum0, f, 1)
    ensures Means(conds, args, argNum, f, 2)
  {
    conds, args, argNum := conds0, args0, argNum0;
    var searching := StatusListContainsSearching(f.status);
    if f.forDriverCompany.Some? && |f.status| > 0 && searching {
      conds := conds + [SearchingFor(argNum)];
      args := args + [Uuid(f.forDriverCompany.value)];
      argNum := argNum + 1;
      forall row ensures Eval(SearchingFor(argNum0), args, row) == Parts(f, row)[1] {
        SearchingMeans(f, args, argNum0, row);
      }
      AddPart(conds0, args0, argNum0, SearchingFor(argNum0), Uuid(f.forDriverCompany.value), f, 1);
    } else if |f.status| > 0 {
      conds := conds + [StatusAny(argNum)];
      args := args + [Texts(f.status)];
      argNum := argNum + 1;
      forall row ensures Eval(StatusAny(argNum0), args, row) == Parts(f, row)[1] {
        StatusAnyMeans(f, args, argNum0, row);
      }
      AddPart(conds0, args0, argNum0, StatusAny(argNum0), Texts(f.status), f, 1);
    } else {
      SkipPart(conds, args, argNum, f, 1);
    }
  }

  method AddWeightMin(f: Filter, conds0: seq<Cond>, args0: seq<Arg>, argNum0: nat)
    returns (conds: seq<Cond>, args: seq<Arg>, argNum: nat)
    requires WellNumbered(conds0, args0, argNum0)
    ensures WellNumbered(conds, args, argNum)
    ensures forall row :: Where(conds, args, row) ==
              And(Where(conds0, args0, row), Some(f.weightMin.Some? ==> row.weight >= f.weightMin.value))
  {
    conds, args, argNum := conds0, args0, argNum0;
    if f.weightMin.Some? {
      AppendArg(conds, args, argNum, WeightAtLeast(argNum), Number(f.weightMin.value));
      conds := conds + [WeightAtLeast(argNum)];
      args := args + [Number(f.weightMin.value)];
      argNum := argNum + 1;
    }
  }

  method AddWeightMax(f: Filter, conds0: seq<Cond>, args0: seq<Arg>, argNum0: nat)
    returns (conds: seq<Cond>, args: seq<Arg>, argNum: nat)
    requires WellNumbered(conds0, args0, argNum0)
    ensures WellNumbered(conds, args, argNum)
    ensures forall row :: Where(conds, args, row) ==
              And(Where(conds0, args0, row), Some(f.weightMax.Some? ==> row.weight <= f.weightMax.value))
  {
    conds, args, argNum := conds0, args0, argNum0;
    if f.weightMax.Some? {
      AppendArg(conds, args, argNum, WeightAtMost(argNum), Number(f.weightMax.value));
      conds := conds + [WeightAtMost(argNum)];
      args := args + [Number(f.weightMax.value)];
      argNum := argNum + 1;
    }
  }

  method AddWeights(f: Filter, conds0: seq<Cond>, args0: seq<Arg>, argNum0: nat)
    returns (conds: seq<Cond>, args: seq<Arg>, argNum: nat)
    requires Means(conds0, args0, argNum0, f, 2)
    ensures Means(conds, args, argNum, f, 3)
  {
    conds, args, argNum := AddWeightMin(f, conds0, args0, argNum0);
    conds, args, argNum := AddWeightMax(f, conds, args, argNum);
    NextPart(conds0, args0, conds, args, argNum, f, 2);
  }

  lemma TruckMeans(f: Filter, args: seq<Arg>, n: nat, row: Row)
    requires f.truckType != "" && Param(args, n) == Some(Text(f.truckType))
    ensures Eval(TruckIs(n), args, row) == Parts(f, row)[3]
  {
  }

  method AddTruck(f: Filter, conds0: seq<Cond>, args0: seq<Arg>, argNum0: nat)
    returns (conds: seq<Cond>, args: seq<Arg>, argNum: nat)
    requires Means(conds0, args0, argNum0, f, 3)
    ensures Means(conds, args, argNum, f, 4)
  {
    conds, args, argNum := conds0, args0, argNum0;
    if f.truckType != "" {
      conds := conds + [TruckIs(argNum)];
      args := args + [Text(f.truckType)];
      argNum := argNum + 1;
      forall row ensures Eval(TruckIs(argNum0), args, row) == Parts(f, row)[3] {
        TruckMeans(f, args, argNum0, row);
      }
      AddPart(conds0, args0, argNum0, TruckIs(argNum0), Text(f.truckType), f, 3);
    } else {
      SkipPart(conds, args, argNum, f, 3);
    }
  }

  lemma CreatedFromMeans(f: Filter, args: seq<Arg>, n: nat, row: Row)
    requires f.createdFrom != "" && Param(args, n) == Some(Text(f.createdFrom))
    ensures Eval(CreatedFrom(n), args, row) == Parts(f, row)[4]
  {
  }

  method AddCreatedFrom(f: Filter, conds0: seq<Cond>, args0: seq<Arg>, argNum0: nat)
    returns (conds: seq<Cond>, args: seq<Arg>, argNum: nat)
    requires Means(conds0, args0, argNum0, f, 4)
    ensures Means(conds, args, argNum, f, 5)
  {
    conds, args, argNum := conds0, args0, argNum0;
    if f.createdFrom != "" {
      conds := conds + [CreatedFrom(argNum)];
      args := args + [Text(f.createdFrom)];
      argNum := argNum + 1;
      forall row ensures Eval(CreatedFrom(argNum0), args, row) == Parts(f, row)[4] {
        CreatedFromMeans(f, args, argNum0, row);
      }
      AddPart(conds0, args0, argNum0, CreatedFrom(argNum0), Text(f.createdFrom), f, 4);
    } else {
      SkipPart(conds, args, argNum, f, 4);
    }
  }

  lemma CreatedToMeans(f: Filter, args: seq<Arg>, n: nat, row: Row)
    requires f.createdTo != "" && Param(args, n) == Some(Text(f.createdTo))
    ensures Eval(CreatedTo(n), args, row) == Parts(f, row)[5]
  {
  }

  method AddCreatedTo(f: Filter, conds0: seq<Cond>, args0: seq<Arg>, argNum0: nat)
    returns (conds: seq<Cond>, args: seq<Arg>, argNum: nat)
    requires Means(conds0, args0, argNum0, f, 5)
    ensures Means(conds, args, argNum, f, 6)
  {
    conds, args, argNum := conds0, args0, argNum0;
    if f.createdTo != "" {
      conds := conds + [CreatedTo(argNum)];
      args := args + [Text(f.createdTo)];
      argNum := argNum + 1;
      forall row ensures Eval(CreatedTo(argNum0), args, row) == Parts(f, row)[5] {
        CreatedToMeans(f, args, argNum0, row);
      }
      AddPart(conds0, args0, argNum0, CreatedTo(argNum0), Text(f.createdTo), f, 5);
    } else {
      SkipPart(conds, args, argNum, f, 5);
    }
  }

  method AddOffers(f: Filter, conds0: seq<Cond>, args: seq<Arg>, argNum: nat) returns (conds: seq<Cond>)
    requires Means(conds0, args, argNum, f, 6)
    ensures Means(conds, args, argNum, f, 7)
  {
    conds := conds0;
    if f.withOffers.Some? && f.withOffers.value {
      AppendPlain(conds, args, argNum, HasOffers);
      conds := conds + [HasOffers];
    }
    NextPart(conds0, args, conds, args, argNum, f, 6);
  }

  lemma FirstPart(f: Filter)
    ensures Means([NotDeleted], [], 1, f, 1)
  {
    AppendPlain([], [], 1, NotDeleted);
    assert [] + [NotDeleted] == [NotDeleted];
    forall row ensures Where([], [], row) == Conjunction(Parts(f, row)[..0]) {}
    NextPart([], [], [NotDeleted], [], 1, f, 0);
  }

  lemma MeansMatches(conds: seq<Cond>, args: seq<Arg>, argNum: nat, f: Filter, paging: seq<Arg>)
    requires Means(conds, args, argNum, f, 7)
    ensures forall row :: Where(conds, args + paging, row) == if DatesOk(f) then Some(Matches(f, row)) else None
  {
    forall row ensures Where(conds, args + paging, row) == if DatesOk(f) then Some(Matches(f, row)) else None {
      assert Parts(f, row)[..7] == Parts(f, row);
      PartsMeanMatches(f, row);
      LaterArgsIrrelevant(conds, args, paging, row);
    }
  }

  /** The rows a query selects are those the filter describes, for every filter and every row; the
      placeholders of the WHERE clause are $1..$k in order, and LIMIT and OFFSET bind the last two
      arguments. A malformed date is a query error. */
  method Build(f: Filter, page: int, limit: int) returns (q: Query)
    ensures |q.args| >= 2 && Placeholders(q.conds) == UpTo(|q.args| - 2)
    ensures q.limitN == |q.args| - 1 && q.args[q.limitN - 1] == Int(ClampLimit(limit))
    ensures q.offsetN == |q.args| && q.args[q.offsetN - 1] == Int(OffsetOf(page, limit))
    ensures forall row :: Where(q.conds, q.args, row) == if DatesOk(f) then Some(Matches(f, row)) else None
  {
    var args: seq<Arg> := [];
    var conds: seq<Cond> := [];
    var argNum := 1;
    conds := conds + [NotDeleted];
    FirstPart(f);
    conds, args, argNum := AddStatus(f, conds, args, argNum);
    conds, args, argNum := AddWeights(f, conds, args, argNum);
    conds, args, argNum := AddTruck(f, conds, args, argNum);
    conds, args, argNum := AddCreatedFrom(f, conds, args, argNum);
    conds, args, argNum := AddCreatedTo(f, conds, args, argNum);
    conds := AddOffers(f, conds, args, argNum);

    var pageSize := limit;
    if pageSize <= 0 {
      pageSize := 20;
    }
    if pageSize > 100 {
      pageSize := 100;
    }
    var offset := (page - 1) * pageSize;
    if offset < 0 {
      offset := 0;
    }
    OffsetIsClamped(page, limit, pageSize);
    MeansMatches(conds, args, argNum, f, [Int(pageSize), Int(offset)]);
    q := Query(conds, args + [Int(pageSize), Int(offset)], argNum, argNum + 1);
  }

  /* ---------- pages ---------- */

  function Min(a: int, b: int): int { if a < b then a else b }

  /** What LIMIT n OFFSET k leaves of the ordered rows. */
  function Window<T>(rows: seq<T>, n: nat, k: nat): seq<T> {
    rows[Min(k, |rows|)..Min(k + n, |rows|)]
  }

  /** The rows a request for this page returns. */
  function Page<T>(rows: seq<T>, page: int, limit: int): seq<T> {
    Window(rows, ClampLimit(limit), OffsetOf(page, limit))
  }

  /** Pages 1..n one after the other. */
  function Pages<T>(rows: seq<T>, n: nat, limit: int): seq<T> {
    if n == 0 then [] else Pages(rows, n - 1, limit) + Page(rows, n, limit)
  }

  lemma WindowExtends<T>(rows: seq<T>, z: nat, k: nat)
    ensures rows[..Min(k, |rows|)] + Window(rows, z, k) == rows[..Min(k + z, |rows|)]
  {
  }

  lemma OffsetIsProduct(page: int, limit: int)
    requires page >= 1
    ensures OffsetOf(page, limit) == (page - 1) * ClampLimit(limit)
    ensures OffsetOf(page, limit) + ClampLimit(limit) == page * ClampLimit(limit)
  {
  }

  lemma {:induction false} PagesAreAPrefix<T>(rows: seq<T>, n: nat, limit: int)
    ensures n * ClampLimit(limit) >= 0 && Pages(rows, n, limit) == rows[..Min(n * ClampLimit(limit), |rows|)]
  {
    if n > 0 {
      PagesAreAPrefix(rows, n - 1, limit);
      OffsetIsProduct(n, limit);
      WindowExtends(rows, ClampLimit(limit), OffsetOf(n, limit));
    }
  }

  lemma OnPage(i: nat, z: nat, page: nat)
    requires z >= 1 && page >= 1
    ensures (page - 1) * z <= i < page * z <==> page == i / z + 1
  {
    var q := i / z;
    assert q * z <= i < q * z + z;
    if page <= q {
      assert page * z <= q * z;
    } else if page > q + 1 {
      assert (page - 1) * z >= (q + 1) * z;
    }
  }

  /** Over a fixed total order of the rows, the pages up to the last one give back every row once, in
      order; a row is on exactly one page; and every page below 1 is page 1. */
  lemma PagesPartition<T>(rows: seq<T>, n: nat, limit: int, i: nat, page: nat)
    requires n * ClampLimit(limit) >= |rows| && i < |rows| && page >= 1
    ensures Pages(rows, n, limit) == rows
    ensures (OffsetOf(page, limit) <= i < OffsetOf(page, limit) + ClampLimit(limit)) <==>
          page == i / ClampLimit(limit) + 1
    ensures forall p: int | p < 1 :: Page(rows, p, limit) == Page(rows, 1, limit)
  {
    PagesAreAPrefix(rows, n, limit);
    OffsetIsProduct(page, limit);
    OnPage(i, ClampLimit(limit), page);
  }

  /* ---------- listing and offering agree ---------- */

  /** A driver's listing by a searching status and nothing else. */
  function SearchingFilter(statuses: seq<string>, company: Id): Filter {
    Filter(statuses, Some(company), None, None, "", "", "", None)
  }

  /** For a driver with a company, the cargos such a listing shows are exactly those on which CreateOffer
      admits that driver. */
  lemma ShownIffAdmitted(w: L.World, c: L.Id, driver: L.Id, company: Id, statuses: seq<string>, row: Row)
    requires c in w.cargos && row.cargo == w.cargos[c]
    requires driver in w.drivers && w.drivers[driver] == Some(company)
    requires ContainsSearching(statuses)
    ensures Matches(SearchingFilter(statuses, company), row) <==> L.Admits(w, c, driver)
  {
  }

  /** The listing handler for a driver with a company who asks for a searching status: on the row of any
      cargo the query that is built evaluates to whether CreateOffer admits this driver on that cargo. */
  method DriverListing(w: L.World, driver: L.Id, statuses: seq<string>, page: int, limit: int) returns (q: Query)
    requires driver in w.drivers && w.drivers[driver].Some? && ContainsSearching(statuses)
    ensures forall c, row: Row | c in w.cargos && row.cargo == w.cargos[c] ::
              Where(q.conds, q.args, row) == Some(L.Admits(w, c, driver))
  {
    var company := w.drivers[driver].value;
    q := Build(SearchingFilter(statuses, company), page, limit);
    forall c, row: Row | c in w.cargos && row.cargo == w.cargos[c]
      ensures Where(q.conds, q.args, row) == Some(L.Admits(w, c, driver))
    {
      ShownIffAdmitted(w, c, driver, company, statuses, row);
    }
  }
}
