/**
 cargo.Repo.Update: the UPDATE statement it assembles for the fields that are present, as a small
 syntax with an evaluator, proved to be a plain record update of one row.
 */
module CargoUpdate {
  import opened Wrappers
  import L = Lifecycle

  type Id = L.Id

  datatype Column =
    | Weight | Volume | ReadyEnabled | ReadyAt | LoadComment | TruckType | TempMin | TempMax | AdrEnabled
    | AdrClass | LoadingTypes | Requirements | ShipmentType | BeltsCount | Docs | ContactName | ContactPhone
    | UpdatedAt

  datatype Value = Real(r: real) | Bool(b: bool) | Text(s: string) | Texts(ss: seq<string>) | Int(i: int)
                 | Json(json: string) | Uuid(id: Id) | Time(t: nat)

  /** UpdateParams: a missing field is a nil pointer (or a nil slice). */
  datatype Params = Params(
    weight: Option<real>, volume: Option<real>, readyEnabled: Option<bool>, readyAt: Option<string>,
    loadComment: Option<string>, truckType: Option<string>, tempMin: Option<real>, tempMax: Option<real>,
    adrEnabled: Option<bool>, adrClass: Option<string>, loadingTypes: Option<seq<string>>,
    requirements: Option<seq<string>>, shipmentType: Option<string>, beltsCount: Option<int>,
    documents: Option<string>, contactName: Option<string>, contactPhone: Option<string>,
    routePoints: seq<string>, payment: Option<string>)

  datatype Row = Row(cols: map<Column, Value>, status: L.CargoStatus, deleted: bool,
                     points: seq<string>, payment: Option<string>)

  datatype Failure = NotFound | CannotEditAfterAssigned

  /** The value a request asks for in a column. */
  function Asked(p: Params, c: Column): Option<Value> {
    match c
    case Weight => if p.weight.Some? then Some(Real(p.weight.value)) else None
    case Volume => if p.volume.Some? then Some(Real(p.volume.value)) else None
    case ReadyEnabled => if p.readyEnabled.Some? then Some(Bool(p.readyEnabled.value)) else None
    case ReadyAt => if p.readyAt.Some? then Some(Text(p.readyAt.value)) else None
    case LoadComment => if p.loadComment.Some? then Some(Text(p.loadComment.value)) else None
    case TruckType => if p.truckType.Some? then Some(Text(p.truckType.value)) else None
    case TempMin => if p.tempMin.Some? then Some(Real(p.tempMin.value)) else None
    case TempMax => if p.tempMax.Some? then Some(Real(p.tempMax.value)) else None
    case AdrEnabled => if p.adrEnabled.Some? then Some(Bool(p.adrEnabled.value)) else None
    case AdrClass => if p.adrClass.Some? then Some(Text(p.adrClass.value)) else None
    case LoadingTypes => if p.loadingTypes.Some? then Some(Texts(p.loadingTypes.value)) else None
    case Requirements => if p.requirements.Some? then Some(Texts(p.requirements.value)) else None
    case ShipmentType => if p.shipmentType.Some? then Some(Text(p.shipmentType.value)) else None
    case BeltsCount => if p.beltsCount.Some? then Some(Int(p.beltsCount.value)) else None
    case Docs => if p.documents.Some? then Some(Json(p.documents.value)) else None
    case ContactName => if p.contactName.Some? then Some(Text(p.contactName.value)) else None
    case ContactPhone => if p.contactPhone.Some? then Some(Text(p.contactPhone.value)) else None
    case UpdatedAt => None
  }

  ghost predicate AsksAnything(p: Params) {
    exists c :: Asked(p, c).Some?
  }

  /* ---------- the statement and its meaning ---------- */

  /** UPDATE cargo SET updated_at = now(), col = $n, ... WHERE id = $w AND deleted_at IS NULL */
  datatype Statement = Statement(sets: seq<(Column, nat)>, w: nat)

  function Param(args: seq<Value>, n: nat): Option<Value> {
    if 1 <= n <= |args| then Some(args[n - 1]) else None
  }

  /** Every placeholder is bound and no column is assigned twice. */
  predicate Executable(st: Statement, args: seq<Value>) {
    && Param(args, st.w).Some?
    && (forall i | 0 <= i < |st.sets| :: Param(args, st.sets[i].1).Some? && st.sets[i].0 != UpdatedAt)
    && (forall i, j | 0 <= i < j < |st.sets| :: st.sets[i].0 != st.sets[j].0)
  }

  function Assign(cols: map<Column, Value>, sets: seq<(Column, nat)>, args: seq<Value>): map<Column, Value>
    requires forall i | 0 <= i < |sets| :: Param(args, sets[i].1).Some?
  {
    if sets == [] then cols
    else
      var n := |sets| - 1;
      Assign(cols, sets[..n], args)[sets[n].0 := Param(args, sets[n].1).value]
  }

  function Execute(st: Statement, args: seq<Value>, table: map<Id, Row>, now: nat): map<Id, Row>
    requires Executable(st, args)
  {
    map id | id in table ::
      if Param(args, st.w).value == Uuid(id) && !table[id].deleted
      then table[id].(cols := Assign(table[id].cols[UpdatedAt := Time(now)], st.sets, args))
      else table[id]
  }

  /* ---------- the builder ---------- */

  const COLUMNS: seq<Column> := [
    Weight, Volume, ReadyEnabled, ReadyAt, LoadComment, TruckType, TempMin, TempMax, AdrEnabled,
    AdrClass, LoadingTypes, Requirements, ShipmentType, BeltsCount, Docs, ContactName, ContactPhone]

  /** The first k columns have been looked at: exactly those present are set, each to its own argument. */
  ghost predicate Built(p: Params, k: nat, sets: seq<(Column, nat)>, args: seq<Value>, argN: nat)
    requires k <= |COLUMNS|
  {
    && argN == |args| + 1 && |sets| == |args|
    && (forall i | 0 <= i < |sets| ::
          sets[i].1 == i + 1 && sets[i].0 in COLUMNS[..k] && Asked(p, sets[i].0) == Some(args[i]))
    && (forall c | c in COLUMNS[..k] && Asked(p, c).Some? :: exists i :: 0 <= i < |sets| && sets[i].0 == c)
    && (forall i, j | 0 <= i < j < |sets| :: sets[i].0 != sets[j].0)
  }

  class Builder {
    var setCols: seq<(Column, nat)>   // without the leading updated_at = now()
    var args: seq<Value>
    var argN: nat

    constructor (ghost p: Params)
      ensures Built(p, 0, setCols, args, argN)
    {
      setCols, args, argN := [], [], 1;
    }

    /** nextArgNum: the current number, then one more. */
    method NextArgNum() returns (n: nat)
      modifies this`argN
      ensures n == old(argN) && argN == n + 1
    {
      n := argN;
      argN := argN + 1;
    }

    /** The closure `add`, called for the k-th column when its field is present. */
    method Add(c: Column, v: Value, ghost p: Params, ghost k: nat)
      requires k < |COLUMNS| && COLUMNS[k] == c && Asked(p, c) == Some(v)
      requires Built(p, k, setCols, args, argN)
      modifies this
      ensures Built(p, k + 1, setCols, args, argN)
    {
      ghost var before := setCols;
      var n := NextArgNum();
      setCols := setCols + [(c, n)];
      args := args + [v];
      ColumnStep(k);
      forall d | d in COLUMNS[..k + 1] && Asked(p, d).Some?
        ensures exists i :: 0 <= i < |setCols| && setCols[i].0 == d
      {
        if d == c {
          assert setCols[|before|].0 == d;
        } else {
          var i :| 0 <= i < |before| && before[i].0 == d;
          assert setCols[i].0 == d;
        }
      }
    }
  }

  lemma ColumnsDistinct()
    ensures forall i, j | 0 <= i < j < |COLUMNS| :: COLUMNS[i] != COLUMNS[j]
  {
  }

  lemma ColumnStep(k: nat)
    requires k < |COLUMNS|
    ensures forall c :: c in COLUMNS[..k + 1] <==> c in COLUMNS[..k] || c == COLUMNS[k]
    ensures COLUMNS[k] !in COLUMNS[..k]
  {
    ColumnsDistinct();
    assert COLUMNS[..k + 1] == COLUMNS[..k] + [COLUMNS[k]];
  }

  lemma Absent(p: Params, k: nat, sets: seq<(Column, nat)>, args: seq<Value>, argN: nat)
    requires k < |COLUMNS| && Asked(p, COLUMNS[k]).None? && Built(p, k, sets, args, argN)
    ensures Built(p, k + 1, sets, args, argN)
  {
    ColumnStep(k);
  }

  method AddMeasures(p: Params, b: Builder)
    requires Built(p, 0, b.setCols, b.args, b.argN)
    modifies b
    ensures Built(p, 2, b.setCols, b.args, b.argN)
  {
    if p.weight.Some? {
      b.Add(Weight, Real(p.weight.value), p, 0);
    } else {
      Absent(p, 0, b.setCols, b.args, b.argN);
    }
    if p.volume.Some? {
      b.Add(Volume, Real(p.volume.value), p, 1);
    } else {
      Absent(p, 1, b.setCols, b.args, b.argN);
    }
  }

  method AddReadiness(p: Params, b: Builder)
    requires Built(p, 2, b.setCols, b.args, b.argN)
    modifies b
    ensures Built(p, 4, b.setCols, b.args, b.argN)
  {
    if p.readyEnabled.Some? {
      b.Add(ReadyEnabled, Bool(p.readyEnabled.value), p, 2);
    } else {
      Absent(p, 2, b.setCols, b.args, b.argN);
    }
    if p.readyAt.Some? {
      b.Add(ReadyAt, Text(p.readyAt.value), p, 3);
    } else {
      Absent(p, 3, b.setCols, b.args, b.argN);
    }
  }

  method AddTruck(p: Params, b: Builder)
    requires Built(p, 4, b.setCols, b.args, b.argN)
    modifies b
    ensures Built(p, 6, b.setCols, b.args, b.argN)
  {
    if p.loadComment.Some? {
      b.Add(LoadComment, Text(p.loadComment.value), p, 4);
    } else {
      Absent(p, 4, b.setCols, b.args, b.argN);
    }
    if p.truckType.Some? {
      b.Add(TruckType, Text(p.truckType.value), p, 5);
    } else {
      Absent(p, 5, b.setCols, b.args, b.argN);
    }
  }

  method AddTemperatures(p: Params, b: Builder)
    requires Built(p, 6, b.setCols, b.args, b.argN)
    modifies b
    ensures Built(p, 8, b.setCols, b.args, b.argN)
  {
    if p.tempMin.Some? {
      b.Add(TempMin, Real(p.tempMin.value), p, 6);
    } else {
      Absent(p, 6, b.setCols, b.args, b.argN);
    }
    if p.tempMax.Some? {
      b.Add(TempMax, Real(p.tempMax.value), p, 7);
    } else {
      Absent(p, 7, b.setCols, b.args, b.argN);
    }
  }

  method AddAdr(p: Params, b: Builder)
    requires Built(p, 8, b.setCols, b.args, b.argN)
    modifies b
    ensures Built(p, 10, b.setCols, b.args, b.argN)
  {
    if p.adrEnabled.Some? {
      b.Add(AdrEnabled, Bool(p.adrEnabled.value), p, 8);
    } else {
      Absent(p, 8, b.setCols, b.args, b.argN);
    }
    if p.adrClass.Some? {
      b.Add(AdrClass, Text(p.adrClass.value), p, 9);
    } else {
      Absent(p, 9, b.setCols, b.args, b.argN);
    }
  }

  method AddLoading(p: Params, b: Builder)
    requires Built(p, 10, b.setCols, b.args, b.argN)
    modifies b
    ensures Built(p, 12, b.setCols, b.args, b.argN)
  {
    if p.loadingTypes.Some? {
      b.Add(LoadingTypes, Texts(p.loadingTypes.value), p, 10);
    } else {
      Absent(p, 10, b.setCols, b.args, b.argN);
    }
    if p.requirements.Some? {
      b.Add(Requirements, Texts(p.requirements.value), p, 11);
    } else {
      Absent(p, 11, b.setCols, b.args, b.argN);
    }
  }

  method AddShipment(p: Params, b: Builder)
    requires Built(p, 12, b.setCols, b.args, b.argN)
    modifies b
    ensures Built(p, 14, b.setCols, b.args, b.argN)
  {
    if p.shipmentType.Some? {
      b.Add(ShipmentType, Text(p.shipmentType.value), p, 12);
    } else {
      Absent(p, 12, b.setCols, b.args, b.argN);
    }
    if p.beltsCount.Some? {
      b.Add(BeltsCount, Int(p.beltsCount.value), p, 13);
    } else {
      Absent(p, 13, b.setCols, b.args, b.argN);
    }
  }

  method AddDocuments(p: Params, b: Builder)
    requires Built(p, 14, b.setCols, b.args, b.argN)
    modifies b
    ensures Built(p, 15, b.setCols, b.args, b.argN)
  {
    if p.documents.Some? {
      b.Add(Docs, Json(p.documents.value), p, 14);
    } else {
      Absent(p, 14, b.setCols, b.args, b.argN);
    }
  }

  method AddContact(p: Params, b: Builder)
    requires Built(p, 15, b.setCols, b.args, b.argN)
    modifies b
    ensures Built(p, 17, b.setCols, b.args, b.argN)
  {
    if p.contactName.Some? {
      b.Add(ContactName, Text(p.contactName.value), p, 15);
    } else {
      Absent(p, 15, b.setCols, b.args, b.argN);
    }
    if p.contactPhone.Some? {
      b.Add(ContactPhone, Text(p.contactPhone.value), p, 16);
    } else {
      Absent(p, 16, b.setCols, b.args, b.argN);
    }
  }

  method Assemble(p: Params) returns (setCols: seq<(Column, nat)>, args: seq<Value>, argN: nat)
    ensures Built(p, 17, setCols, args, argN)
  {
    var b := new Builder(p);
    AddMeasures(p, b);
    AddReadiness(p, b);
    AddTruck(p, b);
    AddTemperatures(p, b);
    AddAdr(p, b);
    AddLoading(p, b);
    AddShipment(p, b);
    AddDocuments(p, b);
    AddContact(p, b);
    return b.setCols, b.args, b.argN;
  }

  /* ---------- the record update ---------- */

  /** Exactly the asked columns change, to the asked values; updated_at moves when anything is asked. */
  ghost predicate ColumnsUpdated(p: Params, before: map<Column, Value>, after: map<Column, Value>, now: nat) {
    && (forall c | c != UpdatedAt && Asked(p, c).Some? :: c in after && after[c] == Asked(p, c).value)
    && (forall c | c != UpdatedAt && Asked(p, c).None? ::
          (c in after <==> c in before) && (c in before ==> after[c] == before[c]))
    && (AsksAnything(p) ==> UpdatedAt in after && after[UpdatedAt] == Time(now))
    && (!AsksAnything(p) ==> after == before)
  }

  lemma {:induction false} AssignMeaning(cols: map<Column, Value>, sets: seq<(Column, nat)>, args: seq<Value>,
                                         c: Column)
    requires forall i | 0 <= i < |sets| :: Param(args, sets[i].1).Some?
    requires forall i, j | 0 <= i < j < |sets| :: sets[i].0 != sets[j].0
    ensures var r := Assign(cols, sets, args);
      && (forall i | 0 <= i < |sets| && sets[i].0 == c :: c in r && r[c] == Param(args, sets[i].1).value)
      && ((forall i | 0 <= i < |sets| :: sets[i].0 != c) ==> (c in r <==> c in cols) && (c in cols ==> r[c] == cols[c]))
  {
    if sets != [] {
      AssignMeaning(cols, sets[..|sets| - 1], args, c);
    }
  }

  lemma EveryColumnListed(c: Column)
    ensures c != UpdatedAt ==> c in COLUMNS[..17]
  {
    assert COLUMNS[..17] == COLUMNS;
    if c != UpdatedAt {
      var i := ColumnIndex(c);
      assert COLUMNS[i] == c;
    }
  }

  lemma ColumnIndex(c: Column) returns (i: nat)
    requires c != UpdatedAt
    ensures i < 17 && COLUMNS[i] == c
  {
    i := match c
         case Weight => 0 case Volume => 1 case ReadyEnabled => 2 case ReadyAt => 3 case LoadComment => 4
         case TruckType => 5 case TempMin => 6 case TempMax => 7 case AdrEnabled => 8 case AdrClass => 9
         case LoadingTypes => 10 case Requirements => 11 case ShipmentType => 12 case BeltsCount => 13
         case Docs => 14 case ContactName => 15 case ContactPhone => 16;
  }

  lemma BuiltParams(p: Params, sets: seq<(Column, nat)>, args: seq<Value>, argN: nat, id: Id)
    requires Built(p, 17, sets, args, argN) && sets != []
    ensures Param(args + [Uuid(id)], argN) == Some(Uuid(id))
    ensures forall i | 0 <= i < |sets| ::
              Param(args + [Uuid(id)], sets[i].1) == Some(args[i]) && sets[i].0 != UpdatedAt
    ensures AsksAnything(p)
  {
    var all := args + [Uuid(id)];
    assert all[argN - 1] == Uuid(id);
    forall i | 0 <= i < |sets|
      ensures Param(all, sets[i].1) == Some(args[i]) && sets[i].0 != UpdatedAt && Asked(p, sets[i].0).Some?
    {
      assert all[i] == args[i];
    }
    assert AsksAnything(p) by { assert Asked(p, sets[0].0).Some?; }
  }

  /** Running the finished statement is the record update of the addressed row and of no other. */
  lemma StatementIsRecordUpdate(p: Params, sets: seq<(Column, nat)>, args: seq<Value>, argN: nat,
                                table: map<Id, Row>, id: Id, now: nat)
    requires Built(p, 17, sets, args, argN) && sets != []
    ensures Executable(Statement(sets, argN), args + [Uuid(id)])
    ensures
      var t := Execute(Statement(sets, argN), args + [Uuid(id)], table, now);
      && t.Keys == table.Keys
      && (forall k | k in table && (k != id || table[k].deleted) :: t[k] == table[k])
      && (id in table && !table[id].deleted ==>
            t[id] == table[id].(cols := t[id].cols) && ColumnsUpdated(p, table[id].cols, t[id].cols, now))
  {
    BuiltParams(p, sets, args, argN, id);
    if id in table && !table[id].deleted {
      AssignedColumns(p, sets, args, argN, table[id].cols, id, now);
    }
  }

  lemma AssignedColumns(p: Params, sets: seq<(Column, nat)>, args: seq<Value>, argN: nat, cols: map<Column, Value>,
                        id: Id, now: nat)
    requires Built(p, 17, sets, args, argN) && sets != [] && AsksAnything(p)
    requires forall i | 0 <= i < |sets| ::
               Param(args + [Uuid(id)], sets[i].1) == Some(args[i]) && sets[i].0 != UpdatedAt
    ensures ColumnsUpdated(p, cols, Assign(cols[UpdatedAt := Time(now)], sets, args + [Uuid(id)]), now)
  {
    var start, all := cols[UpdatedAt := Time(now)], args + [Uuid(id)];
    var r := Assign(start, sets, all);
    forall c | c != UpdatedAt && Asked(p, c).Some? ensures c in r && r[c] == Asked(p, c).value {
      EveryColumnListed(c);
      AssignMeaning(start, sets, all, c);
      var i :| 0 <= i < |sets| && sets[i].0 == c;
    }
    forall c | c != UpdatedAt && Asked(p, c).None?
      ensures (c in r <==> c in cols) && (c in cols ==> r[c] == cols[c])
    {
      AssignMeaning(start, sets, all, c);
    }
    AssignMeaning(start, sets, all, UpdatedAt);
  }

  lemma NothingBuilt(p: Params, args: seq<Value>, argN: nat)
    requires Built(p, 17, [], args, argN)
    ensures !AsksAnything(p)
  {
    forall c ensures Asked(p, c).None? {
      EveryColumnListed(c);
    }
  }

  ghost predicate Holds(cols: map<Column, Value>, c: Column, v: Value) {
    c in cols && cols[c] == v
  }

  lemma AskedLands(p: Params, before: map<Column, Value>, after: map<Column, Value>, now: nat, c: Column, v: Value)
    requires ColumnsUpdated(p, before, after, now) && Asked(p, c) == Some(v)
    ensures Holds(after, c, v)
  {
  }

  /** Which field of the request lands in which column. */
  lemma FieldsLand(p: Params, before: map<Column, Value>, after: map<Column, Value>, now: nat)
    requires ColumnsUpdated(p, before, after, now)
    ensures p.weight.Some? ==> Holds(after, Weight, Real(p.weight.value))
    ensures p.volume.Some? ==> Holds(after, Volume, Real(p.volume.value))
    ensures p.readyEnabled.Some? ==> Holds(after, ReadyEnabled, Bool(p.readyEnabled.value))
    ensures p.readyAt.Some? ==> Holds(after, ReadyAt, Text(p.readyAt.value))
    ensures p.loadComment.Some? ==> Holds(after, LoadComment, Text(p.loadComment.value))
    ensures p.truckType.Some? ==> Holds(after, TruckType, Text(p.truckType.value))
    ensures p.tempMin.Some? ==> Holds(after, TempMin, Real(p.tempMin.value))
    ensures p.tempMax.Some? ==> Holds(after, TempMax, Real(p.tempMax.value))
    ensures p.adrEnabled.Some? ==> Holds(after, AdrEnabled, Bool(p.adrEnabled.value))
  {
    if p.weight.Some? { AskedLands(p, before, after, now, Weight, Real(p.weight.value)); }
    if p.volume.Some? { AskedLands(p, before, after, now, Volume, Real(p.volume.value)); }
    if p.readyEnabled.Some? { AskedLands(p, before, after, now, ReadyEnabled, Bool(p.readyEnabled.value)); }
    if p.readyAt.Some? { AskedLands(p, before, after, now, ReadyAt, Text(p.readyAt.value)); }
    if p.loadComment.Some? { AskedLands(p, before, after, now, LoadComment, Text(p.loadComment.value)); }
    if p.truckType.Some? { AskedLands(p, before, after, now, TruckType, Text(p.truckType.value)); }
    if p.tempMin.Some? { AskedLands(p, before, after, now, TempMin, Real(p.tempMin.value)); }
    if p.tempMax.Some? { AskedLands(p, before, after, now, TempMax, Real(p.tempMax.value)); }
    if p.adrEnabled.Some? { AskedLands(p, before, after, now, AdrEnabled, Bool(p.adrEnabled.value)); }
  }

  lemma DetailsLand(p: Params, before: map<Column, Value>, after: map<Column, Value>, now: nat)
    requires ColumnsUpdated(p, before, after, now)
    ensures p.adrClass.Some? ==> Holds(after, AdrClass, Text(p.adrClass.value))
    ensures p.loadingTypes.Some? ==> Holds(after, LoadingTypes, Texts(p.loadingTypes.value))
    ensures p.requirements.Some? ==> Holds(after, Requirements, Texts(p.requirements.value))
    ensures p.shipmentType.Some? ==> Holds(after, ShipmentType, Text(p.shipmentType.value))
    ensures p.beltsCount.Some? ==> Holds(after, BeltsCount, Int(p.beltsCount.value))
    ensures p.documents.Some? ==> Holds(after, Docs, Json(p.documents.value))
    ensures p.contactName.Some? ==> Holds(after, ContactName, Text(p.contactName.value))
    ensures p.contactPhone.Some? ==> Holds(after, ContactPhone, Text(p.contactPhone.value))
  {
    if p.adrClass.Some? { AskedLands(p, before, after, now, AdrClass, Text(p.adrClass.value)); }
    if p.loadingTypes.Some? { AskedLands(p, before, after, now, LoadingTypes, Texts(p.loadingTypes.value)); }
    if p.requirements.Some? { AskedLands(p, before, after, now, Requirements, Texts(p.requirements.value)); }
    if p.shipmentType.Some? { AskedLands(p, before, after, now, ShipmentType, Text(p.shipmentType.value)); }
    if p.beltsCount.Some? { AskedLands(p, before, after, now, BeltsCount, Int(p.beltsCount.value)); }
    if p.documents.Some? { AskedLands(p, before, after, now, Docs, Json(p.documents.value)); }
    if p.contactName.Some? { AskedLands(p, before, after, now, ContactName, Text(p.contactName.value)); }
    if p.contactPhone.Some? { AskedLands(p, before, after, now, ContactPhone, Text(p.contactPhone.value)); }
  }

  /** And an absent field asks for no change of its column; updated_at is never asked for. */
  lemma AbsentFieldsAskNothing(p: Params)
    ensures p.weight.None? <==> Asked(p, Weight).None?
    ensures p.volume.None? <==> Asked(p, Volume).None?
    ensures p.readyEnabled.None? <==> Asked(p, ReadyEnabled).None?
    ensures p.readyAt.None? <==> Asked(p, ReadyAt).None?
    ensures p.loadComment.None? <==> Asked(p, LoadComment).None?
    ensures p.truckType.None? <==> Asked(p, TruckType).None?
    ensures p.tempMin.None? <==> Asked(p, TempMin).None?
    ensures p.tempMax.None? <==> Asked(p, TempMax).None?
    ensures p.adrEnabled.None? <==> Asked(p, AdrEnabled).None?
    ensures Asked(p, UpdatedAt).None?
  {
  }

  lemma AbsentDetailsAskNothing(p: Params)
    ensures p.adrClass.None? <==> Asked(p, AdrClass).None?
    ensures p.loadingTypes.None? <==> Asked(p, LoadingTypes).None?
    ensures p.requirements.None? <==> Asked(p, Requirements).None?
    ensures p.shipmentType.None? <==> Asked(p, ShipmentType).None?
    ensures p.beltsCount.None? <==> Asked(p, BeltsCount).None?
    ensures p.documents.None? <==> Asked(p, Docs).None?
    ensures p.contactName.None? <==> Asked(p, ContactName).None?
    ensures p.contactPhone.None? <==> Asked(p, ContactPhone).None?
  {
  }

  predicate Frozen(s: L.CargoStatus) {
    s == L.Assigned || s == L.InTransit || s == L.Delivered
  }

  /** What one call of Update may do to the table. */
  ghost predicate UpdateEffect(t: map<Id, Row>, t': map<Id, Row>, id: Id, p: Params, now: nat,
                               failure: Option<Failure>) {
    if id !in t || t[id].deleted then failure == Some(NotFound) && t' == t
    else if Frozen(t[id].status) && (p.routePoints != [] || p.payment.Some?) then
      failure == Some(CannotEditAfterAssigned) && t' == t
    else
      && failure == None && t'.Keys == t.Keys
      && (forall k | k in t && k != id :: t'[k] == t[k])
      && ColumnsUpdated(p, t[id].cols, t'[id].cols, now)
      && t'[id].points == (if p.routePoints != [] then p.routePoints else t[id].points)
      && t'[id].payment == (if p.payment.Some? then p.payment else t[id].payment)
      && t'[id].status == t[id].status && !t'[id].deleted
  }

  class Repo {
    var rows: map<Id, Row>

    constructor ()
      ensures rows == map[]
    {
      rows := map[];
    }

    method UpdateColumns(id: Id, p: Params, now: nat)
      requires id in rows && !rows[id].deleted
      modifies this
      ensures rows.Keys == old(rows).Keys
      ensures forall k | k in old(rows) && k != id :: rows[k] == old(rows)[k]
      ensures rows[id] == old(rows)[id].(cols := rows[id].cols)
      ensures ColumnsUpdated(p, old(rows)[id].cols, rows[id].cols, now)
    {
      var setCols, args, argN := Assemble(p);
      if |setCols| > 0 {
        StatementIsRecordUpdate(p, setCols, args, argN, rows, id, now);
        rows := Execute(Statement(setCols, argN), args + [Uuid(id)], rows, now);
      } else {
        assert setCols == [];
        NothingBuilt(p, args, argN);
      }
    }

    method Update(id: Id, p: Params, now: nat) returns (failure: Option<Failure>)
      modifies this
      ensures UpdateEffect(old(rows), rows, id, p, now, failure)
    {
      if id !in rows || rows[id].deleted {
        return Some(NotFound);
      }
      var status := rows[id].status;
      if Frozen(status) {
        if |p.routePoints| > 0 || p.payment.Some? {
          return Some(CannotEditAfterAssigned);
        }
      }
      UpdateColumns(id, p, now);
      if |p.routePoints| > 0 && !Frozen(status) {
        rows := rows[id := rows[id].(points := p.routePoints)];
      }
      if p.payment.Some? && !Frozen(status) {
        rows := rows[id := rows[id].(payment := p.payment)];
      }
      return None;
    }
  }
}
