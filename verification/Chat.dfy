/** Conversations keyed by an ordered pair of users, and cursor paging over messages. */
module Chat {
  import opened Strings
  import opened Uuids
  import opened Wrappers

  type Id = nat

  /* ---------- conversations ---------- */

  /** The order in which GetOrCreateConversation stores two users. */
  function Ordered(u: Uuid, v: Uuid): (Uuid, Uuid) {
    if TextLess(Text(v), Text(u)) then (v, u) else (u, v)
  }

  /** The pair does not depend on who asks, and never violates CHECK (user_a_id < user_b_id). */
  lemma OrderedPair(u: Uuid, v: Uuid)
    requires u != v
    ensures Ordered(u, v) == Ordered(v, u)
    ensures BytesLess(Ordered(u, v).0, Ordered(u, v).1)
    ensures {Ordered(u, v).0, Ordered(u, v).1} == {u, v}
  {
    TextOrderIsByteOrder(u, v);
    TextOrderIsByteOrder(v, u);
    BytesTotal(u, v);
  }

  /** chat_conversations: the CHECK and the UNIQUE constraint. */
  ghost predicate ConstraintsHold(convs: map<Id, (Uuid, Uuid)>) {
    && (forall c | c in convs :: BytesLess(convs[c].0, convs[c].1))
    && (forall c, d | c in convs && d in convs && convs[c] == convs[d] :: c == d)
  }

  /** A new row for two users without a conversation violates neither constraint. */
  lemma InsertKeepsConstraints(convs: map<Id, (Uuid, Uuid)>, c: Id, u: Uuid, v: Uuid)
    requires ConstraintsHold(convs) && u != v
    requires forall d | d in convs :: convs[d] != Ordered(u, v)
    ensures ConstraintsHold(convs[c := Ordered(u, v)])
  {
    OrderedPair(u, v);
  }

  /** Under the two constraints an unordered pair of users has one conversation. */
  lemma OnePairEach(convs: map<Id, (Uuid, Uuid)>, c: Id, d: Id)
    requires ConstraintsHold(convs) && c in convs && d in convs
    requires {convs[c].0, convs[c].1} == {convs[d].0, convs[d].1}
    ensures c == d
  {
    var k, l := convs[c], convs[d];
    BytesTotal(k.0, k.1);
    BytesTotal(l.0, l.1);
    assert k.0 in {l.0, l.1} && k.1 in {l.0, l.1} && l.0 in {k.0, k.1} && l.1 in {k.0, k.1};
  }

  /* ---------- messages ---------- */

  datatype Message = Message(id: Id, conversation: Id, sender: Uuid, body: string, created: nat, deleted: bool)

  /** The table in the order of created_at, which is distinct; ids are keys. */
  ghost predicate InOrder(t: seq<Message>) {
    && (forall i, j | 0 <= i < j < |t| :: t[i].created < t[j].created)
    && (forall i, j | 0 <= i < j < |t| :: t[i].id != t[j].id)
  }

  predicate Wanted(m: Message, conv: Id, before: Option<nat>) {
    m.conversation == conv && !m.deleted && (before.Some? ==> m.created < before.value)
  }

  /** ORDER BY created_at DESC over the wanted rows. */
  function Newest(t: seq<Message>, conv: Id, before: Option<nat>): seq<Message> {
    if t == [] then []
    else
      var n := |t| - 1;
      var rest := Newest(t[..n], conv, before);
      if Wanted(t[n], conv, before) then [t[n]] + rest else rest
  }

  function ClampLimit(limit: int): (r: nat)
    ensures 1 <= r <= 100
  {
    if limit <= 0 || limit > 100 then 50 else limit
  }

  /** (SELECT created_at FROM chat_messages WHERE id = c), also of a deleted message. */
  function CreatedOf(t: seq<Message>, c: Id): Option<nat> {
    if t == [] then None
    else if t[|t| - 1].id == c then Some(t[|t| - 1].created)
    else CreatedOf(t[..|t| - 1], c)
  }

  function Take<T>(s: seq<T>, n: nat): seq<T> {
    if n <= |s| then s[..n] else s
  }

  /** The rows below a cursor; a cursor that is no message compares with NULL and selects nothing. */
  function Below(t: seq<Message>, conv: Id, cursor: Option<Id>): seq<Message> {
    if cursor.None? then Newest(t, conv, None)
    else if CreatedOf(t, cursor.value).None? then []
    else Newest(t, conv, CreatedOf(t, cursor.value))
  }

  function PageAt(t: seq<Message>, conv: Id, cursor: Option<Id>, limit: int): seq<Message> {
    Take(Below(t, conv, cursor), ClampLimit(limit))
  }

  lemma OlderThanLast(t: seq<Message>, m: Message)
    requires InOrder(t) && t != [] && m in t[..|t| - 1]
    ensures m.created < t[|t| - 1].created && m in t
  {
    var i :| 0 <= i < |t| - 1 && t[..|t| - 1][i] == m;
    assert t[i] == m;
  }

  /** Exactly the wanted rows of t, newest first. */
  ghost predicate Lists(d: seq<Message>, t: seq<Message>, conv: Id, before: Option<nat>) {
    && (forall i | 0 <= i < |d| :: d[i] in t && Wanted(d[i], conv, before))
    && (forall i, j | 0 <= i < j < |d| :: d[i].created > d[j].created)
    && (forall m | m in t && Wanted(m, conv, before) :: m in d)
  }

  lemma ListsNewer(d: seq<Message>, t: seq<Message>, conv: Id, before: Option<nat>)
    requires InOrder(t) && t != [] && Lists(d, t[..|t| - 1], conv, before) && Wanted(t[|t| - 1], conv, before)
    ensures Lists([t[|t| - 1]] + d, t, conv, before)
  {
    var m := t[|t| - 1];
    forall x | x in d ensures x in t && x.created < m.created {
      OlderThanLast(t, x);
    }
    forall w | w in t && Wanted(w, conv, before) ensures w in [m] + d {
      if w != m { assert w in t[..|t| - 1]; }
    }
  }

  lemma ListsSame(d: seq<Message>, t: seq<Message>, conv: Id, before: Option<nat>)
    requires InOrder(t) && t != [] && Lists(d, t[..|t| - 1], conv, before) && !Wanted(t[|t| - 1], conv, before)
    ensures Lists(d, t, conv, before)
  {
    forall x | x in d ensures x in t {
      OlderThanLast(t, x);
    }
    forall w | w in t && Wanted(w, conv, before) ensures w in d {
      assert w in t[..|t| - 1];
    }
  }

  lemma {:induction false} NewestRows(t: seq<Message>, conv: Id, before: Option<nat>)
    requires InOrder(t)
    ensures Lists(Newest(t, conv, before), t, conv, before)
  {
    if t != [] {
      var rest := Newest(t[..|t| - 1], conv, before);
      NewestRows(t[..|t| - 1], conv, before);
      if Wanted(t[|t| - 1], conv, before) {
        ListsNewer(rest, t, conv, before);
      } else {
        ListsSame(rest, t, conv, before);
      }
    }
  }

  /** Rows below the k-th of a listing are the rest of that listing. */
  lemma {:induction false} NewestBelow(t: seq<Message>, conv: Id, before: Option<nat>, k: nat)
    requires InOrder(t) && k < |Newest(t, conv, before)|
    ensures Newest(t, conv, Some(Newest(t, conv, before)[k].created)) == Newest(t, conv, before)[k + 1..]
  {
    var last, rest := t[|t| - 1], Newest(t[..|t| - 1], conv, before);
    if !Wanted(last, conv, before) {
      NewestBelow(t[..|t| - 1], conv, before, k);
      ListedAreOlder(t, conv, before, k);
      SkipsLast(t, conv, rest[k].created);
    } else if k == 0 {
      assert ([last] + rest)[1..] == rest;
      SkipsLast(t, conv, last.created);
      TighterBound(t[..|t| - 1], conv, before, last.created);
    } else {
      assert ([last] + rest)[k] == rest[k - 1] && ([last] + rest)[k + 1..] == rest[k..];
      NewestBelow(t[..|t| - 1], conv, before, k - 1);
      ListedAreOlder(t, conv, before, k - 1);
      SkipsLast(t, conv, rest[k - 1].created);
    }
  }

  /** The last row is not below a bound that is not above it. */
  lemma SkipsLast(t: seq<Message>, conv: Id, b: nat)
    requires t != [] && b <= t[|t| - 1].created
    ensures Newest(t, conv, Some(b)) == Newest(t[..|t| - 1], conv, Some(b))
  {
  }

  lemma ListedAreOlder(t: seq<Message>, conv: Id, before: Option<nat>, j: nat)
    requires InOrder(t) && t != [] && j < |Newest(t[..|t| - 1], conv, before)|
    ensures Newest(t[..|t| - 1], conv, before)[j].created < t[|t| - 1].created
  {
    NewestRows(t[..|t| - 1], conv, before);
    OlderThanLast(t, Newest(t[..|t| - 1], conv, before)[j]);
  }

  lemma {:induction false} TighterBound(t: seq<Message>, conv: Id, before: Option<nat>, b: nat)
    requires forall i | 0 <= i < |t| :: t[i].created < b
    requires before.Some? ==> b < before.value
    ensures Newest(t, conv, Some(b)) == Newest(t, conv, before)
  {
    if t != [] {
      TighterBound(t[..|t| - 1], conv, before, b);
    }
  }

  /* ---------- paging while the table changes ---------- */

  /** Between two requests messages may be added, edited and soft-deleted. */
  ghost predicate Later(t: seq<Message>, t': seq<Message>) {
    && InOrder(t) && InOrder(t') && |t| <= |t'|
    && forall i | 0 <= i < |t| ::
         && t'[i].id == t[i].id && t'[i].conversation == t[i].conversation && t'[i].created == t[i].created
         && (t[i].deleted ==> t'[i].deleted)
  }

  /** The tables that successive requests meet. */
  ghost predicate History(tables: seq<seq<Message>>) {
    && tables != [] && InOrder(tables[0])
    && (|tables| > 1 ==> Later(tables[0], tables[1]) && History(tables[1..]))
  }

  /** Request after request, each against the table of its moment, with the last id of a page as the
      next cursor, until a page is empty. */
  function Collect(tables: seq<seq<Message>>, conv: Id, cursor: Option<Id>, limit: int): seq<Message> {
    if tables == [] then []
    else
      var page := PageAt(tables[0], conv, cursor, limit);
      if page == [] then [] else page + Collect(tables[1..], conv, Some(page[|page| - 1].id), limit)
  }

  /** The client met an empty page. */
  predicate Ends(tables: seq<seq<Message>>, conv: Id, cursor: Option<Id>, limit: int) {
    tables != [] &&
    var page := PageAt(tables[0], conv, cursor, limit);
    page == [] || Ends(tables[1..], conv, Some(page[|page| - 1].id), limit)
  }

  lemma {:induction false} CreatedOfRow(t: seq<Message>, i: nat)
    requires InOrder(t) && i < |t|
    ensures CreatedOf(t, t[i].id) == Some(t[i].created)
  {
    if i < |t| - 1 {
      CreatedOfRow(t[..|t| - 1], i);
    }
  }

  /** Below a row that was there before, a later table has no more to show. */
  lemma {:induction false} LaterShowsLess(t: seq<Message>, t': seq<Message>, conv: Id, b: nat)
    requires Later(t, t')
    requires forall i | |t| <= i < |t'| :: b <= t'[i].created
    ensures |Newest(t', conv, Some(b))| <= |Newest(t, conv, Some(b))|
  {
    if |t| < |t'| {
      LaterShowsLess(t, t'[..|t'| - 1], conv, b);
    } else if t != [] {
      LaterShowsLess(t[..|t| - 1], t'[..|t'| - 1], conv, b);
    }
  }

  lemma {:induction false} StillThere(tables: seq<seq<Message>>, i: nat)
    requires History(tables) && i < |tables[0]|
    ensures var last := tables[|tables| - 1];
      i < |last| && last[i].id == tables[0][i].id && last[i].conversation == tables[0][i].conversation
      && last[i].created == tables[0][i].created && (tables[0][i].deleted ==> last[i].deleted)
  {
    if |tables| > 1 {
      StillThere(tables[1..], i);
    }
  }

  function BoundOf(t: seq<Message>, cursor: Option<Id>): Option<nat> {
    if cursor.None? then None else CreatedOf(t, cursor.value)
  }

  /** One page and what is left for the next request. */
  lemma PageStep(t: seq<Message>, t': seq<Message>, conv: Id, bound: Option<nat>, n: nat)
    requires Later(t, t') && n >= 1 && Newest(t, conv, bound) != []
    ensures
      var d := Newest(t, conv, bound);
      var page := Take(d, n);
      var l := page[|page| - 1];
      && |page| >= 1
      && CreatedOf(t', l.id) == Some(l.created)
      && |Newest(t', conv, Some(l.created))| < |d|
      && (forall i | 0 <= i < |t| && Wanted(t[i], conv, bound) && t[i].created >= l.created :: t[i] in page)
  {
    var d := Newest(t, conv, bound);
    var page := Take(d, n);
    var k := |page| - 1;
    NewestRows(t, conv, bound);
    assert page[k] == d[k];
    var i :| 0 <= i < |t| && t[i] == d[k];
    CreatedOfRow(t', i);
    NewestBelow(t, conv, bound, k);
    LaterShowsLess(t, t', conv, d[k].created);
    forall j | 0 <= j < |t| && Wanted(t[j], conv, bound) && t[j].created >= d[k].created ensures t[j] in page {
      assert t[j] in d;
      InPrefix(d, t[j], k);
    }
  }

  lemma InPrefix(d: seq<Message>, m: Message, k: nat)
    requires k < |d| && m in d && m.created >= d[k].created
    requires forall i, j | 0 <= i < j < |d| :: d[i].created > d[j].created
    ensures m in d[..k + 1]
  {
    var p :| 0 <= p < |d| && d[p] == m;
    assert d[..k + 1][p] == m;
  }

  ghost predicate Returned(rows: seq<Message>, id: Id) {
    exists k :: 0 <= k < |rows| && rows[k].id == id
  }

  ghost predicate Descending(rows: seq<Message>, bound: Option<nat>) {
    && (forall i, j | 0 <= i < j < |rows| :: rows[i].created > rows[j].created)
    && (forall i | 0 <= i < |rows| && bound.Some? :: rows[i].created < bound.value)
  }

  lemma NewestDescends(t: seq<Message>, conv: Id, bound: Option<nat>)
    requires InOrder(t)
    ensures Descending(Newest(t, conv, bound), bound)
  {
    NewestRows(t, conv, bound);
  }

  /** Every message of t that is still wanted in the last table is among the rows. */
  ghost predicate NothingMissed(t: seq<Message>, last: seq<Message>, conv: Id, bound: Option<nat>, rows: seq<Message>) {
    forall i | 0 <= i < |t| && i < |last| && Wanted(last[i], conv, bound) :: Returned(rows, t[i].id)
  }

  /** What was wanted at the end was wanted at the start, since deletion is final. */
  ghost predicate Outlives(t: seq<Message>, last: seq<Message>) {
    forall i | 0 <= i < |t| && i < |last| ::
      && last[i].conversation == t[i].conversation && last[i].created == t[i].created
      && (t[i].deleted ==> last[i].deleted)
  }

  lemma HistoryOutlives(tables: seq<seq<Message>>)
    requires History(tables)
    ensures Outlives(tables[0], tables[|tables| - 1])
  {
    forall i | 0 <= i < |tables[0]| && i < |tables[|tables| - 1]|
      ensures var t, last := tables[0], tables[|tables| - 1];
        last[i].conversation == t[i].conversation && last[i].created == t[i].created && (t[i].deleted ==>
            last[i].deleted)
    {
      StillThere(tables, i);
    }
  }

  lemma NothingMissedStep(t: seq<Message>, t': seq<Message>, last: seq<Message>, conv: Id, bound: Option<nat>,
                          page: seq<Message>, rest: seq<Message>, low: nat)
    requires Outlives(t, last) && |t| <= |t'| && forall i | 0 <= i < |t| :: t'[i].id == t[i].id
    requires forall i | 0 <= i < |t| && Wanted(t[i], conv, bound) && t[i].created >= low :: t[i] in page
    requires NothingMissed(t', last, conv, Some(low), rest)
    ensures NothingMissed(t, last, conv, bound, page + rest)
  {
    forall i | 0 <= i < |t| && i < |last| && Wanted(last[i], conv, bound) ensures Returned(page + rest, t[i].id) {
      if t[i].created >= low {
        var p :| 0 <= p < |page| && page[p] == t[i];
        assert (page + rest)[p].id == t[i].id;
      } else {
        assert Returned(rest, t'[i].id);
        var p :| 0 <= p < |rest| && rest[p].id == t'[i].id;
        assert (page + rest)[|page| + p].id == t[i].id;
      }
    }
  }

  lemma FirstOf(t: seq<Message>, t': seq<Message>, conv: Id, cursor: Option<Id>, limit: int, l: Message)
    requires Later(t, t') && (cursor.Some? ==> BoundOf(t, cursor).Some?)
    requires var page := PageAt(t, conv, cursor, limit); page != [] && l == page[|page| - 1]
    ensures CreatedOf(t', l.id) == Some(l.created)
    ensures |Newest(t', conv, Some(l.created))| < |Newest(t, conv, BoundOf(t, cursor))|
  {
    PageStep(t, t', conv, BoundOf(t, cursor), ClampLimit(limit));
  }

  /** The cursor of the first page is a row of the next table, with less to show below it. */
  lemma FirstPage(tables: seq<seq<Message>>, conv: Id, cursor: Option<Id>, limit: int)
    requires History(tables) && |tables| > 1
    requires cursor.Some? ==> BoundOf(tables[0], cursor).Some?
    requires PageAt(tables[0], conv, cursor, limit) != []
    ensures
      var page := PageAt(tables[0], conv, cursor, limit);
      var l := page[|page| - 1];
      && BoundOf(tables[1], Some(l.id)) == Some(l.created)
      && |Below(tables[1], conv, Some(l.id))| < |Below(tables[0], conv, cursor)|
  {
    var page := PageAt(tables[0], conv, cursor, limit);
    FirstOf(tables[0], tables[1], conv, cursor, limit, page[|page| - 1]);
  }

  /** Newest first, below the bound, and complete with respect to the last table. */
  ghost predicate Served(tables: seq<seq<Message>>, conv: Id, bound: Option<nat>, rows: seq<Message>)
    requires tables != []
  {
    && Descending(rows, bound)
    && NothingMissed(tables[0], tables[|tables| - 1], conv, bound, rows)
  }

  /** A page in front of what the following requests return. */
  lemma PrependPage(tables: seq<seq<Message>>, conv: Id, cursor: Option<Id>, limit: int, rest: seq<Message>, low: nat)
    requires History(tables) && |tables| > 1
    requires cursor.Some? ==> BoundOf(tables[0], cursor).Some?
    requires var page := PageAt(tables[0], conv, cursor, limit); page != [] && page[|page| - 1].created == low
    requires Served(tables[1..], conv, Some(low), rest)
    ensures Served(tables, conv, BoundOf(tables[0], cursor), PageAt(tables[0], conv, cursor, limit) + rest)
  {
    var t, bound, page := tables[0], BoundOf(tables[0], cursor), PageAt(tables[0], conv, cursor, limit);
    var d := Newest(t, conv, bound);
    assert Below(t, conv, cursor) == d;
    NewestDescends(t, conv, bound);
    WalkOrder(d, page, rest, low, bound);
    PageStep(t, tables[1], conv, bound, ClampLimit(limit));
    HistoryOutlives(tables);
    NothingMissedStep(t, tables[1], tables[|tables| - 1], conv, bound, page, rest, low);
  }

  lemma LastPage(tables: seq<seq<Message>>, conv: Id, cursor: Option<Id>, limit: int)
    requires History(tables)
    requires cursor.Some? ==> BoundOf(tables[0], cursor).Some?
    requires PageAt(tables[0], conv, cursor, limit) == []
    ensures Served(tables, conv, BoundOf(tables[0], cursor), [])
  {
    NewestRows(tables[0], conv, BoundOf(tables[0], cursor));
    HistoryOutlives(tables);
    NoneWanted(tables[0], tables[|tables| - 1], conv, BoundOf(tables[0], cursor));
  }

  lemma UnfoldCollect(tables: seq<seq<Message>>, conv: Id, cursor: Option<Id>, limit: int)
    requires tables != []
    ensures var page := PageAt(tables[0], conv, cursor, limit);
      if page == [] then Collect(tables, conv, cursor, limit) == [] && Ends(tables, conv, cursor, limit)
      else
        var next := Some(page[|page| - 1].id);
        && Collect(tables, conv, cursor, limit) == page + Collect(tables[1..], conv, next, limit)
        && Ends(tables, conv, cursor, limit) == Ends(tables[1..], conv, next, limit)
  {
  }

  lemma ServedByPages(tables: seq<seq<Message>>, conv: Id, cursor: Option<Id>, limit: int, l: Message)
    requires History(tables) && |tables| > 1
    requires cursor.Some? ==> BoundOf(tables[0], cursor).Some?
    requires var page := PageAt(tables[0], conv, cursor, limit); page != [] && l == page[|page| - 1]
    requires Served(tables[1..], conv, BoundOf(tables[1], Some(l.id)), Collect(tables[1..], conv, Some(l.id), limit))
    ensures Served(tables, conv, BoundOf(tables[0], cursor), Collect(tables, conv, cursor, limit))
  {
    FirstPage(tables, conv, cursor, limit);
    UnfoldCollect(tables, conv, cursor, limit);
    PrependPage(tables, conv, cursor, limit, Collect(tables[1..], conv, Some(l.id), limit), l.created);
  }

  lemma EndsLater(tables: seq<seq<Message>>, conv: Id, cursor: Option<Id>, limit: int, l: Message)
    requires tables != []
    requires var page := PageAt(tables[0], conv, cursor, limit); page != [] && l == page[|page| - 1]
    requires Ends(tables[1..], conv, Some(l.id), limit)
    ensures Ends(tables, conv, cursor, limit)
  {
  }

  /** The client meets an empty page before it runs out of requests. */
  lemma {:induction false} WalkEnds(tables: seq<seq<Message>>, conv: Id, cursor: Option<Id>, limit: int)
    requires History(tables)
    requires cursor.Some? ==> BoundOf(tables[0], cursor).Some?
    requires |tables| > |Below(tables[0], conv, cursor)|
    ensures Ends(tables, conv, cursor, limit)
  {
    var page := PageAt(tables[0], conv, cursor, limit);
    if page != [] {
      var l := page[|page| - 1];
      FirstPage(tables, conv, cursor, limit);
      WalkEnds(tables[1..], conv, Some(l.id), limit);
      EndsLater(tables, conv, cursor, limit, l);
    }
  }

  /** When the walk ends the remaining rows came newest first and nothing that stays undeleted is missed. */
  lemma {:induction false} Walk(tables: seq<seq<Message>>, conv: Id, cursor: Option<Id>, limit: int)
    requires History(tables) && Ends(tables, conv, cursor, limit)
    requires cursor.Some? ==> BoundOf(tables[0], cursor).Some?
    ensures Served(tables, conv, BoundOf(tables[0], cursor), Collect(tables, conv, cursor, limit))
  {
    var page := PageAt(tables[0], conv, cursor, limit);
    if page == [] {
      LastPage(tables, conv, cursor, limit);
    } else {
      var l := page[|page| - 1];
      FirstPage(tables, conv, cursor, limit);
      Walk(tables[1..], conv, Some(l.id), limit);
      ServedByPages(tables, conv, cursor, limit, l);
    }
  }

  lemma NoneWanted(t: seq<Message>, last: seq<Message>, conv: Id, bound: Option<nat>)
    requires Outlives(t, last) && forall m | m in t :: !Wanted(m, conv, bound)
    ensures NothingMissed(t, last, conv, bound, [])
  {
    forall i | 0 <= i < |t| && i < |last| ensures !Wanted(last[i], conv, bound) {
      assert t[i] in t;
    }
  }

  lemma WalkOrder(d: seq<Message>, page: seq<Message>, rest: seq<Message>, low: nat, bound: Option<nat>)
    requires page != [] && |page| <= |d| && page == d[..|page|] && page[|page| - 1].created == low
    requires Descending(d, bound)
    requires Descending(rest, Some(low))
    ensures Descending(page + rest, bound)
  {
    forall i | 0 <= i < |page| ensures page[i].created >= low {}
  }

  /** Paging through a conversation with any limit, while messages come and go: it ends, nothing is
      returned twice, the order is newest first, and every message that was there at the first request
      and is never deleted is returned, even if cursor messages are deleted on the way. */
  lemma PagingIsComplete(tables: seq<seq<Message>>, conv: Id, limit: int)
    requires History(tables) && |tables| > |tables[0]|
    ensures Ends(tables, conv, None, limit)
    ensures Served(tables, conv, None, Collect(tables, conv, None, limit))
  {
    NewestIsShort(tables[0], conv, None);
    WalkEnds(tables, conv, None, limit);
    Walk(tables, conv, None, limit);
  }

  lemma {:induction false} NewestIsShort(t: seq<Message>, conv: Id, before: Option<nat>)
    ensures |Newest(t, conv, before)| <= |t|
  {
    if t != [] { NewestIsShort(t[..|t| - 1], conv, before); }
  }

  lemma PageThenRest(t: seq<Message>, conv: Id, cursor: Option<Id>, limit: int)
    requires InOrder(t) && (cursor.Some? ==> BoundOf(t, cursor).Some?) && PageAt(t, conv, cursor, limit) != []
    ensures
      var page := PageAt(t, conv, cursor, limit);
      var next := Some(page[|page| - 1].id);
      && BoundOf(t, next).Some?
      && |Below(t, conv, next)| < |Below(t, conv, cursor)|
      && Below(t, conv, cursor) == page + Below(t, conv, next)
  {
    var d, page := Below(t, conv, cursor), PageAt(t, conv, cursor, limit);
    PageStep(t, t, conv, BoundOf(t, cursor), ClampLimit(limit));
    NewestBelow(t, conv, BoundOf(t, cursor), |page| - 1);
    assert d == page + d[|page|..];
  }

  lemma CollectedByPages(tables: seq<seq<Message>>, t: seq<Message>, conv: Id, cursor: Option<Id>, limit: int,
                         l: Message)
    requires tables != [] && tables[0] == t
    requires InOrder(t) && (cursor.Some? ==> BoundOf(t, cursor).Some?)
    requires var page := PageAt(t, conv, cursor, limit); page != [] && l == page[|page| - 1]
    requires Collect(tables[1..], conv, Some(l.id), limit) == Below(t, conv, Some(l.id))
    ensures Collect(tables, conv, cursor, limit) == Below(t, conv, cursor)
  {
    UnfoldCollect(tables, conv, cursor, limit);
    PageThenRest(t, conv, cursor, limit);
  }

  /** While nothing changes the pages are together the listing itself. */
  lemma {:induction false} StillPaging(tables: seq<seq<Message>>, t: seq<Message>, conv: Id, cursor: Option<Id>,
                                       limit: int)
    requires forall k | 0 <= k < |tables| :: tables[k] == t
    requires InOrder(t) && (cursor.Some? ==> BoundOf(t, cursor).Some?) && |tables| > |Below(t, conv, cursor)|
    ensures Collect(tables, conv, cursor, limit) == Below(t, conv, cursor)
  {
    var page := PageAt(t, conv, cursor, limit);
    assert tables[0] == t;
    if page == [] {
      UnfoldCollect(tables, conv, cursor, limit);
    } else {
      var l := page[|page| - 1];
      PageThenRest(t, conv, cursor, limit);
      StillPaging(tables[1..], t, conv, Some(l.id), limit);
      CollectedByPages(tables, t, conv, cursor, limit, l);
    }
  }

  /* ---------- a page and a walk in plain words ---------- */

  /** The limit of the request, 50 if it is not in 1..100. */
  lemma LimitInWords(limit: int)
    ensures ClampLimit(limit) == if 1 <= limit <= 100 then limit else 50
  {
  }

  lemma TakeInWords(d: seq<Message>, n: nat)
    ensures |Take(d, n)| == (if |d| < n then |d| else n) && Take(d, n) <= d
  {
  }

  /** A page holds undeleted messages of the conversation, newest first, and at most the limit. */
  lemma PageRows(t: seq<Message>, conv: Id, cursor: Option<Id>, limit: int)
    requires InOrder(t)
    ensures
      var page := PageAt(t, conv, cursor, limit);
      && |page| <= (if 1 <= limit <= 100 then limit else 50)
      && (forall i | 0 <= i < |page| :: page[i] in t && page[i].conversation == conv && !page[i].deleted)
      && (forall i, j | 0 <= i < j < |page| :: page[i].created > page[j].created)
  {
    LimitInWords(limit);
    if cursor.None? || CreatedOf(t, cursor.value).Some? {
      NewestRows(t, conv, BoundOf(t, cursor));
      TakeInWords(Newest(t, conv, BoundOf(t, cursor)), ClampLimit(limit));
    }
  }

  /** It is older than the cursor message, which is t[k]. */
  lemma PageBelowCursor(t: seq<Message>, conv: Id, k: nat, limit: int, i: nat)
    requires InOrder(t) && k < |t| && i < |PageAt(t, conv, Some(t[k].id), limit)|
    ensures PageAt(t, conv, Some(t[k].id), limit)[i].created < t[k].created
  {
    CreatedOfRow(t, k);
    NewestDescends(t, conv, Some(t[k].created));
    TakeInWords(Newest(t, conv, Some(t[k].created)), ClampLimit(limit));
  }

  /** After a cursor that is no message it is empty. */
  lemma {:induction false} UnknownCursor(t: seq<Message>, conv: Id, c: Id, limit: int)
    requires forall k | 0 <= k < |t| :: t[k].id != c
    ensures CreatedOf(t, c) == None && PageAt(t, conv, Some(c), limit) == []
  {
    if t != [] { UnknownCursor(t[..|t| - 1], conv, c, limit); }
  }

  lemma TakenOrNewer(d: seq<Message>, n: nat, m: Message)
    requires m in d && forall i, j | 0 <= i < j < |d| :: d[i].created > d[j].created
    ensures m in Take(d, n) || (|Take(d, n)| == n && forall i | 0 <= i < n :: Take(d, n)[i].created > m.created)
  {
    var p :| 0 <= p < |d| && d[p] == m;
    if p < |Take(d, n)| { assert Take(d, n)[p] == m; }
  }

  /** Nothing is held back: a message of the conversation that is undeleted and older than the cursor is
      on the page, or the page is full of newer ones. */
  lemma PageHoldsNothingBack(t: seq<Message>, conv: Id, cursor: Option<Id>, limit: int, m: Message)
    requires InOrder(t) && m in t && m.conversation == conv && !m.deleted
    requires cursor.Some? ==> exists k :: 0 <= k < |t| && t[k].id == cursor.value && m.created < t[k].created
    ensures
      var page := PageAt(t, conv, cursor, limit);
      var most := if 1 <= limit <= 100 then limit else 50;
      m in page || (|page| == most && forall i | 0 <= i < most :: page[i].created > m.created)
  {
    if cursor.Some? {
      var k: nat :| k < |t| && t[k].id == cursor.value && m.created < t[k].created;
      CreatedOfRow(t, k);
    }
    LimitInWords(limit);
    ListedIn(t, conv, BoundOf(t, cursor), m);
    NewestDescends(t, conv, BoundOf(t, cursor));
    TakenOrNewer(Newest(t, conv, BoundOf(t, cursor)), ClampLimit(limit), m);
  }

  lemma ListedIn(t: seq<Message>, conv: Id, before: Option<nat>, m: Message)
    requires InOrder(t) && m in t && m.conversation == conv && !m.deleted && (before.Some? ==> m.created < before.value)
    ensures m in Newest(t, conv, before)
  {
    NewestRows(t, conv, before);
  }

  /** Every row that the walk returned was then an undeleted message of the conversation. */
  lemma {:induction false} CollectedRowsBelong(tables: seq<seq<Message>>, conv: Id, cursor: Option<Id>, limit: int,
                                               i: nat)
    requires History(tables) && i < |Collect(tables, conv, cursor, limit)|
    ensures
      var m := Collect(tables, conv, cursor, limit)[i];
      m.conversation == conv && !m.deleted && exists k :: 0 <= k < |tables| && m in tables[k]
  {
    var page := PageAt(tables[0], conv, cursor, limit);
    UnfoldCollect(tables, conv, cursor, limit);
    if i < |page| {
      PageRows(tables[0], conv, cursor, limit);
      assert page[i] in tables[0];
    } else if |tables| > 1 {
      CollectedRowsBelong(tables[1..], conv, Some(page[|page| - 1].id), limit, i - |page|);
      var m := Collect(tables, conv, cursor, limit)[i];
      var k :| 0 <= k < |tables[1..]| && m in tables[1..][k];
      assert m in tables[k + 1];
    }
  }

  lemma ReturnedIfMissedNothing(t: seq<Message>, last: seq<Message>, conv: Id, rows: seq<Message>, i: nat)
    returns (k: nat)
    requires NothingMissed(t, last, conv, None, rows) && i < |t| && i < |last|
    requires last[i].conversation == conv && !last[i].deleted
    ensures k < |rows| && rows[k].id == t[i].id
  {
    assert Wanted(last[i], conv, None);
    assert Returned(rows, t[i].id);
    k :| 0 <= k < |rows| && rows[k].id == t[i].id;
  }

  /** Reading a conversation to its end returns every message of the first moment that stays undeleted,
      at some place k. */
  lemma WalkReturnsAll(tables: seq<seq<Message>>, conv: Id, limit: int, i: nat) returns (k: nat)
    requires History(tables) && |tables| > |tables[0]| && i < |tables[0]| && tables[0][i].conversation == conv
    ensures i < |tables[|tables| - 1]| && tables[|tables| - 1][i].id == tables[0][i].id
    ensures !tables[|tables| - 1][i].deleted ==>
              k < |Collect(tables, conv, None, limit)| && Collect(tables, conv, None, limit)[k].id == tables[0][i].id
  {
    PagingIsComplete(tables, conv, limit);
    StillThere(tables, i);
    var last := tables[|tables| - 1];
    k := 0;
    if !last[i].deleted {
      k := ReturnedIfMissedNothing(tables[0], last, conv, Collect(tables, conv, None, limit), i);
    }
  }

  lemma NewerFirst(rows: seq<Message>, bound: Option<nat>, k: nat, l: nat)
    requires Descending(rows, bound) && k < l < |rows|
    ensures rows[k].created > rows[l].created
  {
  }

  /** And it returns them newest first, so none twice. */
  lemma WalkDescends(tables: seq<seq<Message>>, conv: Id, limit: int, k: nat, l: nat)
    requires History(tables) && |tables| > |tables[0]| && k < l < |Collect(tables, conv, None, limit)|
    ensures Collect(tables, conv, None, limit)[k].created > Collect(tables, conv, None, limit)[l].created
  {
    PagingIsComplete(tables, conv, limit);
    NewerFirst(Collect(tables, conv, None, limit), None, k, l);
  }
}
