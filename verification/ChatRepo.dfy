/** The chat tables and the statements of the chat repository that change them. */
module ChatRepo {
  import opened Strings
  import opened Uuids
  import opened Wrappers
  import opened Chat

  function NewestOf(t: seq<Message>, n: nat, conv: Id, before: Option<nat>): (r: seq<Message>)
    requires n <= |t|
    ensures n == 0 ==> r == []
    ensures n == |t| ==> r == Newest(t, conv, before)
  {
    assert t[..|t|] == t;
    Newest(t[..n], conv, before)
  }

  lemma NewestUnfolds(t: seq<Message>, i: nat, conv: Id, before: Option<nat>)
    requires i < |t|
    ensures Wanted(t[i], conv, before) ==> NewestOf(t, i + 1, conv, before) == [t[i]] + NewestOf(t, i, conv, before)
    ensures !Wanted(t[i], conv, before) ==> NewestOf(t, i + 1, conv, before) == NewestOf(t, i, conv, before)
  {
    assert t[..i + 1][..i] == t[..i];
  }

  ghost predicate Splits(d: seq<Message>, rows: seq<Message>, rest: seq<Message>) {
    d == rows + rest
  }

  lemma Shift(d: seq<Message>, rows: seq<Message>, m: Message, rest: seq<Message>)
    requires Splits(d, rows, [m] + rest)
    ensures Splits(d, rows + [m], rest)
  {
  }

  lemma CutAt(d: seq<Message>, rows: seq<Message>, rest: seq<Message>, n: nat)
    requires Splits(d, rows, rest) && |rows| <= n && (|rows| == n || rest == [])
    ensures rows == Take(d, n)
  {
  }

  /** WHERE … ORDER BY created_at DESC LIMIT count, read row by row. */
  method Select(t: seq<Message>, conv: Id, before: Option<nat>, count: nat) returns (rows: seq<Message>)
    ensures rows == Take(Newest(t, conv, before), count)
  {
    rows := [];
    var i := |t|;
    while i > 0 && |rows| < count
      invariant 0 <= i <= |t| && |rows| <= count
      invariant Splits(Newest(t, conv, before), rows, NewestOf(t, i, conv, before))
    {
      NewestUnfolds(t, i - 1, conv, before);
      i := i - 1;
      if Wanted(t[i], conv, before) {
        Shift(Newest(t, conv, before), rows, t[i], NewestOf(t, i, conv, before));
        rows := rows + [t[i]];
      }
    }
    CutAt(Newest(t, conv, before), rows, NewestOf(t, i, conv, before), count);
  }

  class Repo {
    var conversations: map<Id, (Uuid, Uuid)>
    var messages: seq<Message>

    ghost predicate Valid()
      reads this
    {
      && ConstraintsHold(conversations)
      && InOrder(messages)
      && forall i | 0 <= i < |messages| :: messages[i].conversation in conversations
    }

    constructor ()
      ensures Valid() && conversations == map[] && messages == []
    {
      conversations, messages := map[], [];
    }

    predicate Participant(conv: Id, user: Uuid)
      reads this
    {
      conv in conversations && (conversations[conv].0 == user || conversations[conv].1 == user)
    }

    /** None stands for ErrSameUser. The insert never trips over the CHECK constraint. */
    method GetOrCreateConversation(user: Uuid, peer: Uuid, newId: Id) returns (r: Option<Id>)
      requires Valid() && newId !in conversations
      modifies this`conversations
      ensures Valid()
      ensures r.None? <==> user == peer
      ensures r.None? ==> conversations == old(conversations)
      ensures r.Some? ==> r.value in conversations && conversations[r.value] == Ordered(user, peer)
      ensures r.Some? ==> {conversations[r.value].0, conversations[r.value].1} == {user, peer}
      ensures r.Some? && r.value in old(conversations) ==> conversations == old(conversations)
      ensures r.Some? && r.value !in old(conversations) ==>
                r.value == newId && conversations == old(conversations)[newId := Ordered(user, peer)]
    {
      if user == peer {
        return None;
      }
      OrderedPair(user, peer);
      var u1, u2 := user, peer;
      if TextLess(Text(u2), Text(u1)) {
        u1, u2 := u2, u1;
      }
      assert (u1, u2) == Ordered(user, peer);
      if c :| c in conversations && conversations[c] == (u1, u2) {
        r := Some(c);
      } else {
        InsertKeepsConstraints(conversations, newId, user, peer);
        conversations := conversations[newId := (u1, u2)];
        r := Some(newId);
      }
    }

    /** A nil cursor and the zero UUID are both None. Strangers to the conversation see nothing. */
    method ListMessages(conv: Id, user: Uuid, cursor: Option<Id>, limit: int) returns (rows: seq<Message>)
      requires Valid()
      ensures conv in conversations && user in {conversations[conv].0, conversations[conv].1} ==>
                rows == PageAt(messages, conv, cursor, limit)
      ensures conv !in conversations || user !in {conversations[conv].0, conversations[conv].1} ==> rows == []
    {
      var count := if limit <= 0 || limit > 100 then 50 else limit;
      if !Participant(conv, user) {
        return [];
      }
      if cursor.None? {
        rows := Select(messages, conv, None, count);
      } else {
        var before := CreatedOf(messages, cursor.value);
        if before.None? {
          return [];
        }
        rows := Select(messages, conv, before, count);
      }
    }

    /** created_at is later than that of every row; false means that no conversation matched. */
    method CreateMessage(conv: Id, sender: Uuid, body: string, newId: Id, now: nat) returns (ok: bool)
      requires Valid()
      requires forall i | 0 <= i < |messages| :: messages[i].id != newId && messages[i].created < now
      modifies this`messages
      ensures Valid() && Later(old(messages), messages)
      ensures ok <==> conv in conversations && sender in {conversations[conv].0, conversations[conv].1}
      ensures messages == old(messages) + if ok then [Message(newId, conv, sender, body, now, false)] else []
    {
      ok := Participant(conv, sender);
      if ok {
        messages := messages + [Message(newId, conv, sender, body, now, false)];
      }
    }

    method UpdateMessage(id: Id, sender: Uuid, body: string) returns (ok: bool)
      requires Valid()
      modifies this`messages
      ensures Valid() && Later(old(messages), messages) && |messages| == |old(messages)|
      ensures ok <==> exists i :: 0 <= i < |messages| && old(messages)[i].id == id
                                  && old(messages)[i].sender == sender && !old(messages)[i].deleted
      ensures forall i | 0 <= i < |messages| ::
                var m := old(messages)[i];
                messages[i] == if m.id == id && m.sender == sender && !m.deleted then m.(body := body) else m
    {
      ok := false;
      if i :| 0 <= i < |messages| && messages[i].id == id && messages[i].sender == sender && !messages[i].deleted {
        messages := messages[i := messages[i].(body := body)];
        ok := true;
      }
    }

    /** Soft deletion by the sender; false stands for ErrNotFound. */
    method DeleteMessage(id: Id, sender: Uuid) returns (ok: bool)
      requires Valid()
      modifies this`messages
      ensures Valid() && Later(old(messages), messages) && |messages| == |old(messages)|
      ensures ok <==> exists i :: 0 <= i < |messages| && old(messages)[i].id == id
                                  && old(messages)[i].sender == sender && !old(messages)[i].deleted
      ensures forall i | 0 <= i < |messages| ::
                var m := old(messages)[i];
                messages[i] == if m.id == id && m.sender == sender && !m.deleted then m.(deleted := true) else m
    {
      ok := false;
      if i :| 0 <= i < |messages| && messages[i].id == id && messages[i].sender == sender && !messages[i].deleted {
        messages := messages[i := messages[i].(deleted := true)];
        ok := true;
      }
    }
  }

  /** Two users open a conversation: afterwards either of them can post, and both list the same page. */
  method OpenAndPost(repo: Repo, user: Uuid, peer: Uuid, author: Uuid, body: string, newConv: Id, newMsg: Id, now: nat)
    returns (conv: Id, posted: bool, mine: seq<Message>, theirs: seq<Message>)
    requires repo.Valid() && newConv !in repo.conversations && user != peer && author in {user, peer}
    requires forall i | 0 <= i < |repo.messages| :: repo.messages[i].id != newMsg && repo.messages[i].created < now
    modifies repo
    ensures repo.Valid() && posted
    ensures repo.messages == old(repo.messages) + [Message(newMsg, conv, author, body, now, false)]
    ensures mine == theirs == PageAt(repo.messages, conv, None, 50)
  {
    var c := repo.GetOrCreateConversation(user, peer, newConv);
    conv := c.value;
    posted := repo.CreateMessage(conv, author, body, newMsg, now);
    mine := repo.ListMessages(conv, user, None, 50);
    theirs := repo.ListMessages(conv, peer, None, 50);
  }
}
