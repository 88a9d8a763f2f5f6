/** What it means to filter a list. */
module Filtering {

  /** The positions are increasing and are exactly those of s at which p holds. */
  ghost predicate Positions<T(!new)>(s: seq<T>, p: T -> bool, at: seq<nat>) {
    && (forall k | 0 <= k < |at| :: at[k] < |s| && p(s[at[k]]))
    && (forall k, l | 0 <= k < l < |at| :: at[k] < at[l])
    && (forall i | 0 <= i < |s| && p(s[i]) :: exists k :: 0 <= k < |at| && at[k] == i)
  }

  /** r is what s has at the positions. */
  ghost predicate Reads<T(!new)>(s: seq<T>, at: seq<nat>, r: seq<T>) {
    |r| == |at| && forall k | 0 <= k < |at| :: at[k] < |s| && r[k] == s[at[k]]
  }

  /** r has the elements of s that satisfy p, each as often as s and in the order of s. */
  ghost predicate Filters<T(!new)>(s: seq<T>, p: T -> bool, r: seq<T>) {
    exists at: seq<nat> :: Positions(s, p, at) && Reads(s, at, r)
  }

  function Pick<T>(s: seq<T>, p: T -> bool): seq<T> {
    if s == [] then []
    else
      var rest := Pick(s[..|s| - 1], p);
      if p(s[|s| - 1]) then rest + [s[|s| - 1]] else rest
  }

  lemma PositionsSnoc<T(!new)>(s: seq<T>, x: T, p: T -> bool, at: seq<nat>)
    requires Positions(s, p, at)
    ensures Positions(s + [x], p, if p(x) then at + [|s|] else at)
  {
    var s', at' := s + [x], if p(x) then at + [|s|] else at;
    forall i | 0 <= i < |s'| && p(s'[i]) ensures exists k :: 0 <= k < |at'| && at'[k] == i {
      if i < |s| {
        var k :| 0 <= k < |at| && at[k] == i;
        assert at'[k] == i;
      } else {
        assert at'[|at|] == i;
      }
    }
  }

  lemma ReadsSnoc<T(!new)>(s: seq<T>, x: T, at: seq<nat>, r: seq<T>)
    requires Reads(s, at, r)
    ensures Reads(s + [x], at, r)
    ensures Reads(s + [x], at + [|s|], r + [x])
  {
  }

  lemma PickSnoc<T>(s: seq<T>, x: T, p: T -> bool)
    ensures Pick(s + [x], p) == if p(x) then Pick(s, p) + [x] else Pick(s, p)
  {
    assert (s + [x])[..|s|] == s;
  }

  lemma {:induction false} PickAt<T(!new)>(s: seq<T>, p: T -> bool) returns (at: seq<nat>)
    ensures Positions(s, p, at) && Reads(s, at, Pick(s, p))
  {
    if s == [] {
      at := [];
    } else {
      var init, x := s[..|s| - 1], s[|s| - 1];
      var before := PickAt(init, p);
      assert s == init + [x];
      PositionsSnoc(init, x, p, before);
      ReadsSnoc(init, x, before, Pick(init, p));
      PickSnoc(init, x, p);
      at := if p(x) then before + [|init|] else before;
    }
  }

  lemma PickFilters<T(!new)>(s: seq<T>, p: T -> bool)
    ensures Filters(s, p, Pick(s, p))
  {
    var at := PickAt(s, p);
  }

  lemma {:induction false} PickAll<T>(s: seq<T>, p: T -> bool)
    requires forall x | x in s :: p(x)
    ensures Pick(s, p) == s
  {
    if s != [] {
      PickAll(s[..|s| - 1], p);
      assert s == s[..|s| - 1] + [s[|s| - 1]];
    }
  }

  lemma {:induction false} PickSame<T>(s: seq<T>, p: T -> bool, q: T -> bool)
    requires forall x | x in s :: p(x) == q(x)
    ensures Pick(s, p) == Pick(s, q)
  {
    if s != [] {
      PickSame(s[..|s| - 1], p, q);
    }
  }

  lemma {:induction false} Picked<T>(s: seq<T>, p: T -> bool, x: T)
    ensures x in Pick(s, p) <==> x in s && p(x)
  {
    if s != [] {
      Picked(s[..|s| - 1], p, x);
      assert s == s[..|s| - 1] + [s[|s| - 1]];
    }
  }
}
