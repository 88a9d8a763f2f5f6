/** Redis INCR + EXPIRE as a fixed-window limiter, with a logical clock. */
module FixedWindow {
  import opened Wrappers

  /** A counter key; it exists while now < expires. */
  datatype Counter = Counter(count: nat, expires: nat)

  predicate Alive(c: Option<Counter>, now: nat) {
    c.Some? && now < c.value.expires
  }

  /** INCR key; a counter that starts at 1 gets a TTL of one window. */
  function Bump(c: Option<Counter>, now: nat, window: nat): Counter {
    if Alive(c, now) then Counter(c.value.count + 1, c.value.expires) else Counter(1, now + window)
  }

  /** How many of the moments fall in [from, to). */
  function CountIn(hits: seq<nat>, from: int, to: int): nat {
    if hits == [] then 0
    else CountIn(hits[..|hits| - 1], from, to) + if from <= hits[|hits| - 1] < to then 1 else 0
  }

  /** The passes in the closed interval [t, t + window]. */
  function InWindow(hits: seq<nat>, t: nat, window: nat): nat {
    CountIn(hits, t, t + window + 1)
  }

  lemma CountInAppend(hits: seq<nat>, h: nat, from: int, to: int)
    ensures CountIn(hits + [h], from, to) == CountIn(hits, from, to) + if from <= h < to then 1 else 0
  {
    assert (hits + [h])[..|hits|] == hits;
  }

  lemma {:induction false} CountInWithin(hits: seq<nat>, from: int, to: int, from': int, to': int)
    requires forall i | 0 <= i < |hits| && from <= hits[i] < to :: from' <= hits[i] < to'
    ensures CountIn(hits, from, to) <= CountIn(hits, from', to')
  {
    if hits != [] {
      CountInWithin(hits[..|hits| - 1], from, to, from', to');
    }
  }

  lemma {:induction false} CountInSplit(hits: seq<nat>, from: int, mid: int, to: int)
    requires from <= mid <= to
    ensures CountIn(hits, from, to) == CountIn(hits, from, mid) + CountIn(hits, mid, to)
  {
    if hits != [] {
      CountInSplit(hits[..|hits| - 1], from, mid, to);
    }
  }

  lemma {:induction false} CountInNone(hits: seq<nat>, from: int, to: int)
    requires forall i | 0 <= i < |hits| :: !(from <= hits[i] < to)
    ensures CountIn(hits, from, to) == 0
  {
    if hits != [] {
      CountInNone(hits[..|hits| - 1], from, to);
    }
  }

  /** `hits` are moments at which the limiter let a request through. */
  ghost predicate Limits(c: Option<Counter>, hits: seq<nat>, now: nat, limit: nat, window: nat) {
    && (c.None? ==> hits == [])
    && (c.Some? ==>
          var start := c.value.expires - window;
          && 0 <= start <= now
          && (forall i | 0 <= i < |hits| :: hits[i] <= now && hits[i] < c.value.expires)
          && CountIn(hits, start, c.value.expires) <= c.value.count
          && CountIn(hits, start, c.value.expires) <= limit
          && CountIn(hits, start - window, start) <= limit)
    && (forall t: nat :: InWindow(hits, t, window) <= 2 * limit)
  }

  lemma TickKeepsLimits(c: Option<Counter>, hits: seq<nat>, now: nat, now': nat, limit: nat, window: nat)
    requires Limits(c, hits, now, limit, window) && now <= now'
    ensures Limits(c, hits, now', limit, window)
  {
  }

  lemma RefusalKeepsLimits(c: Option<Counter>, hits: seq<nat>, now: nat, limit: nat, window: nat)
    requires window > 0 && Limits(c, hits, now, limit, window)
    ensures Limits(Some(Bump(c, now, window)), hits, now, limit, window)
  {
    if !Alive(c, now) && c.Some? {
      CountInNone(hits, now, now + window);
      CountInWithin(hits, now - window, now, c.value.expires - window, c.value.expires);
    } else if c.None? {
      assert CountIn([], now, now + window) == 0 && CountIn([], now - window, now) == 0;
    }
  }

  lemma PassKeepsLimits(c: Option<Counter>, hits: seq<nat>, now: nat, limit: nat, window: nat)
    requires window > 0 && Limits(c, hits, now, limit, window)
    requires Bump(c, now, window).count <= limit
    ensures Limits(Some(Bump(c, now, window)), hits + [now], now, limit, window)
  {
    RefusalKeepsLimits(c, hits, now, limit, window);
    var c' := Bump(c, now, window);
    var start := c'.expires - window;
    if !Alive(c, now) { CountInNone(hits, now, now + window); }
    CountInAppend(hits, now, start, c'.expires);
    CountInAppend(hits, now, start - window, start);
    forall t: nat ensures InWindow(hits + [now], t, window) <= 2 * limit {
      assert InWindow(hits, t, window) <= 2 * limit;
      CountInAppend(hits, now, t, t + window + 1);
      if t <= now < t + window + 1 {
        PassInWindow(hits + [now], t, start, window, limit, c'.expires);
      }
    }
  }

  /** A window that holds the present lies in the current counter's life and the window before it. */
  lemma PassInWindow(hits: seq<nat>, t: nat, start: int, window: nat, limit: nat, expires: nat)
    requires start == expires - window && start - window <= t
    requires forall i | 0 <= i < |hits| :: hits[i] < expires
    requires CountIn(hits, start, expires) <= limit && CountIn(hits, start - window, start) <= limit
    ensures CountIn(hits, t, t + window + 1) <= 2 * limit
  {
    CountInWithin(hits, t, t + window + 1, start - window, expires);
    CountInSplit(hits, start - window, start, expires);
  }
}
