/** sort.SliceStable by a key: what a stable sort must return, and that there is only one such result. */
module StableSort {
  import opened Strings

  /** The order of the search handlers: rank, then country, code and name. */
  datatype Key = Key(rank: nat, country: string, code: string, name: string)

  predicate Less(a: Key, b: Key) {
    if a.rank != b.rank then a.rank < b.rank
    else if a.country != b.country then TextLess(a.country, b.country)
    else if a.code != b.code then TextLess(a.code, b.code)
    else TextLess(a.name, b.name)
  }

  lemma LessTotal(a: Key, b: Key)
    ensures a != b ==> (Less(a, b) <==> !Less(b, a))
    ensures a == b ==> !Less(a, b)
  {
    TextLessTotal(a.country, b.country);
    TextLessTotal(a.code, b.code);
    TextLessTotal(a.name, b.name);
  }

  lemma LessTransitive(a: Key, b: Key, c: Key)
    requires Less(a, b) && Less(b, c)
    ensures Less(a, c)
  {
    if a.rank == b.rank == c.rank {
      TextLessTotal(a.country, b.country);
      if a.country != b.country && b.country != c.country {
        TextLessTransitive(a.country, b.country, c.country);
        TextLessTotal(a.country, c.country);
      } else if a.country == b.country == c.country {
        if a.code != b.code && b.code != c.code {
          TextLessTransitive(a.code, b.code, c.code);
          TextLessTotal(a.code, b.code);
          TextLessTotal(a.code, c.code);
        } else if a.code == b.code == c.code {
          TextLessTransitive(a.name, b.name, c.name);
        }
      }
    }
  }

  ghost predicate Sorted<T>(s: seq<T>, key: T -> Key) {
    forall i, j | 0 <= i < j < |s| :: !Less(key(s[j]), key(s[i]))
  }

  /** The elements with one key, in their order. */
  function Class<T>(s: seq<T>, key: T -> Key, k: Key): seq<T> {
    if s == [] then [] else (if key(s[0]) == k then [s[0]] else []) + Class(s[1..], key, k)
  }

  /** Rearranged without swapping two elements of equal key. */
  ghost predicate Stably<T>(s: seq<T>, r: seq<T>, key: T -> Key) {
    forall k :: Class(s, key, k) == Class(r, key, k)
  }

  function Insert<T>(x: T, s: seq<T>, key: T -> Key): seq<T> {
    if s == [] then [x] else if Less(key(s[0]), key(x)) then [s[0]] + Insert(x, s[1..], key) else [x] + s
  }

  function Sort<T>(s: seq<T>, key: T -> Key): seq<T> {
    if s == [] then [] else Insert(s[0], Sort(s[1..], key), key)
  }

  lemma {:induction false} InsertElements<T>(x: T, s: seq<T>, key: T -> Key)
    ensures multiset(Insert(x, s, key)) == multiset(s) + multiset{x}
  {
    if s != [] {
      assert s == [s[0]] + s[1..];
      InsertElements(x, s[1..], key);
    }
  }

  lemma SmallestFirst<T>(y: T, r: seq<T>, key: T -> Key)
    requires Sorted(r, key) && forall x | x in r :: !Less(key(x), key(y))
    ensures Sorted([y] + r, key)
  {
    var s := [y] + r;
    forall i, j | 0 <= i < j < |s| ensures !Less(key(s[j]), key(s[i])) {
      assert s[j] == r[j - 1] && s[j] in r;
    }
  }

  lemma {:induction false} InsertSorted<T>(x: T, s: seq<T>, key: T -> Key)
    requires Sorted(s, key)
    ensures Sorted(Insert(x, s, key), key)
  {
    if s == [] {
    } else if Less(key(s[0]), key(x)) {
      var r := Insert(x, s[1..], key);
      InsertSorted(x, s[1..], key);
      InsertElements(x, s[1..], key);
      LessTotal(key(s[0]), key(x));
      forall y | y in r ensures !Less(key(y), key(s[0])) {
        InsertedFrom(x, s, key, y);
      }
      SmallestFirst(s[0], r, key);
    } else {
      forall y | y in s ensures !Less(key(y), key(x)) {
        var j :| 0 <= j < |s| && s[j] == y;
        NotLessTransitive(key(x), key(s[0]), key(s[j]));
      }
      SmallestFirst(x, s, key);
    }
  }

  lemma InsertedFrom<T>(x: T, s: seq<T>, key: T -> Key, y: T)
    requires s != [] && y in Insert(x, s[1..], key)
    ensures y == x || exists j :: 0 < j < |s| && s[j] == y
  {
    InsertElements(x, s[1..], key);
    assert y in multiset(Insert(x, s[1..], key));
    if y != x {
      assert y in s[1..];
      var j :| 0 <= j < |s[1..]| && s[1..][j] == y;
      assert s[j + 1] == y;
    }
  }

  lemma NotLessTransitive(a: Key, b: Key, c: Key)
    requires !Less(b, a) && (c == b || !Less(c, b))
    ensures !Less(c, a)
  {
    LessTotal(a, b);
    LessTotal(b, c);
    LessTotal(a, c);
    if a != b && b != c {
      LessTransitive(a, b, c);
    }
  }

  lemma {:induction false} InsertClass<T>(x: T, s: seq<T>, key: T -> Key, k: Key)
    ensures Class(Insert(x, s, key), key, k) == Class([x] + s, key, k)
  {
    assert ([x] + s)[1..] == s;
    if s != [] && Less(key(s[0]), key(x)) {
      InsertClass(x, s[1..], key, k);
      LessTotal(key(s[0]), key(x));
      assert ([x] + s[1..])[1..] == s[1..];
      assert Insert(x, s, key)[1..] == Insert(x, s[1..], key);
    }
  }

  /** Sort returns a sorted permutation and is stable. */
  lemma {:induction false} SortIsStable<T>(s: seq<T>, key: T -> Key)
    ensures Sorted(Sort(s, key), key)
    ensures multiset(Sort(s, key)) == multiset(s)
    ensures Stably(s, Sort(s, key), key)
  {
    if s != [] {
      SortIsStable(s[1..], key);
      InsertSorted(s[0], Sort(s[1..], key), key);
      InsertElements(s[0], Sort(s[1..], key), key);
      assert s == [s[0]] + s[1..];
      var r := Sort(s[1..], key);
      forall k ensures Class(s, key, k) == Class(Sort(s, key), key, k) {
        InsertClass(s[0], r, key, k);
        assert ([s[0]] + r)[1..] == r;
      }
    }
  }

  lemma {:induction false} ClassWitness<T>(s: seq<T>, key: T -> Key, i: nat)
    requires i < |s|
    ensures Class(s, key, key(s[i])) != []
  {
    if i > 0 {
      ClassWitness(s[1..], key, i - 1);
    }
  }

  lemma {:induction false} ClassMember<T>(s: seq<T>, key: T -> Key, k: Key) returns (i: nat)
    requires Class(s, key, k) != []
    ensures i < |s| && key(s[i]) == k
  {
    if key(s[0]) == k {
      i := 0;
    } else {
      var j := ClassMember(s[1..], key, k);
      i := j + 1;
    }
  }

  lemma SameHead<T>(a: seq<T>, b: seq<T>, key: T -> Key)
    requires Sorted(a, key) && Sorted(b, key) && Stably(a, b, key) && a != [] && b != []
    ensures a[0] == b[0]
  {
    ClassWitness(a, key, 0);
    ClassWitness(b, key, 0);
    var i := ClassMember(b, key, key(a[0]));
    var j := ClassMember(a, key, key(b[0]));
    LessTotal(key(a[0]), key(b[0]));
    assert i > 0 ==> !Less(key(b[i]), key(b[0]));
    assert j > 0 ==> !Less(key(a[j]), key(a[0]));
    assert Class(a, key, key(a[0])) == Class(b, key, key(a[0]));
    assert Class(a, key, key(a[0]))[0] == a[0];
  }

  /** A stable sort has no choice: whatever the library does inside, its result is Sort. */
  lemma {:induction false} StableSortIsUnique<T>(a: seq<T>, b: seq<T>, key: T -> Key)
    requires Sorted(a, key) && Sorted(b, key) && Stably(a, b, key)
    ensures a == b
  {
    if a == [] {
      if b != [] { ClassWitness(b, key, 0); }
    } else if b == [] {
      ClassWitness(a, key, 0);
    } else {
      SameHead(a, b, key);
      forall k ensures Class(a[1..], key, k) == Class(b[1..], key, k) {
        assert Class(a, key, k) == Class(b, key, k);
        var h := if key(a[0]) == k then [a[0]] else [];
        assert Class(a[1..], key, k) == Class(a, key, k)[|h|..];
        assert Class(b[1..], key, k) == Class(b, key, k)[|h|..];
      }
      StableSortIsUnique(a[1..], b[1..], key);
      assert a == [a[0]] + a[1..] && b == [b[0]] + b[1..];
    }
  }

  /** In a sorted list the rank does not fall; within a rank the country does not, within both the code
      does not, and within all three the name does not. */
  lemma SortedInWords<T>(s: seq<T>, key: T -> Key, i: nat, j: nat)
    requires Sorted(s, key) && i < j < |s|
    ensures
      var a, b := key(s[i]), key(s[j]);
      && a.rank <= b.rank
      && (a.rank == b.rank ==>
            && !TextLess(b.country, a.country)
            && (a.country == b.country ==>
                  && !TextLess(b.code, a.code)
                  && (a.code == b.code ==> !TextLess(b.name, a.name))))
  {
    TextLessTotal(key(s[i]).country, key(s[j]).country);
    TextLessTotal(key(s[i]).code, key(s[j]).code);
    assert !Less(key(s[j]), key(s[i]));
  }
}
