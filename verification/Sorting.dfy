/** Stable sorting by a key, and when its result depends only on what is sorted. */
module Sorting {
  import opened Ordered
  import opened Permutations

  function Insert<T, K>(key: T -> K, lt: (K, K) -> bool, s: seq<T>, x: T): (r: seq<T>)
    ensures |r| == |s| + 1
  {
    if s == [] || !lt(key(x), key(s[|s| - 1])) then s + [x] else Insert(key, lt, s[..|s| - 1], x) + [s[|s| - 1]]
  }

  /** The items in key order, equal keys kept in the order given. */
  function SortBy<T, K>(key: T -> K, lt: (K, K) -> bool, s: seq<T>): (r: seq<T>)
    ensures |r| == |s|
  {
    if s == [] then [] else Insert(key, lt, SortBy(key, lt, s[..|s| - 1]), s[|s| - 1])
  }

  predicate SortedBy<T, K>(key: T -> K, lt: (K, K) -> bool, s: seq<T>) {
    forall i, j :: 0 <= i < j < |s| ==> !lt(key(s[j]), key(s[i]))
  }

  predicate Distinct<T(==)>(s: seq<T>) {
    forall i, j :: 0 <= i < j < |s| ==> s[i] != s[j]
  }

  predicate DistinctBy<T, K(==)>(key: T -> K, s: seq<T>) {
    forall i, j :: 0 <= i < j < |s| ==> key(s[i]) != key(s[j])
  }

  lemma {:induction false} InsertPermutes<T, K>(key: T -> K, lt: (K, K) -> bool, s: seq<T>, x: T)
    ensures multiset(Insert(key, lt, s, x)) == multiset(s) + multiset{x}
  {
    if s == [] || !lt(key(x), key(s[|s| - 1])) {
    } else {
      InsertPermutes(key, lt, s[..|s| - 1], x);
      assert s == s[..|s| - 1] + [s[|s| - 1]];
    }
  }

  lemma {:induction false} SortPermutes<T, K>(key: T -> K, lt: (K, K) -> bool, s: seq<T>)
    ensures multiset(SortBy(key, lt, s)) == multiset(s)
  {
    hide Insert;
    if s != [] {
      SortPermutes(key, lt, s[..|s| - 1]);
      InsertPermutes(key, lt, SortBy(key, lt, s[..|s| - 1]), s[|s| - 1]);
      assert s == s[..|s| - 1] + [s[|s| - 1]];
    }
  }

  lemma {:induction false} InsertMembers<T, K>(key: T -> K, lt: (K, K) -> bool, s: seq<T>, x: T, y: T)
    ensures y in Insert(key, lt, s, x) <==> y == x || y in s
  {
    InsertPermutes(key, lt, s, x);
    SameMembers(Insert(key, lt, s, x), s + [x]);
  }

  lemma {:induction false} InsertSorts<T(!new), K(!new)>(key: T -> K, lt: (K, K) -> bool, s: seq<T>, x: T)
    requires StrictOrder(lt) && SortedBy(key, lt, s)
    ensures SortedBy(key, lt, Insert(key, lt, s, x))
  {
    if s == [] || !lt(key(x), key(s[|s| - 1])) {
      var r := s + [x];
      forall i, j | 0 <= i < j < |r|
        ensures !lt(key(r[j]), key(r[i]))
      {
        if j == |s| && i < |s| - 1 {
          assert !lt(key(s[|s| - 1]), key(s[i]));
        }
      }
    } else {
      var front, last := s[..|s| - 1], s[|s| - 1];
      InsertSorts(key, lt, front, x);
      var inner := Insert(key, lt, front, x);
      forall y | y in inner
        ensures !lt(key(last), key(y))
      {
        InsertMembers(key, lt, front, x, y);
        if y in front {
          var i :| 0 <= i < |front| && front[i] == y;
          assert !lt(key(s[|s| - 1]), key(s[i]));
        }
      }
    }
  }

  lemma {:induction false} SortSorts<T(!new), K(!new)>(key: T -> K, lt: (K, K) -> bool, s: seq<T>)
    requires StrictOrder(lt)
    ensures SortedBy(key, lt, SortBy(key, lt, s))
  {
    if s != [] {
      SortSorts(key, lt, s[..|s| - 1]);
      InsertSorts(key, lt, SortBy(key, lt, s[..|s| - 1]), s[|s| - 1]);
    }
  }

  lemma {:induction false} InsertLast<T, K>(key: T -> K, lt: (K, K) -> bool, s: seq<T>, x: T)
    requires SortedBy(key, lt, s + [x])
    ensures SortedBy(key, lt, s) && Insert(key, lt, s, x) == s + [x]
  {
    assert forall i :: 0 <= i < |s| ==> s[i] == (s + [x])[i];
    assert s != [] ==> !lt(key((s + [x])[|s|]), key((s + [x])[|s| - 1]));
  }

  /** Sorting what is sorted changes nothing. */
  lemma {:induction false} SortedStays<T, K>(key: T -> K, lt: (K, K) -> bool, s: seq<T>)
    requires SortedBy(key, lt, s)
    ensures SortBy(key, lt, s) == s
  {
    if s != [] {
      hide SortedBy, Insert;
      var front, last := s[..|s| - 1], s[|s| - 1];
      assert s == front + [last];
      InsertLast(key, lt, front, last);
      SortedStays(key, lt, front);
    }
  }

  function Keys<T, K>(key: T -> K, s: seq<T>): (r: seq<K>)
    ensures |r| == |s| && forall i :: 0 <= i < |r| ==> r[i] == key(s[i])
  {
    seq(|s|, i requires 0 <= i < |s| => key(s[i]))
  }

  lemma {:induction false} SameKeys<T(!new), K(!new)>(key: T -> K, a: seq<T>, b: seq<T>)
    requires multiset(a) == multiset(b)
    ensures forall k :: k in Keys(key, a) <==> k in Keys(key, b)
  {
    forall k
      ensures k in Keys(key, a) <==> k in Keys(key, b)
    {
      SameMembers(a, b);
      if k in Keys(key, a) {
        KeyKept(key, a, b, k);
      }
      if k in Keys(key, b) {
        KeyKept(key, b, a, k);
      }
    }
  }

  lemma {:induction false} KeyKept<T(!new), K>(key: T -> K, a: seq<T>, b: seq<T>, k: K)
    requires (forall x :: x in a ==> x in b) && k in Keys(key, a)
    ensures k in Keys(key, b)
  {
    var i :| 0 <= i < |a| && Keys(key, a)[i] == k;
    assert a[i] in b;
    var j :| 0 <= j < |b| && b[j] == a[i];
    assert Keys(key, b)[j] == k;
  }

  lemma {:induction false} DistinctPermutes<T(!new), K>(key: T -> K, a: seq<T>, b: seq<T>)
    requires multiset(a) == multiset(b) && DistinctBy(key, a)
    ensures DistinctBy(key, b)
    decreases |a|
  {
    SameMembers(a, b);
    forall i, j | 0 <= i < j < |b|
      ensures key(b[i]) != key(b[j])
    {
      var k := BothWithout(b, a, i);
      assert Without(b, i)[j - 1] == b[j];
      SameMembers(Without(b, i), Without(a, k));
      assert b[j] in Without(a, k);
      var l :| 0 <= l < |Without(a, k)| && Without(a, k)[l] == b[j];
      KeysDiffer(key, a, k, if l < k then l else l + 1);
    }
  }

  lemma {:induction false} KeysDiffer<T, K>(key: T -> K, s: seq<T>, i: nat, j: nat)
    requires i < |s| && j < |s| && DistinctBy(key, s)
    ensures i != j ==> key(s[i]) != key(s[j])
  {
  }

  /** With distinct keys the sorted list is the same whatever the order given. */
  lemma {:induction false} SortCanonical<T(!new), K(!new)>(key: T -> K, lt: (K, K) -> bool, a: seq<T>, b: seq<T>)
    requires StrictOrder(lt) && multiset(a) == multiset(b) && DistinctBy(key, a)
    ensures SortBy(key, lt, a) == SortBy(key, lt, b)
  {
    var x, y := SortBy(key, lt, a), SortBy(key, lt, b);
    SortPermutes(key, lt, a);
    SortPermutes(key, lt, b);
    DistinctPermutes(key, a, x);
    DistinctPermutes(key, a, y);
    SortSorts(key, lt, a);
    SortSorts(key, lt, b);
    SortedUnique(key, lt, x, y);
  }

  /** Sorting by distinct keys lists the same keys, ascending. */
  lemma {:induction false} SortedKeys<T(!new), K(!new)>(key: T -> K, lt: (K, K) -> bool, s: seq<T>)
    requires StrictOrder(lt) && DistinctBy(key, s)
    ensures Ascending(lt, Keys(key, SortBy(key, lt, s)))
    ensures forall k :: k in Keys(key, SortBy(key, lt, s)) <==> k in Keys(key, s)
  {
    var x := SortBy(key, lt, s);
    SortPermutes(key, lt, s);
    SortSorts(key, lt, s);
    hide SortBy;
    SameKeys(key, s, x);
    DistinctPermutes(key, s, x);
    forall i, j | 0 <= i < j < |x|
      ensures lt(Keys(key, x)[i], Keys(key, x)[j])
    {
      assert key(x[i]) != key(x[j]) && !lt(key(x[j]), key(x[i]));
    }
  }

  lemma {:induction false} SortedUnique<T(!new), K(!new)>(key: T -> K, lt: (K, K) -> bool, x: seq<T>, y: seq<T>)
    requires StrictOrder(lt) && multiset(x) == multiset(y) && DistinctBy(key, x) && DistinctBy(key, y)
    requires SortedBy(key, lt, x) && SortedBy(key, lt, y)
    ensures x == y
  {
    SameMembers(x, y);
    SameKeys(key, x, y);
    var xs, ys := Keys(key, x), Keys(key, y);
    assert Ascending(lt, xs) && Ascending(lt, ys);
    AscendingUnique(lt, xs, ys);
    forall i | 0 <= i < |x|
      ensures x[i] == y[i]
    {
      assert y[i] in x;
      var j :| 0 <= j < |x| && x[j] == y[i];
      assert xs[i] == ys[i];
      KeysDiffer(key, x, i, j);
    }
  }
}
