/** Strictly ordered sequences: how sorted maps, sets and canonical vectors are read out. */
module Ordered {

  ghost predicate StrictOrder<T(!new)>(lt: (T, T) -> bool) {
    (forall x :: !lt(x, x))
    && (forall x, y, z :: lt(x, y) && lt(y, z) ==> lt(x, z))
    && (forall x, y :: lt(x, y) || x == y || lt(y, x))
  }

  predicate Ascending<T>(lt: (T, T) -> bool, s: seq<T>) {
    forall i, j :: 0 <= i < j < |s| ==> lt(s[i], s[j])
  }

  /** A set has one ascending listing. */
  lemma {:induction false} AscendingUnique<T(!new)>(lt: (T, T) -> bool, a: seq<T>, b: seq<T>)
    requires StrictOrder(lt) && Ascending(lt, a) && Ascending(lt, b)
    requires forall x :: x in a <==> x in b
    ensures a == b
    decreases |a|
  {
    assert a != [] ==> a[0] in b;
    assert b != [] ==> b[0] in a;
    if a == [] {
      return;
    }
    FirstIsLeast(lt, a, b[0]);
    FirstIsLeast(lt, b, a[0]);
    forall x
      ensures x in a[1..] <==> x in b[1..]
    {
      TailMember(lt, a, x);
      TailMember(lt, b, x);
    }
    AscendingUnique(lt, a[1..], b[1..]);
    assert a == [a[0]] + a[1..] && b == [b[0]] + b[1..];
  }

  lemma {:induction false} FirstIsLeast<T>(lt: (T, T) -> bool, s: seq<T>, x: T)
    requires Ascending(lt, s) && x in s
    ensures x == s[0] || lt(s[0], x)
  {
    var i :| 0 <= i < |s| && s[i] == x;
  }

  lemma {:induction false} TailMember<T(!new)>(lt: (T, T) -> bool, s: seq<T>, x: T)
    requires StrictOrder(lt) && Ascending(lt, s) && s != []
    ensures x in s[1..] <==> x in s && x != s[0]
  {
    if x in s && x != s[0] {
      var i :| 0 <= i < |s| && s[i] == x;
      assert s[1..][i - 1] == x;
    }
    if x in s[1..] {
      var i :| 0 <= i < |s[1..]| && s[1..][i] == x;
      assert s[i + 1] == x && lt(s[0], s[i + 1]);
    }
  }

  predicate IntLt(a: int, b: int) {
    a < b
  }

  lemma {:induction false} IntsOrdered()
    ensures StrictOrder(IntLt)
  {
  }

  // Strings compare bytewise.

  predicate StringLt(a: string, b: string) {
    if b == [] then false
    else if a == [] then true
    else a[0] < b[0] || (a[0] == b[0] && StringLt(a[1..], b[1..]))
  }

  lemma {:induction false} StringLtIrreflexive(a: string)
    ensures !StringLt(a, a)
  {
    if a != [] {
      StringLtIrreflexive(a[1..]);
    }
  }

  lemma {:induction false} StringLtTransitive(a: string, b: string, c: string)
    requires StringLt(a, b) && StringLt(b, c)
    ensures StringLt(a, c)
  {
    if a != [] && a[0] == b[0] == c[0] {
      StringLtTransitive(a[1..], b[1..], c[1..]);
    }
  }

  lemma {:induction false} StringLtTotal(a: string, b: string)
    ensures StringLt(a, b) || a == b || StringLt(b, a)
  {
    if a != [] && b != [] && a[0] == b[0] {
      StringLtTotal(a[1..], b[1..]);
      assert a == [a[0]] + a[1..] && b == [b[0]] + b[1..];
    }
  }

  lemma {:induction false} StringsOrdered()
    ensures StrictOrder(StringLt)
  {
    forall x ensures !StringLt(x, x) { StringLtIrreflexive(x); }
    forall x, y, z | StringLt(x, y) && StringLt(y, z) ensures StringLt(x, z) { StringLtTransitive(x, y, z); }
    forall x, y ensures StringLt(x, y) || x == y || StringLt(y, x) { StringLtTotal(x, y); }
  }

  // Listing a finite set in ascending order.

  predicate Least<T(==)>(lt: (T, T) -> bool, s: set<T>, k: T) {
    k in s && forall x :: x in s ==> x == k || lt(k, x)
  }

  lemma {:induction false} LeastExists<T(!new)>(lt: (T, T) -> bool, s: set<T>)
    requires StrictOrder(lt) && s != {}
    ensures exists k :: Least(lt, s, k)
    ensures forall k, l :: Least(lt, s, k) && Least(lt, s, l) ==> k == l
    decreases s
  {
    var x :| x in s;
    if s == {x} {
      assert Least(lt, s, x);
    } else {
      LeastExists(lt, s - {x});
      var rest :| Least(lt, s - {x}, rest);
      var k := if lt(x, rest) then x else rest;
      forall y | y in s
        ensures y == k || lt(k, y)
      {
        assert y == x || y in s - {x};
      }
      assert Least(lt, s, k);
    }
  }

  function Listing<T(!new)>(lt: (T, T) -> bool, s: set<T>): (r: seq<T>)
    requires StrictOrder(lt)
    ensures Ascending(lt, r) && forall x :: x in r <==> x in s
    decreases s
  {
    if s == {} then []
    else
      LeastExists(lt, s);
      var k :| Least(lt, s, k);
      [k] + Listing(lt, s - {k})
  }
}
