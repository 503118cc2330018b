/** Keyed money rows, and the one in-place edit every reversal is made of. */
module Rows {
  import opened CheckedMoney
  import opened Text

  /** One row of a collection, with the single money cell that actions move. */
  datatype NamedMoney<+K, +R> = NamedMoney(key: K, money: Money, rest: R)

  /** The identities of a collection's rows, in row order. */
  function IdsBy<T, K>(id: T -> K, rows: seq<T>): (r: seq<K>)
    ensures |r| == |rows| && forall i :: 0 <= i < |r| ==> r[i] == id(rows[i])
  {
    seq(|rows|, i requires 0 <= i < |rows| => id(rows[i]))
  }

  function KeyOf<K, R>(row: NamedMoney<K, R>): K {
    row.key
  }

  function KeysOf<K, R>(rows: seq<NamedMoney<K, R>>): seq<K> {
    IdsBy(KeyOf, rows)
  }

  predicate OnlyAt<K(==)>(keys: seq<K>, k: K, i: int) {
    0 <= i < |keys| && keys[i] == k && forall j :: 0 <= j < |keys| && keys[j] == k ==> j == i
  }

  /** The position of the one row with this key, refusing a missing or a repeated key. */
  function OnlyIndex<K(==)>(keys: seq<K>, k: K, missing: string, duplicate: string): (r: Result<nat>)
    ensures r.Ok? ==> OnlyAt(keys, k, r.value)
    ensures r.Err? ==> forall i :: !OnlyAt(keys, k, i)
    ensures r.Err? ==> r.error == if k in keys then duplicate else missing
  {
    if k !in keys then Err(missing)
    else if exists i :: 0 <= i < |keys| && OnlyAt(keys, k, i) then
      var i :| 0 <= i < |keys| && OnlyAt(keys, k, i);
      Ok(i)
    else Err(duplicate)
  }

  function IndexOf<K(==)>(keys: seq<K>, k: K): (r: nat)
    requires k in keys
    ensures r < |keys| && keys[r] == k && forall j :: 0 <= j < r ==> keys[j] != k
  {
    if keys[0] == k then 0 else 1 + IndexOf(keys[1..], k)
  }

  /** The money of the first row with this key, as a linear search finds it. */
  function Lookup<K(==), R>(rows: seq<NamedMoney<K, R>>, k: K): Option<Money> {
    if k in KeysOf(rows) then Some(rows[IndexOf(KeysOf(rows), k)].money) else None
  }

  function AdjustNamedMoney<K(==), R>(rows: seq<NamedMoney<K, R>>, k: K, delta: i64, currency: string)
    : Result<seq<NamedMoney<K, R>>>
  {
    var i :- OnlyIndex(KeysOf(rows), k, "source_target_missing", "duplicate_source_target");
    if !ValidCurrency(rows[i].money.currency) then Err("invalid_currency")
    else if rows[i].money.currency != currency then Err("money_currency_mismatch")
    else
      var units :- CheckedAdd(rows[i].money.units, delta);
      Ok(rows[i := rows[i].(money := Money(units, currency))])
  }

  function AdjustAll<K(==), R>(rows: seq<NamedMoney<K, R>>, deltas: seq<(K, i64)>, currency: string)
    : Result<seq<NamedMoney<K, R>>>
    decreases |deltas|
  {
    if deltas == [] then Ok(rows)
    else
      var next :- AdjustNamedMoney(rows, deltas[0].0, deltas[0].1, currency);
      AdjustAll(next, deltas[1..], currency)
  }

  // What an edit means, row by row and without an order.

  /** The signed amount a list of deltas carries to one key. */
  function SumFor<K(==)>(deltas: seq<(K, i64)>, k: K): int {
    if deltas == [] then 0
    else (if deltas[0].0 == k then deltas[0].1 else 0) + SumFor(deltas[1..], k)
  }

  /** Same rows in the same order, each money cell moved by what the deltas carry to its key. */
  ghost predicate Shifted<K, R>(before: seq<NamedMoney<K, R>>, after: seq<NamedMoney<K, R>>, deltas: seq<(K, i64)>) {
    |before| == |after|
    && forall i {:trigger after[i]} {:trigger before[i]} :: 0 <= i < |before| ==>
         after[i].key == before[i].key && after[i].rest == before[i].rest
         && after[i].money.currency == before[i].money.currency
         && after[i].money.units == before[i].money.units + SumFor(deltas, before[i].key)
  }

  /** One row has this key, and it holds money of this currency. */
  ghost predicate Holds<K, R>(rows: seq<NamedMoney<K, R>>, k: K, currency: string) {
    ValidCurrency(currency)
    && exists i :: 0 <= i < |rows| && OnlyAt(KeysOf(rows), k, i) && rows[i].money.currency == currency
  }

  ghost predicate HoldsAll<K, R>(rows: seq<NamedMoney<K, R>>, deltas: seq<(K, i64)>, currency: string) {
    forall j :: 0 <= j < |deltas| ==> Holds(rows, deltas[j].0, currency)
  }

  /** No key is moved both ways, so every partial sum for it stays between the ends. */
  ghost predicate OneWay<K>(deltas: seq<(K, i64)>) {
    forall i, j {:trigger deltas[i], deltas[j]} :: 0 <= i < j < |deltas| && deltas[i].0 == deltas[j].0 ==>
      (deltas[i].1 >= 0 && deltas[j].1 >= 0) || (deltas[i].1 <= 0 && deltas[j].1 <= 0)
  }

  lemma {:induction false} HoldsCarries<K, R>(a: seq<NamedMoney<K, R>>, b: seq<NamedMoney<K, R>>, deltas: seq<(K, i64)>, k: K, currency: string)
    requires Shifted(a, b, deltas)
    ensures Holds(a, k, currency) <==> Holds(b, k, currency)
  {
    assert KeysOf(a) == KeysOf(b);
  }

  /** One checked edit succeeds with exactly the rows the declarative reading allows. */
  lemma {:induction false} AdjustIsShift<K, R>(rows: seq<NamedMoney<K, R>>, k: K, delta: i64, currency: string, after: seq<NamedMoney<K, R>>)
    ensures AdjustNamedMoney(rows, k, delta, currency) == Ok(after)
            <==> Holds(rows, k, currency) && Shifted(rows, after, [(k, delta)])
  {
    var deltas := [(k, delta)];
    assert forall x :: SumFor(deltas, x) == if x == k then delta else 0;
    var index := OnlyIndex(KeysOf(rows), k, "source_target_missing", "duplicate_source_target");
    if index.Ok? {
      var i := index.value;
      assert forall j :: 0 <= j < |rows| && rows[j].key == k ==> KeysOf(rows)[j] == k;
      if Holds(rows, k, currency) && Shifted(rows, after, deltas) {
        assert after == rows[i := rows[i].(money := Money(after[i].money.units, currency))];
      }
    }
  }

  lemma {:induction false} SumForSign<K>(deltas: seq<(K, i64)>, k: K)
    ensures (forall j :: 0 <= j < |deltas| && deltas[j].0 == k ==> deltas[j].1 >= 0) ==> SumFor(deltas, k) >= 0
    ensures (forall j :: 0 <= j < |deltas| && deltas[j].0 == k ==> deltas[j].1 <= 0) ==> SumFor(deltas, k) <= 0
  {
    if deltas != [] {
      SumForSign(deltas[1..], k);
      assert forall j :: 0 <= j < |deltas[1..]| ==> deltas[1..][j] == deltas[j + 1];
    }
  }

  lemma {:induction false} SumForConcat<K>(a: seq<(K, i64)>, b: seq<(K, i64)>, k: K)
    ensures SumFor(a + b, k) == SumFor(a, k) + SumFor(b, k)
  {
    if a == [] {
      assert a + b == b;
    } else {
      assert (a + b)[1..] == a[1..] + b;
      SumForConcat(a[1..], b, k);
    }
  }

  lemma {:induction false} ShiftedThen<K, R>(a: seq<NamedMoney<K, R>>, b: seq<NamedMoney<K, R>>, c: seq<NamedMoney<K, R>>,
                          ds: seq<(K, i64)>, es: seq<(K, i64)>)
    requires Shifted(a, b, ds)
    ensures Shifted(b, c, es) <==> Shifted(a, c, ds + es)
  {
    forall i | 0 <= i < |a|
      ensures b[i].key == a[i].key
      ensures SumFor(ds + es, a[i].key) == SumFor(ds, a[i].key) + SumFor(es, a[i].key)
    {
      SumForConcat(ds, es, a[i].key);
    }
  }

  /** The rows after the first delta alone: representable because the whole list is one-way. */
  lemma {:induction false} FirstShift<K, R>(rows: seq<NamedMoney<K, R>>, after: seq<NamedMoney<K, R>>, deltas: seq<(K, i64)>)
    returns (mid: seq<NamedMoney<K, R>>)
    requires deltas != [] && OneWay(deltas) && Shifted(rows, after, deltas)
    ensures Shifted(rows, mid, deltas[..1])
  {
    var k, d := deltas[0].0, deltas[0].1;
    SumForSign(deltas[1..], k);
    assert forall j :: 0 <= j < |deltas[1..]| ==> deltas[1..][j] == deltas[j + 1];
    assert forall x :: SumFor(deltas[..1], x) == if x == k then d else 0;
    forall i | 0 <= i < |rows| && rows[i].key == k
      ensures Fits(rows[i].money.units + d)
    {
      assert after[i].money.units == rows[i].money.units + d + SumFor(deltas[1..], k);
    }
    mid := seq(|rows|, i requires 0 <= i < |rows| =>
      if rows[i].key == k then rows[i].(money := Money(rows[i].money.units + d, rows[i].money.currency)) else rows[i]);
  }

  lemma {:induction false} HoldsAllCarries<K, R>(a: seq<NamedMoney<K, R>>, b: seq<NamedMoney<K, R>>, deltas: seq<(K, i64)>,
                              ds: seq<(K, i64)>, currency: string)
    requires Shifted(a, b, deltas)
    ensures HoldsAll(a, ds, currency) <==> HoldsAll(b, ds, currency)
  {
    forall j | 0 <= j < |ds|
      ensures Holds(a, ds[j].0, currency) <==> Holds(b, ds[j].0, currency)
    {
      HoldsCarries(a, b, deltas, ds[j].0, currency);
    }
  }

  lemma {:induction false} HoldsAllSplit<K, R>(rows: seq<NamedMoney<K, R>>, deltas: seq<(K, i64)>, currency: string)
    requires deltas != []
    ensures HoldsAll(rows, deltas, currency)
            <==> Holds(rows, deltas[0].0, currency) && HoldsAll(rows, deltas[1..], currency)
  {
    assert forall j :: 0 <= j < |deltas[1..]| ==> deltas[1..][j] == deltas[j + 1];
    if Holds(rows, deltas[0].0, currency) && HoldsAll(rows, deltas[1..], currency) {
      forall j | 0 <= j < |deltas|
        ensures Holds(rows, deltas[j].0, currency)
      {
        if j > 0 {
          assert deltas[1..][j - 1] == deltas[j];
        }
      }
    }
  }

  lemma {:induction false} AdjustAllShifts<K, R>(rows: seq<NamedMoney<K, R>>, deltas: seq<(K, i64)>, currency: string)
    ensures var r := AdjustAll(rows, deltas, currency);
            r.Ok? ==> HoldsAll(rows, deltas, currency) && Shifted(rows, r.value, deltas)
    decreases |deltas|
  {
    if deltas == [] {
      return;
    }
    var next := AdjustNamedMoney(rows, deltas[0].0, deltas[0].1, currency);
    if next.Ok? {
      AdjustIsShift(rows, deltas[0].0, deltas[0].1, currency, next.value);
      assert deltas[..1] == [(deltas[0].0, deltas[0].1)] && deltas == deltas[..1] + deltas[1..];
      AdjustAllShifts(next.value, deltas[1..], currency);
      var r := AdjustAll(next.value, deltas[1..], currency);
      if r.Ok? {
        ShiftedThen(rows, next.value, r.value, deltas[..1], deltas[1..]);
        HoldsAllCarries(rows, next.value, deltas[..1], deltas[1..], currency);
        HoldsAllSplit(rows, deltas, currency);
      }
    }
  }

  /** The first edit of an allowed shift succeeds, and leaves an allowed shift. */
  lemma {:induction false} FirstEdit<K, R>(rows: seq<NamedMoney<K, R>>, deltas: seq<(K, i64)>, currency: string,
                        after: seq<NamedMoney<K, R>>)
    returns (mid: seq<NamedMoney<K, R>>)
    requires deltas != [] && OneWay(deltas) && HoldsAll(rows, deltas, currency) && Shifted(rows, after, deltas)
    ensures AdjustNamedMoney(rows, deltas[0].0, deltas[0].1, currency) == Ok(mid)
    ensures Shifted(mid, after, deltas[1..]) && HoldsAll(mid, deltas[1..], currency)
  {
    HoldsAllSplit(rows, deltas, currency);
    mid := FirstShift(rows, after, deltas);
    assert deltas[..1] == [(deltas[0].0, deltas[0].1)] && deltas == deltas[..1] + deltas[1..];
    AdjustIsShift(rows, deltas[0].0, deltas[0].1, currency, mid);
    ShiftedThen(rows, mid, after, deltas[..1], deltas[1..]);
    HoldsAllCarries(rows, mid, deltas[..1], deltas[1..], currency);
  }

  lemma {:induction false} ShiftAdjustsAll<K, R>(rows: seq<NamedMoney<K, R>>, deltas: seq<(K, i64)>, currency: string,
                                                 after: seq<NamedMoney<K, R>>)
    requires OneWay(deltas) && HoldsAll(rows, deltas, currency) && Shifted(rows, after, deltas)
    ensures AdjustAll(rows, deltas, currency) == Ok(after)
    decreases |deltas|
  {
    if deltas == [] {
      assert rows == after;
    } else {
      var mid := FirstEdit(rows, deltas, currency, after);
      assert OneWay(deltas[1..]) by {
        assert forall j :: 0 <= j < |deltas[1..]| ==> deltas[1..][j] == deltas[j + 1];
      }
      ShiftAdjustsAll(mid, deltas[1..], currency, after);
    }
  }

  /** A list of checked edits succeeds with exactly the rows the declarative reading allows. */
  lemma {:induction false} AdjustAllIsShift<K, R>(rows: seq<NamedMoney<K, R>>, deltas: seq<(K, i64)>, currency: string,
                               after: seq<NamedMoney<K, R>>)
    requires OneWay(deltas)
    ensures AdjustAll(rows, deltas, currency) == Ok(after)
            <==> HoldsAll(rows, deltas, currency) && Shifted(rows, after, deltas)
  {
    AdjustAllShifts(rows, deltas, currency);
    if HoldsAll(rows, deltas, currency) && Shifted(rows, after, deltas) {
      ShiftAdjustsAll(rows, deltas, currency, after);
    }
  }

  predicate CanNegateAll<K>(deltas: seq<(K, i64)>) {
    forall j :: 0 <= j < |deltas| ==> CanNegate(deltas[j].1)
  }

  function Negated<K>(deltas: seq<(K, i64)>): (r: seq<(K, i64)>)
    requires CanNegateAll(deltas)
    ensures |r| == |deltas| && forall j :: 0 <= j < |deltas| ==> r[j] == (deltas[j].0, Neg(deltas[j].1))
  {
    if deltas == [] then [] else [(deltas[0].0, Neg(deltas[0].1))] + Negated(deltas[1..])
  }

  lemma {:induction false} SumForNegated<K>(deltas: seq<(K, i64)>, k: K)
    requires CanNegateAll(deltas)
    ensures SumFor(Negated(deltas), k) == 0 - SumFor(deltas, k)
  {
    if deltas != [] {
      SumForNegated(deltas[1..], k);
      assert Negated(deltas)[1..] == Negated(deltas[1..]);
    }
  }

  /** Undoing a shift is the shift by the negated deltas. */
  lemma {:induction false} ShiftedBack<K, R>(a: seq<NamedMoney<K, R>>, b: seq<NamedMoney<K, R>>, deltas: seq<(K, i64)>)
    requires CanNegateAll(deltas)
    ensures Shifted(a, b, deltas) <==> Shifted(b, a, Negated(deltas))
  {
    if |a| == |b| {
      forall i | 0 <= i < |a|
        ensures SumFor(Negated(deltas), a[i].key) == 0 - SumFor(deltas, a[i].key)
      {
        SumForNegated(deltas, a[i].key);
      }
      if Shifted(b, a, Negated(deltas)) {
        assert forall i :: 0 <= i < |a| ==> a[i].key == b[i].key;
      }
    }
  }
}
