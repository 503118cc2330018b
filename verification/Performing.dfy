/** When a step, and a run of steps, can be performed on a ledger at all. */
module Performing {
  import opened CheckedMoney
  import opened Rows
  import opened Text
  import opened Action
  import opened Sums
  import opened Undo
  import opened Envelopes

  // Shifting money rows.

  /** Every row stays representable. */
  ghost predicate Room<K, R>(rows: seq<NamedMoney<K, R>>, deltas: seq<(K, i64)>) {
    forall i {:trigger rows[i]} :: 0 <= i < |rows| ==> Fits(rows[i].money.units + SumFor(deltas, rows[i].key))
  }

  ghost function ShiftedRows<K, R>(rows: seq<NamedMoney<K, R>>, deltas: seq<(K, i64)>): (r: seq<NamedMoney<K, R>>)
    requires Room(rows, deltas)
    ensures Shifted(rows, r, deltas)
  {
    seq(|rows|, i requires 0 <= i < |rows| =>
      rows[i].(money := rows[i].money.(units := rows[i].money.units + SumFor(deltas, rows[i].key))))
  }

  lemma {:induction false} ShiftHasRoom<K, R>(rows: seq<NamedMoney<K, R>>, after: seq<NamedMoney<K, R>>, deltas: seq<(K, i64)>)
    requires Shifted(rows, after, deltas)
    ensures Room(rows, deltas)
  {
    forall i | 0 <= i < |rows|
      ensures Fits(rows[i].money.units + SumFor(deltas, rows[i].key))
    {
      assert after[i].money.units == rows[i].money.units + SumFor(deltas, rows[i].key);
    }
  }

  /** The key is held once, in this currency, and what it holds once moved this far can take the delta. */
  ghost predicate CellReady<K, R>(rows: seq<NamedMoney<K, R>>, k: K, currency: string, moved: int, delta: int) {
    Holds(rows, k, currency) && k in KeysOf(rows) && Fits(Lookup(rows, k).value.units + moved + delta)
  }

  /** Every key of the deltas is ready for its whole delta. */
  ghost predicate Ready<K, R>(rows: seq<NamedMoney<K, R>>, deltas: seq<(K, i64)>, currency: string, moved: K -> int) {
    forall j :: 0 <= j < |deltas| ==> CellReady(rows, deltas[j].0, currency, moved(deltas[j].0), SumFor(deltas, deltas[j].0))
  }

  function Unmoved<K>(k: K): int {
    0
  }

  lemma {:induction false} HeldOnce<K, R>(rows: seq<NamedMoney<K, R>>, k: K, currency: string, i: nat)
    requires Holds(rows, k, currency) && i < |rows| && rows[i].key == k
    ensures k in KeysOf(rows) && Lookup(rows, k).value == rows[i].money
  {
    assert KeysOf(rows)[i] == k;
  }

  lemma {:induction false} HeldSomewhere<K, R>(rows: seq<NamedMoney<K, R>>, k: K, currency: string)
    requires Holds(rows, k, currency)
    ensures k in KeysOf(rows)
  {
  }

  lemma {:induction false} ReadyHasRoom<K, R>(rows: seq<NamedMoney<K, R>>, deltas: seq<(K, i64)>, currency: string)
    requires Ready(rows, deltas, currency, Unmoved)
    ensures HoldsAll(rows, deltas, currency) && Room(rows, deltas)
  {
    hide Holds, Lookup, SumFor;
    forall j | 0 <= j < |deltas|
      ensures Holds(rows, deltas[j].0, currency)
    {
      assert CellReady(rows, deltas[j].0, currency, 0, SumFor(deltas, deltas[j].0));
    }
    forall i | 0 <= i < |rows|
      ensures Fits(rows[i].money.units + SumFor(deltas, rows[i].key))
    {
      if j :| 0 <= j < |deltas| && deltas[j].0 == rows[i].key {
        HeldOnce(rows, rows[i].key, currency, i);
        assert CellReady(rows, deltas[j].0, currency, 0, SumFor(deltas, deltas[j].0));
      } else {
        SumOfOther(deltas, rows[i].key);
      }
    }
  }

  lemma {:induction false} RoomIsReady<K, R>(rows: seq<NamedMoney<K, R>>, deltas: seq<(K, i64)>, currency: string)
    requires HoldsAll(rows, deltas, currency) && Room(rows, deltas)
    ensures Ready(rows, deltas, currency, Unmoved)
  {
    hide Holds, SumFor;
    forall j | 0 <= j < |deltas|
      ensures CellReady(rows, deltas[j].0, currency, 0, SumFor(deltas, deltas[j].0))
    {
      assert Holds(rows, deltas[j].0, currency);
      HeldSomewhere(rows, deltas[j].0, currency);
      var i := IndexOf(KeysOf(rows), deltas[j].0);
      assert rows[i].key == deltas[j].0;
      HeldOnce(rows, deltas[j].0, currency, i);
    }
  }

  // Taking one list of deltas out and putting another in.

  ghost predicate SwapReady<K, R>(rows: seq<NamedMoney<K, R>>, out: seq<(K, i64)>, more: seq<(K, i64)>, currency: string, moved: K -> int) {
    forall j :: 0 <= j < |out + more| ==>
      var k := (out + more)[j].0;
      CellReady(rows, k, currency, moved(k), -SumFor(out, k)) && CellReady(rows, k, currency, moved(k), SumFor(more, k) - SumFor(out, k))
  }

  ghost predicate Swapped<K(!new), R(!new)>(rows: seq<NamedMoney<K, R>>, after: seq<NamedMoney<K, R>>, out: seq<(K, i64)>, more: seq<(K, i64)>) {
    exists without: seq<NamedMoney<K, R>> :: Shifted(without, rows, out) && Shifted(without, after, more)
  }

  /** Every row stays representable both after the first list is out and after the second is in. */
  ghost predicate SwapRoom<K, R>(rows: seq<NamedMoney<K, R>>, out: seq<(K, i64)>, more: seq<(K, i64)>) {
    forall i {:trigger rows[i]} :: 0 <= i < |rows| ==>
      Fits(rows[i].money.units - SumFor(out, rows[i].key))
      && Fits(rows[i].money.units - SumFor(out, rows[i].key) + SumFor(more, rows[i].key))
  }

  ghost function TakenFrom<K, R>(rows: seq<NamedMoney<K, R>>, out: seq<(K, i64)>): (r: seq<NamedMoney<K, R>>)
    requires forall i {:trigger rows[i]} :: 0 <= i < |rows| ==> Fits(rows[i].money.units - SumFor(out, rows[i].key))
    ensures Shifted(r, rows, out)
  {
    seq(|rows|, i requires 0 <= i < |rows| =>
      assert Fits(rows[i].money.units - SumFor(out, rows[i].key));
      rows[i].(money := rows[i].money.(units := (rows[i].money.units as int) - SumFor(out, rows[i].key))))
  }

  lemma {:induction false} SwapMade<K(!new), R(!new)>(rows: seq<NamedMoney<K, R>>, out: seq<(K, i64)>, more: seq<(K, i64)>) returns (after: seq<NamedMoney<K, R>>)
    requires SwapRoom(rows, out, more)
    ensures Swapped(rows, after, out, more)
  {
    var without := TakenFrom(rows, out);
    forall i | 0 <= i < |without|
      ensures Fits(without[i].money.units + SumFor(more, without[i].key))
    {
      assert without[i].key == rows[i].key && rows[i].money.units == without[i].money.units + SumFor(out, rows[i].key);
    }
    after := ShiftedRows(without, more);
  }

  lemma {:induction false} SwapHasRoom<K(!new), R(!new)>(rows: seq<NamedMoney<K, R>>, after: seq<NamedMoney<K, R>>, out: seq<(K, i64)>, more: seq<(K, i64)>)
    requires Swapped(rows, after, out, more)
    ensures SwapRoom(rows, out, more)
  {
    var without: seq<NamedMoney<K, R>> :| Shifted(without, rows, out) && Shifted(without, after, more);
    forall i | 0 <= i < |rows|
      ensures Fits(rows[i].money.units - SumFor(out, rows[i].key))
              && Fits(rows[i].money.units - SumFor(out, rows[i].key) + SumFor(more, rows[i].key))
    {
      assert rows[i].money.units == without[i].money.units + SumFor(out, rows[i].key);
      assert after[i].money.units == without[i].money.units + SumFor(more, rows[i].key);
    }
  }

  lemma {:induction false} OutOrMore<K>(out: seq<(K, i64)>, more: seq<(K, i64)>, k: K)
    ensures (exists j :: 0 <= j < |out + more| && (out + more)[j].0 == k) || (SumFor(out, k) == 0 && SumFor(more, k) == 0)
  {
    if !exists j :: 0 <= j < |out + more| && (out + more)[j].0 == k {
      assert forall j :: 0 <= j < |out| ==> (out + more)[j] == out[j];
      assert forall j :: 0 <= j < |more| ==> (out + more)[|out| + j] == more[j];
      SumOfOther(out, k);
      SumOfOther(more, k);
    }
  }

  lemma {:induction false} SwapReadyHasRoom<K, R>(rows: seq<NamedMoney<K, R>>, out: seq<(K, i64)>, more: seq<(K, i64)>, currency: string)
    requires SwapReady(rows, out, more, currency, Unmoved)
    ensures HoldsAll(rows, out + more, currency) && SwapRoom(rows, out, more)
  {
    hide Holds, Lookup, SumFor;
    forall j | 0 <= j < |out + more|
      ensures Holds(rows, (out + more)[j].0, currency)
    {
      assert CellReady(rows, (out + more)[j].0, currency, 0, -SumFor(out, (out + more)[j].0));
    }
    forall i | 0 <= i < |rows|
      ensures Fits(rows[i].money.units - SumFor(out, rows[i].key))
              && Fits(rows[i].money.units - SumFor(out, rows[i].key) + SumFor(more, rows[i].key))
    {
      var k := rows[i].key;
      OutOrMore(out, more, k);
      if j :| 0 <= j < |out + more| && (out + more)[j].0 == k {
        HeldOnce(rows, k, currency, i);
        assert CellReady(rows, k, currency, 0, -SumFor(out, k)) && CellReady(rows, k, currency, 0, SumFor(more, k) - SumFor(out, k));
      }
    }
  }

  lemma {:induction false} SwapRoomIsReady<K, R>(rows: seq<NamedMoney<K, R>>, out: seq<(K, i64)>, more: seq<(K, i64)>, currency: string)
    requires HoldsAll(rows, out + more, currency) && SwapRoom(rows, out, more)
    ensures SwapReady(rows, out, more, currency, Unmoved)
  {
    hide Holds, SumFor;
    forall j | 0 <= j < |out + more|
      ensures var k := (out + more)[j].0;
              CellReady(rows, k, currency, 0, -SumFor(out, k)) && CellReady(rows, k, currency, 0, SumFor(more, k) - SumFor(out, k))
    {
      var k := (out + more)[j].0;
      assert Holds(rows, k, currency);
      HeldSomewhere(rows, k, currency);
      var i := IndexOf(KeysOf(rows), k);
      assert rows[i].key == k;
      HeldOnce(rows, k, currency, i);
    }
  }

  // One step.

  ghost predicate SoleRow(rows: seq<LedgerRow>, id: string, row: LedgerRow) {
    exists i :: OnlyAt(RowIds(rows), id, i) && rows[i] == row
  }

  function MonthlyRow(row: LedgerRow, tx: Transaction): seq<(Slot, i64)> {
    if MonthOf(tx.date).Some? then RowDeltas(row, MonthOf(tx.date).value) else []
  }

  /** What a step needs of the ledger it is performed on. */
  ghost predicate CanStep(s: Capture, step: Step)
    requires WellFormed(step)
  {
    match step
    case Move(m) =>
      Ready(s.assignments, MoveDeltas(m), m.amount.currency, Unmoved) && Ready(s.categoryFacts, MoveDeltas(m), m.amount.currency, Unmoved)
    case Post(tx) =>
      tx.parentId !in RowIds(s.transactions)
      && Ready(s.accounts, [(tx.accountId, tx.amount.units)], tx.amount.currency, Unmoved)
      && Ready(s.accountFacts, [(tx.accountId, tx.amount.units)], tx.amount.currency, Unmoved)
      && Ready(s.categoryFacts, MonthDeltas(tx), tx.amount.currency, Unmoved)
    case Amend(expected, tx) =>
      SoleRow(s.transactions, tx.parentId, expected)
      && SwapReady(s.categoryFacts, MonthlyRow(expected, tx), MonthDeltas(tx), tx.amount.currency, Unmoved)
    case Open(walletId, _, _) => walletId !in WalletIds(s.wallets)
    case Send(t) =>
      t.transferId !in TransferIds(s.transfers)
      && Ready(s.accounts, SendDeltas(t), t.amount.currency, Unmoved) && Ready(s.accountFacts, SendDeltas(t), t.amount.currency, Unmoved)
  }

  lemma {:induction false} MoveNeeds(s: Capture, m: Movement, t: Capture)
    requires WellFormed(Move(m)) && MoveEffect(s, m, t)
    ensures CanStep(s, Move(m))
  {
    hide Shifted, HoldsAll, Ready, MoveDeltas;
    ShiftHasRoom(s.assignments, t.assignments, MoveDeltas(m));
    ShiftHasRoom(s.categoryFacts, t.categoryFacts, MoveDeltas(m));
    RoomIsReady(s.assignments, MoveDeltas(m), m.amount.currency);
    RoomIsReady(s.categoryFacts, MoveDeltas(m), m.amount.currency);
  }

  lemma {:induction false} OneHeld<R>(rows: seq<NamedMoney<string, R>>, a: string, units: i64, currency: string)
    ensures HoldsAll(rows, [(a, units)], currency) <==> Holds(rows, a, currency)
  {
    hide Holds;
    assert [(a, units)][0].0 == a;
  }

  lemma {:induction false} PostNeeds(s: Capture, tx: Transaction, t: Capture)
    requires WellFormed(Post(tx)) && PostEffect(s, tx, t)
    ensures CanStep(s, Post(tx))
  {
    hide Shifted, HoldsAll, Ready, TransactionDeltas, Holds, Inserted;
    var one := [(tx.accountId, tx.amount.units)];
    OneHeld(s.accounts, tx.accountId, tx.amount.units, tx.amount.currency);
    OneHeld(s.accountFacts, tx.accountId, tx.amount.units, tx.amount.currency);
    ShiftHasRoom(s.accounts, t.accounts, one);
    ShiftHasRoom(s.accountFacts, t.accountFacts, one);
    ShiftHasRoom(s.categoryFacts, t.categoryFacts, MonthDeltas(tx));
    RoomIsReady(s.accounts, one, tx.amount.currency);
    RoomIsReady(s.accountFacts, one, tx.amount.currency);
    RoomIsReady(s.categoryFacts, MonthDeltas(tx), tx.amount.currency);
  }

  lemma {:induction false} AmendNeeds(s: Capture, expected: LedgerRow, tx: Transaction, t: Capture)
    requires WellFormed(Amend(expected, tx)) && AmendEffect(s, expected, tx, t)
    ensures CanStep(s, Amend(expected, tx))
  {
    hide Shifted, HoldsAll, SwapReady, TransactionDeltas, RowDeltas, SwapRoom;
    SwapHasRoom(s.categoryFacts, t.categoryFacts, MonthlyRow(expected, tx), MonthDeltas(tx));
    SwapRoomIsReady(s.categoryFacts, MonthlyRow(expected, tx), MonthDeltas(tx), tx.amount.currency);
  }

  lemma {:induction false} SendNeeds(s: Capture, tr: TransferIntent, t: Capture)
    requires WellFormed(Send(tr)) && SendEffect(s, tr, t)
    ensures CanStep(s, Send(tr))
  {
    hide Shifted, HoldsAll, Ready, SendDeltas, PairEffect, Inserted;
    ShiftHasRoom(s.accounts, t.accounts, SendDeltas(tr));
    ShiftHasRoom(s.accountFacts, t.accountFacts, SendDeltas(tr));
    RoomIsReady(s.accounts, SendDeltas(tr), tr.amount.currency);
    RoomIsReady(s.accountFacts, SendDeltas(tr), tr.amount.currency);
  }

  lemma {:induction false} StepNeeds(s: Capture, step: Step, t: Capture)
    requires WellFormed(step) && Effect(s, step, t)
    ensures CanStep(s, step)
  {
    match step
    case Move(m) => MoveNeeds(s, m, t);
    case Post(tx) => PostNeeds(s, tx, t);
    case Amend(expected, tx) => AmendNeeds(s, expected, tx, t);
    case Open(_, _, _) =>
    case Send(tr) => SendNeeds(s, tr, t);
  }

  // Making the step.

  lemma {:induction false} LengthBound(ids: set<string>) returns (n: nat)
    ensures forall id :: id in ids ==> |id| <= n
    decreases |ids|
  {
    if ids == {} {
      n := 0;
    } else {
      var id :| id in ids;
      var rest := LengthBound(ids - {id});
      n := if |id| > rest then |id| else rest;
    }
  }

  /** There is always another identity, longer than all that are taken. */
  lemma {:induction false} NewId(ids: set<string>) returns (id: string)
    ensures id !in ids
  {
    var n := LengthBound(ids);
    id := seq(n + 1, _ => 'x');
    assert |id| == n + 1;
  }

  lemma {:induction false} Appended<T>(rows: seq<T>, row: T)
    ensures Inserted(rows, rows + [row], row)
  {
    assert rows + [row] == InsertAt(rows, |rows|, row);
  }

  /** The row identities after a step: the old ones, those it posts, and none that is to be avoided. */
  ghost predicate Avoids(s: Capture, step: Step, t: Capture, avoid: set<string>) {
    forall id :: id in avoid && id in RowIds(t.transactions) ==> id in RowIds(s.transactions) || (step.Post? && id == step.transaction.parentId)
  }

  lemma {:induction false} MakeMove(s: Capture, m: Movement, avoid: set<string>) returns (t: Capture)
    requires WellFormed(Move(m)) && CanStep(s, Move(m))
    ensures Effect(s, Move(m), t) && Avoids(s, Move(m), t, avoid)
  {
    hide Shifted, HoldsAll, Ready, MoveDeltas, Room;
    ReadyHasRoom(s.assignments, MoveDeltas(m), m.amount.currency);
    ReadyHasRoom(s.categoryFacts, MoveDeltas(m), m.amount.currency);
    t := s.(assignments := ShiftedRows(s.assignments, MoveDeltas(m)), categoryFacts := ShiftedRows(s.categoryFacts, MoveDeltas(m)));
  }

  lemma {:induction false} MakePost(s: Capture, tx: Transaction, avoid: set<string>) returns (t: Capture)
    requires WellFormed(Post(tx)) && CanStep(s, Post(tx))
    ensures Effect(s, Post(tx), t) && Avoids(s, Post(tx), t, avoid)
  {
    hide Shifted, HoldsAll, Ready, TransactionDeltas, Holds, Room, NormalizedPayee, Inserted;
    var one := [(tx.accountId, tx.amount.units)];
    OneHeld(s.accounts, tx.accountId, tx.amount.units, tx.amount.currency);
    OneHeld(s.accountFacts, tx.accountId, tx.amount.units, tx.amount.currency);
    ReadyHasRoom(s.accounts, one, tx.amount.currency);
    ReadyHasRoom(s.accountFacts, one, tx.amount.currency);
    ReadyHasRoom(s.categoryFacts, MonthDeltas(tx), tx.amount.currency);
    Appended(s.transactions, RowOf(tx));
    t := s.(transactions := s.transactions + [RowOf(tx)], accounts := ShiftedRows(s.accounts, one),
            accountFacts := ShiftedRows(s.accountFacts, one), categoryFacts := ShiftedRows(s.categoryFacts, MonthDeltas(tx)));
    assert RowIds(t.transactions) == RowIds(s.transactions) + [tx.parentId];
  }

  lemma {:induction false} MakeAmend(s: Capture, expected: LedgerRow, tx: Transaction, avoid: set<string>) returns (t: Capture)
    requires WellFormed(Amend(expected, tx)) && CanStep(s, Amend(expected, tx))
    ensures Effect(s, Amend(expected, tx), t) && Avoids(s, Amend(expected, tx), t, avoid)
  {
    hide Shifted, HoldsAll, SwapReady, TransactionDeltas, RowDeltas, SwapRoom, NormalizedPayee;
    SwapReadyHasRoom(s.categoryFacts, MonthlyRow(expected, tx), MonthDeltas(tx), tx.amount.currency);
    var facts := SwapMade(s.categoryFacts, MonthlyRow(expected, tx), MonthDeltas(tx));
    var i :| OnlyAt(RowIds(s.transactions), tx.parentId, i) && s.transactions[i] == expected;
    t := s.(transactions := s.transactions[i := RowOf(tx)], categoryFacts := facts);
    assert RowIds(t.transactions) == RowIds(s.transactions);
  }

  lemma {:induction false} MakeOpen(s: Capture, walletId: string, name: string, currency: string, avoid: set<string>) returns (t: Capture)
    requires WellFormed(Open(walletId, name, currency)) && CanStep(s, Open(walletId, name, currency))
    ensures Effect(s, Open(walletId, name, currency), t) && Avoids(s, Open(walletId, name, currency), t, avoid)
  {
    var id := NewId((set x | x in KeysOf(s.accounts)) + set x | x in KeysOf(s.accountFacts));
    var evidence := FactEvidence("unknown", "actual_ledger", None, None, []);
    var account := NamedMoney(id, Money(0, currency), AccountInfo(name, true, false, currency));
    var fact := NamedMoney(id, Money(0, currency), AccountFactInfo(true, false, currency, evidence));
    hide Inserted;
    Appended(s.wallets, WalletMapping(walletId, id));
    Appended(s.accounts, account);
    Appended(s.accountFacts, fact);
    t := s.(wallets := s.wallets + [WalletMapping(walletId, id)], accounts := s.accounts + [account], accountFacts := s.accountFacts + [fact]);
  }

  lemma {:induction false} MakePair(s: Capture, tr: TransferIntent, avoid: set<string>) returns (mapping: TransferMapping, rows: seq<LedgerRow>)
    requires CanNegate(tr.amount.units) && tr.transferId !in TransferIds(s.transfers)
    ensures MappingEffect(s.transfers, mapping, tr, s.transfers + [mapping]) && PairEffect(s.transactions, mapping, tr, rows)
    ensures forall id :: id in avoid && id in RowIds(rows) ==> id in RowIds(s.transactions)
  {
    var taken := avoid + set x | x in RowIds(s.transactions);
    var p := NewId(taken);
    var q := NewId(taken + {p});
    mapping := TransferMapping(tr.transferId, tr.correlationId, Marker(tr.transferId, tr.correlationId), p, q,
                               tr.sourceAccountId, tr.destinationAccountId, tr.amount, tr.date);
    var out, back := TransferRow(p, tr, true, None), TransferRow(q, tr, false, None);
    rows := s.transactions + [out] + [back];
    hide Inserted, Marker;
    Appended(s.transactions, out);
    Appended(s.transactions + [out], back);
    assert PairInserted(s.transactions, out, back, rows);
    Appended(s.transfers, mapping);
    assert RowIds(rows) == RowIds(s.transactions) + [p] + [q];
  }

  lemma {:induction false} MakeSend(s: Capture, tr: TransferIntent, avoid: set<string>) returns (t: Capture)
    requires WellFormed(Send(tr)) && CanStep(s, Send(tr))
    ensures Effect(s, Send(tr), t) && Avoids(s, Send(tr), t, avoid)
  {
    hide Shifted, HoldsAll, Ready, SendDeltas, Room, PairEffect, MappingEffect;
    ReadyHasRoom(s.accounts, SendDeltas(tr), tr.amount.currency);
    ReadyHasRoom(s.accountFacts, SendDeltas(tr), tr.amount.currency);
    var mapping, rows := MakePair(s, tr, avoid);
    t := s.(transactions := rows, transfers := s.transfers + [mapping], accounts := ShiftedRows(s.accounts, SendDeltas(tr)),
            accountFacts := ShiftedRows(s.accountFacts, SendDeltas(tr)));
  }

  lemma {:induction false} MakeStep(s: Capture, step: Step, avoid: set<string>) returns (t: Capture)
    requires WellFormed(step) && CanStep(s, step)
    ensures Effect(s, step, t) && Avoids(s, step, t, avoid)
  {
    match step
    case Move(m) => t := MakeMove(s, m, avoid);
    case Post(tx) => t := MakePost(s, tx, avoid);
    case Amend(expected, tx) => t := MakeAmend(s, expected, tx, avoid);
    case Open(walletId, name, currency) => t := MakeOpen(s, walletId, name, currency, avoid);
    case Send(tr) => t := MakeSend(s, tr, avoid);
  }

  /** A step can be performed on exactly the ledgers that meet its needs. */
  lemma {:induction false} StepPerformable(s: Capture, step: Step)
    requires WellFormed(step)
    ensures (exists t :: Effect(s, step, t)) <==> CanStep(s, step)
  {
    hide Effect, CanStep, Avoids;
    if CanStep(s, step) {
      var t := MakeStep(s, step, {});
    }
    if t :| Effect(s, step, t) {
      StepNeeds(s, step, t);
    }
  }
}
