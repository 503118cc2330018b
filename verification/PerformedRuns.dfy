/** When a whole run of steps can be performed, in terms of the ledger it starts from. */
module PerformedRuns {
  import opened CheckedMoney
  import opened Rows
  import opened Action
  import opened Dispatch
  import opened Undo
  import opened Envelopes
  import opened PlanOutcome
  import opened LedgerLaws
  import opened LedgerRuns
  import opened Performing

  // One key followed through the changes of its rows.

  /** The key is held exactly as before, with this much more. */
  ghost predicate Tracked<K, R>(a: seq<NamedMoney<K, R>>, b: seq<NamedMoney<K, R>>, k: K, moved: int) {
    (k in KeysOf(a) ==> k in KeysOf(b) && Lookup(b, k).value.units == Lookup(a, k).value.units + moved)
    && forall currency :: Holds(a, k, currency) <==> Holds(b, k, currency)
  }

  lemma {:induction false} TrackedShift<K, R>(a: seq<NamedMoney<K, R>>, b: seq<NamedMoney<K, R>>, deltas: seq<(K, i64)>, k: K)
    requires Shifted(a, b, deltas)
    ensures Tracked(a, b, k, SumFor(deltas, k))
  {
    assert KeysOf(a) == KeysOf(b);
    if k in KeysOf(a) {
      ShiftMoves(a, b, deltas, k);
    }
    forall currency
      ensures Holds(a, k, currency) <==> Holds(b, k, currency)
    {
      if i :| 0 <= i < |a| && OnlyAt(KeysOf(a), k, i) && a[i].money.currency == currency {
        assert OnlyAt(KeysOf(b), k, i) && b[i].money.currency == currency;
      }
      if i :| 0 <= i < |b| && OnlyAt(KeysOf(b), k, i) && b[i].money.currency == currency {
        assert OnlyAt(KeysOf(a), k, i) && a[i].money.currency == currency;
      }
    }
  }

  lemma {:induction false} SwappedTracked<K(!new), R(!new)>(a: seq<NamedMoney<K, R>>, b: seq<NamedMoney<K, R>>, out: seq<(K, i64)>, more: seq<(K, i64)>, k: K)
    requires Swapped(a, b, out, more)
    ensures Tracked(a, b, k, SumFor(more, k) - SumFor(out, k))
  {
    var without: seq<NamedMoney<K, R>> :| Shifted(without, a, out) && Shifted(without, b, more);
    TrackedShift(without, a, out, k);
    TrackedShift(without, b, more, k);
    assert KeysOf(without) == KeysOf(a);
    hide Shifted, Holds;
  }

  lemma {:induction false} OnlyMoved<K>(a: seq<K>, b: seq<K>, p: nat, k: K, i: nat)
    requires p <= |a| && |b| == |a| + 1 && b[p] != k && (forall j :: 0 <= j < |b| && j != p ==> b[j] == a[if j < p then j else j - 1])
    requires i < |a|
    ensures OnlyAt(a, k, i) <==> OnlyAt(b, k, if i < p then i else i + 1)
  {
    var at := if i < p then i else i + 1;
    if OnlyAt(b, k, at) {
      forall j | 0 <= j < |a| && a[j] == k
        ensures j == i
      {
        assert b[if j < p then j else j + 1] == a[j];
      }
    }
  }

  lemma {:induction false} HeldInserted<K, R>(a: seq<NamedMoney<K, R>>, p: nat, row: NamedMoney<K, R>, k: K, currency: string)
    requires p <= |a| && row.key != k
    ensures Holds(a, k, currency) <==> Holds(InsertAt(a, p, row), k, currency)
  {
    var b := InsertAt(a, p, row);
    var x, y := KeysOf(a), KeysOf(b);
    assert y[p] == row.key && forall j :: 0 <= j < |y| && j != p ==> y[j] == x[if j < p then j else j - 1];
    if Holds(a, k, currency) {
      var i :| 0 <= i < |a| && OnlyAt(x, k, i) && a[i].money.currency == currency;
      OnlyMoved(x, y, p, k, i);
      var at := if i < p then i else i + 1;
      assert OnlyAt(y, k, at) && b[at] == a[i];
    }
    if Holds(b, k, currency) {
      var i :| 0 <= i < |b| && OnlyAt(y, k, i) && b[i].money.currency == currency;
      var back := if i < p then i else i - 1;
      OnlyMoved(x, y, p, k, back);
      assert OnlyAt(x, k, back) && a[back] == b[i];
    }
  }

  lemma {:induction false} TrackedInsert<K, R>(a: seq<NamedMoney<K, R>>, b: seq<NamedMoney<K, R>>, row: NamedMoney<K, R>, k: K)
    requires Inserted(a, b, row) && row.key != k && row.key !in KeysOf(a)
    ensures Tracked(a, b, k, 0)
  {
    if k in KeysOf(a) {
      InsertKeeps(a, b, row, k);
    }
    var p :| 0 <= p <= |a| && b == InsertAt(a, p, row);
    hide Holds;
    forall currency
      ensures Holds(a, k, currency) <==> Holds(b, k, currency)
    {
      HeldInserted(a, p, row, k, currency);
    }
  }

  lemma {:induction false} TrackedSame<K, R>(a: seq<NamedMoney<K, R>>, k: K)
    ensures Tracked(a, a, k, 0)
  {
  }

  lemma {:induction false} TrackedThen<K, R>(a: seq<NamedMoney<K, R>>, b: seq<NamedMoney<K, R>>, c: seq<NamedMoney<K, R>>, k: K, x: int, y: int)
    requires Tracked(a, b, k, x) && Tracked(b, c, k, y)
    ensures Tracked(a, c, k, x + y)
  {
    hide Holds, Lookup;
  }

  lemma {:induction false} TrackedCell<K, R>(a: seq<NamedMoney<K, R>>, b: seq<NamedMoney<K, R>>, k: K, currency: string, moved: int, delta: int)
    requires Tracked(a, b, k, moved)
    ensures CellReady(b, k, currency, 0, delta) <==> CellReady(a, k, currency, moved, delta)
  {
    if Holds(a, k, currency) {
      HeldSomewhere(a, k, currency);
    }
    hide Holds, Lookup;
  }

  lemma {:induction false} TrackedReady<K, R>(a: seq<NamedMoney<K, R>>, b: seq<NamedMoney<K, R>>, deltas: seq<(K, i64)>, currency: string, moved: K -> int)
    requires forall j :: 0 <= j < |deltas| ==> Tracked(a, b, deltas[j].0, moved(deltas[j].0))
    ensures Ready(b, deltas, currency, Unmoved) <==> Ready(a, deltas, currency, moved)
  {
    hide Tracked, CellReady, SumFor;
    forall j | 0 <= j < |deltas|
      ensures CellReady(b, deltas[j].0, currency, 0, SumFor(deltas, deltas[j].0))
              <==> CellReady(a, deltas[j].0, currency, moved(deltas[j].0), SumFor(deltas, deltas[j].0))
    {
      TrackedCell(a, b, deltas[j].0, currency, moved(deltas[j].0), SumFor(deltas, deltas[j].0));
    }
  }

  lemma {:induction false} TrackedSwap<K, R>(a: seq<NamedMoney<K, R>>, b: seq<NamedMoney<K, R>>, out: seq<(K, i64)>, more: seq<(K, i64)>, currency: string, moved: K -> int)
    requires forall j :: 0 <= j < |out + more| ==> Tracked(a, b, (out + more)[j].0, moved((out + more)[j].0))
    ensures SwapReady(b, out, more, currency, Unmoved) <==> SwapReady(a, out, more, currency, moved)
  {
    hide Tracked, CellReady, SumFor;
    forall j | 0 <= j < |out + more|
      ensures var k := (out + more)[j].0;
              (CellReady(b, k, currency, 0, -SumFor(out, k)) <==> CellReady(a, k, currency, moved(k), -SumFor(out, k)))
              && (CellReady(b, k, currency, 0, SumFor(more, k) - SumFor(out, k))
                  <==> CellReady(a, k, currency, moved(k), SumFor(more, k) - SumFor(out, k)))
    {
      var k := (out + more)[j].0;
      TrackedCell(a, b, k, currency, moved(k), -SumFor(out, k));
      TrackedCell(a, b, k, currency, moved(k), SumFor(more, k) - SumFor(out, k));
    }
  }

  // What earlier steps have done.

  function FactDelta(step: Step, slot: Slot): int {
    match step
    case Move(_) => AssignmentDelta(step, slot)
    case Post(tx) => SumFor(MonthDeltas(tx), slot)
    case Amend(expected, tx) => SumFor(MonthDeltas(tx), slot) - SumFor(MonthlyRow(expected, tx), slot)
    case _ => 0
  }

  /** What steps have moved into the recorded availability of a category. */
  function FactMoved(steps: seq<Step>, slot: Slot): int {
    if steps == [] then 0 else FactMoved(steps[..|steps| - 1], slot) + FactDelta(steps[|steps| - 1], slot)
  }

  predicate Posted(steps: seq<Step>, id: string) {
    exists k :: 0 <= k < |steps| && steps[k].Post? && steps[k].transaction.parentId == id
  }

  predicate Amended(steps: seq<Step>, id: string) {
    exists k :: 0 <= k < |steps| && steps[k].Amend? && steps[k].transaction.parentId == id
  }

  predicate Mapped(steps: seq<Step>, id: string) {
    exists k :: 0 <= k < |steps| && steps[k].Open? && steps[k].walletId == id
  }

  predicate SentOut(steps: seq<Step>, id: string) {
    exists k :: 0 <= k < |steps| && steps[k].Send? && steps[k].transfer.transferId == id
  }

  lemma {:induction false} DoneThen(before: seq<Step>, step: Step, id: string)
    ensures Posted(before + [step], id) <==> Posted(before, id) || (step.Post? && step.transaction.parentId == id)
    ensures Amended(before + [step], id) <==> Amended(before, id) || (step.Amend? && step.transaction.parentId == id)
    ensures Mapped(before + [step], id) <==> Mapped(before, id) || (step.Open? && step.walletId == id)
    ensures SentOut(before + [step], id) <==> SentOut(before, id) || (step.Send? && step.transfer.transferId == id)
  {
    var all := before + [step];
    assert all[|before|] == step && forall k :: 0 <= k < |before| ==> all[k] == before[k];
  }

  lemma {:induction false} MovedThen(before: seq<Step>, step: Step)
    ensures forall slot :: FactMoved(before + [step], slot) == FactMoved(before, slot) + FactDelta(step, slot)
    ensures forall slot :: AssignmentMoved(before + [step], slot) == AssignmentMoved(before, slot) + AssignmentDelta(step, slot)
    ensures forall a :: BalanceMoved(before + [step], a) == BalanceMoved(before, a) + BalanceDelta(step, a)
  {
    assert (before + [step])[..|before|] == before;
  }

  // The ledger along a run.

  /** Steps name accounts of the ledger and amend rows of it, each into another. */
  ghost predicate Grounded(ledger: Capture, step: Step) {
    match step
    case Post(tx) => tx.accountId in KeysOf(ledger.accounts)
    case Amend(expected, tx) => SoleRow(ledger.transactions, tx.parentId, expected) && RowOf(tx) != expected
    case Send(t) => t.sourceAccountId in KeysOf(ledger.accounts) && t.destinationAccountId in KeysOf(ledger.accounts)
    case _ => true
  }

  ghost predicate AllGrounded(ledger: Capture, steps: seq<Step>) {
    forall k :: 0 <= k < |steps| ==> Grounded(ledger, steps[k])
  }

  ghost predicate CellsTracked(ledger: Capture, before: seq<Step>, mid: Capture) {
    (forall slot :: Tracked(ledger.assignments, mid.assignments, slot, AssignmentMoved(before, slot)))
    && (forall slot :: Tracked(ledger.categoryFacts, mid.categoryFacts, slot, FactMoved(before, slot)))
    && forall a :: a in KeysOf(ledger.accounts) ==>
         a in KeysOf(mid.accounts)
         && Tracked(ledger.accounts, mid.accounts, a, BalanceMoved(before, a))
         && Tracked(ledger.accountFacts, mid.accountFacts, a, BalanceMoved(before, a))
  }

  ghost predicate IdsTracked(ledger: Capture, before: seq<Step>, mid: Capture) {
    (forall id :: id in WalletIds(mid.wallets) <==> id in WalletIds(ledger.wallets) || Mapped(before, id))
    && (forall id :: id in TransferIds(mid.transfers) <==> id in TransferIds(ledger.transfers) || SentOut(before, id))
    && forall id :: id in RowIds(ledger.transactions) || Posted(before, id) ==> id in RowIds(mid.transactions)
  }

  ghost predicate RowsTracked(ledger: Capture, before: seq<Step>, mid: Capture) {
    forall id, row :: SoleRow(ledger.transactions, id, row) ==> (SoleRow(mid.transactions, id, row) <==> !Amended(before, id))
  }

  ghost predicate Reaches(ledger: Capture, before: seq<Step>, mid: Capture) {
    CellsTracked(ledger, before, mid) && IdsTracked(ledger, before, mid) && RowsTracked(ledger, before, mid)
  }

  lemma {:induction false} ReachesStart(ledger: Capture)
    ensures Reaches(ledger, [], ledger)
  {
  }

  lemma {:induction false} AssignmentsNext(ledger: Capture, before: seq<Step>, s: Capture, step: Step, t: Capture, slot: Slot)
    requires WellFormed(step) && Effect(s, step, t)
    requires Tracked(ledger.assignments, s.assignments, slot, AssignmentMoved(before, slot))
    ensures Tracked(ledger.assignments, t.assignments, slot, AssignmentMoved(before + [step], slot))
  {
    MovedThen(before, step);
    hide Tracked, Shifted, HoldsAll, Holds, Inserted;
    if step.Move? {
      TrackedShift(s.assignments, t.assignments, MoveDeltas(step.movement), slot);
      SumOfMove(step.movement, slot);
    } else {
      assert t.assignments == s.assignments;
      TrackedSame(s.assignments, slot);
    }
    TrackedThen(ledger.assignments, s.assignments, t.assignments, slot, AssignmentMoved(before, slot), AssignmentDelta(step, slot));
  }

  lemma {:induction false} FactStep(s: Capture, step: Step, t: Capture, slot: Slot)
    requires WellFormed(step) && Effect(s, step, t)
    ensures Tracked(s.categoryFacts, t.categoryFacts, slot, FactDelta(step, slot))
  {
    hide Tracked, Shifted, HoldsAll, Holds, Inserted;
    match step {
      case Move(m) =>
        TrackedShift(s.categoryFacts, t.categoryFacts, MoveDeltas(m), slot);
        SumOfMove(m, slot);
      case Post(tx) => TrackedShift(s.categoryFacts, t.categoryFacts, MonthDeltas(tx), slot);
      case Amend(expected, tx) => SwappedTracked(s.categoryFacts, t.categoryFacts, MonthlyRow(expected, tx), MonthDeltas(tx), slot);
      case Open(_, _, _) => TrackedSame(s.categoryFacts, slot);
      case Send(_) => TrackedSame(s.categoryFacts, slot);
    }
  }

  lemma {:induction false} AccountStep(s: Capture, step: Step, t: Capture, a: string)
    requires WellFormed(step) && Effect(s, step, t) && a in KeysOf(s.accounts)
    ensures a in KeysOf(t.accounts)
    ensures Tracked(s.accounts, t.accounts, a, BalanceDelta(step, a)) && Tracked(s.accountFacts, t.accountFacts, a, BalanceDelta(step, a))
  {
    StepBalances(s, step, t, a);
    hide Tracked, Shifted, HoldsAll, Holds, Inserted;
    match step {
      case Move(_) => AccountsSame(s, t, a);
      case Amend(_, _) => AccountsSame(s, t, a);
      case Post(tx) =>
        TrackedShift(s.accounts, t.accounts, [(tx.accountId, tx.amount.units)], a);
        TrackedShift(s.accountFacts, t.accountFacts, [(tx.accountId, tx.amount.units)], a);
        assert SumFor([(tx.accountId, tx.amount.units)], a) == BalanceDelta(step, a);
      case Send(tr) =>
        TrackedShift(s.accounts, t.accounts, SendDeltas(tr), a);
        TrackedShift(s.accountFacts, t.accountFacts, SendDeltas(tr), a);
        SumOfSend(tr, a);
      case Open(walletId, name, currency) => OpenTracked(s, walletId, name, currency, t, a);
    }
  }

  lemma {:induction false} AccountsSame(s: Capture, t: Capture, a: string)
    requires t.accounts == s.accounts && t.accountFacts == s.accountFacts
    ensures Tracked(s.accounts, t.accounts, a, 0) && Tracked(s.accountFacts, t.accountFacts, a, 0)
  {
    TrackedSame(s.accounts, a);
    TrackedSame(s.accountFacts, a);
  }

  lemma {:induction false} OpenTracked(s: Capture, walletId: string, name: string, currency: string, t: Capture, a: string)
    requires OpenEffect(s, walletId, name, currency, t) && a in KeysOf(s.accounts)
    ensures Tracked(s.accounts, t.accounts, a, 0) && Tracked(s.accountFacts, t.accountFacts, a, 0)
  {
    var id: string, evidence: FactEvidence :|
      id !in KeysOf(s.accounts) && id !in KeysOf(s.accountFacts)
      && Inserted(s.accounts, t.accounts, NamedMoney(id, Money(0, currency), AccountInfo(name, true, false, currency)))
      && Inserted(s.accountFacts, t.accountFacts, NamedMoney(id, Money(0, currency), AccountFactInfo(true, false, currency, evidence)));
    hide Tracked, Inserted;
    TrackedInsert(s.accounts, t.accounts, NamedMoney(id, Money(0, currency), AccountInfo(name, true, false, currency)), a);
    TrackedInsert(s.accountFacts, t.accountFacts, NamedMoney(id, Money(0, currency), AccountFactInfo(true, false, currency, evidence)), a);
  }

  lemma {:induction false} CellsNext(ledger: Capture, before: seq<Step>, s: Capture, step: Step, t: Capture)
    requires WellFormed(step) && Effect(s, step, t) && CellsTracked(ledger, before, s)
    ensures CellsTracked(ledger, before + [step], t)
  {
    MovedThen(before, step);
    hide Tracked, Effect, WellFormed, AssignmentMoved, FactMoved, BalanceMoved, FactDelta, BalanceDelta;
    forall slot
      ensures Tracked(ledger.assignments, t.assignments, slot, AssignmentMoved(before + [step], slot))
      ensures Tracked(ledger.categoryFacts, t.categoryFacts, slot, FactMoved(before + [step], slot))
    {
      AssignmentsNext(ledger, before, s, step, t, slot);
      FactStep(s, step, t, slot);
      TrackedThen(ledger.categoryFacts, s.categoryFacts, t.categoryFacts, slot, FactMoved(before, slot), FactDelta(step, slot));
    }
    forall a | a in KeysOf(ledger.accounts)
      ensures a in KeysOf(t.accounts) && Tracked(ledger.accounts, t.accounts, a, BalanceMoved(before + [step], a))
      ensures Tracked(ledger.accountFacts, t.accountFacts, a, BalanceMoved(before + [step], a))
    {
      AccountStep(s, step, t, a);
      TrackedThen(ledger.accounts, s.accounts, t.accounts, a, BalanceMoved(before, a), BalanceDelta(step, a));
      TrackedThen(ledger.accountFacts, s.accountFacts, t.accountFacts, a, BalanceMoved(before, a), BalanceDelta(step, a));
    }
  }

  // Identities along a run.

  lemma {:induction false} IdsThen<T, K>(id: T -> K, s: seq<T>, t: seq<T>, row: T)
    requires Inserted(s, t, row)
    ensures forall k :: k in IdsBy(id, t) <==> k == id(row) || k in IdsBy(id, s)
  {
    forall k
      ensures k in IdsBy(id, t) <==> k == id(row) || k in IdsBy(id, s)
    {
      IdsInserted(id, s, t, row, k);
    }
  }

  lemma {:induction false} WalletsNext(s: Capture, step: Step, t: Capture)
    requires WellFormed(step) && Effect(s, step, t)
    ensures forall id :: id in WalletIds(t.wallets) <==> id in WalletIds(s.wallets) || (step.Open? && id == step.walletId)
  {
    hide Inserted, Shifted, HoldsAll;
    if step.Open? {
      var a: string :| Inserted(s.wallets, t.wallets, WalletMapping(step.walletId, a));
      IdsThen(WalletId, s.wallets, t.wallets, WalletMapping(step.walletId, a));
    } else {
      assert t.wallets == s.wallets;
    }
  }

  lemma {:induction false} TransfersNext(s: Capture, step: Step, t: Capture)
    requires WellFormed(step) && Effect(s, step, t)
    ensures forall id :: id in TransferIds(t.transfers) <==> id in TransferIds(s.transfers) || (step.Send? && id == step.transfer.transferId)
  {
    hide Inserted, Shifted, HoldsAll, PairEffect;
    if step.Send? {
      var mapping :| MappingEffect(s.transfers, mapping, step.transfer, t.transfers);
      IdsThen(TransferId, s.transfers, t.transfers, mapping);
    } else {
      assert t.transfers == s.transfers;
    }
  }

  lemma {:induction false} PostsRow(s: Capture, tx: Transaction, t: Capture)
    requires WellFormed(Post(tx)) && Effect(s, Post(tx), t)
    ensures tx.parentId in RowIds(t.transactions)
  {
    hide Inserted, Shifted, HoldsAll, Holds;
    IdsThen(RowId, s.transactions, t.transactions, RowOf(tx));
  }

  lemma {:induction false} IdsNext(ledger: Capture, before: seq<Step>, s: Capture, step: Step, t: Capture)
    requires WellFormed(step) && Effect(s, step, t) && IdsTracked(ledger, before, s)
    ensures IdsTracked(ledger, before + [step], t)
  {
    WalletsNext(s, step, t);
    TransfersNext(s, step, t);
    if step.Post? {
      PostsRow(s, step.transaction, t);
    }
    hide Effect, WellFormed, Posted, Mapped, SentOut, Amended;
    forall id
      ensures id in WalletIds(t.wallets) <==> id in WalletIds(ledger.wallets) || Mapped(before + [step], id)
      ensures id in TransferIds(t.transfers) <==> id in TransferIds(ledger.transfers) || SentOut(before + [step], id)
      ensures id in RowIds(ledger.transactions) || Posted(before + [step], id) ==> id in RowIds(t.transactions)
    {
      DoneThen(before, step, id);
      if id in RowIds(s.transactions) {
        RowIdsRemain(s, step, t, id);
      }
    }
  }

  lemma {:induction false} RowsMoved(s: seq<LedgerRow>, p: nat, more: LedgerRow)
    requires p <= |s|
    ensures var t := InsertAt(s, p, more);
            |t| == |s| + 1 && t[p] == more && forall j :: 0 <= j < |t| && j != p ==> t[j] == s[if j < p then j else j - 1]
    ensures var x, y := RowIds(s), RowIds(InsertAt(s, p, more));
            |x| == |s| && |y| == |s| + 1 && y[p] == more.parentId && forall j :: 0 <= j < |y| && j != p ==> y[j] == x[if j < p then j else j - 1]
  {
  }

  lemma {:induction false} SoleMoved(s: seq<LedgerRow>, p: nat, more: LedgerRow, id: string, row: LedgerRow, i: nat)
    requires p <= |s| && i < |s| && more.parentId != id
    ensures var t, at := InsertAt(s, p, more), if i < p then i else i + 1;
            at < |t| && (OnlyAt(RowIds(s), id, i) && s[i] == row <==> OnlyAt(RowIds(t), id, at) && t[at] == row)
  {
    RowsMoved(s, p, more);
    hide OnlyAt, RowIds, InsertAt;
    OnlyMoved(RowIds(s), RowIds(InsertAt(s, p, more)), p, id, i);
  }

  lemma {:induction false} SoleInserted(s: seq<LedgerRow>, t: seq<LedgerRow>, more: LedgerRow, id: string, row: LedgerRow)
    requires Inserted(s, t, more) && more.parentId != id
    ensures SoleRow(s, id, row) <==> SoleRow(t, id, row)
  {
    var p :| 0 <= p <= |s| && t == InsertAt(s, p, more);
    RowsMoved(s, p, more);
    hide RowIds, InsertAt;
    if SoleRow(s, id, row) {
      var i :| OnlyAt(RowIds(s), id, i) && s[i] == row;
      SoleMoved(s, p, more, id, row, i);
    }
    if SoleRow(t, id, row) {
      var i :| OnlyAt(RowIds(t), id, i) && t[i] == row;
      SoleMoved(s, p, more, id, row, if i < p then i else i - 1);
    }
  }

  lemma {:induction false} SolePair(s: seq<LedgerRow>, a: LedgerRow, b: LedgerRow, t: seq<LedgerRow>, id: string, row: LedgerRow)
    requires PairInserted(s, a, b, t) && a.parentId != id && b.parentId != id
    ensures SoleRow(s, id, row) <==> SoleRow(t, id, row)
  {
    hide Inserted, SoleRow;
    var mid: seq<LedgerRow> :| Inserted(s, mid, a) && Inserted(mid, t, b);
    SoleInserted(s, mid, a, id, row);
    SoleInserted(mid, t, b, id, row);
  }

  lemma {:induction false} SoleAmended(s: seq<LedgerRow>, i: nat, tx: Transaction, id: string, row: LedgerRow)
    requires OnlyAt(RowIds(s), tx.parentId, i) && (id == tx.parentId ==> RowOf(tx) != row)
    ensures id != tx.parentId ==> (SoleRow(s, id, row) <==> SoleRow(s[i := RowOf(tx)], id, row))
    ensures id == tx.parentId ==> !SoleRow(s[i := RowOf(tx)], id, row)
  {
    hide NormalizedPayee;
    var t := s[i := RowOf(tx)];
    assert RowIds(t) == RowIds(s);
    if id != tx.parentId {
      if SoleRow(s, id, row) {
        var j :| OnlyAt(RowIds(s), id, j) && s[j] == row;
        assert t[j] == row;
      }
      if SoleRow(t, id, row) {
        var j :| OnlyAt(RowIds(t), id, j) && t[j] == row;
        assert s[j] == row;
      }
    }
  }

  /** A row that is there stays what it was, unless this step amends it. */
  lemma {:induction false} SoleStep(s: Capture, step: Step, t: Capture, id: string, row: LedgerRow)
    requires WellFormed(step) && Effect(s, step, t) && id in RowIds(s.transactions)
    requires step.Amend? && step.transaction.parentId == id ==> RowOf(step.transaction) != row
    ensures SoleRow(t.transactions, id, row)
            <==> SoleRow(s.transactions, id, row) && !(step.Amend? && step.transaction.parentId == id)
  {
    hide Shifted, HoldsAll, Inserted, SoleRow, Holds, NormalizedPayee;
    match step {
      case Move(_) => assert t.transactions == s.transactions;
      case Open(_, _, _) => assert t.transactions == s.transactions;
      case Post(tx) => SoleInserted(s.transactions, t.transactions, RowOf(tx), id, row);
      case Amend(expected, tx) =>
        var i :| OnlyAt(RowIds(s.transactions), tx.parentId, i) && t.transactions == s.transactions[i := RowOf(tx)];
        SoleAmended(s.transactions, i, tx, id, row);
      case Send(tr) =>
        var mapping :| MappingEffect(s.transfers, mapping, tr, t.transfers) && PairEffect(s.transactions, mapping, tr, t.transactions);
        var p, q :| PairInserted(s.transactions, TransferRow(mapping.sourceRowId, tr, true, p),
                                 TransferRow(mapping.destinationRowId, tr, false, q), t.transactions);
        SolePair(s.transactions, TransferRow(mapping.sourceRowId, tr, true, p), TransferRow(mapping.destinationRowId, tr, false, q),
                 t.transactions, id, row);
    }
  }

  lemma {:induction false} SoleThere(rows: seq<LedgerRow>, id: string, row: LedgerRow)
    requires SoleRow(rows, id, row)
    ensures id in RowIds(rows) && forall other :: SoleRow(rows, id, other) ==> other == row
  {
  }

  lemma {:induction false} RowsNext(ledger: Capture, before: seq<Step>, s: Capture, step: Step, t: Capture)
    requires WellFormed(step) && Effect(s, step, t) && RowsTracked(ledger, before, s) && IdsTracked(ledger, before, s)
    requires Grounded(ledger, step)
    ensures RowsTracked(ledger, before + [step], t)
  {
    hide Effect, WellFormed, Posted, Mapped, SentOut, Amended, SoleRow, NormalizedPayee;
    forall id, row | SoleRow(ledger.transactions, id, row)
      ensures SoleRow(t.transactions, id, row) <==> !Amended(before + [step], id)
    {
      DoneThen(before, step, id);
      SoleThere(ledger.transactions, id, row);
      SoleStep(s, step, t, id, row);
    }
  }

  lemma {:induction false} ReachesNext(ledger: Capture, before: seq<Step>, s: Capture, step: Step, t: Capture)
    requires WellFormed(step) && Effect(s, step, t) && Reaches(ledger, before, s) && Grounded(ledger, step)
    ensures Reaches(ledger, before + [step], t)
  {
    hide Effect, WellFormed, CellsTracked, IdsTracked, RowsTracked, Grounded;
    CellsNext(ledger, before, s, step, t);
    IdsNext(ledger, before, s, step, t);
    RowsNext(ledger, before, s, step, t);
  }

  // What each step needs, in terms of the ledger the run starts from.

  /** The ledger's own part: new identities, rows amended once, assignments and balances. */
  ghost predicate BookReady(ledger: Capture, before: seq<Step>, step: Step)
    requires WellFormed(step)
  {
    match step
    case Move(m) => Ready(ledger.assignments, MoveDeltas(m), m.amount.currency, slot => AssignmentMoved(before, slot))
    case Post(tx) =>
      tx.parentId !in RowIds(ledger.transactions) && !Posted(before, tx.parentId)
      && Ready(ledger.accounts, [(tx.accountId, tx.amount.units)], tx.amount.currency, a => BalanceMoved(before, a))
    case Amend(_, tx) => !Amended(before, tx.parentId)
    case Open(walletId, _, _) => walletId !in WalletIds(ledger.wallets) && !Mapped(before, walletId)
    case Send(t) =>
      t.transferId !in TransferIds(ledger.transfers) && !SentOut(before, t.transferId)
      && Ready(ledger.accounts, SendDeltas(t), t.amount.currency, a => BalanceMoved(before, a))
  }

  /**
   * The part planning does not check: the facts recorded beside the ledger hold every account and category once and
   * have room for what is moved.
   */
  ghost predicate FactsReady(ledger: Capture, before: seq<Step>, step: Step)
    requires WellFormed(step)
  {
    match step
    case Move(m) => Ready(ledger.categoryFacts, MoveDeltas(m), m.amount.currency, slot => FactMoved(before, slot))
    case Post(tx) =>
      Ready(ledger.accountFacts, [(tx.accountId, tx.amount.units)], tx.amount.currency, a => BalanceMoved(before, a))
      && Ready(ledger.categoryFacts, MonthDeltas(tx), tx.amount.currency, slot => FactMoved(before, slot))
    case Amend(expected, tx) =>
      SwapReady(ledger.categoryFacts, MonthlyRow(expected, tx), MonthDeltas(tx), tx.amount.currency, slot => FactMoved(before, slot))
    case Open(_, _, _) => true
    case Send(t) => Ready(ledger.accountFacts, SendDeltas(t), t.amount.currency, a => BalanceMoved(before, a))
  }

  ghost predicate Runs(ledger: Capture, steps: seq<Step>)
    requires AllWellFormed(steps)
  {
    forall k :: 0 <= k < |steps| ==> BookReady(ledger, steps[..k], steps[k]) && FactsReady(ledger, steps[..k], steps[k])
  }

  lemma {:induction false} MoveAlike(ledger: Capture, before: seq<Step>, s: Capture, m: Movement)
    requires WellFormed(Move(m)) && CellsTracked(ledger, before, s)
    ensures CanStep(s, Move(m)) <==> BookReady(ledger, before, Move(m)) && FactsReady(ledger, before, Move(m))
  {
    hide Tracked, Ready, MoveDeltas, AssignmentMoved, FactMoved;
    TrackedReady(ledger.assignments, s.assignments, MoveDeltas(m), m.amount.currency, slot => AssignmentMoved(before, slot));
    TrackedReady(ledger.categoryFacts, s.categoryFacts, MoveDeltas(m), m.amount.currency, slot => FactMoved(before, slot));
  }

  lemma {:induction false} AccountsAlike(ledger: Capture, before: seq<Step>, s: Capture, deltas: seq<(string, i64)>, currency: string)
    requires CellsTracked(ledger, before, s) && forall j :: 0 <= j < |deltas| ==> deltas[j].0 in KeysOf(ledger.accounts)
    ensures Ready(s.accounts, deltas, currency, Unmoved) <==> Ready(ledger.accounts, deltas, currency, a => BalanceMoved(before, a))
    ensures Ready(s.accountFacts, deltas, currency, Unmoved) <==> Ready(ledger.accountFacts, deltas, currency, a => BalanceMoved(before, a))
  {
    hide Tracked, Ready, BalanceMoved;
    TrackedReady(ledger.accounts, s.accounts, deltas, currency, a => BalanceMoved(before, a));
    TrackedReady(ledger.accountFacts, s.accountFacts, deltas, currency, a => BalanceMoved(before, a));
  }

  lemma {:induction false} FactsAlike(ledger: Capture, before: seq<Step>, s: Capture, deltas: seq<(Slot, i64)>, currency: string)
    requires CellsTracked(ledger, before, s)
    ensures Ready(s.categoryFacts, deltas, currency, Unmoved) <==> Ready(ledger.categoryFacts, deltas, currency, slot => FactMoved(before, slot))
  {
    hide Tracked, Ready, FactMoved;
    TrackedReady(ledger.categoryFacts, s.categoryFacts, deltas, currency, slot => FactMoved(before, slot));
  }

  lemma {:induction false} AmendAlike(ledger: Capture, before: seq<Step>, s: Capture, expected: LedgerRow, tx: Transaction)
    requires WellFormed(Amend(expected, tx)) && Reaches(ledger, before, s) && Grounded(ledger, Amend(expected, tx))
    ensures CanStep(s, Amend(expected, tx)) <==> BookReady(ledger, before, Amend(expected, tx)) && FactsReady(ledger, before, Amend(expected, tx))
  {
    hide Tracked, SwapReady, FactMoved, MonthDeltas, SoleRow, Amended, IdsTracked, NormalizedPayee;
    TrackedSwap(ledger.categoryFacts, s.categoryFacts, MonthlyRow(expected, tx), MonthDeltas(tx), tx.amount.currency,
                slot => FactMoved(before, slot));
  }

  lemma {:induction false} StepRuns(ledger: Capture, before: seq<Step>, s: Capture, step: Step)
    requires WellFormed(step) && Reaches(ledger, before, s) && Grounded(ledger, step) && CanStep(s, step)
    ensures BookReady(ledger, before, step) && FactsReady(ledger, before, step)
  {
    hide CellsTracked, RowsTracked, Ready, SwapReady, BalanceMoved, FactMoved, AssignmentMoved, Posted, Mapped, SentOut, Amended, MonthDeltas, SoleRow;
    match step {
      case Move(m) => MoveAlike(ledger, before, s, m);
      case Post(tx) =>
        AccountsAlike(ledger, before, s, [(tx.accountId, tx.amount.units)], tx.amount.currency);
        FactsAlike(ledger, before, s, MonthDeltas(tx), tx.amount.currency);
      case Amend(expected, tx) => AmendAlike(ledger, before, s, expected, tx);
      case Open(_, _, _) =>
      case Send(t) => AccountsAlike(ledger, before, s, SendDeltas(t), t.amount.currency);
    }
  }

  lemma {:induction false} RunsStep(ledger: Capture, before: seq<Step>, s: Capture, step: Step)
    requires WellFormed(step) && Reaches(ledger, before, s) && Grounded(ledger, step)
    requires BookReady(ledger, before, step) && FactsReady(ledger, before, step)
    requires step.Post? && step.transaction.parentId in RowIds(s.transactions) ==>
               step.transaction.parentId in RowIds(ledger.transactions) || Posted(before, step.transaction.parentId)
    ensures CanStep(s, step)
  {
    hide CellsTracked, RowsTracked, Ready, SwapReady, BalanceMoved, FactMoved, AssignmentMoved, Posted, Mapped, SentOut, Amended, MonthDeltas, SoleRow;
    match step {
      case Move(m) => MoveAlike(ledger, before, s, m);
      case Post(tx) =>
        AccountsAlike(ledger, before, s, [(tx.accountId, tx.amount.units)], tx.amount.currency);
        FactsAlike(ledger, before, s, MonthDeltas(tx), tx.amount.currency);
      case Amend(expected, tx) => AmendAlike(ledger, before, s, expected, tx);
      case Open(_, _, _) =>
      case Send(t) => AccountsAlike(ledger, before, s, SendDeltas(t), t.amount.currency);
    }
  }

  // Whole runs.

  lemma {:induction false} RunsThen(ledger: Capture, steps: seq<Step>)
    requires AllWellFormed(steps) && steps != []
    ensures Runs(ledger, steps)
            <==> Runs(ledger, Earlier(steps)) && BookReady(ledger, Earlier(steps), steps[|steps| - 1])
                 && FactsReady(ledger, Earlier(steps), steps[|steps| - 1])
  {
    hide WellFormed, BookReady, FactsReady;
    var front := Earlier(steps);
    assert steps[..|steps| - 1] == front;
    assert forall k :: 0 <= k < |front| ==> steps[..k] == front[..k] && steps[k] == front[k];
  }

  lemma {:induction false} PerformedRuns(ledger: Capture, steps: seq<Step>, t: Capture)
    requires AllWellFormed(steps) && AllGrounded(ledger, steps) && Performed(ledger, steps, t)
    ensures Runs(ledger, steps) && Reaches(ledger, steps, t)
    decreases |steps|
  {
    hide Effect, WellFormed, Reaches, Grounded, BookReady, FactsReady, CanStep;
    if steps == [] {
      ReachesStart(ledger);
    } else {
      var last, front := steps[|steps| - 1], Earlier(steps);
      assert steps == front + [last] && WellFormed(last) && Grounded(ledger, last);
      var mid :| Performed(ledger, front, mid) && Effect(mid, last, t);
      hide Performed, Runs;
      PerformedRuns(ledger, front, mid);
      StepNeeds(mid, last, t);
      StepRuns(ledger, front, mid, last);
      ReachesNext(ledger, front, mid, last, t);
      RunsThen(ledger, steps);
    }
  }

  /** No identity to be avoided has been handed out. */
  ghost predicate Clear(ledger: Capture, before: seq<Step>, s: Capture, avoid: set<string>) {
    forall id :: id in avoid && id in RowIds(s.transactions) ==> id in RowIds(ledger.transactions) || Posted(before, id)
  }

  lemma {:induction false} ClearNext(ledger: Capture, before: seq<Step>, s: Capture, step: Step, t: Capture, avoid: set<string>)
    requires Clear(ledger, before, s, avoid) && Avoids(s, step, t, avoid)
    ensures Clear(ledger, before + [step], t, avoid)
  {
    hide Posted, Amended, Mapped, SentOut;
    forall id | id in avoid && id in RowIds(t.transactions)
      ensures id in RowIds(ledger.transactions) || Posted(before + [step], id)
    {
      DoneThen(before, step, id);
    }
  }

  lemma {:induction false} RunMade(ledger: Capture, steps: seq<Step>, avoid: set<string>) returns (t: Capture)
    requires AllWellFormed(steps) && AllGrounded(ledger, steps) && Runs(ledger, steps)
    requires forall k :: 0 <= k < |steps| && steps[k].Post? ==> steps[k].transaction.parentId in avoid
    ensures Performed(ledger, steps, t) && Reaches(ledger, steps, t) && Clear(ledger, steps, t, avoid)
    decreases |steps|
  {
    if steps == [] {
      t := ledger;
      ReachesStart(ledger);
    } else {
      var last, front := steps[|steps| - 1], Earlier(steps);
      assert steps == front + [last] && WellFormed(last) && Grounded(ledger, last);
      hide Effect, WellFormed, Reaches, Grounded, BookReady, FactsReady, CanStep, Avoids, Runs, Performed;
      RunsThen(ledger, steps);
      var mid := RunMade(ledger, front, avoid);
      RunsStep(ledger, front, mid, last);
      t := MakeStep(mid, last, avoid);
      ReachesNext(ledger, front, mid, last, t);
      ClearNext(ledger, front, mid, last, t, avoid);
      PerformedThen(ledger, steps, mid, t);
    }
  }

  lemma {:induction false} PerformedThen(ledger: Capture, steps: seq<Step>, mid: Capture, t: Capture)
    requires AllWellFormed(steps) && steps != [] && Performed(ledger, Earlier(steps), mid) && Effect(mid, steps[|steps| - 1], t)
    ensures Performed(ledger, steps, t)
  {
    hide Effect, WellFormed;
  }

  /** A run can be performed exactly when every step finds what it needs, counted from the ledger at the start. */
  lemma {:induction false} RunPerformable(ledger: Capture, steps: seq<Step>)
    requires AllWellFormed(steps) && AllGrounded(ledger, steps)
    ensures (exists t :: Performed(ledger, steps, t)) <==> Runs(ledger, steps)
  {
    hide Performed, Runs, WellFormed, Grounded, Reaches;
    if Runs(ledger, steps) {
      var avoid := set k | 0 <= k < |steps| && steps[k].Post? :: steps[k].transaction.parentId;
      var t := RunMade(ledger, steps, avoid);
    }
    if t :| Performed(ledger, steps, t) {
      PerformedRuns(ledger, steps, t);
    }
  }
}
