/** What a performed action leaves in the ledger: its rows, transfers and wallets, still there after every later step. */
module PlanEffects {
  import opened CheckedMoney
  import opened Rows
  import opened Action
  import opened Planner
  import opened PlanOutcome
  import opened Undo

  /** The only row with its identity. */
  ghost predicate Sole<T, K>(id: T -> K, rows: seq<T>, row: T) {
    exists i :: OnlyAt(IdsBy(id, rows), id(row), i) && rows[i] == row
  }

  lemma {:induction false} SoleNew<T, K>(id: T -> K, s: seq<T>, t: seq<T>, row: T)
    requires id(row) !in IdsBy(id, s) && Inserted(s, t, row)
    ensures Sole(id, t, row)
  {
    var i :| 0 <= i <= |s| && t == InsertAt(s, i, row);
    InsertedOnce(id, s, i, row);
  }

  lemma {:induction false} SoleAmongInserted<T, K>(id: T -> K, s: seq<T>, t: seq<T>, other: T, row: T)
    requires Sole(id, s, row) && Inserted(s, t, other) && id(other) != id(row)
    ensures Sole(id, t, row)
  {
    var p :| 0 <= p <= |s| && t == InsertAt(s, p, other);
    var i :| OnlyAt(IdsBy(id, s), id(row), i) && s[i] == row;
    var at := if i < p then i else i + 1;
    forall j | 0 <= j < |t| && j != at
      ensures id(t[j]) != id(row)
    {
      if j != p {
        var was := if j < p then j else j - 1;
        assert t[j] == s[was] && IdsBy(id, s)[was] == id(s[was]);
      }
    }
    assert OnlyAt(IdsBy(id, t), id(row), at);
  }

  lemma {:induction false} SoleAmongUpdated<T, K>(id: T -> K, s: seq<T>, i: int, other: T, row: T)
    requires Sole(id, s, row) && 0 <= i < |s| && id(s[i]) == id(other) != id(row)
    ensures Sole(id, s[i := other], row)
  {
    assert IdsBy(id, s[i := other]) == IdsBy(id, s);
  }

  lemma {:induction false} SoleUpdated<T, K>(id: T -> K, s: seq<T>, i: int, row: T)
    requires OnlyAt(IdsBy(id, s), id(row), i)
    ensures Sole(id, s[i := row], row)
  {
    assert IdsBy(id, s[i := row]) == IdsBy(id, s);
    assert OnlyAt(IdsBy(id, s[i := row]), id(row), i);
  }

  lemma {:induction false} SoleListed<T, K>(id: T -> K, s: seq<T>, row: T)
    requires Sole(id, s, row)
    ensures id(row) in IdsBy(id, s)
  {
  }

  lemma {:induction false} SoleAmongPair(s: seq<LedgerRow>, a: LedgerRow, b: LedgerRow, t: seq<LedgerRow>, row: LedgerRow)
    requires Sole(RowId, s, row) && PairInserted(s, a, b, t) && a.parentId !in RowIds(s) && b.parentId !in RowIds(s)
    ensures Sole(RowId, t, row)
  {
    var mid: seq<LedgerRow> :| Inserted(s, mid, a) && Inserted(mid, t, b);
    SoleListed(RowId, s, row);
    hide Sole, Inserted;
    SoleAmongInserted(RowId, s, mid, a, row);
    SoleAmongInserted(RowId, mid, t, b, row);
  }

  lemma {:induction false} SolePair(s: seq<LedgerRow>, a: LedgerRow, b: LedgerRow, t: seq<LedgerRow>)
    requires PairInserted(s, a, b, t) && a.parentId !in RowIds(s) && b.parentId !in RowIds(s) && a.parentId != b.parentId
    ensures Sole(RowId, t, a) && Sole(RowId, t, b)
  {
    var mid: seq<LedgerRow> :| Inserted(s, mid, a) && Inserted(mid, t, b);
    SoleNew(RowId, s, mid, a);
    assert b.parentId !in RowIds(mid) by {
      var i :| 0 <= i <= |s| && mid == InsertAt(s, i, a);
      forall j | 0 <= j < |mid|
        ensures RowIds(mid)[j] != b.parentId
      {
        assert j != i ==> mid[j] == s[if j < i then j else j - 1] && RowIds(s)[if j < i then j else j - 1] == mid[j].parentId;
      }
    }
    hide Sole;
    SoleNew(RowId, mid, t, b);
    SoleAmongInserted(RowId, mid, t, b, a);
  }

  // Rows.

  ghost predicate Writes(step: Step, row: LedgerRow) {
    (step.Post? || step.Amend?) && row == RowOf(step.transaction)
  }

  ghost predicate Spares(step: Step, row: LedgerRow) {
    step.Amend? ==> step.expected != row
  }

  /** A step leaves every row alone but the one it amends. */
  lemma {:induction false} RowStays(s: Capture, step: Step, t: Capture, row: LedgerRow)
    requires WellFormed(step) && Effect(s, step, t) && Sole(RowId, s.transactions, row) && Spares(step, row)
    ensures Sole(RowId, t.transactions, row)
  {
    SoleListed(RowId, s.transactions, row);
    match step
    case Move(_) => assert t.transactions == s.transactions;
    case Open(_, _, _) => assert t.transactions == s.transactions;
    case Post(tx) => PostSpares(s, tx, t, row);
    case Amend(expected, tx) => AmendSpares(s, expected, tx, t, row);
    case Send(tr) => SendSpares(s, tr, t, row);
  }

  lemma {:induction false} PostSpares(s: Capture, tx: Transaction, t: Capture, row: LedgerRow)
    requires WellFormed(Post(tx)) && PostEffect(s, tx, t) && Sole(RowId, s.transactions, row)
    ensures Sole(RowId, t.transactions, row)
  {
    SoleListed(RowId, s.transactions, row);
    hide Sole, Inserted;
    SoleAmongInserted(RowId, s.transactions, t.transactions, RowOf(tx), row);
  }

  lemma {:induction false} AmendSpares(s: Capture, expected: LedgerRow, tx: Transaction, t: Capture, row: LedgerRow)
    requires WellFormed(Amend(expected, tx)) && AmendEffect(s, expected, tx, t) && Sole(RowId, s.transactions, row) && expected != row
    ensures Sole(RowId, t.transactions, row)
  {
    var i :| OnlyAt(RowIds(s.transactions), tx.parentId, i) && s.transactions[i] == expected
             && t.transactions == s.transactions[i := RowOf(tx)];
    SoleAmongUpdated(RowId, s.transactions, i, RowOf(tx), row);
  }

  lemma {:induction false} SendSpares(s: Capture, tr: TransferIntent, t: Capture, row: LedgerRow)
    requires WellFormed(Send(tr)) && SendEffect(s, tr, t) && Sole(RowId, s.transactions, row)
    ensures Sole(RowId, t.transactions, row)
  {
    hide Sole, PairInserted;
    var mapping :| MappingEffect(s.transfers, mapping, tr, t.transfers) && PairEffect(s.transactions, mapping, tr, t.transactions);
    var p, q :| PairInserted(s.transactions, TransferRow(mapping.sourceRowId, tr, true, p),
                             TransferRow(mapping.destinationRowId, tr, false, q), t.transactions);
    SoleAmongPair(s.transactions, TransferRow(mapping.sourceRowId, tr, true, p), TransferRow(mapping.destinationRowId, tr, false, q),
                  t.transactions, row);
  }

  lemma {:induction false} RowWritten(s: Capture, step: Step, t: Capture, row: LedgerRow)
    requires WellFormed(step) && Effect(s, step, t) && Writes(step, row)
    ensures Sole(RowId, t.transactions, row)
  {
    if step.Post? {
      SoleNew(RowId, s.transactions, t.transactions, row);
    } else {
      var i :| OnlyAt(RowIds(s.transactions), step.transaction.parentId, i) && t.transactions == s.transactions[i := row];
      SoleUpdated(RowId, s.transactions, i, row);
    }
  }

  lemma {:induction false} LastStep(s: Capture, steps: seq<Step>, t: Capture) returns (mid: Capture)
    requires steps != [] && AllWellFormed(steps) && Performed(s, steps, t)
    ensures AllWellFormed(Earlier(steps)) && WellFormed(steps[|steps| - 1])
    ensures Performed(s, Earlier(steps), mid) && Effect(mid, steps[|steps| - 1], t)
  {
    mid :| Performed(s, Earlier(steps), mid) && Effect(mid, steps[|steps| - 1], t);
    hide Performed, Effect, WellFormed;
  }

  /** What a step writes is still the only row of its identity at the end, unless a later step amends it. */
  lemma {:induction false} WrittenStays(s: Capture, steps: seq<Step>, t: Capture, k: nat, row: LedgerRow)
    requires AllWellFormed(steps) && Performed(s, steps, t) && k < |steps| && Writes(steps[k], row)
    requires forall j :: k < j < |steps| ==> Spares(steps[j], row)
    ensures Sole(RowId, t.transactions, row)
    decreases |steps|
  {
    hide *;
    var last := steps[|steps| - 1];
    var mid := LastStep(s, steps, t);
    if k == |steps| - 1 {
      RowWritten(mid, last, t, row);
    } else {
      WrittenStays(s, Earlier(steps), mid, k, row);
      RowStays(mid, last, t, row);
    }
  }

  // Transfers.

  ghost predicate TransferRecorded(t: Capture, tr: TransferIntent) {
    CanNegate(tr.amount.units) && exists mapping, p, q :: SentAs(t, tr, mapping, p, q)
  }

  ghost predicate SentAs(t: Capture, tr: TransferIntent, mapping: TransferMapping, p: Option<string>, q: Option<string>)
    requires CanNegate(tr.amount.units)
  {
    MappingMatches(mapping, tr) && mapping.sourceRowId != mapping.destinationRowId && Sole(TransferId, t.transfers, mapping)
    && Sole(RowId, t.transactions, TransferRow(mapping.sourceRowId, tr, true, p))
    && Sole(RowId, t.transactions, TransferRow(mapping.destinationRowId, tr, false, q))
  }

  ghost predicate SparesTransfers(step: Step) {
    step.Amend? ==> step.expected.transferAccountId.None?
  }

  ghost predicate AllSpare(steps: seq<Step>) {
    forall j :: 0 <= j < |steps| ==> SparesTransfers(steps[j])
  }

  lemma {:induction false} FrontSpares(steps: seq<Step>)
    requires steps != [] && AllSpare(steps)
    ensures AllSpare(Earlier(steps)) && SparesTransfers(steps[|steps| - 1])
  {
    hide SparesTransfers;
  }

  lemma {:induction false} MappingStays(s: Capture, step: Step, t: Capture, mapping: TransferMapping)
    requires WellFormed(step) && Effect(s, step, t) && Sole(TransferId, s.transfers, mapping)
    ensures Sole(TransferId, t.transfers, mapping)
  {
    if step.Send? {
      SoleListed(TransferId, s.transfers, mapping);
      hide Sole, Inserted, PairEffect;
      var other :| MappingEffect(s.transfers, other, step.transfer, t.transfers) && PairEffect(s.transactions, other, step.transfer, t.transactions);
      SoleAmongInserted(TransferId, s.transfers, t.transfers, other, mapping);
    }
  }

  lemma {:induction false} TransferStays(s: Capture, step: Step, t: Capture, tr: TransferIntent)
    requires WellFormed(step) && Effect(s, step, t) && TransferRecorded(s, tr) && SparesTransfers(step)
    ensures TransferRecorded(t, tr)
  {
    hide Sole, WellFormed, Effect;
    var mapping, p, q :| SentAs(s, tr, mapping, p, q);
    MappingStays(s, step, t, mapping);
    RowStays(s, step, t, TransferRow(mapping.sourceRowId, tr, true, p));
    RowStays(s, step, t, TransferRow(mapping.destinationRowId, tr, false, q));
    assert SentAs(t, tr, mapping, p, q);
  }

  lemma {:induction false} TransferMade(s: Capture, tr: TransferIntent, t: Capture)
    requires WellFormed(Send(tr)) && SendEffect(s, tr, t)
    ensures TransferRecorded(t, tr)
  {
    hide Sole, PairInserted, Inserted;
    var mapping :| MappingEffect(s.transfers, mapping, tr, t.transfers) && PairEffect(s.transactions, mapping, tr, t.transactions);
    var p, q :| PairInserted(s.transactions, TransferRow(mapping.sourceRowId, tr, true, p),
                             TransferRow(mapping.destinationRowId, tr, false, q), t.transactions);
    SoleNew(TransferId, s.transfers, t.transfers, mapping);
    SolePair(s.transactions, TransferRow(mapping.sourceRowId, tr, true, p), TransferRow(mapping.destinationRowId, tr, false, q), t.transactions);
    assert SentAs(t, tr, mapping, p, q);
  }

  lemma {:induction false} StepSends(s: Capture, step: Step, t: Capture)
    requires WellFormed(step) && Effect(s, step, t) && step.Send?
    ensures TransferRecorded(t, step.transfer)
  {
    hide TransferRecorded, SendEffect;
    TransferMade(s, step.transfer, t);
  }

  lemma {:induction false} SentStays(s: Capture, steps: seq<Step>, t: Capture, k: nat)
    requires AllWellFormed(steps) && Performed(s, steps, t) && k < |steps| && steps[k].Send?
    requires AllSpare(steps)
    ensures TransferRecorded(t, steps[k].transfer)
    decreases |steps|
  {
    hide *;
    var last := steps[|steps| - 1];
    var mid := LastStep(s, steps, t);
    FrontSpares(steps);
    if k == |steps| - 1 {
      StepSends(mid, last, t);
    } else {
      SentStays(s, Earlier(steps), mid, k);
      TransferStays(mid, last, t, steps[k].transfer);
    }
  }

  // Wallets.

  /** The wallet's new account: on budget, open, empty, and none of the accounts there before. */
  ghost predicate WalletOpened(t: Capture, base: set<string>, walletId: string, name: string, currency: string) {
    exists id :: OpenedAs(t, base, walletId, name, currency, id)
  }

  ghost predicate OpenedAs(t: Capture, base: set<string>, walletId: string, name: string, currency: string, id: string) {
    id !in base && Sole(WalletId, t.wallets, WalletMapping(walletId, id))
    && Sole(KeyOf, t.accounts, NamedMoney(id, Money(0, currency), AccountInfo(name, true, false, currency)))
  }

  lemma {:induction false} SoleUnmoved<K, R>(s: seq<NamedMoney<K, R>>, t: seq<NamedMoney<K, R>>, deltas: seq<(K, i64)>, row: NamedMoney<K, R>)
    requires Sole(KeyOf, s, row) && Shifted(s, t, deltas) && forall j :: 0 <= j < |deltas| ==> deltas[j].0 != row.key
    ensures Sole(KeyOf, t, row)
  {
    NotMoved(deltas, row.key);
    assert KeysOf(s) == KeysOf(t);
    var i :| OnlyAt(IdsBy(KeyOf, s), KeyOf(row), i) && s[i] == row;
    assert t[i] == row;
  }

  lemma {:induction false} NotMoved<K>(deltas: seq<(K, i64)>, k: K)
    requires forall j :: 0 <= j < |deltas| ==> deltas[j].0 != k
    ensures SumFor(deltas, k) == 0
  {
    if deltas != [] {
      NotMoved(deltas[1..], k);
    }
  }

  lemma {:induction false} WalletStays(s: Capture, base: set<string>, step: Step, t: Capture, walletId: string, name: string, currency: string)
    requires WellFormed(step) && Effect(s, step, t) && WalletOpened(s, base, walletId, name, currency) && AccountsOf(step) <= base
    ensures WalletOpened(t, base, walletId, name, currency)
  {
    hide Sole, Inserted, Shifted, HoldsAll, Holds;
    var id :| OpenedAs(s, base, walletId, name, currency, id);
    var account := NamedMoney(id, Money(0, currency), AccountInfo(name, true, false, currency));
    match step {
      case Move(_) => assert OpenedAs(t, base, walletId, name, currency, id);
      case Amend(_, _) => assert OpenedAs(t, base, walletId, name, currency, id);
      case Post(tx) =>
        SoleUnmoved(s.accounts, t.accounts, [(tx.accountId, tx.amount.units)], account);
        assert OpenedAs(t, base, walletId, name, currency, id);
      case Send(tr) =>
        SoleUnmoved(s.accounts, t.accounts, SendDeltas(tr), account);
        assert OpenedAs(t, base, walletId, name, currency, id);
      case Open(w, n, c) =>
        SoleListed(WalletId, s.wallets, WalletMapping(walletId, id));
        SoleListed(KeyOf, s.accounts, account);
        var a: string, e: FactEvidence :|
          a !in KeysOf(s.accounts) && Inserted(s.wallets, t.wallets, WalletMapping(w, a))
          && Inserted(s.accounts, t.accounts, NamedMoney(a, Money(0, c), AccountInfo(n, true, false, c)))
          && Inserted(s.accountFacts, t.accountFacts, NamedMoney(a, Money(0, c), AccountFactInfo(true, false, c, e)));
        SoleAmongInserted(WalletId, s.wallets, t.wallets, WalletMapping(w, a), WalletMapping(walletId, id));
        SoleAmongInserted(KeyOf, s.accounts, t.accounts, NamedMoney(a, Money(0, c), AccountInfo(n, true, false, c)), account);
        assert OpenedAs(t, base, walletId, name, currency, id);
    }
  }

  ghost predicate Based(base: set<string>, c: Capture) {
    forall a :: a in base ==> a in KeysOf(c.accounts)
  }

  lemma {:induction false} WalletMade(s: Capture, base: set<string>, walletId: string, name: string, currency: string, t: Capture)
    requires OpenEffect(s, walletId, name, currency, t) && Based(base, s)
    ensures WalletOpened(t, base, walletId, name, currency)
  {
    hide Sole, Inserted;
    var id: string, e: FactEvidence :|
      id !in KeysOf(s.accounts) && Inserted(s.wallets, t.wallets, WalletMapping(walletId, id))
      && Inserted(s.accounts, t.accounts, NamedMoney(id, Money(0, currency), AccountInfo(name, true, false, currency)))
      && Inserted(s.accountFacts, t.accountFacts, NamedMoney(id, Money(0, currency), AccountFactInfo(true, false, currency, e)));
    SoleNew(WalletId, s.wallets, t.wallets, WalletMapping(walletId, id));
    SoleNew(KeyOf, s.accounts, t.accounts, NamedMoney(id, Money(0, currency), AccountInfo(name, true, false, currency)));
    assert OpenedAs(t, base, walletId, name, currency, id);
  }

  lemma {:induction false} AccountsRemain(s: Capture, steps: seq<Step>, t: Capture)
    requires AllWellFormed(steps) && Performed(s, steps, t)
    ensures forall a :: a in KeysOf(s.accounts) ==> a in KeysOf(t.accounts)
  {
    hide Performed, AllWellFormed;
    forall a | a in KeysOf(s.accounts)
      ensures a in KeysOf(t.accounts)
    {
      PerformedBalances(s, steps, t, a);
    }
  }

  lemma {:induction false} StepOpens(s: Capture, base: set<string>, step: Step, t: Capture)
    requires WellFormed(step) && Effect(s, step, t) && step.Open? && Based(base, s)
    ensures WalletOpened(t, base, step.walletId, step.accountName, step.currency)
  {
    hide WalletOpened, OpenEffect, Based;
    WalletMade(s, base, step.walletId, step.accountName, step.currency, t);
  }

  ghost predicate AllWithin(base: set<string>, steps: seq<Step>) {
    forall j :: 0 <= j < |steps| ==> AccountsOf(steps[j]) <= base
  }

  lemma {:induction false} FrontWithin(base: set<string>, steps: seq<Step>)
    requires steps != [] && AllWithin(base, steps)
    ensures AllWithin(base, Earlier(steps)) && AccountsOf(steps[|steps| - 1]) <= base
  {
    hide AccountsOf;
  }

  lemma {:induction false} BaseRemains(base: set<string>, s: Capture, steps: seq<Step>, t: Capture)
    requires AllWellFormed(steps) && Performed(s, steps, t) && Based(base, s)
    ensures Based(base, t)
  {
    AccountsRemain(s, steps, t);
    hide Performed, AllWellFormed;
  }

  lemma {:induction false} OpenedStays(s: Capture, base: set<string>, steps: seq<Step>, t: Capture, k: nat)
    requires AllWellFormed(steps) && Performed(s, steps, t) && k < |steps| && steps[k].Open?
    requires Based(base, s) && AllWithin(base, steps)
    ensures WalletOpened(t, base, steps[k].walletId, steps[k].accountName, steps[k].currency)
    decreases |steps|
  {
    hide *;
    var last := steps[|steps| - 1];
    var mid := LastStep(s, steps, t);
    BaseRemains(base, s, Earlier(steps), mid);
    FrontWithin(base, steps);
    if k == |steps| - 1 {
      StepOpens(mid, base, last, t);
    } else {
      OpenedStays(s, base, Earlier(steps), mid, k);
      WalletStays(mid, base, last, t, steps[k].walletId, steps[k].accountName, steps[k].currency);
    }
  }
}
