/** A planned action, performed on a valid ledger, ends in a valid ledger. */
module LedgerRuns {
  import opened Rows
  import opened Text
  import opened Action
  import opened Sorting
  import opened Sums
  import opened Outflow
  import opened Dispatch
  import opened Envelopes
  import opened Planner
  import opened PlanAction
  import opened PlanLaws
  import opened PlanOutcome
  import opened Undo
  import opened PlanEffects
  import opened Ledger
  import opened LedgerLaws

  // Identities only accumulate.

  lemma {:induction false} RowIdsRemain(s: Capture, step: Step, t: Capture, id: string)
    requires WellFormed(step) && Effect(s, step, t) && id in RowIds(s.transactions)
    ensures id in RowIds(t.transactions)
  {
    hide Shifted, HoldsAll, Inserted;
    match step {
      case Move(_) => assert t.transactions == s.transactions;
      case Open(_, _, _) => assert t.transactions == s.transactions;
      case Post(tx) => IdsInserted(RowId, s.transactions, t.transactions, RowOf(tx), id);
      case Amend(expected, tx) =>
        var i :| OnlyAt(RowIds(s.transactions), tx.parentId, i) && s.transactions[i] == expected && t.transactions == s.transactions[i := RowOf(tx)];
        assert RowIds(t.transactions) == RowIds(s.transactions);
      case Send(tr) =>
        var mapping :| MappingEffect(s.transfers, mapping, tr, t.transfers) && PairEffect(s.transactions, mapping, tr, t.transactions);
        var p, q :| PairInserted(s.transactions, TransferRow(mapping.sourceRowId, tr, true, p),
                                 TransferRow(mapping.destinationRowId, tr, false, q), t.transactions);
        PairIdsRemain(s.transactions, TransferRow(mapping.sourceRowId, tr, true, p), TransferRow(mapping.destinationRowId, tr, false, q), t.transactions, id);
    }
  }

  lemma {:induction false} PairIdsRemain(s: seq<LedgerRow>, a: LedgerRow, b: LedgerRow, t: seq<LedgerRow>, id: string)
    requires PairInserted(s, a, b, t) && id in RowIds(s)
    ensures id in RowIds(t)
  {
    hide Inserted;
    var mid: seq<LedgerRow> :| Inserted(s, mid, a) && Inserted(mid, t, b);
    IdsInserted(RowId, s, mid, a, id);
    IdsInserted(RowId, mid, t, b, id);
  }

  lemma {:induction false} NamedBefore(s: Capture, step: Step, t: Capture)
    requires WellFormed(step) && Effect(s, step, t) && Named(t)
    ensures Named(s)
  {
    assert AllWellFormed([step]) && Earlier([step]) == [] && Performed(s, [], s);
    assert Performed(s, [step], t);
    hide WellFormed, Effect, Blank, Performed;
    AccountsRemain(s, [step], t);
    forall id | id in RowIds(s.transactions)
      ensures id in RowIds(t.transactions)
    {
      RowIdsRemain(s, step, t, id);
    }
  }

  lemma {:induction false} CorrelationsGrow(s: Capture, step: Step, t: Capture)
    requires WellFormed(step) && Effect(s, step, t)
    ensures forall x :: x in IdsBy(Correlation, t.transfers) ==>
              x in IdsBy(Correlation, s.transfers) || (step.Send? && x == step.transfer.correlationId)
  {
    hide Shifted, HoldsAll, Inserted, PairEffect;
    if step.Send? {
      var mapping :| MappingEffect(s.transfers, mapping, step.transfer, t.transfers)
                     && PairEffect(s.transactions, mapping, step.transfer, t.transactions);
      forall x | x in IdsBy(Correlation, t.transfers)
        ensures x in IdsBy(Correlation, s.transfers) || x == step.transfer.correlationId
      {
        IdsInserted(Correlation, s.transfers, t.transfers, mapping, x);
      }
    } else {
      assert t.transfers == s.transfers;
    }
  }

  // What planning has checked of the steps.

  ghost predicate AllProper(categories: seq<string>, steps: seq<Step>) {
    forall k :: 0 <= k < |steps| ==> Proper(categories, steps[k])
  }

  /** Every transfer's correlation is new to the ledger and to the steps before it. */
  ghost predicate SendsFresh(ledger: Capture, before: seq<Step>, steps: seq<Step>) {
    forall k :: 0 <= k < |steps| && steps[k].Send? ==>
      steps[k].transfer.correlationId !in SeenAfter(ledger, before + steps[..k]).correlations
  }

  ghost predicate Correlated(ledger: Capture, steps: seq<Step>, c: Capture) {
    forall x :: x in IdsBy(Correlation, c.transfers) ==> x in SeenAfter(ledger, steps).correlations
  }

  lemma {:induction false} CorrelatedAtFirst(ledger: Capture)
    ensures Correlated(ledger, [], ledger)
  {
    forall x | x in IdsBy(Correlation, ledger.transfers)
      ensures x in SeenIn(ledger).correlations
    {
      var i :| 0 <= i < |ledger.transfers| && IdsBy(Correlation, ledger.transfers)[i] == x;
      assert ledger.transfers[i] in ledger.transfers;
    }
  }

  lemma {:induction false} CorrelatedNext(ledger: Capture, before: seq<Step>, s: Capture, step: Step, t: Capture)
    requires WellFormed(step) && Effect(s, step, t) && Correlated(ledger, before, s)
    ensures Correlated(ledger, before + [step], t)
  {
    CorrelationsGrow(s, step, t);
    CountersThen(ledger, before, step);
    hide Effect, WellFormed;
  }

  /** The run: valid at every step, with no correlation the plan has not seen. */
  lemma {:induction false} PerformedKeepsValid(categories: seq<string>, ledger: Capture, steps: seq<Step>, t: Capture)
    requires LedgerValid(categories, ledger) && AllWellFormed(steps) && Performed(ledger, steps, t)
    requires AllProper(categories, steps) && SendsFresh(ledger, [], steps) && Named(t)
    ensures LedgerValid(categories, t) && Correlated(ledger, steps, t)
    decreases |steps|
  {
    hide LedgerValid, SeenAfter, Effect, WellFormed, Proper, Named;
    if steps == [] {
      CorrelatedAtFirst(ledger);
    } else {
      var last, front := steps[|steps| - 1], Earlier(steps);
      assert steps == front + [last] && WellFormed(last);
      var mid :| Performed(ledger, front, mid) && Effect(mid, last, t);
      NamedBefore(mid, last, t);
      FrontFresh(ledger, steps);
      hide Performed, Correlated;
      PerformedKeepsValid(categories, ledger, front, mid);
      CorrelatedNext(ledger, front, mid, last, t);
      LastFresh(ledger, front, last, mid);
      StepKeepsValid(categories, mid, last, t);
    }
  }

  lemma {:induction false} FrontFresh(ledger: Capture, steps: seq<Step>)
    requires steps != [] && SendsFresh(ledger, [], steps)
    ensures SendsFresh(ledger, [], Earlier(steps))
  {
    hide SeenAfter;
    assert forall k :: 0 <= k < |steps| - 1 ==> Earlier(steps)[..k] == steps[..k];
  }

  lemma {:induction false} LastFresh(ledger: Capture, front: seq<Step>, last: Step, mid: Capture)
    requires SendsFresh(ledger, [], front + [last]) && Correlated(ledger, front, mid)
    ensures FreshlyCorrelated(mid, last)
  {
    hide SeenAfter;
    assert [] + (front + [last])[..|front|] == front;
    assert (front + [last])[|front|] == last;
  }

  // From the plan.

  /** The categories of the budget are those of the ledger. */
  ghost predicate LedgerCategories(r: Request, categories: seq<string>) {
    forall x :: x in r.budget.categories ==> x in categories
  }

  lemma {:induction false} PurchaseProper(r: Request, categories: seq<string>, before: seq<Step>, tx: Transaction)
    requires ManualAccepted(r, before, tx) && LedgerCategories(r, categories)
    ensures Proper(categories, Post(tx))
  {
    DatedMonth(tx.date);
    hide SeenAfter, Fresh, OutflowReady, SpentInAll, StepReady, Live, Blank, ValidDate, Total, Flow, CategorySpent;
    forall i | 0 <= i < |tx.splits|
      ensures tx.splits[i].categoryId in categories
    {
      assert EffectFunded(r.budget, before, MonthDeltas(tx), i, tx.amount.currency);
    }
  }

  lemma {:induction false} EvidenceProper(r: Request, categories: seq<string>, tx: Transaction)
    requires EvidenceShape(r, tx) && LedgerCategories(r, categories)
    ensures !Blank(tx.parentId) && SplitsKnown(categories, tx.splits, tx.amount.currency)
  {
    DatedMonth(tx.date);
    hide Live, Blank, ValidDate, Total, Lookup;
    forall i | 0 <= i < |tx.splits|
      ensures tx.splits[i].categoryId in categories
    {
      assert CategoryKnown(r, MonthDeltas(tx)[i].0, tx.amount.currency);
    }
  }

  lemma {:induction false} AtomProper(r: Request, categories: seq<string>, before: seq<Step>, atom: Atom)
    requires AtomAccepted(r, before, atom) && LedgerCategories(r, categories)
    ensures AllProper(categories, StepsOf(atom))
  {
    hide MovesAccepted, ManualAccepted, EvidenceShape, OutflowReady, StepReady, SeenAfter, Fresh, Blank, Live, SplitsKnown, CurrencyConfigured;
    match atom {
      case Reallocation(moves) =>
      case ManualTransaction(tx) => PurchaseProper(r, categories, before, tx);
      case EvidenceProjection(tx, _) => PurchaseProper(r, categories, before, tx);
      case EvidenceCredit(tx, _) => EvidenceProper(r, categories, tx);
      case EvidenceAmendment(expected, tx, _) => EvidenceProper(r, categories, tx);
      case WalletMaterialization(_, _, _) =>
      case Transfer(_) =>
    }
  }

  lemma {:induction false} AtomSends(r: Request, before: seq<Step>, atom: Atom)
    requires AtomAccepted(r, before, atom)
    ensures SendsFresh(r.ledger, before, StepsOf(atom))
  {
    hide MovesAccepted, ManualAccepted, CreditAccepted, AmendShape, WalletShape, TransferShape, OutflowReady, StepReady, SeenAfter;
    assert before + StepsOf(atom)[..0] == before;
  }

  lemma {:induction false} SendsFreshThen(ledger: Capture, a: seq<Step>, b: seq<Step>)
    requires SendsFresh(ledger, [], a) && SendsFresh(ledger, a, b)
    ensures SendsFresh(ledger, [], a + b)
  {
    hide SeenAfter;
    var all := a + b;
    forall k | 0 <= k < |all| && all[k].Send?
      ensures all[k].transfer.correlationId !in SeenAfter(ledger, [] + all[..k]).correlations
    {
      if k < |a| {
        assert [] + all[..k] == [] + a[..k];
      } else {
        assert [] + all[..k] == a + b[..k - |a|];
      }
    }
  }

  lemma {:induction false} ProperConcat(categories: seq<string>, a: seq<Step>, b: seq<Step>)
    requires AllProper(categories, a) && AllProper(categories, b)
    ensures AllProper(categories, a + b)
  {
    hide Proper;
  }

  lemma {:induction false} PrefixProper(r: Request, categories: seq<string>, atoms: seq<Atom>, i: nat)
    requires i <= |atoms| && AtomsAccepted(r, atoms) && LedgerCategories(r, categories)
    ensures AllProper(categories, Steps(atoms[..i])) && SendsFresh(r.ledger, [], Steps(atoms[..i]))
  {
    if i > 0 {
      hide AtomAccepted, Steps, AtomsAccepted, AllProper, SendsFresh, LedgerCategories;
      AcceptedAt(r, atoms, i - 1);
      PrefixProper(r, categories, atoms, i - 1);
      NextAtom(atoms, i - 1);
      AtomProper(r, categories, Steps(atoms[..i - 1]), atoms[i - 1]);
      AtomSends(r, Steps(atoms[..i - 1]), atoms[i - 1]);
      ProperConcat(categories, Steps(atoms[..i - 1]), StepsOf(atoms[i - 1]));
      SendsFreshThen(r.ledger, Steps(atoms[..i - 1]), StepsOf(atoms[i - 1]));
    }
  }

  lemma {:induction false} SameValid(categories: seq<string>, a: Capture, b: Capture)
    requires SameBooks(a, b) && LedgerValid(categories, a)
    ensures LedgerValid(categories, b)
  {
    hide DistinctBy, Blank, ValidDate, EndsDistinct, HalfSound;
    assert forall row :: RowValid(a, categories, row) ==> RowValid(b, categories, row);
    assert forall m :: MappingValid(a, m) ==> MappingValid(b, m);
  }

  lemma {:induction false} SameSeen(a: Capture, b: Capture, steps: seq<Step>)
    requires SameBooks(a, b)
    ensures SeenAfter(a, steps) == SeenAfter(b, steps)
  {
    if steps != [] {
      SameSeen(a, b, steps[..|steps| - 1]);
    }
  }

  lemma {:induction false} SameFresh(a: Capture, b: Capture, steps: seq<Step>)
    requires SameBooks(a, b) && SendsFresh(a, [], steps)
    ensures SendsFresh(b, [], steps)
  {
    hide SeenAfter, SameBooks;
    forall k | 0 <= k < |steps| && steps[k].Send?
      ensures steps[k].transfer.correlationId !in SeenAfter(b, [] + steps[..k]).correlations
    {
      SameSeen(a, b, [] + steps[..k]);
    }
  }

  /**
   * Whatever a plan does to a valid ledger, the result is a valid ledger, as long as the identities the
   * ledger itself hands out are not blank.
   */
  lemma {:induction false} PlanKeepsValid(r: Request, categories: seq<string>, atoms: seq<Atom>, s: Capture, t: Capture)
    requires Plannable(r, atoms) && LedgerCategories(r, categories) && LedgerValid(categories, r.ledger) && SameBooks(r.ledger, s)
    requires AllWellFormed(Steps(atoms)) && Performed(s, Steps(atoms), t) && Named(t)
    ensures LedgerValid(categories, t)
  {
    hide AtomsAccepted, AllProper, SendsFresh, Dispatchable, ChargesSound, CartBought, PathsCovered, Steps, LedgerValid, LedgerCategories,
         Named, AllWellFormed, Performed, SameBooks;
    PrefixProper(r, categories, atoms, |atoms|);
    assert atoms[..|atoms|] == atoms;
    SameValid(categories, r.ledger, s);
    SameFresh(r.ledger, s, Steps(atoms));
    PerformedKeepsValid(categories, s, Steps(atoms), t);
  }
}
