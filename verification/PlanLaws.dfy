/** What planning guarantees of an action: it can be undone, it reaches its postconditions, its guards are exact. */
module PlanLaws {
  import opened CheckedMoney
  import opened Rows
  import opened Text
  import opened Action
  import opened Ordered
  import opened Outflow
  import opened Dispatch
  import opened Undo
  import opened Envelopes
  import opened Planner
  import opened PlanAction

  // Planned steps are well formed, save for one kind of amendment.

  lemma {:induction false} SignedOneWay<K>(deltas: seq<(K, i64)>, sign: int)
    requires forall j :: 0 <= j < |deltas| ==> SameSign(deltas[j].1, sign)
    ensures OneWay(deltas)
  {
  }

  lemma {:induction false} SignedDeltas(amount: Money, categoryId: Option<string>, splits: seq<Split>, month: string)
    requires splits != [] ==> SplitsAddUp(splits, amount)
    ensures var deltas := CategoryDeltas(amount.units, categoryId, splits, month);
            OneWay(deltas) && forall j :: 0 <= j < |deltas| ==> SameSign(deltas[j].1, amount.units)
  {
    SignedOneWay(CategoryDeltas(amount.units, categoryId, splits, month), amount.units);
  }

  lemma {:induction false} DatedMonth(date: string)
    requires ValidDate(date)
    ensures MonthOf(date) == Some(date[..7])
  {
  }

  lemma {:induction false} SpendNegatable(l: Limits, before: seq<Step>, tx: Transaction)
    requires tx.amount.units < 0 && OutflowReady(l, before, Post(tx))
    ensures CanNegate(tx.amount.units)
  {
    hide Spent, Sent;
  }

  lemma {:induction false} PurchaseWellFormed(r: Request, before: seq<Step>, tx: Transaction)
    requires ManualAccepted(r, before, tx)
    ensures WellFormed(Post(tx))
  {
    SpendNegatable(LimitsOf(r), before, tx);
    DatedMonth(tx.date);
    SignedDeltas(tx.amount, tx.categoryId, tx.splits, tx.date[..7]);
    forall j | 0 <= j < |MonthDeltas(tx)|
      ensures CanNegate(MonthDeltas(tx)[j].1)
    {
      assert EffectFunded(r.budget, before, MonthDeltas(tx), j, tx.amount.currency);
    }
  }

  lemma {:induction false} CreditWellFormed(r: Request, before: seq<Step>, tx: Transaction)
    requires CreditAccepted(r, before, tx)
    ensures WellFormed(Post(tx))
  {
    hide StepReady, SeenAfter, Live, CurrencyOf, StringLt, CategoryKnown, Blank;
    SignedDeltas(tx.amount, tx.categoryId, tx.splits, tx.date[..7]);
  }

  /** The one thing planning does not check: the new categories' amounts must have negations. */
  ghost predicate Negatable(atom: Atom) {
    atom.EvidenceAmendment? && ValidDate(atom.transaction.date) ==>
      CanNegateAll(TransactionDeltas(atom.transaction, atom.transaction.date[..7]))
  }

  ghost predicate AmendmentsNegatable(atoms: seq<Atom>) {
    forall i :: 0 <= i < |atoms| ==> Negatable(atoms[i])
  }

  lemma {:induction false} AmendWellFormed(r: Request, expected: LedgerRow, tx: Transaction)
    requires AmendShape(r, expected, tx)
    ensures ValidDate(tx.date)
    ensures WellFormed(Amend(expected, tx)) <==> CanNegateAll(TransactionDeltas(tx, tx.date[..7]))
  {
    hide Live, CurrencyOf, StringLt, CategoryKnown, Blank;
    SignedDeltas(tx.amount, tx.categoryId, tx.splits, tx.date[..7]);
    SignedDeltas(expected.amount, expected.categoryId, expected.splits, tx.date[..7]);
  }

  lemma {:induction false} MoveWellFormed(r: Request, before: seq<Step>, moves: seq<Movement>, k: nat)
    requires MovesAccepted(r, before, moves) && k < |moves|
    ensures WellFormed(Move(moves[k]))
  {
    assert MoveAccepted(r, before + MoveSteps(moves)[..k], moves[k]);
    hide MoveFunded, StepReady;
  }

  lemma {:induction false} AtomWellFormed(r: Request, before: seq<Step>, atom: Atom)
    requires AtomAccepted(r, before, atom)
    ensures AllWellFormed(StepsOf(atom)) <==> Negatable(atom)
  {
    hide MovesAccepted, ManualAccepted, CreditAccepted, AmendShape, WellFormed, Fresh;
    match atom {
      case Reallocation(moves) =>
        forall k | 0 <= k < |moves|
          ensures WellFormed(StepsOf(atom)[k])
        {
          MoveWellFormed(r, before, moves, k);
        }
      case ManualTransaction(tx) =>
        PurchaseWellFormed(r, before, tx);
      case EvidenceProjection(tx, _) =>
        PurchaseWellFormed(r, before, tx);
      case EvidenceCredit(tx, _) =>
        CreditWellFormed(r, before, tx);
      case EvidenceAmendment(expected, tx, _) =>
        AmendWellFormed(r, expected, tx);
        assert StepsOf(atom)[0] == Amend(expected, tx);
      case WalletMaterialization(walletId, name, currency) =>
        assert WellFormed(Open(walletId, name, currency)) by {
          WalletWellFormed(r, walletId, name, currency);
        }
      case Transfer(t) =>
        assert WellFormed(Send(t)) by {
          TransferWellFormed(r, before, t);
        }
    }
  }

  lemma {:induction false} WalletWellFormed(r: Request, walletId: string, name: string, currency: string)
    requires WalletShape(r, walletId, name, currency)
    ensures WellFormed(Open(walletId, name, currency))
  {
  }

  lemma {:induction false} TransferWellFormed(r: Request, before: seq<Step>, t: TransferIntent)
    requires TransferAccepted(r, before, t)
    ensures WellFormed(Send(t))
  {
    hide OutflowReady, StepReady, SeenAfter, Live;
  }

  lemma {:induction false} WellFormedConcat(a: seq<Step>, b: seq<Step>)
    ensures AllWellFormed(a + b) <==> AllWellFormed(a) && AllWellFormed(b)
  {
    hide WellFormed;
    assert forall i :: 0 <= i < |a| ==> (a + b)[i] == a[i];
    assert forall i :: 0 <= i < |b| ==> (a + b)[|a| + i] == b[i];
  }

  lemma {:induction false} NegatableNext(atoms: seq<Atom>, i: nat)
    requires i < |atoms|
    ensures AmendmentsNegatable(atoms[..i + 1]) <==> AmendmentsNegatable(atoms[..i]) && Negatable(atoms[i])
  {
    hide Negatable;
    assert forall k :: 0 <= k < i ==> atoms[..i + 1][k] == atoms[..i][k];
    assert atoms[..i + 1][i] == atoms[i];
  }

  lemma {:induction false} AcceptedAt(r: Request, atoms: seq<Atom>, i: nat)
    requires i < |atoms| && AtomsAccepted(r, atoms)
    ensures AtomAccepted(r, Steps(atoms[..i]), atoms[i])
  {
    hide AtomAccepted, Steps;
  }

  lemma {:induction false} PrefixWellFormed(r: Request, atoms: seq<Atom>, i: nat)
    requires i <= |atoms| && AtomsAccepted(r, atoms)
    ensures AllWellFormed(Steps(atoms[..i])) <==> AmendmentsNegatable(atoms[..i])
  {
    hide *;
    if i == 0 {
      NoneIllFormed();
      assert atoms[..0] == [];
    } else {
      AcceptedAt(r, atoms, i - 1);
      PrefixWellFormed(r, atoms, i - 1);
      NextAtom(atoms, i - 1);
      AtomWellFormed(r, Steps(atoms[..i - 1]), atoms[i - 1]);
      WellFormedConcat(Steps(atoms[..i - 1]), StepsOf(atoms[i - 1]));
      NegatableNext(atoms, i - 1);
    }
  }

  lemma {:induction false} NoneIllFormed()
    ensures AllWellFormed(Steps([])) && AmendmentsNegatable([])
  {
  }

  /** The steps of a plan are well formed exactly when its amendments' category amounts have negations. */
  lemma {:induction false} PlannedSteps(r: Request, atoms: seq<Atom>)
    requires Plannable(r, atoms)
    ensures AllWellFormed(Steps(atoms)) <==> AmendmentsNegatable(atoms)
  {
    hide AtomsAccepted, AmendmentsNegatable, AllWellFormed, Dispatchable, ChargesSound, CartBought, PathsCovered, Steps;
    PrefixWellFormed(r, atoms, |atoms|);
    assert atoms[..|atoms|] == atoms;
  }

  // Undoing a plan.

  lemma {:induction false} StuckAmendment(t: Capture, expected: LedgerRow, tx: Transaction)
    requires ValidDate(tx.date) && !CanNegateAll(TransactionDeltas(tx, tx.date[..7]))
    ensures ReverseAmend(t, expected, tx).Err?
  {
    DatedMonth(tx.date);
  }

  lemma {:induction false} StuckSteps(t: Capture, steps: seq<Step>, k: nat)
    requires k < |steps| && forall c :: ReverseStep(c, steps[k]).Err?
    ensures ReverseSteps(t, steps).Err?
    decreases |steps|
  {
    hide ReverseStep;
    var mid := ReverseStep(t, steps[|steps| - 1]);
    if k < |steps| - 1 && mid.Ok? {
      StuckSteps(mid.value, steps[..|steps| - 1], k);
    }
  }

  lemma {:induction false} StuckIndex(atoms: seq<Atom>, i: nat) returns (k: nat)
    requires i < |atoms| && atoms[i].EvidenceAmendment?
    ensures k < |Steps(atoms)| && Steps(atoms)[k] == Amend(atoms[i].expected, atoms[i].transaction)
  {
    var rest := StepsSplit(atoms, i + 1);
    NextAtom(atoms, i);
    k := |Steps(atoms[..i])|;
  }

  lemma {:induction false} PlanStuck(atoms: seq<Atom>, t: Capture)
    requires !AmendmentsNegatable(atoms)
    ensures ReverseSteps(t, Steps(atoms)).Err?
  {
    hide ReverseSteps, ReverseAmend, Steps;
    var i :| 0 <= i < |atoms| && !Negatable(atoms[i]);
    var k := StuckIndex(atoms, i);
    forall c
      ensures ReverseStep(c, Steps(atoms)[k]).Err?
    {
      StuckAmendment(c, atoms[i].expected, atoms[i].transaction);
    }
    StuckSteps(t, Steps(atoms), k);
  }

  /**
   * A planned action is undone into exactly the ledgers it could have been performed on, provided its
   * amendments' category amounts have negations; if one has none, no ledger at all can be undone.
   */
  lemma {:induction false} PlanUndone(r: Request, atoms: seq<Atom>, s: Capture, t: Capture)
    requires Plannable(r, atoms)
    ensures AmendmentsNegatable(atoms) ==>
              AllWellFormed(Steps(atoms)) && (ReverseSteps(t, Steps(atoms)) == Ok(s) <==> Performed(s, Steps(atoms), t))
    ensures !AmendmentsNegatable(atoms) ==> ReverseSteps(t, Steps(atoms)).Err?
  {
    hide *;
    PlannedSteps(r, atoms);
    if AmendmentsNegatable(atoms) {
      UndoIsInverse(s, Steps(atoms), t);
    } else {
      PlanStuck(atoms, t);
    }
  }
}
