/** When a planned action can be performed: what planning has left unchecked. */
module PlanPerforming {
  import opened Rows
  import opened Text
  import opened Action
  import opened Sorting
  import opened Outflow
  import opened Dispatch
  import opened Undo
  import opened Envelopes
  import opened Planner
  import opened PlanAction
  import opened PlanLaws
  import opened PlanOutcome
  import opened Postconditions
  import opened Ledger
  import opened PerformedRuns

  // Identities the plan uses are new.

  ghost predicate AllFresh(ledger: Capture, before: seq<Step>, steps: seq<Step>) {
    forall k :: 0 <= k < |steps| ==> Fresh(SeenAfter(ledger, before + steps[..k]), steps[k])
  }

  lemma {:induction false} AtomFresh(r: Request, before: seq<Step>, atom: Atom)
    requires AtomAccepted(r, before, atom)
    ensures AllFresh(r.ledger, before, StepsOf(atom))
  {
    hide StepReady, MoveShape, MoveFunded, ManualShape, OutflowReady, Affordable, SpentInAll, EvidenceShape, AmendShape, WalletShape,
         TransferShape, SeenAfter;
    assert before + StepsOf(atom)[..0] == before;
  }

  lemma {:induction false} FreshThen(ledger: Capture, a: seq<Step>, b: seq<Step>)
    requires AllFresh(ledger, [], a) && AllFresh(ledger, a, b)
    ensures AllFresh(ledger, [], a + b)
  {
    hide SeenAfter, Fresh;
    var all := a + b;
    forall k | 0 <= k < |all|
      ensures Fresh(SeenAfter(ledger, [] + all[..k]), all[k])
    {
      if k < |a| {
        assert [] + all[..k] == [] + a[..k];
      } else {
        assert [] + all[..k] == a + b[..k - |a|];
      }
    }
  }

  lemma {:induction false} PrefixFresh(r: Request, atoms: seq<Atom>, i: nat)
    requires i <= |atoms| && AtomsAccepted(r, atoms)
    ensures AllFresh(r.ledger, [], Steps(atoms[..i]))
  {
    hide AtomsAccepted;
    if i > 0 {
      hide *;
      AcceptedAt(r, atoms, i - 1);
      PrefixFresh(r, atoms, i - 1);
      NextAtom(atoms, i - 1);
      AtomFresh(r, Steps(atoms[..i - 1]), atoms[i - 1]);
      FreshThen(r.ledger, Steps(atoms[..i - 1]), StepsOf(atoms[i - 1]));
    }
  }

  lemma {:induction false} SeenCovers(ledger: Capture, before: seq<Step>, id: string)
    ensures var seen := SeenAfter(ledger, before);
            (id in RowIds(ledger.transactions) || Posted(before, id) ==> id in seen.rows)
            && (id in WalletIds(ledger.wallets) || Mapped(before, id) ==> id in seen.wallets)
            && (id in TransferIds(ledger.transfers) || SentOut(before, id) ==> id in seen.transfers)
  {
    if before != [] {
      var front, last := before[..|before| - 1], before[|before| - 1];
      assert before == front + [last];
      SeenCovers(ledger, front, id);
      DoneThen(front, last, id);
      hide Posted, Mapped, SentOut, Amended;
    }
  }

  // No row is amended twice.

  /** An amendment projects the economic event of the row it amends. */
  lemma {:induction false} AmendsSubject(r: Request, before: seq<Step>, atom: Atom)
    requires atom.EvidenceAmendment? && AtomAccepted(r, before, atom) && Resolves(r, atom)
    ensures atom.transaction.parentId in SubjectsOf(r, atom)
  {
    hide EvidenceShape, KeepsSplitAmounts, Blank;
    assert atom.backing.evidenceIds[0] in atom.backing.evidenceIds;
  }

  lemma {:induction false} AmendedEither(a: seq<Step>, b: seq<Step>, id: string)
    requires Amended(a + b, id)
    ensures Amended(a, id) || Amended(b, id)
  {
    var k :| 0 <= k < |a + b| && (a + b)[k].Amend? && (a + b)[k].transaction.parentId == id;
    if k < |a| {
      assert a[k] == (a + b)[k];
    } else {
      assert b[k - |a|] == (a + b)[k];
    }
  }

  lemma {:induction false} AmendedByOne(atom: Atom, id: string)
    requires Amended(StepsOf(atom), id)
    ensures atom.EvidenceAmendment? && atom.transaction.parentId == id
  {
  }

  lemma {:induction false} AmendedByAtom(atoms: seq<Atom>, i: nat, id: string) returns (j: nat)
    requires i <= |atoms| && Amended(Steps(atoms[..i]), id)
    ensures j < i && atoms[j].EvidenceAmendment? && atoms[j].transaction.parentId == id
  {
    assert i > 0;
    NextAtom(atoms, i - 1);
    hide Amended, Steps, StepsOf;
    AmendedEither(Steps(atoms[..i - 1]), StepsOf(atoms[i - 1]), id);
    if Amended(Steps(atoms[..i - 1]), id) {
      j := AmendedByAtom(atoms, i - 1, id);
    } else {
      AmendedByOne(atoms[i - 1], id);
      j := i - 1;
    }
  }

  lemma {:induction false} ProjectedTwice(r: Request, atoms: seq<Atom>, j: nat, i: nat, id: string)
    requires j < i < |atoms| && Resolves(r, atoms[j]) && Resolves(r, atoms[i])
    requires id in SubjectsOf(r, atoms[j]) && id in SubjectsOf(r, atoms[i])
    ensures !SubjectsApart(r, atoms)
  {
    hide Resolves, SubjectsOf;
    assert id in SubjectsOf(r, atoms[j]) * SubjectsOf(r, atoms[i]);
  }

  lemma {:induction false} NotAgain(r: Request, atoms: seq<Atom>, i: nat)
    requires i < |atoms| && AtomsAccepted(r, atoms) && SubjectsApart(r, atoms) && atoms[i].EvidenceAmendment?
    ensures !Amended(Steps(atoms[..i]), atoms[i].transaction.parentId)
  {
    hide AtomAccepted, Steps, Amended, Resolves, SubjectsOf;
    var id := atoms[i].transaction.parentId;
    if Amended(Steps(atoms[..i]), id) {
      var j := AmendedByAtom(atoms, i, id);
      AcceptedAt(r, atoms, i);
      AcceptedAt(r, atoms, j);
      AmendsSubject(r, Steps(atoms[..i]), atoms[i]);
      AmendsSubject(r, Steps(atoms[..j]), atoms[j]);
      ProjectedTwice(r, atoms, j, i, id);
    }
  }

  ghost predicate AmendsOnce(before: seq<Step>, steps: seq<Step>) {
    forall k :: 0 <= k < |steps| && steps[k].Amend? ==> !Amended(before + steps[..k], steps[k].transaction.parentId)
  }

  lemma {:induction false} AmendsOnceThen(a: seq<Step>, b: seq<Step>)
    requires AmendsOnce([], a) && AmendsOnce(a, b)
    ensures AmendsOnce([], a + b)
  {
    hide Amended;
    var all := a + b;
    forall k | 0 <= k < |all| && all[k].Amend?
      ensures !Amended([] + all[..k], all[k].transaction.parentId)
    {
      if k < |a| {
        assert [] + all[..k] == [] + a[..k];
      } else {
        assert [] + all[..k] == a + b[..k - |a|];
      }
    }
  }

  lemma {:induction false} AtomAmendsOnce(before: seq<Step>, atom: Atom)
    requires atom.EvidenceAmendment? ==> !Amended(before, atom.transaction.parentId)
    ensures AmendsOnce(before, StepsOf(atom))
  {
    hide Amended;
    assert before + StepsOf(atom)[..0] == before;
  }

  lemma {:induction false} NothingAmended(atoms: seq<Atom>)
    ensures AmendsOnce([], Steps(atoms[..0]))
  {
    assert Steps(atoms[..0]) == [];
  }

  lemma {:induction false} PrefixAmendsOnce(r: Request, atoms: seq<Atom>, i: nat)
    requires i <= |atoms| && AtomsAccepted(r, atoms) && SubjectsApart(r, atoms)
    ensures AmendsOnce([], Steps(atoms[..i]))
  {
    hide *;
    if i == 0 {
      NothingAmended(atoms);
    } else {
      PrefixAmendsOnce(r, atoms, i - 1);
      NextAtom(atoms, i - 1);
      if atoms[i - 1].EvidenceAmendment? {
        NotAgain(r, atoms, i - 1);
      }
      AtomAmendsOnce(Steps(atoms[..i - 1]), atoms[i - 1]);
      AmendsOnceThen(Steps(atoms[..i - 1]), StepsOf(atoms[i - 1]));
    }
  }

  /** Evidence projected once and on target means that a planned action never amends one row twice. */
  lemma {:induction false} PlanAmendsOnce(r: Request, atoms: seq<Atom>)
    requires Plannable(r, atoms)
    ensures AmendsOnce([], Steps(atoms))
  {
    hide AtomsAccepted, SubjectsApart, AmendsOnce, Dispatchable, ChargesSound, CartBought, PathsCovered, Steps;
    PrefixAmendsOnce(r, atoms, |atoms|);
    assert atoms[..|atoms|] == atoms;
  }

  // What a valid ledger holds.

  lemma {:induction false} HeldIn<K, R>(rows: seq<NamedMoney<K, R>>, k: K, currency: string)
    requires DistinctBy(KeyOf, rows) && k in KeysOf(rows) && Lookup(rows, k).value.currency == currency && ValidCurrency(currency)
    ensures Holds(rows, k, currency)
  {
    var i := IndexOf(KeysOf(rows), k);
    assert rows[i].key == k;
    forall j | 0 <= j < |rows| && KeysOf(rows)[j] == k
      ensures j == i
    {
      assert KeyOf(rows[j]) == KeyOf(rows[i]);
    }
  }

  lemma {:induction false} AssignmentHeld(categories: seq<string>, ledger: Capture, slot: Slot, currency: string)
    requires LedgerValid(categories, ledger) && AssignmentIn(ledger, slot, currency)
    ensures Holds(ledger.assignments, slot, currency)
  {
    var row := ledger.assignments[IndexOf(KeysOf(ledger.assignments), slot)];
    assert row in ledger.assignments && AssignmentValid(categories, row);
    hide AccountsValid, WalletsValid, RowsValid, TransfersValid, ValidMonth, ValidCurrency;
    HeldIn(ledger.assignments, slot, currency);
  }

  lemma {:induction false} AccountHeld(categories: seq<string>, ledger: Capture, a: string, currency: string)
    requires LedgerValid(categories, ledger) && AccountIn(ledger, a, currency)
    ensures Holds(ledger.accounts, a, currency)
  {
    var row := ledger.accounts[IndexOf(KeysOf(ledger.accounts), a)];
    assert row in ledger.accounts && AccountValid(row);
    hide AssignmentsValid, WalletsValid, RowsValid, TransfersValid, ValidCurrency, Blank;
    HeldIn(ledger.accounts, a, currency);
  }

  lemma {:induction false} MoveBooked(categories: seq<string>, ledger: Capture, before: seq<Step>, m: Movement)
    requires LedgerValid(categories, ledger) && WellFormed(Move(m)) && StepReady(ledger, before, Move(m))
    ensures BookReady(ledger, before, Move(m))
  {
    hide LedgerValid, Holds, Lookup, AssignmentMoved;
    AssignmentHeld(categories, ledger, m.source, m.amount.currency);
    AssignmentHeld(categories, ledger, m.destination, m.amount.currency);
    SumOfMove(m, m.source);
    SumOfMove(m, m.destination);
    hide SumFor;
  }

  lemma {:induction false} PostBooked(categories: seq<string>, ledger: Capture, before: seq<Step>, tx: Transaction)
    requires LedgerValid(categories, ledger) && WellFormed(Post(tx)) && StepReady(ledger, before, Post(tx))
    requires Fresh(SeenAfter(ledger, before), Post(tx))
    ensures BookReady(ledger, before, Post(tx))
  {
    SeenCovers(ledger, before, tx.parentId);
    assert SumFor([(tx.accountId, tx.amount.units)], tx.accountId) == tx.amount.units;
    hide LedgerValid, Holds, Lookup, BalanceMoved, Posted, SeenAfter, SumFor;
    AccountHeld(categories, ledger, tx.accountId, tx.amount.currency);
  }

  lemma {:induction false} SendBooked(categories: seq<string>, ledger: Capture, before: seq<Step>, t: TransferIntent)
    requires LedgerValid(categories, ledger) && WellFormed(Send(t)) && StepReady(ledger, before, Send(t))
    requires Fresh(SeenAfter(ledger, before), Send(t))
    ensures BookReady(ledger, before, Send(t))
  {
    SeenCovers(ledger, before, t.transferId);
    SumOfSend(t, t.sourceAccountId);
    SumOfSend(t, t.destinationAccountId);
    hide LedgerValid, Holds, Lookup, BalanceMoved, SentOut, SeenAfter, SumFor;
    AccountHeld(categories, ledger, t.sourceAccountId, t.amount.currency);
    AccountHeld(categories, ledger, t.destinationAccountId, t.amount.currency);
  }

  lemma {:induction false} StepBooked(categories: seq<string>, ledger: Capture, before: seq<Step>, step: Step)
    requires LedgerValid(categories, ledger) && WellFormed(step) && StepReady(ledger, before, step) && Fresh(SeenAfter(ledger, before), step)
    requires step.Amend? ==> !Amended(before, step.transaction.parentId)
    ensures BookReady(ledger, before, step)
  {
    hide LedgerValid, SeenAfter;
    match step {
      case Move(m) => MoveBooked(categories, ledger, before, m);
      case Post(tx) => PostBooked(categories, ledger, before, tx);
      case Amend(_, _) =>
      case Open(walletId, _, _) => SeenCovers(ledger, before, walletId);
      case Send(t) => SendBooked(categories, ledger, before, t);
    }
  }

  lemma {:induction false} AdmittedGrounded(categories: seq<string>, ledger: Capture, step: Step)
    requires LedgerValid(categories, ledger) && Admitted(ledger, step)
    ensures Grounded(ledger, step)
  {
    hide AccountsValid, WalletsValid, TransfersValid, AssignmentsValid, RowValid, NormalizedPayee;
    if step.Amend? {
      var ids, id := RowIds(ledger.transactions), step.transaction.parentId;
      var i := IndexOf(ids, id);
      forall j | 0 <= j < |ids| && ids[j] == id
        ensures j == i
      {
        assert RowId(ledger.transactions[j]) == RowId(ledger.transactions[i]);
      }
      assert OnlyAt(ids, id, i);
    }
  }

  /** What is recorded beside the ledger takes the whole run. */
  ghost predicate FactsHold(ledger: Capture, steps: seq<Step>)
    requires AllWellFormed(steps)
  {
    forall k :: 0 <= k < |steps| ==> FactsReady(ledger, steps[..k], steps[k])
  }

  lemma {:induction false} PlanBooked(r: Request, categories: seq<string>, atoms: seq<Atom>)
    requires Plannable(r, atoms) && LedgerValid(categories, r.ledger) && AllWellFormed(Steps(atoms))
    ensures AllGrounded(r.ledger, Steps(atoms))
    ensures Runs(r.ledger, Steps(atoms)) <==> FactsHold(r.ledger, Steps(atoms))
  {
    var steps := Steps(atoms);
    PlanAdmitted(r, atoms);
    PlanAmendsOnce(r, atoms);
    assert Dispatchable(r.ledger, steps) && AtomsAccepted(r, atoms);
    hide Plannable, AtomsAccepted, LedgerValid, Admitted, Grounded, Steps, StepReady, Fresh, SeenAfter, WellFormed, BookReady, FactsReady, Amended;
    assert atoms[..|atoms|] == atoms;
    PrefixFresh(r, atoms, |atoms|);
    forall k | 0 <= k < |steps|
      ensures Grounded(r.ledger, steps[k]) && BookReady(r.ledger, steps[..k], steps[k])
    {
      AdmittedGrounded(categories, r.ledger, steps[k]);
      assert [] + steps[..k] == steps[..k];
      assert Fresh(SeenAfter(r.ledger, [] + steps[..k]), steps[k]);
      assert steps[k].Amend? ==> !Amended([] + steps[..k], steps[k].transaction.parentId);
      StepBooked(categories, r.ledger, steps[..k], steps[k]);
    }
  }

  /**
   * A planned action can be performed on a valid ledger exactly when the facts recorded beside the ledger can follow
   * it: each account and category it touches is there once, with room for what is moved.
   */
  lemma {:induction false} PlanPerformable(r: Request, categories: seq<string>, atoms: seq<Atom>)
    requires Plannable(r, atoms) && LedgerValid(categories, r.ledger) && AmendmentsNegatable(atoms)
    ensures AllWellFormed(Steps(atoms))
    ensures (exists t :: Performed(r.ledger, Steps(atoms), t)) <==> FactsHold(r.ledger, Steps(atoms))
  {
    PlannedSteps(r, atoms);
    hide Plannable, LedgerValid, AmendmentsNegatable, AllWellFormed, Steps, Performed, FactsHold, Runs, AllGrounded;
    PlanBooked(r, categories, atoms);
    RunPerformable(r.ledger, Steps(atoms));
  }
}
