/** Recategorizing one row: planned, and never undone for the least amount. */
module Witness {
  import opened CheckedMoney
  import opened Rows
  import opened Text
  import opened Action
  import opened Ordered
  import opened Dispatch
  import opened Undo
  import opened Envelopes
  import opened Planner
  import opened PlanAction
  import opened PlanLaws

  function Known(): FactEvidence {
    FactEvidence("known", "user_attested", Some(DAY), None, [])
  }

  const DAY := "2024-01-01"
  const MONTH := "2024-01"

  function OldRow(units: i64): LedgerRow {
    LedgerRow("t", "a", Money(units, "USD"), DAY, Some("c"), None, None, [], None)
  }

  function Recategorized(units: i64): Transaction {
    Transaction("t", "k", "a", Money(units, "USD"), DAY, Some("d"), None, None, [])
  }

  function Categories(): seq<NamedMoney<Slot, CategoryFactInfo>> {
    [NamedMoney(Slot("c", MONTH), Money(0, "USD"), CategoryFactInfo(Ordinary, Current)),
     NamedMoney(Slot("d", MONTH), Money(0, "USD"), CategoryFactInfo(Ordinary, Current))]
  }

  function OneAccount(units: i64): Capture {
    Capture([NamedMoney("a", Money(0, "USD"), AccountInfo("a", true, false, "USD"))], [], [], [OldRow(units)], [],
            [NamedMoney("a", Money(0, "USD"), AccountFactInfo(true, false, "USD", Known()))], Categories())
  }

  function OneRequest(units: i64): Request {
    Request(OneAccount(units), Budget({"c", "d"}, Categories(), map[], map[], map[]), false, "", Money(0, "USD"), map[], map[], [], DAY,
            _ => true, (_, _) => Ok("t"))
  }

  function Amendment(units: i64, evidenceId: string): Atom {
    EvidenceAmendment(OldRow(units), Recategorized(units), Backing([evidenceId], None))
  }

  lemma {:induction false} DayValid()
    ensures ValidDate(DAY) && DAY[..7] == MONTH
  {
    assert DAY[5..7] == "01" && DAY[8..] == "01" && DAY[..4] == "2024";
    assert "01"[..1] == "0" && "0"[..0] == "";
    assert Decimal("0") == 0 && Decimal("01") == 1;
  }

  lemma {:induction false} OneLetter(s: string)
    requires |s| == 1 && !Whitespace(s[0])
    ensures !Blank(s)
  {
  }

  lemma {:induction false} FactsThere()
    ensures Lookup(Categories(), Slot("c", MONTH)) == Some(Money(0, "USD"))
    ensures Lookup(Categories(), Slot("d", MONTH)) == Some(Money(0, "USD"))
  {
    var keys := KeysOf(Categories());
    assert keys[0] == Slot("c", MONTH) && keys[1] == Slot("d", MONTH);
  }

  lemma {:induction false} AccountLive(units: i64)
    ensures Live(OneAccount(units), "a") && CurrencyOf(OneAccount(units), "a") == "USD"
  {
    assert KeysOf(OneAccount(units).accounts)[0] == "a" && KeysOf(OneAccount(units).accountFacts)[0] == "a";
  }

  lemma {:induction false} OneCategory(units: i64, category: string)
    requires category == "c" || category == "d"
    ensures var tx := Recategorized(units).(categoryId := Some(category));
            forall i :: 0 <= i < |MonthDeltas(tx)| ==> CategoryKnown(OneRequest(units), MonthDeltas(tx)[i].0, "USD")
  {
    DayValid();
    OneLetter(category);
    FactsThere();
    hide Blank, Lookup, ValidDate;
    assert MonthDeltas(Recategorized(units).(categoryId := Some(category))) == [(Slot(category, MONTH), units)];
  }

  lemma {:induction false} ShapeOf(units: i64, category: string)
    requires units != 0 && (category == "c" || category == "d")
    ensures EvidenceShape(OneRequest(units), Recategorized(units).(categoryId := Some(category)))
  {
    hide Live, CurrencyOf, ValidDate, StringLt, Blank, Lookup, MonthDeltas, CategoryKnown;
    DayValid();
    OneLetter("t");
    OneLetter("k");
    OneCategory(units, category);
    AccountLive(units);
    StringLtIrreflexive(DAY);
  }

  lemma {:induction false} OnlyRecategorized(units: i64)
    ensures SameButCategories(OldRow(units), Recategorized(units)) && KeepsSplitAmounts(OldRow(units), Recategorized(units))
    ensures Original(OldRow(units), "k") == Recategorized(units).(categoryId := Some("c"))
  {
  }

  lemma {:induction false} ShapeAccepted(units: i64)
    requires units != 0
    ensures AmendShape(OneRequest(units), OldRow(units), Recategorized(units))
  {
    ShapeOf(units, "c");
    ShapeOf(units, "d");
    OnlyRecategorized(units);
    assert RowIds(OneRequest(units).ledger.transactions)[0] == "t";
    hide EvidenceShape, SameButCategories, KeepsSplitAmounts, Original;
  }

  lemma {:induction false} AmendmentSteps(units: i64)
    ensures Steps([Amendment(units, "receipt")]) == [Amend(OldRow(units), Recategorized(units))]
  {
    assert [Amendment(units, "receipt")][..0] == [];
  }

  lemma {:induction false} OnlyAmends(r: Request, steps: seq<Step>)
    requires forall k :: 0 <= k < |steps| ==> steps[k].Amend?
    ensures Dispatchable(r.ledger, steps) && SpentInAll(steps) == 0
  {
    if steps != [] {
      OnlyAmends(r, steps[..|steps| - 1]);
    }
  }

  lemma {:induction false} AmendsPlannable(r: Request, atoms: seq<Atom>)
    requires SubjectsApart(r, atoms) && forall k :: 0 <= k < |Steps(atoms)| ==> Steps(atoms)[k].Amend?
    requires forall i :: 0 <= i < |atoms| ==>
               atoms[i].EvidenceAmendment? && AmendShape(r, atoms[i].expected, atoms[i].transaction) && OnTarget(r, atoms[i])
    ensures Plannable(r, atoms)
  {
    hide AmendShape, SubjectsApart, Dispatchable, Steps, SpentInAll;
    OnlyAmends(r, Steps(atoms));
  }

  lemma {:induction false} ReceiptResolves(units: i64)
    ensures OnTarget(OneRequest(units), Amendment(units, "receipt"))
    ensures SubjectsApart(OneRequest(units), [Amendment(units, "receipt")])
  {
    assert !Blank("receipt") by {
      assert "receipt"[0] == 'r';
    }
  }

  lemma {:induction false} AmendmentPlans(units: i64)
    requires units != 0
    ensures Plannable(OneRequest(units), [Amendment(units, "receipt")])
  {
    ShapeAccepted(units);
    AmendmentSteps(units);
    ReceiptResolves(units);
    hide AmendShape, OldRow, Recategorized, SubjectsApart, Steps, Plannable, OneRequest, OnTarget;
    AmendsPlannable(OneRequest(units), [Amendment(units, "receipt")]);
  }

  /** Planning accepts this amendment, yet no ledger at all can be verified by undoing it. */
  lemma {:induction false} PlannedButNeverUndone(t: Capture)
    ensures Plannable(OneRequest(I64_MIN), [Amendment(I64_MIN, "receipt")])
    ensures ReverseSteps(t, Steps([Amendment(I64_MIN, "receipt")])).Err?
  {
    var atoms := [Amendment(I64_MIN, "receipt")];
    AmendmentPlans(I64_MIN);
    assert !AmendmentsNegatable(atoms) by {
      DayValid();
      assert TransactionDeltas(Recategorized(I64_MIN), MONTH)[0].1 == I64_MIN;
      assert !Negatable(atoms[0]);
    }
    hide Plannable, ReverseSteps, AmendmentsNegatable;
    PlanUndone(OneRequest(I64_MIN), atoms, t, t);
  }
}
