/** The planner's loops: each atom validated in turn, and the postconditions left at the end. */
module Derive {
  import opened CheckedMoney
  import opened Rows
  import opened Text
  import opened Action
  import opened Ordered
  import opened Sums
  import opened Outflow
  import opened Dispatch
  import opened Envelopes
  import opened Planner

  // Splits.

  predicate SplitSound(split: Split, amount: Money, named: bool) {
    (named ==> !Blank(split.categoryId)) && SameSign(split.amount.units, amount.units) && split.amount.currency == amount.currency
  }

  lemma {:induction false} SameSignTotals(splits: seq<Split>, amount: Money, i: nat)
    requires i <= |splits| && forall j :: 0 <= j < |splits| ==> SameSign(splits[j].amount.units, amount.units)
    ensures var part, whole := Total(Amounts(splits)[..i]), Total(Amounts(splits));
            (amount.units > 0 ==> 0 <= part <= whole) && (amount.units < 0 ==> whole <= part <= 0) && (amount.units == 0 ==> part == 0 == whole)
    decreases |splits| - i
  {
    if i == |splits| {
      assert Amounts(splits)[..i] == Amounts(splits);
      SignOfTotal(splits, amount, i);
    } else {
      SameSignTotals(splits, amount, i + 1);
      TotalNext(Amounts(splits), i);
      SignOfTotal(splits, amount, i);
    }
  }

  lemma {:induction false} SignOfTotal(splits: seq<Split>, amount: Money, i: nat)
    requires i <= |splits| && forall j :: 0 <= j < |splits| ==> SameSign(splits[j].amount.units, amount.units)
    ensures var part := Total(Amounts(splits)[..i]);
            (amount.units > 0 ==> 0 <= part) && (amount.units < 0 ==> part <= 0) && (amount.units == 0 ==> part == 0)
    decreases i
  {
    if i > 0 {
      SignOfTotal(splits, amount, i - 1);
      TotalNext(Amounts(splits), i - 1);
    }
  }

  /** Every split sound, and a running total that ends at the whole. */
  method CheckSplits(splits: seq<Split>, amount: Money, named: bool, unsound: string) returns (r: Result<()>)
    ensures r.Ok? <==> SplitsAddUp(splits, amount) && (named ==> forall i :: 0 <= i < |splits| ==> !Blank(splits[i].categoryId))
  {
    hide Blank, Total, SameSign;
    var total: i64 := 0;
    assert Total<string>([]) == 0 by {
      TotalOfNone();
    }
    assert Amounts(splits)[..0] == [];
    for i := 0 to |splits|
      invariant total == Total(Amounts(splits)[..i])
      invariant forall j :: 0 <= j < i ==> SplitSound(splits[j], amount, named)
    {
      if !SplitSound(splits[i], amount, named) {
        return Err(unsound);
      }
      TotalNext(Amounts(splits), i);
      var next := CheckedAdd(total, splits[i].amount.units);
      if next.Err? {
        if SplitsAddUp(splits, amount) {
          PartFits(splits, amount, i + 1);
        }
        return Err(next.error);
      }
      total := next.value;
    }
    assert Amounts(splits)[..|splits|] == Amounts(splits);
    r := if total != amount.units then Err("split_total_mismatch") else Ok(());
  }

  lemma {:induction false} TotalOfNone()
    ensures Total<string>([]) == 0
  {
  }

  lemma {:induction false} PartFits(splits: seq<Split>, amount: Money, i: nat)
    requires i <= |splits| && SplitsAddUp(splits, amount)
    ensures Fits(Total(Amounts(splits)[..i]))
  {
    SameSignTotals(splits, amount, i);
  }

  method CheckPurchase(tx: Transaction) returns (r: Result<()>)
    ensures r.Ok? <==> PurchaseShape(tx)
  {
    hide SplitsAddUp;
    if tx.splits == [] {
      return if tx.categoryId.None? then Err("manual_category_required") else Ok(());
    }
    if tx.categoryId.Some? {
      return Err("split_parent_category_must_be_null");
    }
    r := CheckSplits(tx.splits, tx.amount, true, "invalid_split_amount");
  }

  lemma {:induction false} PurchaseDeltas(tx: Transaction)
    requires PurchaseShape(tx) && tx.amount.units < 0
    ensures forall j :: 0 <= j < |MonthDeltas(tx)| ==> MonthDeltas(tx)[j].1 < 0
  {
    hide Total, Blank, MonthOf;
  }

  // Reallocations.

  method ValidateReallocation(r: Request, p: Progress, m: Movement, ghost before: seq<Step>) returns (next: Result<Progress>)
    requires Progressed(p, r, before)
    ensures next.Ok? <==> MoveAccepted(r, before, m)
    ensures next.Ok? ==> Progressed(next.value, r, before + [Move(m)])
  {
    hide TracksAssignments, TracksBalances, TracksPurse, TracksOutflows, MoveOverlay, MoveFunded, SeenAfter, StepReady, ValidMonth, PositiveSends;
    if !MoveShape(m) || !Fresh(p.seen, Move(m)) {
      return Err("invalid_or_duplicate_reallocation");
    }
    if m.source.categoryId !in r.budget.categories || m.destination.categoryId !in r.budget.categories {
      return Err("reallocation_category_missing");
    }
    TargetsReady(r.ledger, before, m);
    if Lookup(r.ledger.assignments, m.source).None? || Lookup(r.ledger.assignments, m.destination).None? {
      return Err("current_assignment_missing");
    }
    if Lookup(r.ledger.assignments, m.source).value.currency != m.amount.currency
       || Lookup(r.ledger.assignments, m.destination).value.currency != m.amount.currency {
      return Err("reallocation_target_changed");
    }
    EnvelopesTracked(p.purse, r.budget, before);
    var envelopes :- MoveEnvelopes(r.budget, p.purse.envelopes, m, before);
    MoveReady(r.ledger, p.assignments, before, m);
    var assignments :- MoveOverlay(r.ledger, p.assignments, m);
    MovedTracked(p, r, before, m, assignments, envelopes);
    next := Ok(p.(assignments := assignments, purse := p.purse.(envelopes := envelopes), seen := SeenStep(p.seen, Move(m))));
  }

  lemma {:induction false} TargetsReady(ledger: Capture, before: seq<Step>, m: Movement)
    ensures StepReady(ledger, before, Move(m)) ==>
              AssignmentIn(ledger, m.source, m.amount.currency) && AssignmentIn(ledger, m.destination, m.amount.currency)
  {
  }

  lemma {:induction false} EnvelopesTracked(p: Purse, b: Budget, before: seq<Step>)
    requires TracksPurse(p, b, before)
    ensures TracksEnvelopes(p.envelopes, b, before)
  {
  }

  lemma {:induction false} MovedTracked(p: Progress, r: Request, before: seq<Step>, m: Movement, assignments: map<Slot, Money>, envelopes: map<Slot, Envelope>)
    requires Progressed(p, r, before) && MoveOverlay(r.ledger, p.assignments, m) == Ok(assignments)
    requires TracksEnvelopes(envelopes, r.budget, before + [Move(m)])
    ensures Progressed(p.(assignments := assignments, purse := p.purse.(envelopes := envelopes), seen := SeenStep(p.seen, Move(m))),
                   r, before + [Move(m)])
  {
    hide TracksAssignments, TracksBalances, TracksEnvelopes, TracksOutflows, MoveOverlay, PositiveSends, SpentInAll, SeenAfter, SeenStep;
    KeysThen(r.ledger, before, Move(m), p.balances, p.assignments);
    MoveTracked(r.ledger, p.assignments, before, m);
    BothThen(r.ledger, p.balances, p.assignments, before, Move(m));
    CountersThen(r.ledger, before, Move(m));
    OutflowsUntouched(p.outflows, before, Move(m));
    FlowThen(before, Move(m));
    hide Flow, CategorySpent;
  }

  // Purchases.

  function NextTotal(r: Request, p: Progress, tx: Transaction): Result<i64> {
    var spend :- CheckedNeg(tx.amount.units);
    var total :- CheckedAdd(p.manualTotal, spend);
    if total > r.cartTotal.units then Err("manual_cart_total_exceeded") else Ok(total)
  }

  lemma {:induction false} TotalIs(r: Request, p: Progress, tx: Transaction, before: seq<Step>)
    requires p.manualTotal == SpentInAll(before) && Spends(Post(tx))
    ensures NextTotal(r, p, tx).Ok? <==> SpentInAll(before + [Post(tx)]) <= r.cartTotal.units
    ensures NextTotal(r, p, tx).Ok? ==> NextTotal(r, p, tx).value == SpentInAll(before + [Post(tx)])
  {
    CountersThen(r.ledger, before, Post(tx));
    hide SpentInAll;
  }

  method ValidateManual(r: Request, p: Progress, tx: Transaction, ghost before: seq<Step>) returns (next: Result<Progress>)
    requires Progressed(p, r, before)
    ensures next.Ok? <==> ManualAccepted(r, before, tx)
    ensures next.Ok? ==> Progressed(next.value, r, before + [Post(tx)])
  {
    hide TracksAssignments, TracksBalances, TracksPurse, TracksOutflows, PostOverlay, SpendChecked, NextTotal, Affordable,
         OutflowReady, SeenAfter, StepReady, Live, CurrencyOf, PurchaseShape, PositiveSends, Identified, SpentInAll, MonthDeltas;
    if !Identified(tx) || !Fresh(p.seen, Post(tx)) || tx.amount.units >= 0 {
      return Err("invalid_or_duplicate_manual_transaction");
    }
    var currency :- CheckLive(r.ledger, tx.accountId);
    if tx.accountId !in r.accountCharges {
      return Err("manual_account_not_charged");
    }
    if tx.amount.currency != currency || r.accountCharges[tx.accountId].currency != currency {
      return Err("manual_transaction_currency_or_source_mismatch");
    }
    SpendTracked(LimitsOf(r), p.outflows, before, tx);
    var outflows :- SpendChecked(LimitsOf(r), p.outflows, tx);
    TotalIs(r, p, tx, before);
    var total :- NextTotal(r, p, tx);
    var shape :- CheckPurchase(tx);
    PurchaseDeltas(tx);
    var purse :- SpendEnvelopes(r.budget, p.purse, tx, before);
    PostTracked(r.ledger, p.balances, before, tx);
    var balances :- PostOverlay(r.ledger, p.balances, tx);
    BothThen(r.ledger, p.balances, p.assignments, before, Post(tx));
    CountersThen(r.ledger, before, Post(tx));
    KeysThen(r.ledger, before, Post(tx), p.balances, p.assignments);
    next := Ok(Progress(p.assignments, balances, purse, outflows, total, SeenStep(p.seen, Post(tx))));
  }

  // Evidence-backed writes.

  method CheckCategories(r: Request, tx: Transaction) returns (ok: Result<()>)
    ensures ok.Ok? <==> forall i :: 0 <= i < |MonthDeltas(tx)| ==> CategoryKnown(r, MonthDeltas(tx)[i].0, tx.amount.currency)
  {
    var deltas := MonthDeltas(tx);
    for i := 0 to |deltas|
      invariant forall j :: 0 <= j < i ==> CategoryKnown(r, deltas[j].0, tx.amount.currency)
    {
      var slot := deltas[i].0;
      if Blank(slot.categoryId) || slot.categoryId !in r.budget.categories {
        return Err("evidence_category_missing");
      }
      if Lookup(r.budget.facts, slot).None? {
        return Err("evidence_category_fact_missing");
      }
      if Lookup(r.budget.facts, slot).value.currency != tx.amount.currency {
        return Err("evidence_category_currency_mismatch");
      }
    }
    ok := Ok(());
  }

  method CheckEvidenceShape(r: Request, tx: Transaction) returns (ok: Result<()>)
    ensures ok.Ok? <==> EvidenceShape(r, tx)
  {
    hide Identified, StringLt, Live, CurrencyOf, SplitsAddUp, CategoryKnown, MonthDeltas;
    if !Identified(tx) || tx.amount.units == 0 || StringLt(r.today, tx.date) {
      return Err("invalid_evidence_transaction");
    }
    var currency :- CheckLive(r.ledger, tx.accountId);
    if tx.amount.currency != currency {
      return Err("evidence_transaction_currency_mismatch");
    }
    if tx.splits != [] {
      if tx.categoryId.Some? {
        return Err("split_parent_category_must_be_null");
      }
      var added :- CheckSplits(tx.splits, tx.amount, false, "invalid_evidence_split");
    }
    ok := CheckCategories(r, tx);
  }

  lemma {:induction false} CreditTracked(r: Request, p: Progress, tx: Transaction, balances: map<string, Money>, before: seq<Step>)
    requires Progressed(p, r, before) && !Spends(Post(tx)) && TracksBalances(balances, r.ledger, before + [Post(tx)])
    requires PostOverlay(r.ledger, p.balances, tx) == Ok(balances)
    ensures Progressed(p.(balances := balances, seen := SeenStep(p.seen, Post(tx))), r, before + [Post(tx)])
  {
    hide TracksAssignments, TracksBalances, TracksPurse, TracksOutflows, PositiveSends, SpentInAll, SeenAfter, SeenStep;
    BothThen(r.ledger, p.balances, p.assignments, before, Post(tx));
    CountersThen(r.ledger, before, Post(tx));
    OutflowsUntouched(p.outflows, before, Post(tx));
    PurseUntouched(p.purse, r.budget, before, Post(tx));
    KeysThen(r.ledger, before, Post(tx), p.balances, p.assignments);
    hide PostOverlay;
  }

  method CheckEvidence(r: Request, atom: Atom) returns (ok: Result<()>)
    requires Projects(atom)
    ensures ok.Ok? <==> Supported(r, atom)
  {
    hide Blank;
    var b := atom.backing;
    if b.evidenceIds == [] {
      return Err("projection_evidence_required");
    }
    var seen: set<string> := {};
    for i := 0 to |b.evidenceIds|
      invariant seen == set k | 0 <= k < i :: b.evidenceIds[k]
      invariant forall j, k :: 0 <= j < k < i ==> b.evidenceIds[j] != b.evidenceIds[k]
      invariant forall k :: 0 <= k < i ==>
                  !Blank(b.evidenceIds[k]) && r.resolve(b.evidenceIds[k], b.subject).Ok?
                  && r.resolve(b.evidenceIds[k], b.subject) == r.resolve(b.evidenceIds[0], b.subject)
    {
      if Blank(b.evidenceIds[i]) || b.evidenceIds[i] in seen {
        return Err("duplicate_projection_evidence");
      }
      var subject :- r.resolve(b.evidenceIds[i], b.subject);
      if r.resolve(b.evidenceIds[0], b.subject) != Ok(subject) {
        return Err("projection_multiple_event_subjects");
      }
      seen := seen + {b.evidenceIds[i]};
    }
    ok := if r.evidenceSound(atom) then Ok(()) else Err("projection_evidence_mismatch");
  }

  method ValidateCredit(r: Request, p: Progress, atom: Atom, ghost before: seq<Step>) returns (next: Result<Progress>)
    requires atom.EvidenceCredit? && Progressed(p, r, before)
    ensures next.Ok? <==> CreditAccepted(r, before, atom.transaction) && Supported(r, atom)
    ensures next.Ok? ==> Progressed(next.value, r, before + [Post(atom.transaction)])
  {
    hide TracksAssignments, TracksBalances, TracksPurse, TracksOutflows, PostOverlay, SeenAfter, StepReady, PositiveSends, EvidenceShape,
         SpentInAll, Supported;
    var tx := atom.transaction;
    var shape :- CheckEvidenceShape(r, tx);
    if tx.amount.units <= 0 || !Fresh(p.seen, Post(tx)) {
      return Err("invalid_or_duplicate_evidence_credit");
    }
    var evidence :- CheckEvidence(r, atom);
    PostTracked(r.ledger, p.balances, before, tx);
    var balances :- PostOverlay(r.ledger, p.balances, tx);
    CreditTracked(r, p, tx, balances, before);
    next := Ok(p.(balances := balances, seen := SeenStep(p.seen, Post(tx))));
  }

  method ValidateAmendment(r: Request, p: Progress, atom: Atom, ghost before: seq<Step>) returns (next: Result<Progress>)
    requires atom.EvidenceAmendment? && Progressed(p, r, before)
    ensures next.Ok? <==> AmendShape(r, atom.expected, atom.transaction) && OnTarget(r, atom)
    ensures next.Ok? ==> Progressed(next.value, r, before + [Amend(atom.expected, atom.transaction)])
  {
    var tx, expected := atom.transaction, atom.expected;
    Passed(p, r, before, Amend(expected, tx));
    assert p.(seen := SeenStep(p.seen, Amend(expected, tx))) == p;
    hide Progressed, EvidenceShape;
    var shape :- CheckEvidenceShape(r, tx);
    var originalShape :- CheckEvidenceShape(r, Original(expected, tx.correlationId));
    if !SameButCategories(expected, tx) {
      return Err("invalid_evidence_amendment_identity");
    }
    if !KeepsSplitAmounts(expected, tx) {
      return Err("amendment_existing_split_reshape_unsupported");
    }
    if tx.parentId !in RowIds(r.ledger.transactions) {
      return Err("amendment_source_missing");
    }
    if r.ledger.transactions[IndexOf(RowIds(r.ledger.transactions), tx.parentId)] != expected {
      return Err("amendment_source_changed");
    }
    var evidence :- CheckEvidence(r, atom);
    if SubjectOf(r, atom.backing) != expected.parentId {
      return Err("amendment_evidence_target_mismatch");
    }
    next := Ok(p);
  }

  // Wallets and transfers.

  method ValidateWallet(r: Request, p: Progress, walletId: string, name: string, currency: string, ghost before: seq<Step>)
    returns (next: Result<Progress>)
    requires Progressed(p, r, before)
    ensures next.Ok? <==> WalletShape(r, walletId, name, currency) && Fresh(SeenAfter(r.ledger, before), Open(walletId, name, currency))
    ensures next.Ok? ==> Progressed(next.value, r, before + [Open(walletId, name, currency)])
  {
    Passed(p, r, before, Open(walletId, name, currency));
    assert p.seen == SeenAfter(r.ledger, before);
    hide Progressed, SeenAfter, CurrencyConfigured, Blank, ValidCurrency;
    if Blank(walletId) || Blank(name) || !ValidCurrency(currency) || !Fresh(p.seen, Open(walletId, name, currency)) {
      return Err("invalid_or_existing_wallet");
    }
    if !CurrencyConfigured(r.ledger, currency) {
      return Err("wallet_currency_not_configured");
    }
    next := Ok(p.(seen := SeenStep(p.seen, Open(walletId, name, currency))));
  }

  method ValidateTransfer(r: Request, p: Progress, t: TransferIntent, ghost before: seq<Step>) returns (next: Result<Progress>)
    requires Progressed(p, r, before)
    ensures next.Ok? <==> TransferAccepted(r, before, t)
    ensures next.Ok? ==> Progressed(next.value, r, before + [Send(t)])
  {
    hide TracksAssignments, TracksBalances, TracksPurse, TracksOutflows, SendOverlay, SendChecked, OutflowReady, SeenAfter, StepReady,
         Live, CurrencyOf, PositiveSends, SpentInAll, Blank, ValidDate;
    if !TransferNamed(t) || !Fresh(p.seen, Send(t)) {
      return Err("invalid_transfer_intent");
    }
    var source :- CheckLive(r.ledger, t.sourceAccountId);
    var destination :- CheckLive(r.ledger, t.destinationAccountId);
    if source != destination || t.amount.currency != source {
      return Err("transfer_currency_mismatch");
    }
    Outflow.SendTracked(LimitsOf(r), p.outflows, before, t);
    var outflows :- SendChecked(LimitsOf(r), p.outflows, t);
    SendReady(r.ledger, p.balances, before, t);
    var balances :- SendOverlay(r.ledger, p.balances, t);
    Dispatch.SendTracked(r.ledger, p.balances, before, t);
    BothThen(r.ledger, p.balances, p.assignments, before, Send(t));
    CountersThen(r.ledger, before, Send(t));
    PurseUntouched(p.purse, r.budget, before, Send(t));
    KeysThen(r.ledger, before, Send(t), p.balances, p.assignments);
    next := Ok(p.(balances := balances, outflows := outflows, seen := SeenStep(p.seen, Send(t))));
  }
}
