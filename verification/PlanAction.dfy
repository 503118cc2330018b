/** A whole action: which requests plan, and what the plan promises about the ledger afterwards. */
module PlanAction {
  import opened CheckedMoney
  import opened Rows
  import opened Text
  import opened Action
  import opened Sums
  import opened Outflow
  import opened Dispatch
  import opened Targets
  import opened Envelopes
  import opened Planner
  import opened Derive

  // The card's approved reallocation paths against the proposed ones.

  function KeyOfMove(m: Movement): PathKey {
    PathKey(m.source, m.destination, m.amount.currency)
  }

  function PathLines(moves: seq<Movement>): (r: seq<(PathKey, i64)>)
    ensures |r| == |moves| && forall i :: 0 <= i < |r| ==> r[i] == (KeyOfMove(moves[i]), moves[i].amount.units)
  {
    seq(|moves|, i requires 0 <= i < |moves| => (KeyOfMove(moves[i]), moves[i].amount.units))
  }

  ghost predicate SameTotals<K(!new)>(a: seq<(K, i64)>, b: seq<(K, i64)>) {
    KeysIn(a) == KeysIn(b) && forall k :: SumFor(a, k) == SumFor(b, k)
  }

  /** Path by path, the action moves exactly what the card approved. */
  ghost predicate PathsCovered(approved: seq<(PathKey, i64)>, proposed: seq<(PathKey, i64)>) {
    Positive(approved) && RunsFit(approved, |approved|) && RunsFit(proposed, |proposed|) && SameTotals(approved, proposed)
  }

  lemma {:induction false} TalliesEqual<K(!new)>(m: map<K, i64>, n: map<K, i64>, a: seq<(K, i64)>, b: seq<(K, i64)>)
    requires Tallies(m, a) && Tallies(n, b)
    ensures m == n <==> SameTotals(a, b)
  {
    hide SumFor, Total, SumMap;
    if SameTotals(a, b) {
      forall k | k in m
        ensures k in n && m[k] == n[k]
      {
        assert k in n.Keys;
        assert Left(m, k) == SumFor(a, k) && Left(n, k) == SumFor(b, k);
      }
      assert m == n;
    }
  }

  method TallyApproved(lines: seq<(PathKey, i64)>) returns (r: Result<map<PathKey, i64>>)
    ensures r.Ok? <==> Positive(lines) && RunsFit(lines, |lines|)
    ensures r.Ok? ==> Tallies(r.value, lines)
  {
    hide Tallies, RunsFit, Left;
    var m: map<PathKey, i64> := map[];
    TallyStart(lines);
    for i := 0 to |lines|
      invariant Tallies(m, lines[..i]) && RunsFit(lines, i)
      invariant forall j :: 0 <= j < i ==> lines[j].1 >= 1
    {
      if lines[i].1 <= 0 {
        return Err("reallocation_funding_path_invalid");
      }
      TallyNext(lines, i, m);
      var after := CheckedAdd(Left(m, lines[i].0), lines[i].1);
      if after.Err? {
        RunsFitPrefix(lines, i + 1);
        return Err(after.error);
      }
      m := m[lines[i].0 := after.value];
    }
    assert lines[..|lines|] == lines;
    r := Ok(m);
  }

  method CheckCoverage(approved: seq<(PathKey, i64)>, atoms: seq<Atom>) returns (r: Result<()>)
    ensures r.Ok? <==> PathsCovered(approved, PathLines(Moves(atoms)))
  {
    hide Tallies, RunsFit, SameTotals, Positive;
    var left :- TallyApproved(approved);
    var right :- Tally(PathLines(Moves(atoms)));
    TalliesEqual(left, right, approved, PathLines(Moves(atoms)));
    r := if left != right then Err("reallocation_not_native_funding_path") else Ok(());
  }

  // The card's charges.

  function Units(charges: map<string, Money>): map<string, i64> {
    map id | id in charges :: charges[id].units
  }

  /** Positive charges in the cart's currency that add up to its total. */
  ghost predicate ChargesAddUp(charges: map<string, Money>, total: Money) {
    (forall id :: id in charges ==> !Blank(id) && charges[id].units > 0 && charges[id].currency == total.currency)
    && SumMap(Units(charges)) == total.units
  }

  ghost predicate ChargesSound(r: Request) {
    r.cartTotal.units > 0 && ValidCurrency(r.cartTotal.currency)
    && ChargesAddUp(r.accountCharges, r.cartTotal) && ChargesAddUp(r.budget.charges, r.cartTotal)
  }

  method CheckCharges(charges: map<string, Money>, total: Money) returns (r: Result<()>)
    ensures r.Ok? <==> ChargesAddUp(charges, total)
  {
    hide Blank;
    if exists id :: id in charges && (Blank(id) || charges[id].units <= 0) {
      return Err("invalid_or_duplicate_decision_card_charge");
    }
    if exists id :: id in charges && charges[id].currency != total.currency {
      return Err("decision_card_charge_currency_mismatch");
    }
    var sum :- SumValues(Units(charges));
    r := if sum != total.units then Err("decision_card_charge_total_mismatch") else Ok(());
  }

  method CardCharges(r: Request) returns (ok: Result<()>)
    ensures ok.Ok? <==> ChargesSound(r)
  {
    hide ChargesAddUp, ValidCurrency;
    if !ValidCurrency(r.cartTotal.currency) {
      return Err("invalid_currency");
    }
    if r.cartTotal.units <= 0 {
      return Err("invalid_decision_card_total");
    }
    var accounts :- CheckCharges(r.accountCharges, r.cartTotal);
    ok := CheckCharges(r.budget.charges, r.cartTotal);
  }

  /** Equal sizes and every charge met exactly. */
  predicate ChargeMatches(charges: map<string, Money>, actual: map<string, i64>) {
    |charges| == |actual| && forall id :: id in charges ==> id in actual && actual[id] == charges[id].units
  }

  lemma {:induction false} MatchIsEquality(charges: map<string, Money>, actual: map<string, i64>)
    requires forall id :: id in actual ==> actual[id] > 0
    requires forall id :: id in charges ==> charges[id].units > 0
    ensures ChargeMatches(charges, actual) <==> forall id :: Left(actual, id) == if id in charges then charges[id].units else 0
  {
    if ChargeMatches(charges, actual) {
      assert charges.Keys <= actual.Keys;
      SameSize(charges.Keys, actual.Keys);
    }
    if forall id :: Left(actual, id) == if id in charges then charges[id].units else 0 {
      forall id
        ensures id in charges <==> id in actual
      {
        assert Left(actual, id) == if id in charges then charges[id].units else 0;
      }
      assert charges.Keys == actual.Keys;
      assert |charges| == |charges.Keys| && |actual| == |actual.Keys|;
    }
  }

  lemma {:induction false} SameSize<T>(a: set<T>, b: set<T>)
    requires a <= b && |a| == |b|
    ensures a == b
  {
    assert |b - a| == |b| - |a|;
  }

  /** Once anything is bought, the action buys exactly the cart: in all, account by account, category by category. */
  ghost predicate CartBought(r: Request, steps: seq<Step>) {
    SpentInAll(steps) > 0 ==>
      SpentInAll(steps) == r.cartTotal.units
      && (forall a :: Spent(steps, a) == if a in r.accountCharges then r.accountCharges[a].units else 0)
      && forall id :: CategorySpent(steps, id) == if id in r.budget.charges then r.budget.charges[id].units else 0
  }

  // The whole action.

  predicate Buys(atom: Atom) {
    atom.ManualTransaction? || atom.EvidenceProjection?
  }

  /** Every piece of evidence resolves to one economic event. */
  predicate Resolves(r: Request, atom: Atom) {
    Projects(atom) ==> forall id :: id in atom.backing.evidenceIds ==> r.resolve(id, atom.backing.subject).Ok?
  }

  /** The economic events an atom projects. */
  function SubjectsOf(r: Request, atom: Atom): set<string>
    requires Resolves(r, atom)
  {
    if Projects(atom) then set id | id in atom.backing.evidenceIds :: r.resolve(id, atom.backing.subject).value else {}
  }

  /** No economic event is projected by two atoms. */
  ghost predicate SubjectsApart(r: Request, atoms: seq<Atom>) {
    (forall i :: 0 <= i < |atoms| ==> Resolves(r, atoms[i]))
    && forall i, j :: 0 <= i < j < |atoms| ==> SubjectsOf(r, atoms[i]) * SubjectsOf(r, atoms[j]) == {}
  }

  method ResolveSubjects(r: Request, atom: Atom) returns (subjects: Result<set<string>>)
    ensures subjects.Ok? <==> Resolves(r, atom)
    ensures subjects.Ok? ==> subjects.value == SubjectsOf(r, atom)
  {
    if !Projects(atom) {
      return Ok({});
    }
    var found: set<string> := {};
    for i := 0 to |atom.backing.evidenceIds|
      invariant forall k :: 0 <= k < i ==> r.resolve(atom.backing.evidenceIds[k], atom.backing.subject).Ok?
      invariant found == set k | 0 <= k < i :: r.resolve(atom.backing.evidenceIds[k], atom.backing.subject).value
    {
      var subject :- r.resolve(atom.backing.evidenceIds[i], atom.backing.subject);
      found := found + {subject};
    }
    subjects := Ok(found);
  }

  method CheckSubjects(r: Request, atoms: seq<Atom>) returns (ok: Result<()>)
    ensures ok.Ok? <==> SubjectsApart(r, atoms)
  {
    hide Resolves, SubjectsOf;
    var seen: set<string> := {};
    for i := 0 to |atoms|
      invariant forall k :: 0 <= k < i ==> Resolves(r, atoms[k]) && SubjectsOf(r, atoms[k]) <= seen
      invariant forall s :: s in seen ==> exists k :: 0 <= k < i && s in SubjectsOf(r, atoms[k])
      invariant forall j, k :: 0 <= j < k < i ==> SubjectsOf(r, atoms[j]) * SubjectsOf(r, atoms[k]) == {}
    {
      var subjects :- ResolveSubjects(r, atoms[i]);
      if subjects * seen != {} {
        var twice :| twice in subjects * seen;
        var k :| 0 <= k < i && twice in SubjectsOf(r, atoms[k]);
        assert twice in SubjectsOf(r, atoms[k]) * SubjectsOf(r, atoms[i]);
        return Err("economic_event_projected_more_than_once");
      }
      forall k | 0 <= k < i
        ensures SubjectsOf(r, atoms[k]) * SubjectsOf(r, atoms[i]) == {}
      {
        assert SubjectsOf(r, atoms[k]) * subjects <= subjects * seen == {};
      }
      seen := seen + subjects;
    }
    ok := Ok(());
  }

  ghost predicate AtomsAccepted(r: Request, atoms: seq<Atom>) {
    forall i :: 0 <= i < |atoms| ==> AtomAccepted(r, Steps(atoms[..i]), atoms[i])
  }

  /** What a request must meet for its action to plan. */
  ghost predicate Plannable(r: Request, atoms: seq<Atom>) {
    SubjectsApart(r, atoms) && Dispatchable(r.ledger, Steps(atoms))
    && ((exists atom :: atom in atoms && Buys(atom)) ==> r.hasCard && ChargesSound(r))
    && ((exists atom :: atom in atoms && atom.Reallocation?) ==> PathsCovered(r.approved, PathLines(Moves(atoms))))
    && AtomsAccepted(r, atoms) && CartBought(r, Steps(atoms))
  }

  method ValidateMoves(r: Request, p: Progress, moves: seq<Movement>, ghost before: seq<Step>) returns (next: Result<Progress>)
    requires Progressed(p, r, before)
    ensures next.Ok? <==> MovesAccepted(r, before, moves)
    ensures next.Ok? ==> Progressed(next.value, r, before + MoveSteps(moves))
  {
    hide Progressed, MoveAccepted;
    var running := p;
    assert before + MoveSteps(moves)[..0] == before;
    for i := 0 to |moves|
      invariant Progressed(running, r, before + MoveSteps(moves)[..i])
      invariant forall k :: 0 <= k < i ==> MoveAccepted(r, before + MoveSteps(moves)[..k], moves[k])
    {
      running :- ValidateReallocation(r, running, moves[i], before + MoveSteps(moves)[..i]);
      assert before + MoveSteps(moves)[..i + 1] == before + MoveSteps(moves)[..i] + [Move(moves[i])];
    }
    assert MoveSteps(moves)[..|moves|] == MoveSteps(moves);
    next := Ok(running);
  }

  method ValidateAtom(r: Request, p: Progress, atom: Atom, ghost before: seq<Step>) returns (next: Result<Progress>)
    requires Progressed(p, r, before)
    ensures next.Ok? <==> AtomAccepted(r, before, atom)
    ensures next.Ok? ==> Progressed(next.value, r, before + StepsOf(atom))
  {
    hide Progressed, MovesAccepted, ManualAccepted, CreditAccepted, TransferAccepted, AmendShape, WalletShape, Fresh, Supported;
    match atom {
      case Reallocation(moves) =>
        if !r.hasCard {
          return Err("decision_card_required_for_reallocation");
        }
        if r.outcome != "safe_with_reallocation" {
          return Err("reallocation_not_safe_in_decision_card");
        }
        if moves == [] {
          return Err("reallocation_empty");
        }
        next := ValidateMoves(r, p, moves, before);
      case ManualTransaction(tx) =>
        next := ValidatePurchase(r, p, tx, before);
      case EvidenceProjection(tx, _) =>
        next := ValidatePurchase(r, p, tx, before);
        if next.Ok? {
          var evidence :- CheckEvidence(r, atom);
        }
      case EvidenceCredit(tx, _) =>
        next := ValidateCredit(r, p, atom, before);
      case EvidenceAmendment(expected, tx, _) =>
        next := ValidateAmendment(r, p, atom, before);
      case WalletMaterialization(walletId, name, currency) =>
        next := ValidateWallet(r, p, walletId, name, currency, before);
      case Transfer(t) =>
        next := ValidateTransfer(r, p, t, before);
    }
  }

  method ValidatePurchase(r: Request, p: Progress, tx: Transaction, ghost before: seq<Step>) returns (next: Result<Progress>)
    requires Progressed(p, r, before)
    ensures next.Ok? <==> PaymentReady(r) && ManualAccepted(r, before, tx)
    ensures next.Ok? ==> Progressed(next.value, r, before + [Post(tx)])
  {
    hide Progressed, ManualAccepted;
    if !r.hasCard {
      return Err("decision_card_required_for_transaction");
    }
    if !PaymentReady(r) {
      return Err("payment_route_not_ready");
    }
    next := ValidateManual(r, p, tx, before);
  }

  // What only purchases can do.

  lemma {:induction false} NoSpending(before: seq<Step>, more: seq<Step>)
    requires forall k :: 0 <= k < |more| ==> !Spends(more[k])
    ensures SpentInAll(before + more) == SpentInAll(before)
    decreases |more|
  {
    if more == [] {
      assert before + more == before;
    } else {
      assert (before + more)[..|before + more| - 1] == before + more[..|more| - 1];
      NoSpending(before, more[..|more| - 1]);
    }
  }

  lemma {:induction false} QuietAtom(r: Request, before: seq<Step>, atom: Atom)
    requires AtomAccepted(r, before, atom) && !Buys(atom)
    ensures SpentInAll(before + StepsOf(atom)) == SpentInAll(before)
  {
    hide MovesAccepted, TransferAccepted, AmendShape, WalletShape, Fresh, SpentInAll, EvidenceShape, StepReady;
    NoSpending(before, StepsOf(atom));
  }

  lemma {:induction false} SomethingBought(r: Request, atoms: seq<Atom>, i: nat)
    requires i <= |atoms| && AtomsAccepted(r, atoms) && SpentInAll(Steps(atoms[..i])) > 0
    ensures exists atom :: atom in atoms && Buys(atom)
  {
    hide AtomAccepted;
    if i > 0 && !Buys(atoms[i - 1]) {
      NextAtom(atoms, i - 1);
      assert AtomAccepted(r, Steps(atoms[..i - 1]), atoms[i - 1]);
      QuietAtom(r, Steps(atoms[..i - 1]), atoms[i - 1]);
      SomethingBought(r, atoms, i - 1);
    }
  }

  // The result.

  /** The plan's own postconditions on assignments and balances, and its dispatch preconditions. */
  datatype Derived = Derived(assignments: map<Slot, Money>, balances: map<string, Money>, dispatch: seq<Precondition>)

  /** One entry per touched target, at its original value plus everything the whole action moves. */
  ghost predicate Promises(r: Request, atoms: seq<Atom>, d: Derived) {
    var steps := Steps(atoms);
    IsDispatch(r.ledger, atoms, d.dispatch)
    && d.assignments.Keys == MovedSlots(steps)
    && d.balances.Keys == PaidAccounts(steps) + (if exists atom :: atom in atoms && atom.Reallocation?
                                                 then set a | a in KeysOf(r.ledger.accounts) else {})
    && (forall slot :: slot in d.assignments ==>
          slot in KeysOf(r.ledger.assignments)
          && d.assignments[slot] == Lookup(r.ledger.assignments, slot).value.(units := d.assignments[slot].units)
          && d.assignments[slot].units == AssignedAfter(r.ledger, steps, slot))
    && forall a :: a in d.balances ==>
         a in KeysOf(r.ledger.accounts)
         && d.balances[a] == Lookup(r.ledger.accounts, a).value.(units := d.balances[a].units)
         && d.balances[a].units == BalanceAfter(r.ledger, steps, a)
  }

  lemma {:induction false} AssignmentsPromised(p: Progress, r: Request, steps: seq<Step>, slot: Slot)
    requires TracksAssignments(p.assignments, r.ledger, steps) && slot in p.assignments
    ensures slot in KeysOf(r.ledger.assignments)
    ensures p.assignments[slot] == Lookup(r.ledger.assignments, slot).value.(units := p.assignments[slot].units)
    ensures p.assignments[slot].units == AssignedAfter(r.ledger, steps, slot)
  {
    assert Tracks(p.assignments, r.ledger.assignments, slot, AssignedAfter(r.ledger, steps, slot));
  }

  lemma {:induction false} BalancePromised(balances: map<string, Money>, r: Request, steps: seq<Step>, a: string)
    requires TracksBalances(balances, r.ledger, steps) && a in KeysOf(r.ledger.accounts)
    ensures var money := At(balances, r.ledger.accounts, a).value;
            money == Lookup(r.ledger.accounts, a).value.(units := money.units) && money.units == BalanceAfter(r.ledger, steps, a)
  {
    assert Tracks(balances, r.ledger.accounts, a, BalanceAfter(r.ledger, steps, a));
  }

  /** After any reallocation every account's balance is pinned, touched or not. */
  function PinnedBalances(ledger: Capture, balances: map<string, Money>, all: bool): map<string, Money> {
    if all then (map a | a in KeysOf(ledger.accounts) :: At(balances, ledger.accounts, a).value) + balances else balances
  }

  lemma {:induction false} WithinLedger(balances: map<string, Money>, r: Request, steps: seq<Step>)
    requires TracksBalances(balances, r.ledger, steps)
    ensures forall a :: a in balances ==> a in KeysOf(r.ledger.accounts)
  {
  }

  lemma {:induction false} PinnedPromised(balances: map<string, Money>, r: Request, steps: seq<Step>, all: bool, a: string)
    requires TracksBalances(balances, r.ledger, steps) && a in PinnedBalances(r.ledger, balances, all)
    ensures var money := PinnedBalances(r.ledger, balances, all)[a];
            a in KeysOf(r.ledger.accounts)
            && money == Lookup(r.ledger.accounts, a).value.(units := money.units) && money.units == BalanceAfter(r.ledger, steps, a)
  {
    WithinLedger(balances, r, steps);
    BalancePromised(balances, r, steps, a);
    hide TracksBalances, BalanceAfter;
    assert PinnedBalances(r.ledger, balances, all)[a] == At(balances, r.ledger.accounts, a).value;
  }

  lemma {:induction false} PinnedKeys(ledger: Capture, balances: map<string, Money>, all: bool)
    ensures PinnedBalances(ledger, balances, all).Keys == balances.Keys + if all then set a | a in KeysOf(ledger.accounts) else {}
  {
  }

  lemma {:induction false} Promised(p: Progress, r: Request, atoms: seq<Atom>, dispatch: seq<Precondition>)
    requires Progressed(p, r, Steps(atoms)) && IsDispatch(r.ledger, atoms, dispatch)
    ensures var all := exists atom :: atom in atoms && atom.Reallocation?;
            Promises(r, atoms, Derived(p.assignments, PinnedBalances(r.ledger, p.balances, all), dispatch))
  {
    hide TracksPurse, TracksOutflows, PositiveSends, IsDispatch, SeenAfter, AssignedAfter, BalanceAfter, TracksAssignments,
         TracksBalances, PinnedBalances, Steps;
    var steps := Steps(atoms);
    var all := exists atom :: atom in atoms && atom.Reallocation?;
    forall slot | slot in p.assignments
      ensures slot in KeysOf(r.ledger.assignments)
      ensures p.assignments[slot] == Lookup(r.ledger.assignments, slot).value.(units := p.assignments[slot].units)
      ensures p.assignments[slot].units == AssignedAfter(r.ledger, steps, slot)
    {
      AssignmentsPromised(p, r, steps, slot);
    }
    var balances := PinnedBalances(r.ledger, p.balances, all);
    PinnedKeys(r.ledger, p.balances, all);
    forall a | a in balances
      ensures a in KeysOf(r.ledger.accounts)
      ensures balances[a] == Lookup(r.ledger.accounts, a).value.(units := balances[a].units)
      ensures balances[a].units == BalanceAfter(r.ledger, steps, a)
    {
      PinnedPromised(p.balances, r, steps, all, a);
    }
  }

  lemma {:induction false} BoughtMatches(p: Progress, r: Request, steps: seq<Step>)
    requires Progressed(p, r, steps) && (p.manualTotal > 0 ==> ChargesSound(r))
    ensures CartBought(r, steps)
            <==> (p.manualTotal > 0 ==> p.manualTotal == r.cartTotal.units && ChargeMatches(r.accountCharges, p.outflows.spent)
                                        && ChargeMatches(r.budget.charges, p.purse.spent))
  {
    hide TracksBoth, TracksEnvelopes, PositiveSends, SeenAfter, ChargeMatches, Spent, CategorySpent, SpentInAll, SumMap;
    if p.manualTotal > 0 {
      MatchIsEquality(r.accountCharges, p.outflows.spent);
      MatchIsEquality(r.budget.charges, p.purse.spent);
      assert forall a :: Spent(steps, a) == Running(p.outflows.spent, a) == Left(p.outflows.spent, a);
      assert forall id :: CategorySpent(steps, id) == Left(p.purse.spent, id);
    }
  }

  lemma {:induction false} Unstarted(r: Request)
    ensures Progressed(Opened(r), r, [])
  {
  }

  function Opened(r: Request): Progress {
    Progress(map[], map[], Purse(map slot | slot in r.budget.states ::
                                   Envelope(r.budget.states[slot].availability, r.budget.states[slot].availability.units,
                                            r.budget.states[slot].uncommitted.units), map[]),
             Outflows(map[], map[]), 0, SeenIn(r.ledger))
  }

  ghost predicate AcceptedUpTo(r: Request, atoms: seq<Atom>, i: nat)
    requires i <= |atoms|
  {
    (forall k :: 0 <= k < i ==> AtomAccepted(r, Steps(atoms[..k]), atoms[k]))
    && forall k :: 0 <= k < i && atoms[k].Reallocation? ==> PathsCovered(r.approved, PathLines(Moves(atoms)))
  }

  lemma {:induction false} AcceptedNext(r: Request, atoms: seq<Atom>, i: nat)
    requires i < |atoms| && AcceptedUpTo(r, atoms, i) && AtomAccepted(r, Steps(atoms[..i]), atoms[i])
    requires atoms[i].Reallocation? ==> PathsCovered(r.approved, PathLines(Moves(atoms)))
    ensures AcceptedUpTo(r, atoms, i + 1)
  {
    hide AtomAccepted, PathsCovered;
  }

  lemma {:induction false} Refused(r: Request, atoms: seq<Atom>, i: nat)
    requires i < |atoms|
    requires !AtomAccepted(r, Steps(atoms[..i]), atoms[i])
             || (atoms[i].Reallocation? && !PathsCovered(r.approved, PathLines(Moves(atoms))))
    ensures !Plannable(r, atoms)
  {
    hide AtomAccepted, PathsCovered, Dispatchable, ChargesSound, CartBought;
  }

  lemma {:induction false} Accepted(r: Request, atoms: seq<Atom>)
    requires SubjectsApart(r, atoms) && Dispatchable(r.ledger, Steps(atoms)) && AcceptedUpTo(r, atoms, |atoms|)
    requires (exists atom :: atom in atoms && Buys(atom)) ==> r.hasCard && ChargesSound(r)
    ensures Plannable(r, atoms) <==> CartBought(r, Steps(atoms))
  {
    hide AtomAccepted, PathsCovered, Dispatchable, ChargesSound, CartBought;
    if atom :| atom in atoms && atom.Reallocation? {
      var k :| 0 <= k < |atoms| && atoms[k] == atom;
    }
  }

  method ValidateAtoms(r: Request, atoms: seq<Atom>) returns (p: Result<Progress>)
    ensures p.Ok? ==> AcceptedUpTo(r, atoms, |atoms|) && Progressed(p.value, r, Steps(atoms))
    ensures p.Err? ==> !Plannable(r, atoms)
  {
    hide Progressed, AtomAccepted, PathsCovered, AcceptedUpTo, Plannable, Steps, Moves, Opened;
    assert AcceptedUpTo(r, atoms, 0) && Progressed(Opened(r), r, Steps(atoms[..0])) by {
      NothingAccepted(r, atoms);
    }
    var running, covered := Opened(r), false;
    for i := 0 to |atoms|
      invariant AcceptedUpTo(r, atoms, i) && Progressed(running, r, Steps(atoms[..i]))
      invariant covered ==> PathsCovered(r.approved, PathLines(Moves(atoms)))
    {
      if atoms[i].Reallocation? && !covered {
        var paths := CheckCoverage(r.approved, atoms);
        if paths.Err? {
          Refused(r, atoms, i);
          return Err(paths.error);
        }
        covered := true;
      }
      var next := ValidateAtom(r, running, atoms[i], Steps(atoms[..i]));
      if next.Err? {
        Refused(r, atoms, i);
        return Err(next.error);
      }
      AcceptedNext(r, atoms, i);
      NextAtom(atoms, i);
      running := next.value;
    }
    assert atoms[..|atoms|] == atoms;
    p := Ok(running);
  }

  lemma {:induction false} NothingAccepted(r: Request, atoms: seq<Atom>)
    ensures AcceptedUpTo(r, atoms, 0) && Progressed(Opened(r), r, Steps(atoms[..0]))
  {
    Unstarted(r);
  }

  lemma {:induction false} BuyerCharged(r: Request, atoms: seq<Atom>, p: Progress)
    requires Progressed(p, r, Steps(atoms)) && AcceptedUpTo(r, atoms, |atoms|) && p.manualTotal > 0
    ensures exists atom :: atom in atoms && Buys(atom)
  {
    hide AtomAccepted, PathsCovered, TracksBoth, TracksPurse, TracksOutflows;
    assert atoms[..|atoms|] == atoms;
    SomethingBought(r, atoms, |atoms|);
  }

  /**
   * Plan the action. It succeeds exactly on plannable requests, and its postconditions are the original
   * values plus everything the action moves, agreeing with the dispatch preconditions computed beside them.
   */
  method DeriveAction(r: Request, atoms: seq<Atom>) returns (d: Result<Derived>)
    ensures d.Ok? <==> Plannable(r, atoms)
    ensures d.Ok? ==> Promises(r, atoms, d.value)
  {
    hide Progressed, AcceptedUpTo, Promises, SubjectsApart, ChargesSound, CartBought, Dispatchable, IsDispatch, AtomsAccepted, PathsCovered,
         Steps, Moves, ChargeMatches, PinnedBalances;
    var subjects :- CheckSubjects(r, atoms);
    var dispatch :- DispatchPreconditions(r.ledger, atoms);
    var buys := exists atom :: atom in atoms && Buys(atom);
    if buys {
      if !r.hasCard {
        return Err("decision_card_required_for_transaction");
      }
      var charges :- CardCharges(r);
    }
    var p :- ValidateAtoms(r, atoms);
    if p.manualTotal > 0 {
      BuyerCharged(r, atoms, p);
    }
    BoughtMatches(p, r, Steps(atoms));
    Accepted(r, atoms);
    if p.manualTotal > 0
       && (p.manualTotal != r.cartTotal.units || !ChargeMatches(r.accountCharges, p.outflows.spent)
           || !ChargeMatches(r.budget.charges, p.purse.spent)) {
      return Err("manual_cart_total_mismatch");
    }
    Promised(p, r, atoms, dispatch);
    d := Ok(Derived(p.assignments, PinnedBalances(r.ledger, p.balances, exists atom :: atom in atoms && atom.Reallocation?), dispatch));
  }
}
