/** What each atom must find in the ledger when its turn comes, read off the original ledger. */
module Dispatch {
  import opened CheckedMoney
  import opened Rows
  import opened Action
  import opened Ordered

  // The meaning: original value plus everything earlier steps moved.

  function AssignmentDelta(step: Step, slot: Slot): int {
    match step
    case Move(m) => if slot == m.destination then m.amount.units else if slot == m.source then -(m.amount.units as int) else 0
    case _ => 0
  }

  function BalanceDelta(step: Step, account: string): int {
    match step
    case Post(tx) => if account == tx.accountId then tx.amount.units else 0
    case Send(t) =>
      if account == t.destinationAccountId then t.amount.units
      else if account == t.sourceAccountId then -(t.amount.units as int) else 0
    case _ => 0
  }

  function AssignmentMoved(steps: seq<Step>, slot: Slot): int {
    if steps == [] then 0
    else AssignmentMoved(steps[..|steps| - 1], slot) + AssignmentDelta(steps[|steps| - 1], slot)
  }

  function BalanceMoved(steps: seq<Step>, account: string): int {
    if steps == [] then 0
    else BalanceMoved(steps[..|steps| - 1], account) + BalanceDelta(steps[|steps| - 1], account)
  }

  function AssignedAfter(ledger: Capture, steps: seq<Step>, slot: Slot): int
    requires slot in KeysOf(ledger.assignments)
  {
    Lookup(ledger.assignments, slot).value.units + AssignmentMoved(steps, slot)
  }

  function BalanceAfter(ledger: Capture, steps: seq<Step>, account: string): int
    requires account in KeysOf(ledger.accounts)
  {
    Lookup(ledger.accounts, account).value.units + BalanceMoved(steps, account)
  }

  ghost predicate AssignmentIn(ledger: Capture, slot: Slot, currency: string) {
    slot in KeysOf(ledger.assignments) && Lookup(ledger.assignments, slot).value.currency == currency
  }

  ghost predicate AccountIn(ledger: Capture, account: string, currency: string) {
    account in KeysOf(ledger.accounts) && Lookup(ledger.accounts, account).value.currency == currency
  }

  /** The targets exist in the step's currency, and the values it leaves are representable. */
  ghost predicate StepReady(ledger: Capture, before: seq<Step>, step: Step) {
    match step
    case Move(m) =>
      CanNegate(m.amount.units)
      && AssignmentIn(ledger, m.source, m.amount.currency) && AssignmentIn(ledger, m.destination, m.amount.currency)
      && Fits(AssignedAfter(ledger, before, m.source) - m.amount.units)
      && Fits(AssignedAfter(ledger, before, m.destination) + m.amount.units)
    case Post(tx) =>
      AccountIn(ledger, tx.accountId, tx.amount.currency)
      && Fits(BalanceAfter(ledger, before, tx.accountId) + tx.amount.units)
    case Send(t) =>
      AccountIn(ledger, t.sourceAccountId, t.amount.currency)
      && AccountIn(ledger, t.destinationAccountId, t.amount.currency)
      && Fits(BalanceAfter(ledger, before, t.sourceAccountId) - t.amount.units)
      && Fits(BalanceAfter(ledger, before, t.destinationAccountId) + t.amount.units)
    case _ => true
  }

  ghost predicate Dispatchable(ledger: Capture, steps: seq<Step>) {
    forall k :: 0 <= k < |steps| ==> StepReady(ledger, steps[..k], steps[k])
  }

  datatype AssignmentPrecondition = AssignmentPrecondition(amount: Money, postAmount: Money)

  datatype Precondition = Precondition(
    atomIndex: nat, accountBalances: map<string, Money>, assignments: map<Slot, AssignmentPrecondition>)

  predicate Guarded(atom: Atom) {
    atom.Reallocation? || atom.Transfer?
  }

  function Touched(moves: seq<Movement>): set<Slot> {
    (set m | m in moves :: m.source) + (set m | m in moves :: m.destination)
  }

  /** Original value plus the deltas of strictly earlier atoms; the post amount adds this atom's own. */
  ghost predicate Means(ledger: Capture, atoms: seq<Atom>, p: Precondition) {
    p.atomIndex < |atoms|
    && match atoms[p.atomIndex]
       case Reallocation(moves) =>
         ReallocationMeans(ledger, Steps(atoms[..p.atomIndex]), Steps(atoms[..p.atomIndex + 1]), moves, p)
       case Transfer(t) =>
         TransferMeans(ledger, Steps(atoms[..p.atomIndex]), t, p)
       case _ => false
  }

  ghost predicate ReallocationMeans(ledger: Capture, before: seq<Step>, after: seq<Step>, moves: seq<Movement>, p: Precondition) {
    p.accountBalances == map[] && p.assignments.Keys == Touched(moves)
    && forall slot :: slot in p.assignments ==> AssignmentMeans(ledger, before, after, slot, p.assignments[slot])
  }

  ghost predicate TransferMeans(ledger: Capture, before: seq<Step>, t: TransferIntent, p: Precondition) {
    p.assignments == map[] && p.accountBalances.Keys == {t.sourceAccountId, t.destinationAccountId}
    && forall account :: account in p.accountBalances ==> BalanceMeans(ledger, before, account, p.accountBalances[account])
  }

  ghost predicate AssignmentMeans(ledger: Capture, before: seq<Step>, after: seq<Step>, slot: Slot, p: AssignmentPrecondition) {
    slot in KeysOf(ledger.assignments)
    && p.amount.units == AssignedAfter(ledger, before, slot) && p.postAmount.units == AssignedAfter(ledger, after, slot)
    && p.amount.currency == p.postAmount.currency == Lookup(ledger.assignments, slot).value.currency
  }

  ghost predicate BalanceMeans(ledger: Capture, before: seq<Step>, account: string, balance: Money) {
    account in KeysOf(ledger.accounts)
    && balance == Lookup(ledger.accounts, account).value.(units := balance.units)
    && balance.units == BalanceAfter(ledger, before, account)
  }

  /** One entry for each reallocation and each transfer, in atom order. */
  ghost predicate Covers(atoms: seq<Atom>, entries: seq<Precondition>) {
    (forall i, j :: 0 <= i < j < |entries| ==> entries[i].atomIndex < entries[j].atomIndex)
    && (forall i :: 0 <= i < |atoms| && Guarded(atoms[i]) ==> exists j :: 0 <= j < |entries| && entries[j].atomIndex == i)
    && (forall j :: 0 <= j < |entries| ==> entries[j].atomIndex < |atoms| && Guarded(atoms[entries[j].atomIndex]))
  }

  // The planner's form: overlays of running values on the ledger.

  function At<K(==), R>(overlay: map<K, Money>, rows: seq<NamedMoney<K, R>>, k: K): Option<Money> {
    if k in overlay then Some(overlay[k]) else Lookup(rows, k)
  }

  /** The running money at k: the given units, in the currency the ledger holds there. */
  ghost predicate Tracks<K, R>(overlay: map<K, Money>, rows: seq<NamedMoney<K, R>>, k: K, units: int)
    requires k in KeysOf(rows)
  {
    At(overlay, rows, k).value.units == units
    && At(overlay, rows, k).value.currency == Lookup(rows, k).value.currency
  }

  ghost predicate Within<K, R>(overlay: map<K, Money>, rows: seq<NamedMoney<K, R>>) {
    forall k :: k in overlay ==> k in KeysOf(rows)
  }

  ghost predicate TracksAssignments(overlay: map<Slot, Money>, ledger: Capture, steps: seq<Step>) {
    Within(overlay, ledger.assignments)
    && forall k :: k in KeysOf(ledger.assignments) ==>
         Tracks(overlay, ledger.assignments, k, AssignedAfter(ledger, steps, k))
  }

  ghost predicate TracksBalances(overlay: map<string, Money>, ledger: Capture, steps: seq<Step>) {
    Within(overlay, ledger.accounts)
    && forall k :: k in KeysOf(ledger.accounts) ==>
         Tracks(overlay, ledger.accounts, k, BalanceAfter(ledger, steps, k))
  }

  function MoveOverlay(ledger: Capture, overlay: map<Slot, Money>, m: Movement): Result<map<Slot, Money>> {
    var source, destination := At(overlay, ledger.assignments, m.source), At(overlay, ledger.assignments, m.destination);
    if source.None? || destination.None? then Err("assignment_missing") else
    if source.value.currency != m.amount.currency || destination.value.currency != m.amount.currency
    then Err("reallocation_target_changed") else
    var debit :- CheckedNeg(m.amount.units);
    var sourceAfter :- CheckedAdd(source.value.units, debit);
    var destinationAfter :- CheckedAdd(destination.value.units, m.amount.units);
    Ok(overlay[m.source := Money(sourceAfter, m.amount.currency)][m.destination := Money(destinationAfter, m.amount.currency)])
  }

  function PostOverlay(ledger: Capture, overlay: map<string, Money>, tx: Transaction): Result<map<string, Money>> {
    var current := At(overlay, ledger.accounts, tx.accountId);
    if current.None? then Err("ledger_account_missing") else
    if current.value.currency != tx.amount.currency then Err("manual_transaction_currency_or_source_mismatch") else
    var after :- CheckedAdd(current.value.units, tx.amount.units);
    Ok(overlay[tx.accountId := Money(after, current.value.currency)])
  }

  function SendOverlay(ledger: Capture, overlay: map<string, Money>, t: TransferIntent): Result<map<string, Money>> {
    var source, destination := At(overlay, ledger.accounts, t.sourceAccountId), At(overlay, ledger.accounts, t.destinationAccountId);
    if source.None? || destination.None? then Err("ledger_account_missing") else
    if source.value.currency != t.amount.currency || destination.value.currency != t.amount.currency
    then Err("transfer_currency_or_source_mismatch") else
    var sourceAfter :- CheckedSub(source.value.units, t.amount.units);
    var destinationAfter :- CheckedAdd(destination.value.units, t.amount.units);
    Ok(overlay[t.sourceAccountId := Money(sourceAfter, source.value.currency)]
              [t.destinationAccountId := Money(destinationAfter, destination.value.currency)])
  }

  lemma {:induction false} MovedBy(before: seq<Step>, step: Step)
    ensures forall slot :: AssignmentMoved(before + [step], slot) == AssignmentMoved(before, slot) + AssignmentDelta(step, slot)
    ensures forall a :: BalanceMoved(before + [step], a) == BalanceMoved(before, a) + BalanceDelta(step, a)
  {
    assert (before + [step])[..|before|] == before;
  }

  lemma {:induction false} MoveReady(ledger: Capture, overlay: map<Slot, Money>, before: seq<Step>, m: Movement)
    requires TracksAssignments(overlay, ledger, before)
    ensures MoveOverlay(ledger, overlay, m).Ok? <==> StepReady(ledger, before, Move(m))
  {
    if m.source in KeysOf(ledger.assignments) && m.destination in KeysOf(ledger.assignments) {
      assert Tracks(overlay, ledger.assignments, m.source, AssignedAfter(ledger, before, m.source));
      assert Tracks(overlay, ledger.assignments, m.destination, AssignedAfter(ledger, before, m.destination));
    }
  }

  /** One movement shifts the running money of a slot by its delta there and leaves the currency. */
  lemma {:induction false} MoveOverlaid(ledger: Capture, overlay: map<Slot, Money>, m: Movement, slot: Slot)
    requires MoveOverlay(ledger, overlay, m).Ok? && At(overlay, ledger.assignments, slot).Some?
    ensures At(MoveOverlay(ledger, overlay, m).value, ledger.assignments, slot).Some?
    ensures At(MoveOverlay(ledger, overlay, m).value, ledger.assignments, slot).value
            == Money(At(overlay, ledger.assignments, slot).value.units + AssignmentDelta(Move(m), slot), At(overlay, ledger.assignments, slot).value.currency)
  {
    hide Lookup;
  }

  lemma {:induction false} MoveTrackedAt(ledger: Capture, overlay: map<Slot, Money>, before: seq<Step>, m: Movement, slot: Slot)
    requires TracksAssignments(overlay, ledger, before) && slot in KeysOf(ledger.assignments)
    requires MoveOverlay(ledger, overlay, m).Ok?
    ensures Tracks(MoveOverlay(ledger, overlay, m).value, ledger.assignments, slot, AssignedAfter(ledger, before + [Move(m)], slot))
  {
    MovedBy(before, Move(m));
    assert Tracks(overlay, ledger.assignments, slot, AssignedAfter(ledger, before, slot));
    hide AssignmentMoved, TracksAssignments, MoveOverlay, AssignmentDelta;
    MoveOverlaid(ledger, overlay, m, slot);
  }

  lemma {:induction false} MoveTracked(ledger: Capture, overlay: map<Slot, Money>, before: seq<Step>, m: Movement)
    requires TracksAssignments(overlay, ledger, before)
    requires MoveOverlay(ledger, overlay, m).Ok?
    ensures TracksAssignments(MoveOverlay(ledger, overlay, m).value, ledger, before + [Move(m)])
  {
    hide Tracks, AssignedAfter;
    forall slot | slot in KeysOf(ledger.assignments)
      ensures Tracks(MoveOverlay(ledger, overlay, m).value, ledger.assignments, slot, AssignedAfter(ledger, before + [Move(m)], slot))
    {
      MoveTrackedAt(ledger, overlay, before, m, slot);
    }
  }

  lemma {:induction false} PostTracked(ledger: Capture, overlay: map<string, Money>, before: seq<Step>, tx: Transaction)
    requires TracksBalances(overlay, ledger, before)
    ensures PostOverlay(ledger, overlay, tx).Ok? <==> StepReady(ledger, before, Post(tx))
    ensures PostOverlay(ledger, overlay, tx).Ok? ==>
              TracksBalances(PostOverlay(ledger, overlay, tx).value, ledger, before + [Post(tx)])
  {
    MovedBy(before, Post(tx));
    if tx.accountId in KeysOf(ledger.accounts) {
      assert Tracks(overlay, ledger.accounts, tx.accountId, BalanceAfter(ledger, before, tx.accountId));
    }
    if PostOverlay(ledger, overlay, tx).Ok? {
      var next := PostOverlay(ledger, overlay, tx).value;
      forall k | k in KeysOf(ledger.accounts)
        ensures Tracks(next, ledger.accounts, k, BalanceAfter(ledger, before + [Post(tx)], k))
      {
        assert Tracks(overlay, ledger.accounts, k, BalanceAfter(ledger, before, k));
      }
    }
  }

  lemma {:induction false} SendReady(ledger: Capture, overlay: map<string, Money>, before: seq<Step>, t: TransferIntent)
    requires TracksBalances(overlay, ledger, before)
    ensures SendOverlay(ledger, overlay, t).Ok? <==> StepReady(ledger, before, Send(t))
  {
    if t.sourceAccountId in KeysOf(ledger.accounts) && t.destinationAccountId in KeysOf(ledger.accounts) {
      assert Tracks(overlay, ledger.accounts, t.sourceAccountId, BalanceAfter(ledger, before, t.sourceAccountId));
      assert Tracks(overlay, ledger.accounts, t.destinationAccountId, BalanceAfter(ledger, before, t.destinationAccountId));
    }
  }

  lemma {:induction false} SendOverlaid(ledger: Capture, overlay: map<string, Money>, t: TransferIntent, account: string)
    requires SendOverlay(ledger, overlay, t).Ok? && At(overlay, ledger.accounts, account).Some?
    ensures At(SendOverlay(ledger, overlay, t).value, ledger.accounts, account).Some?
    ensures At(SendOverlay(ledger, overlay, t).value, ledger.accounts, account).value
            == Money(At(overlay, ledger.accounts, account).value.units + BalanceDelta(Send(t), account), At(overlay, ledger.accounts, account).value.currency)
  {
    hide Lookup;
  }

  lemma {:induction false} SendTrackedAt(ledger: Capture, overlay: map<string, Money>, before: seq<Step>, t: TransferIntent, account: string)
    requires TracksBalances(overlay, ledger, before) && account in KeysOf(ledger.accounts)
    requires SendOverlay(ledger, overlay, t).Ok?
    ensures Tracks(SendOverlay(ledger, overlay, t).value, ledger.accounts, account, BalanceAfter(ledger, before + [Send(t)], account))
  {
    MovedBy(before, Send(t));
    assert Tracks(overlay, ledger.accounts, account, BalanceAfter(ledger, before, account));
    hide BalanceMoved, TracksBalances, SendOverlay, BalanceDelta;
    SendOverlaid(ledger, overlay, t, account);
  }

  lemma {:induction false} SendTracked(ledger: Capture, overlay: map<string, Money>, before: seq<Step>, t: TransferIntent)
    requires TracksBalances(overlay, ledger, before)
    requires SendOverlay(ledger, overlay, t).Ok?
    ensures TracksBalances(SendOverlay(ledger, overlay, t).value, ledger, before + [Send(t)])
  {
    hide Tracks, BalanceAfter;
    forall account | account in KeysOf(ledger.accounts)
      ensures Tracks(SendOverlay(ledger, overlay, t).value, ledger.accounts, account, BalanceAfter(ledger, before + [Send(t)], account))
    {
      SendTrackedAt(ledger, overlay, before, t, account);
    }
  }

  // Prefixes of an action.

  ghost predicate ReadyFrom(ledger: Capture, before: seq<Step>, steps: seq<Step>) {
    forall k :: 0 <= k < |steps| ==> StepReady(ledger, before + steps[..k], steps[k])
  }

  lemma {:induction false} DispatchableThen(ledger: Capture, before: seq<Step>, steps: seq<Step>)
    ensures Dispatchable(ledger, before + steps) <==> Dispatchable(ledger, before) && ReadyFrom(ledger, before, steps)
  {
    var all := before + steps;
    forall k | 0 <= k < |before|
      ensures all[..k] == before[..k] && all[k] == before[k]
    {
    }
    forall k | 0 <= k < |steps|
      ensures all[..|before| + k] == before + steps[..k] && all[|before| + k] == steps[k]
    {
    }
    if Dispatchable(ledger, all) {
      forall k | 0 <= k < |steps|
        ensures StepReady(ledger, before + steps[..k], steps[k])
      {
        assert StepReady(ledger, all[..|before| + k], all[|before| + k]);
      }
    }
    if Dispatchable(ledger, before) && ReadyFrom(ledger, before, steps) {
      forall k | 0 <= k < |all|
        ensures StepReady(ledger, all[..k], all[k])
      {
        if k >= |before| {
          assert StepReady(ledger, before + steps[..k - |before|], steps[k - |before|]);
        }
      }
    }
  }

  lemma {:induction false} NextAtom(atoms: seq<Atom>, i: nat)
    requires i < |atoms|
    ensures Steps(atoms[..i + 1]) == Steps(atoms[..i]) + StepsOf(atoms[i])
  {
    assert atoms[..i + 1][..i] == atoms[..i];
  }

  lemma {:induction false} StepsSplit(atoms: seq<Atom>, i: nat) returns (rest: seq<Step>)
    requires i <= |atoms|
    ensures Steps(atoms) == Steps(atoms[..i]) + rest
    decreases |atoms| - i
  {
    if i == |atoms| {
      assert atoms[..i] == atoms;
      rest := [];
    } else {
      var inner := StepsSplit(atoms, i + 1);
      NextAtom(atoms, i);
      rest := StepsOf(atoms[i]) + inner;
    }
  }

  lemma {:induction false} NotDispatchable(ledger: Capture, atoms: seq<Atom>, i: nat)
    requires i < |atoms| && !ReadyFrom(ledger, Steps(atoms[..i]), StepsOf(atoms[i]))
    ensures !Dispatchable(ledger, Steps(atoms))
  {
    var rest := StepsSplit(atoms, i + 1);
    NextAtom(atoms, i);
    DispatchableThen(ledger, Steps(atoms[..i]), StepsOf(atoms[i]));
    DispatchableThen(ledger, Steps(atoms[..i + 1]), rest);
  }

  // The loops.

  lemma {:induction false} NextMove(ledger: Capture, overlay: map<Slot, Money>, before: seq<Step>, moves: seq<Movement>, i: nat)
    requires i < |moves| && TracksAssignments(overlay, ledger, before + MoveSteps(moves)[..i])
    ensures var next := MoveOverlay(ledger, overlay, moves[i]);
            (next.Ok? <==> StepReady(ledger, before + MoveSteps(moves)[..i], MoveSteps(moves)[i]))
            && (next.Ok? ==> TracksAssignments(next.value, ledger, before + MoveSteps(moves)[..i + 1]))
  {
    var earlier := before + MoveSteps(moves)[..i];
    MoveReady(ledger, overlay, earlier, moves[i]);
    if MoveOverlay(ledger, overlay, moves[i]).Ok? {
      MoveTracked(ledger, overlay, earlier, moves[i]);
      assert before + MoveSteps(moves)[..i + 1] == earlier + [Move(moves[i])];
    }
  }

  method DispatchMoves(ledger: Capture, overlay: map<Slot, Money>, moves: seq<Movement>, ghost before: seq<Step>)
    returns (r: Result<map<Slot, Money>>)
    requires TracksAssignments(overlay, ledger, before)
    ensures r.Ok? <==> ReadyFrom(ledger, before, MoveSteps(moves))
    ensures r.Ok? ==> TracksAssignments(r.value, ledger, before + MoveSteps(moves))
  {
    hide StepReady, TracksAssignments, MoveOverlay;
    var running := overlay;
    assert before + MoveSteps(moves)[..0] == before;
    for i := 0 to |moves|
      invariant TracksAssignments(running, ledger, before + MoveSteps(moves)[..i])
      invariant forall k :: 0 <= k < i ==> StepReady(ledger, before + MoveSteps(moves)[..k], MoveSteps(moves)[k])
    {
      NextMove(ledger, running, before, moves, i);
      running :- MoveOverlay(ledger, running, moves[i]);
    }
    assert MoveSteps(moves)[..|moves|] == MoveSteps(moves);
    r := Ok(running);
  }

  lemma {:induction false} ReadyMovesExist(ledger: Capture, before: seq<Step>, moves: seq<Movement>)
    requires ReadyFrom(ledger, before, MoveSteps(moves))
    ensures forall slot :: slot in Touched(moves) ==> slot in KeysOf(ledger.assignments)
  {
    forall m | m in moves
      ensures m.source in KeysOf(ledger.assignments) && m.destination in KeysOf(ledger.assignments)
    {
      var i :| 0 <= i < |moves| && moves[i] == m;
      assert StepReady(ledger, before + MoveSteps(moves)[..i], MoveSteps(moves)[i]);
    }
  }

  /** The assignment entry of one reallocation, from the running values before and after it. */
  method ReallocationEntry(ledger: Capture, overlay: map<Slot, Money>, moves: seq<Movement>, atomIndex: nat, ghost before: seq<Step>)
    returns (r: Result<(Precondition, map<Slot, Money>)>)
    requires TracksAssignments(overlay, ledger, before)
    ensures r.Ok? <==> ReadyFrom(ledger, before, MoveSteps(moves))
    ensures r.Ok? ==> TracksAssignments(r.value.1, ledger, before + MoveSteps(moves))
    ensures r.Ok? ==>
              r.value.0.atomIndex == atomIndex
              && ReallocationMeans(ledger, before, before + MoveSteps(moves), moves, r.value.0)
  {
    var targets := Touched(moves);
    if exists slot :: slot in targets && At(overlay, ledger.assignments, slot).None? {
      if ReadyFrom(ledger, before, MoveSteps(moves)) {
        ReadyMovesExist(ledger, before, moves);
      }
      return Err("assignment_missing");
    }
    var next := DispatchMoves(ledger, overlay, moves, before);
    if next.Err? {
      return Err(next.error);
    }
    var after := next.value;
    ReadyMovesExist(ledger, before, moves);
    assert forall slot :: slot in targets ==> slot in KeysOf(ledger.assignments)
                                              && Tracks(overlay, ledger.assignments, slot, AssignedAfter(ledger, before, slot))
                                              && Tracks(after, ledger.assignments, slot, AssignedAfter(ledger, before + MoveSteps(moves), slot));
    var entries := map slot | slot in targets ::
      AssignmentPrecondition(At(overlay, ledger.assignments, slot).value, At(after, ledger.assignments, slot).value);
    r := Ok((Precondition(atomIndex, map[], entries), after));
  }

  lemma {:induction false} BalancesFound(ledger: Capture, overlay: map<string, Money>, t: TransferIntent, before: seq<Step>)
    requires TracksBalances(overlay, ledger, before) && StepReady(ledger, before, Send(t))
    ensures forall a :: a in {t.sourceAccountId, t.destinationAccountId} ==>
              At(overlay, ledger.accounts, a).Some? && BalanceMeans(ledger, before, a, At(overlay, ledger.accounts, a).value)
  {
    forall a | a in {t.sourceAccountId, t.destinationAccountId}
      ensures Tracks(overlay, ledger.accounts, a, BalanceAfter(ledger, before, a))
    {
    }
  }

  /** The balance entry of one transfer. */
  method TransferEntry(ledger: Capture, overlay: map<string, Money>, t: TransferIntent, atomIndex: nat, ghost before: seq<Step>)
    returns (r: Result<(Precondition, map<string, Money>)>)
    requires TracksBalances(overlay, ledger, before)
    ensures r.Ok? <==> StepReady(ledger, before, Send(t))
    ensures r.Ok? ==> TracksBalances(r.value.1, ledger, before + [Send(t)])
    ensures r.Ok? ==>
              r.value.0.atomIndex == atomIndex && TransferMeans(ledger, before, t, r.value.0)
  {
    hide TracksBalances, StepReady, BalanceMeans;
    SendReady(ledger, overlay, before, t);
    var next := SendOverlay(ledger, overlay, t);
    if next.Err? {
      return Err(next.error);
    }
    SendTracked(ledger, overlay, before, t);
    BalancesFound(ledger, overlay, t, before);
    var balances := map a | a in {t.sourceAccountId, t.destinationAccountId} :: At(overlay, ledger.accounts, a).value;
    r := Ok((Precondition(atomIndex, balances, map[]), next.value));
  }

  lemma {:induction false} OneStep(ledger: Capture, before: seq<Step>, step: Step)
    ensures ReadyFrom(ledger, before, [step]) <==> StepReady(ledger, before, step)
  {
    assert before + [step][..0] == before;
  }

  /** An atom's own effect on the overlays: the entry it needs, if any, and the running values after it. */
  datatype AtomDispatch = AtomDispatch(
    entries: seq<Precondition>, balances: map<string, Money>, assignments: map<Slot, Money>)

  ghost predicate TracksBoth(ledger: Capture, balances: map<string, Money>, assignments: map<Slot, Money>, steps: seq<Step>) {
    TracksBalances(balances, ledger, steps) && TracksAssignments(assignments, ledger, steps)
  }

  lemma {:induction false} NothingMoved(steps: seq<Step>, more: seq<Step>)
    ensures (forall i :: 0 <= i < |more| ==> !more[i].Move?) ==>
              forall slot :: AssignmentMoved(steps + more, slot) == AssignmentMoved(steps, slot)
    ensures (forall i :: 0 <= i < |more| ==> !more[i].Post? && !more[i].Send?) ==>
              forall a :: BalanceMoved(steps + more, a) == BalanceMoved(steps, a)
    decreases |more|
  {
    if more == [] {
      assert steps + more == steps;
    } else {
      NothingMoved(steps, more[..|more| - 1]);
      MovedBy(steps + more[..|more| - 1], more[|more| - 1]);
      assert steps + more == steps + more[..|more| - 1] + [more[|more| - 1]];
    }
  }

  lemma {:induction false} AssignmentsUntouched(ledger: Capture, assignments: map<Slot, Money>, steps: seq<Step>, more: seq<Step>)
    requires TracksAssignments(assignments, ledger, steps)
    requires forall i :: 0 <= i < |more| ==> !more[i].Move?
    ensures TracksAssignments(assignments, ledger, steps + more)
  {
    NothingMoved(steps, more);
    forall k | k in KeysOf(ledger.assignments)
      ensures Tracks(assignments, ledger.assignments, k, AssignedAfter(ledger, steps + more, k))
    {
      assert Tracks(assignments, ledger.assignments, k, AssignedAfter(ledger, steps, k));
    }
  }

  lemma {:induction false} BalancesUntouched(ledger: Capture, balances: map<string, Money>, steps: seq<Step>, more: seq<Step>)
    requires TracksBalances(balances, ledger, steps)
    requires forall i :: 0 <= i < |more| ==> !more[i].Post? && !more[i].Send?
    ensures TracksBalances(balances, ledger, steps + more)
  {
    NothingMoved(steps, more);
    forall k | k in KeysOf(ledger.accounts)
      ensures Tracks(balances, ledger.accounts, k, BalanceAfter(ledger, steps + more, k))
    {
      assert Tracks(balances, ledger.accounts, k, BalanceAfter(ledger, steps, k));
    }
  }

  method DispatchPosted(ledger: Capture, balances: map<string, Money>, assignments: map<Slot, Money>, tx: Transaction, ghost before: seq<Step>)
    returns (r: Result<AtomDispatch>)
    requires TracksBoth(ledger, balances, assignments, before)
    ensures r.Ok? <==> StepReady(ledger, before, Post(tx))
    ensures r.Ok? ==> r.value.entries == [] && TracksBoth(ledger, r.value.balances, r.value.assignments, before + [Post(tx)])
  {
    PostTracked(ledger, balances, before, tx);
    AssignmentsUntouched(ledger, assignments, before, [Post(tx)]);
    hide StepReady, TracksBalances, TracksAssignments, PostOverlay;
    var next :- PostOverlay(ledger, balances, tx);
    r := Ok(AtomDispatch([], next, assignments));
  }

  method DispatchReallocation(ledger: Capture, balances: map<string, Money>, assignments: map<Slot, Money>,
                              moves: seq<Movement>, i: nat, ghost before: seq<Step>)
    returns (r: Result<AtomDispatch>)
    requires TracksBoth(ledger, balances, assignments, before)
    ensures r.Ok? <==> ReadyFrom(ledger, before, MoveSteps(moves))
    ensures r.Ok? ==> TracksBoth(ledger, r.value.balances, r.value.assignments, before + MoveSteps(moves))
    ensures r.Ok? ==>
              |r.value.entries| == 1 && r.value.entries[0].atomIndex == i
              && ReallocationMeans(ledger, before, before + MoveSteps(moves), moves, r.value.entries[0])
  {
    hide ReadyFrom, TracksAssignments, TracksBalances, ReallocationMeans;
    var entry :- ReallocationEntry(ledger, assignments, moves, i, before);
    BalancesUntouched(ledger, balances, before, MoveSteps(moves));
    r := Ok(AtomDispatch([entry.0], balances, entry.1));
  }

  method DispatchTransfer(ledger: Capture, balances: map<string, Money>, assignments: map<Slot, Money>,
                          t: TransferIntent, i: nat, ghost before: seq<Step>)
    returns (r: Result<AtomDispatch>)
    requires TracksBoth(ledger, balances, assignments, before)
    ensures r.Ok? <==> StepReady(ledger, before, Send(t))
    ensures r.Ok? ==> TracksBoth(ledger, r.value.balances, r.value.assignments, before + [Send(t)])
    ensures r.Ok? ==>
              |r.value.entries| == 1 && r.value.entries[0].atomIndex == i
              && TransferMeans(ledger, before, t, r.value.entries[0])
  {
    hide StepReady, TracksAssignments, TracksBalances, TransferMeans;
    var entry :- TransferEntry(ledger, balances, t, i, before);
    AssignmentsUntouched(ledger, assignments, before, [Send(t)]);
    r := Ok(AtomDispatch([entry.0], entry.1, assignments));
  }

  method DispatchAtom(ledger: Capture, balances: map<string, Money>, assignments: map<Slot, Money>, atoms: seq<Atom>, i: nat)
    returns (r: Result<AtomDispatch>)
    requires i < |atoms| && TracksBoth(ledger, balances, assignments, Steps(atoms[..i]))
    ensures r.Ok? <==> ReadyFrom(ledger, Steps(atoms[..i]), StepsOf(atoms[i]))
    ensures r.Ok? ==> TracksBoth(ledger, r.value.balances, r.value.assignments, Steps(atoms[..i + 1]))
    ensures r.Ok? ==> |r.value.entries| == if Guarded(atoms[i]) then 1 else 0
    ensures r.Ok? && Guarded(atoms[i]) ==> r.value.entries[0].atomIndex == i && Means(ledger, atoms, r.value.entries[0])
  {
    hide StepReady, ReadyFrom, TracksBoth, ReallocationMeans, TransferMeans, Steps;
    ghost var before := Steps(atoms[..i]);
    NextAtom(atoms, i);
    match atoms[i] {
      case Reallocation(moves) =>
        r := DispatchReallocation(ledger, balances, assignments, moves, i, before);
      case ManualTransaction(tx) =>
        OneStep(ledger, before, Post(tx));
        r := DispatchPosted(ledger, balances, assignments, tx, before);
      case EvidenceProjection(tx, _) =>
        OneStep(ledger, before, Post(tx));
        r := DispatchPosted(ledger, balances, assignments, tx, before);
      case EvidenceCredit(tx, _) =>
        OneStep(ledger, before, Post(tx));
        r := DispatchPosted(ledger, balances, assignments, tx, before);
      case Transfer(t) =>
        OneStep(ledger, before, Send(t));
        r := DispatchTransfer(ledger, balances, assignments, t, i, before);
      case _ =>
        ReadyTrivially(ledger, before, StepsOf(atoms[i]));
        BothUntouched(ledger, balances, assignments, before, StepsOf(atoms[i]));
        r := Ok(AtomDispatch([], balances, assignments));
    }
  }

  lemma {:induction false} BothUntouched(ledger: Capture, balances: map<string, Money>, assignments: map<Slot, Money>,
                      before: seq<Step>, steps: seq<Step>)
    requires TracksBoth(ledger, balances, assignments, before)
    requires forall k :: 0 <= k < |steps| ==> steps[k].Amend? || steps[k].Open?
    ensures TracksBoth(ledger, balances, assignments, before + steps)
  {
    AssignmentsUntouched(ledger, assignments, before, steps);
    BalancesUntouched(ledger, balances, before, steps);
  }

  lemma {:induction false} ReadyTrivially(ledger: Capture, before: seq<Step>, steps: seq<Step>)
    requires forall k :: 0 <= k < |steps| ==> steps[k].Amend? || steps[k].Open?
    ensures ReadyFrom(ledger, before, steps)
  {
  }

  ghost predicate AllMean(ledger: Capture, atoms: seq<Atom>, entries: seq<Precondition>) {
    forall p :: p in entries ==> Means(ledger, atoms, p)
  }

  /** The entries found for the first i atoms. */
  ghost predicate CoversUpTo(atoms: seq<Atom>, i: nat, entries: seq<Precondition>)
    requires i <= |atoms|
  {
    Covers(atoms[..i], entries)
  }

  lemma {:induction false} CoversNext(atoms: seq<Atom>, i: nat, entries: seq<Precondition>, more: seq<Precondition>)
    requires i < |atoms| && CoversUpTo(atoms, i, entries)
    requires |more| == if Guarded(atoms[i]) then 1 else 0
    requires Guarded(atoms[i]) ==> more[0].atomIndex == i
    ensures CoversUpTo(atoms, i + 1, entries + more)
  {
    var all := entries + more;
    forall k | 0 <= k < i + 1 && Guarded(atoms[k])
      ensures exists j :: 0 <= j < |all| && all[j].atomIndex == k
    {
      if k < i {
        assert atoms[..i][k] == atoms[k];
        var j :| 0 <= j < |entries| && entries[j].atomIndex == k;
        assert all[j].atomIndex == k;
      } else {
        assert all[|entries|].atomIndex == k;
      }
    }
  }

  lemma {:induction false} NextDispatched(ledger: Capture, atoms: seq<Atom>, i: nat, entries: seq<Precondition>, more: seq<Precondition>)
    requires i < |atoms| && CoversUpTo(atoms, i, entries) && AllMean(ledger, atoms, entries) && Dispatchable(ledger, Steps(atoms[..i]))
    requires ReadyFrom(ledger, Steps(atoms[..i]), StepsOf(atoms[i]))
    requires |more| == if Guarded(atoms[i]) then 1 else 0
    requires Guarded(atoms[i]) ==> more[0].atomIndex == i && Means(ledger, atoms, more[0])
    ensures CoversUpTo(atoms, i + 1, entries + more) && AllMean(ledger, atoms, entries + more) && Dispatchable(ledger, Steps(atoms[..i + 1]))
  {
    hide Dispatchable, ReadyFrom, CoversUpTo, Means, Steps, StepsOf;
    NextAtom(atoms, i);
    DispatchableThen(ledger, Steps(atoms[..i]), StepsOf(atoms[i]));
    CoversNext(atoms, i, entries, more);
  }

  lemma {:induction false} NothingDispatched(ledger: Capture, atoms: seq<Atom>)
    ensures TracksBoth(ledger, map[], map[], Steps(atoms[..0]))
    ensures Dispatchable(ledger, Steps(atoms[..0])) && CoversUpTo(atoms, 0, []) && AllMean(ledger, atoms, [])
  {
  }

  lemma {:induction false} AllDispatched(ledger: Capture, atoms: seq<Atom>, entries: seq<Precondition>)
    requires CoversUpTo(atoms, |atoms|, entries) && AllMean(ledger, atoms, entries)
    ensures IsDispatch(ledger, atoms, entries)
  {
    hide Covers, Means;
    assert atoms[..|atoms|] == atoms;
  }

  /**
   * The dispatch preconditions of an action. They exist exactly when every step's targets are in the
   * ledger in its currency and every running value is representable; each then equals the original
   * value plus the deltas of strictly earlier atoms.
   */
  method DispatchPreconditions(ledger: Capture, atoms: seq<Atom>) returns (r: Result<seq<Precondition>>)
    ensures r.Ok? <==> Dispatchable(ledger, Steps(atoms))
    ensures r.Ok? ==> IsDispatch(ledger, atoms, r.value)
  {
    hide TracksBoth, CoversUpTo, AllMean, IsDispatch, Means, Dispatchable, ReadyFrom, Steps, StepsOf;
    var balances, assignments: map<Slot, Money>, entries: seq<Precondition> := map[], map[], [];
    NothingDispatched(ledger, atoms);
    for i := 0 to |atoms|
      invariant TracksBoth(ledger, balances, assignments, Steps(atoms[..i]))
      invariant Dispatchable(ledger, Steps(atoms[..i]))
      invariant CoversUpTo(atoms, i, entries) && AllMean(ledger, atoms, entries)
    {
      var next := DispatchAtom(ledger, balances, assignments, atoms, i);
      if next.Err? {
        NotDispatchable(ledger, atoms, i);
        return Err(next.error);
      }
      NextDispatched(ledger, atoms, i, entries, next.value.entries);
      balances, assignments, entries := next.value.balances, next.value.assignments, entries + next.value.entries;
    }
    assert atoms[..|atoms|] == atoms;
    AllDispatched(ledger, atoms, entries);
    r := Ok(entries);
  }

  ghost predicate IsDispatch(ledger: Capture, atoms: seq<Atom>, entries: seq<Precondition>) {
    Covers(atoms, entries) && forall p :: p in entries ==> Means(ledger, atoms, p)
  }

  function AtomIndex(p: Precondition): int {
    p.atomIndex
  }

  lemma {:induction false} SameReallocation(ledger: Capture, before: seq<Step>, after: seq<Step>, moves: seq<Movement>, p: Precondition, q: Precondition)
    requires ReallocationMeans(ledger, before, after, moves, p) && ReallocationMeans(ledger, before, after, moves, q)
    requires p.atomIndex == q.atomIndex
    ensures p == q
  {
    forall slot | slot in p.assignments
      ensures slot in q.assignments && p.assignments[slot] == q.assignments[slot]
    {
      assert slot in q.assignments.Keys;
      assert AssignmentMeans(ledger, before, after, slot, p.assignments[slot]);
      assert AssignmentMeans(ledger, before, after, slot, q.assignments[slot]);
    }
    assert p.assignments == q.assignments;
  }

  lemma {:induction false} SameTransfer(ledger: Capture, before: seq<Step>, t: TransferIntent, p: Precondition, q: Precondition)
    requires TransferMeans(ledger, before, t, p) && TransferMeans(ledger, before, t, q)
    requires p.atomIndex == q.atomIndex
    ensures p == q
  {
    forall a | a in p.accountBalances
      ensures a in q.accountBalances && p.accountBalances[a] == q.accountBalances[a]
    {
      assert a in q.accountBalances.Keys;
      assert BalanceMeans(ledger, before, a, p.accountBalances[a]);
      assert BalanceMeans(ledger, before, a, q.accountBalances[a]);
    }
    assert p.accountBalances == q.accountBalances;
  }

  lemma {:induction false} MeaningUnique(ledger: Capture, atoms: seq<Atom>, p: Precondition, q: Precondition)
    requires Means(ledger, atoms, p) && Means(ledger, atoms, q) && p.atomIndex == q.atomIndex
    ensures p == q
  {
    hide Steps, ReallocationMeans, TransferMeans;
    if atoms[p.atomIndex].Reallocation? {
      SameReallocation(ledger, Steps(atoms[..p.atomIndex]), Steps(atoms[..p.atomIndex + 1]), atoms[p.atomIndex].moves, p, q);
    } else {
      SameTransfer(ledger, Steps(atoms[..p.atomIndex]), atoms[p.atomIndex].transfer, p, q);
    }
  }

  /** Every value a dispatchable action passes through is representable. */
  lemma {:induction false} AlwaysRepresentable(ledger: Capture, steps: seq<Step>)
    requires Dispatchable(ledger, steps)
    ensures forall slot :: slot in KeysOf(ledger.assignments) ==> Fits(AssignedAfter(ledger, steps, slot))
    ensures forall a :: a in KeysOf(ledger.accounts) ==> Fits(BalanceAfter(ledger, steps, a))
    decreases |steps|
  {
    if steps != [] {
      var front, last := steps[..|steps| - 1], steps[|steps| - 1];
      assert steps == front + [last];
      DispatchableThen(ledger, front, [last]);
      OneStep(ledger, front, last);
      hide Dispatchable, ReadyFrom;
      AlwaysRepresentable(ledger, front);
      MovedBy(front, last);
    }
  }

  /** The meaning determines the list, so replanning from the same ledger repeats it entry for entry. */
  lemma {:induction false} PreconditionsUnique(ledger: Capture, atoms: seq<Atom>, a: seq<Precondition>, b: seq<Precondition>)
    requires IsDispatch(ledger, atoms, a) && IsDispatch(ledger, atoms, b)
    ensures a == b
  {
    var ai, bi := IdsBy(AtomIndex, a), IdsBy(AtomIndex, b);
    forall x: int
      ensures x in ai <==> x in bi
    {
      SameIndexes(atoms, a, b, x);
      SameIndexes(atoms, b, a, x);
    }
    IntsOrdered();
    AscendingUnique(IntLt, ai, bi);
    forall k | 0 <= k < |a|
      ensures a[k] == b[k]
    {
      assert ai[k] == bi[k];
      MeaningUnique(ledger, atoms, a[k], b[k]);
    }
  }

  lemma {:induction false} SameIndexes(atoms: seq<Atom>, a: seq<Precondition>, b: seq<Precondition>, x: int)
    requires Covers(atoms, a) && Covers(atoms, b)
    ensures x in IdsBy(AtomIndex, a) ==> x in IdsBy(AtomIndex, b)
  {
    if x in IdsBy(AtomIndex, a) {
      var i :| 0 <= i < |a| && IdsBy(AtomIndex, a)[i] == x;
      var j :| 0 <= j < |b| && b[j].atomIndex == a[i].atomIndex;
      assert IdsBy(AtomIndex, b)[j] == x;
    }
  }
}
