/** Performing a planned action reaches the postconditions the plan states; its change guard is exact. */
module PlanOutcome {
  import opened CheckedMoney
  import opened Rows
  import opened Action
  import opened Ordered
  import opened Outflow
  import opened Dispatch
  import opened Targets
  import opened Undo
  import opened Donors
  import opened Planner
  import opened PlanAction
  import opened PlanLaws

  // One step's effect on the first row with a key.

  /** The money at a key moved by an amount, in the same currency. */
  ghost predicate Carried<K, R>(before: seq<NamedMoney<K, R>>, after: seq<NamedMoney<K, R>>, k: K, delta: int)
    requires k in KeysOf(before)
  {
    k in KeysOf(after)
    && Lookup(after, k).value.currency == Lookup(before, k).value.currency
    && Lookup(after, k).value.units == Lookup(before, k).value.units + delta
  }

  lemma {:induction false} ShiftMoves<K, R>(before: seq<NamedMoney<K, R>>, after: seq<NamedMoney<K, R>>, deltas: seq<(K, i64)>, k: K)
    requires k in KeysOf(before) && Shifted(before, after, deltas)
    ensures Carried(before, after, k, SumFor(deltas, k))
  {
    assert KeysOf(before) == KeysOf(after);
    assert before[IndexOf(KeysOf(before), k)].key == k;
  }

  lemma {:induction false} FirstIndex<K>(keys: seq<K>, k: K, i: nat)
    requires i < |keys| && keys[i] == k && forall j :: 0 <= j < i ==> keys[j] != k
    ensures k in keys && IndexOf(keys, k) == i
  {
  }

  lemma {:induction false} InsertKeeps<K, R>(before: seq<NamedMoney<K, R>>, after: seq<NamedMoney<K, R>>, row: NamedMoney<K, R>, k: K)
    requires k in KeysOf(before) && row.key !in KeysOf(before) && Inserted(before, after, row)
    ensures Carried(before, after, k, 0)
  {
    var p :| 0 <= p <= |before| && after == InsertAt(before, p, row);
    var i := IndexOf(KeysOf(before), k);
    assert before[i].key == k && KeysOf(before)[i] == k;
    var at := if i < p then i else i + 1;
    forall j | 0 <= j < at
      ensures KeysOf(after)[j] != k
    {
      assert j != p ==> after[j] == before[if j < p then j else j - 1];
      assert j < p ==> KeysOf(before)[j] == after[j].key;
      assert j > p ==> KeysOf(before)[j - 1] == after[j].key;
    }
    FirstIndex(KeysOf(after), k, at);
  }

  lemma {:induction false} SumOfTwo<K>(k: K, x: i64, l: K, y: i64, at: K)
    ensures SumFor([(k, x)], at) == if at == k then x else 0
    ensures SumFor([(k, x), (l, y)], at) == (if at == k then x else 0) + (if at == l then y else 0)
  {
    assert [(k, x), (l, y)] == [(k, x)] + [(l, y)];
    SumForConcat([(k, x)], [(l, y)], at);
  }

  lemma {:induction false} SumOfMove(m: Movement, slot: Slot)
    requires CanNegate(m.amount.units)
    ensures SumFor(MoveDeltas(m), slot) == AssignmentDelta(Move(m), slot)
  {
    SumOfTwo(m.source, Neg(m.amount.units), m.destination, m.amount.units, slot);
    SumOfTwo(m.destination, m.amount.units, m.destination, 0, slot);
    hide SumFor;
  }

  lemma {:induction false} SumOfSend(t: TransferIntent, a: string)
    requires CanNegate(t.amount.units)
    ensures SumFor(SendDeltas(t), a) == BalanceDelta(Send(t), a)
  {
    SumOfTwo(t.sourceAccountId, Neg(t.amount.units), t.destinationAccountId, t.amount.units, a);
    SumOfTwo(t.destinationAccountId, t.amount.units, t.destinationAccountId, 0, a);
    hide SumFor;
  }

  lemma {:induction false} StepAssigns(s: Capture, step: Step, t: Capture, slot: Slot)
    requires WellFormed(step) && Effect(s, step, t) && slot in KeysOf(s.assignments)
    ensures Carried(s.assignments, t.assignments, slot, AssignmentDelta(step, slot))
  {
    if step.Move? {
      var m := step.movement;
      assert Shifted(s.assignments, t.assignments, MoveDeltas(m));
      ShiftMoves(s.assignments, t.assignments, MoveDeltas(m), slot);
      SumOfMove(m, slot);
    } else {
      assert t.assignments == s.assignments;
    }
  }

  lemma {:induction false} OpenBalances(s: Capture, walletId: string, name: string, currency: string, t: Capture, a: string)
    requires OpenEffect(s, walletId, name, currency, t) && a in KeysOf(s.accounts)
    ensures Carried(s.accounts, t.accounts, a, 0)
  {
    var id: string, evidence: FactEvidence :|
      id !in KeysOf(s.accounts) && id !in KeysOf(s.accountFacts)
      && Inserted(s.wallets, t.wallets, WalletMapping(walletId, id))
      && Inserted(s.accounts, t.accounts, NamedMoney(id, Money(0, currency), AccountInfo(name, true, false, currency)))
      && Inserted(s.accountFacts, t.accountFacts, NamedMoney(id, Money(0, currency), AccountFactInfo(true, false, currency, evidence)));
    InsertKeeps(s.accounts, t.accounts, NamedMoney(id, Money(0, currency), AccountInfo(name, true, false, currency)), a);
  }

  lemma {:induction false} StepBalances(s: Capture, step: Step, t: Capture, a: string)
    requires WellFormed(step) && Effect(s, step, t) && a in KeysOf(s.accounts)
    ensures Carried(s.accounts, t.accounts, a, BalanceDelta(step, a))
  {
    match step
    case Move(_) => assert t.accounts == s.accounts;
    case Amend(_, _) => assert t.accounts == s.accounts;
    case Open(walletId, name, currency) => OpenBalances(s, walletId, name, currency, t, a);
    case Post(tx) =>
      PostBalances(s, tx, t, a);
    case Send(tr) =>
      assert Shifted(s.accounts, t.accounts, SendDeltas(tr));
      ShiftMoves(s.accounts, t.accounts, SendDeltas(tr), a);
      SumOfSend(tr, a);
  }

  lemma {:induction false} PostBalances(s: Capture, tx: Transaction, t: Capture, a: string)
    requires WellFormed(Post(tx)) && PostEffect(s, tx, t) && a in KeysOf(s.accounts)
    ensures Carried(s.accounts, t.accounts, a, BalanceDelta(Post(tx), a))
  {
    ShiftMoves(s.accounts, t.accounts, [(tx.accountId, tx.amount.units)], a);
    assert SumFor([(tx.accountId, tx.amount.units)], a) == BalanceDelta(Post(tx), a);
  }

  // A whole action's effect.

  lemma {:induction false} MovesAdd<K, R>(a: seq<NamedMoney<K, R>>, b: seq<NamedMoney<K, R>>, c: seq<NamedMoney<K, R>>, k: K, x: int, y: int)
    requires k in KeysOf(a) && Carried(a, b, k, x) && Carried(b, c, k, y)
    ensures Carried(a, c, k, x + y)
  {
  }

  lemma {:induction false} PerformedAssigns(s: Capture, steps: seq<Step>, t: Capture, slot: Slot)
    requires AllWellFormed(steps) && Performed(s, steps, t) && slot in KeysOf(s.assignments)
    ensures Carried(s.assignments, t.assignments, slot, AssignmentMoved(steps, slot))
    decreases |steps|
  {
    if steps != [] {
      var last := steps[|steps| - 1];
      var mid :| Performed(s, Earlier(steps), mid) && Effect(mid, last, t);
      assert Earlier(steps) == steps[..|steps| - 1] && WellFormed(last);
      hide Performed, Effect, WellFormed, Carried, AssignmentDelta;
      PerformedAssigns(s, Earlier(steps), mid, slot);
      assert slot in KeysOf(mid.assignments) by {
        MovedKey(s.assignments, mid.assignments, slot, AssignmentMoved(Earlier(steps), slot));
      }
      StepAssigns(mid, last, t, slot);
      MovesAdd(s.assignments, mid.assignments, t.assignments, slot, AssignmentMoved(Earlier(steps), slot), AssignmentDelta(last, slot));
    }
  }

  lemma {:induction false} MovedKey<K, R>(before: seq<NamedMoney<K, R>>, after: seq<NamedMoney<K, R>>, k: K, delta: int)
    requires k in KeysOf(before) && Carried(before, after, k, delta)
    ensures k in KeysOf(after)
  {
  }

  lemma {:induction false} PerformedBalances(s: Capture, steps: seq<Step>, t: Capture, a: string)
    requires AllWellFormed(steps) && Performed(s, steps, t) && a in KeysOf(s.accounts)
    ensures Carried(s.accounts, t.accounts, a, BalanceMoved(steps, a))
    decreases |steps|
  {
    if steps != [] {
      var last := steps[|steps| - 1];
      var mid :| Performed(s, Earlier(steps), mid) && Effect(mid, last, t);
      assert Earlier(steps) == steps[..|steps| - 1] && WellFormed(last);
      hide Performed, Effect, WellFormed, Carried, BalanceDelta;
      PerformedBalances(s, Earlier(steps), mid, a);
      assert a in KeysOf(mid.accounts) by {
        MovedKey(s.accounts, mid.accounts, a, BalanceMoved(Earlier(steps), a));
      }
      StepBalances(mid, last, t, a);
      MovesAdd(s.accounts, mid.accounts, t.accounts, a, BalanceMoved(Earlier(steps), a), BalanceDelta(last, a));
    }
  }

  /** The observed ledger holds every assignment and balance the plan promised. */
  ghost predicate Kept(d: Derived, t: Capture) {
    (forall slot :: slot in d.assignments ==> Lookup(t.assignments, slot) == Some(d.assignments[slot]))
    && forall a :: a in d.balances ==> Lookup(t.accounts, a) == Some(d.balances[a])
  }

  lemma {:induction false} Reached<K, R>(before: seq<NamedMoney<K, R>>, after: seq<NamedMoney<K, R>>, k: K, delta: int, promised: Money)
    requires k in KeysOf(before) && Carried(before, after, k, delta)
    requires promised == Lookup(before, k).value.(units := promised.units) && promised.units == Lookup(before, k).value.units + delta
    ensures Lookup(after, k) == Some(promised)
  {
  }

  /** The same ledger, whatever is recorded of its accounts beside it. */
  ghost predicate SameBooks(a: Capture, b: Capture) {
    b == a.(accountFacts := b.accountFacts)
  }

  lemma {:induction false} AssignmentReached(r: Request, atoms: seq<Atom>, d: Derived, s: Capture, t: Capture, slot: Slot)
    requires Promises(r, atoms, d) && SameBooks(r.ledger, s) && slot in d.assignments
    requires AllWellFormed(Steps(atoms)) && Performed(s, Steps(atoms), t)
    ensures Lookup(t.assignments, slot) == Some(d.assignments[slot])
  {
    assert slot in KeysOf(r.ledger.assignments) && d.assignments[slot] == Lookup(r.ledger.assignments, slot).value.(units := d.assignments[slot].units)
           && d.assignments[slot].units == AssignedAfter(r.ledger, Steps(atoms), slot);
    hide Promises, Performed, AllWellFormed, Steps;
    PerformedAssigns(s, Steps(atoms), t, slot);
    Reached(s.assignments, t.assignments, slot, AssignmentMoved(Steps(atoms), slot), d.assignments[slot]);
  }

  lemma {:induction false} BalanceReached(r: Request, atoms: seq<Atom>, d: Derived, s: Capture, t: Capture, a: string)
    requires Promises(r, atoms, d) && SameBooks(r.ledger, s) && a in d.balances
    requires AllWellFormed(Steps(atoms)) && Performed(s, Steps(atoms), t)
    ensures Lookup(t.accounts, a) == Some(d.balances[a])
  {
    assert a in KeysOf(r.ledger.accounts) && d.balances[a] == Lookup(r.ledger.accounts, a).value.(units := d.balances[a].units)
           && d.balances[a].units == BalanceAfter(r.ledger, Steps(atoms), a);
    hide Promises, Performed, AllWellFormed, Steps;
    PerformedBalances(s, Steps(atoms), t, a);
    Reached(s.accounts, t.accounts, a, BalanceMoved(Steps(atoms), a), d.balances[a]);
  }

  /**
   * Plan, perform, verify: on any ledger the planned action leads to, every promised assignment and balance
   * is found, and undoing the action restores exactly the ledger it was performed on. What is recorded of the
   * accounts beside that ledger may have changed since planning.
   */
  lemma {:induction false} PlanReached(r: Request, atoms: seq<Atom>, d: Derived, s: Capture, t: Capture)
    requires Plannable(r, atoms) && Promises(r, atoms, d) && AmendmentsNegatable(atoms) && SameBooks(r.ledger, s)
    requires AllWellFormed(Steps(atoms)) && Performed(s, Steps(atoms), t)
    ensures Kept(d, t) && ReverseSteps(t, Steps(atoms)) == Ok(s)
  {
    hide Plannable, Performed, AllWellFormed, ReverseSteps, Steps, AmendmentsNegatable, Promises, Lookup, SameBooks;
    PlanUndone(r, atoms, s, t);
    forall slot | slot in d.assignments
      ensures Lookup(t.assignments, slot) == Some(d.assignments[slot])
    {
      AssignmentReached(r, atoms, d, s, t, slot);
    }
    forall a | a in d.balances
      ensures Lookup(t.accounts, a) == Some(d.balances[a])
    {
      BalanceReached(r, atoms, d, s, t, a);
    }
  }

  // The change guard, for the plan's own conditions.

  /** The assignment postconditions as the plan lists them, in slot order. */
  function Conditions(assignments: map<Slot, Money>, slots: seq<Slot>): (r: seq<Condition>)
    requires forall i :: 0 <= i < |slots| ==> slots[i] in assignments
    ensures |r| == |slots| && forall i :: 0 <= i < |r| ==> r[i] == Condition(slots[i], assignments[slots[i]])
  {
    seq(|slots|, i requires 0 <= i < |slots| => Condition(slots[i], assignments[slots[i]]))
  }

  lemma {:induction false} ConditionsCollected(assignments: map<Slot, Money>, slots: seq<Slot>)
    requires forall i :: 0 <= i < |slots| ==> slots[i] in assignments
    requires forall i, j :: 0 <= i < j < |slots| ==> slots[i] != slots[j]
    ensures var e := ExpectedAfter(Conditions(assignments, slots));
            e.Some? && (forall slot :: slot in e.value <==> slot in slots)
            && forall slot :: slot in e.value ==> e.value[slot] == assignments[slot].units
  {
    if slots != [] {
      var front, last := slots[..|slots| - 1], slots[|slots| - 1];
      ConditionsCollected(assignments, front);
      assert Conditions(assignments, slots)[..|slots| - 1] == Conditions(assignments, front);
      assert slots == front + [last];
    }
  }

  lemma {:induction false} SlotsAreTouched(steps: seq<Step>)
    ensures MovedSlots(steps) == Touched(StepMoves(steps))
  {
    if steps != [] {
      var front, last := steps[..|steps| - 1], steps[|steps| - 1];
      SlotsAreTouched(front);
      TouchedThen(StepMoves(front), last);
    }
  }

  lemma {:induction false} TouchedThen(moves: seq<Movement>, step: Step)
    ensures Touched(moves + if step.Move? then [step.movement] else []) == Touched(moves) + SlotsOf(step)
  {
    if step.Move? {
      assert forall m :: m in moves + [step.movement] <==> m in moves || m == step.movement;
    } else {
      assert moves + [] == moves;
    }
  }

  lemma {:induction false} PlanBuilt(r: Request, atoms: seq<Atom>, d: Derived, slots: seq<Slot>)
    requires Promises(r, atoms, d) && (forall slot :: slot in slots <==> slot in d.assignments)
    requires forall i, j :: 0 <= i < j < |slots| ==> slots[i] != slots[j]
    ensures BuiltFrom(r.ledger, atoms, Conditions(d.assignments, slots))
  {
    hide IsDispatch, AssignedAfter, BalanceAfter, Steps;
    assert forall i :: 0 <= i < |slots| ==> slots[i] in slots;
    ConditionsCollected(d.assignments, slots);
    SlotsAreTouched(Steps(atoms));
    MovesAreStepMoves(atoms);
    var e := ExpectedAfter(Conditions(d.assignments, slots)).value;
    assert e.Keys == d.assignments.Keys;
  }

  lemma {:induction false} AtomDistinct(r: Request, before: seq<Step>, atom: Atom)
    requires AtomAccepted(r, before, atom)
    ensures DistinctMoves(StepsOf(atom))
  {
    if atom.Reallocation? {
      forall k | 0 <= k < |atom.moves|
        ensures atom.moves[k].source != atom.moves[k].destination
      {
        assert MoveAccepted(r, before + MoveSteps(atom.moves)[..k], atom.moves[k]);
      }
    }
    hide AtomAccepted;
  }

  lemma {:induction false} DistinctConcat(a: seq<Step>, b: seq<Step>)
    requires DistinctMoves(a) && DistinctMoves(b)
    ensures DistinctMoves(a + b)
  {
  }

  lemma {:induction false} PrefixDistinct(r: Request, atoms: seq<Atom>, i: nat)
    requires i <= |atoms| && AtomsAccepted(r, atoms)
    ensures DistinctMoves(Steps(atoms[..i]))
  {
    if i > 0 {
      hide AtomAccepted, Steps, AtomsAccepted, DistinctMoves;
      AcceptedAt(r, atoms, i - 1);
      PrefixDistinct(r, atoms, i - 1);
      NextAtom(atoms, i - 1);
      AtomDistinct(r, Steps(atoms[..i - 1]), atoms[i - 1]);
      DistinctConcat(Steps(atoms[..i - 1]), StepsOf(atoms[i - 1]));
    }
  }

  function PlanConditions(d: Derived): seq<Condition> {
    SlotsOrdered();
    Conditions(d.assignments, Listing(SlotLt, d.assignments.Keys))
  }

  lemma {:induction false} ListedOnce(slots: seq<Slot>)
    requires StrictOrder(SlotLt) && Ascending(SlotLt, slots)
    ensures forall i, j :: 0 <= i < j < |slots| ==> slots[i] != slots[j]
  {
    hide SlotLt;
  }

  lemma {:induction false} PlanDistinct(r: Request, atoms: seq<Atom>)
    requires Plannable(r, atoms)
    ensures Dispatchable(r.ledger, Steps(atoms)) && DistinctMoves(Steps(atoms))
  {
    hide AtomsAccepted, Dispatchable, DistinctMoves, ChargesSound, CartBought, PathsCovered, Steps;
    PrefixDistinct(r, atoms, |atoms|);
    assert atoms[..|atoms|] == atoms;
  }

  /** The change guard of a planned action fires exactly when a slot it moves is gone or holds other minor units. */
  lemma {:induction false} PlanGuardExact(r: Request, atoms: seq<Atom>, d: Derived, observed: Capture)
    requires Plannable(r, atoms) && Promises(r, atoms, d)
    ensures Changed(atoms, PlanConditions(d), observed)
            <==> exists slot :: slot in Touched(Moves(atoms)) && UnitsAt(observed, slot) != UnitsAt(r.ledger, slot)
  {
    PlanDistinct(r, atoms);
    hide Plannable, Dispatchable, DistinctMoves, Promises, Changed, BuiltFrom, Steps, Moves, SlotLt;
    SlotsOrdered();
    ListedOnce(Listing(SlotLt, d.assignments.Keys));
    PlanBuilt(r, atoms, d, Listing(SlotLt, d.assignments.Keys));
    TargetsChangedExactly(r.ledger, atoms, PlanConditions(d), observed);
  }

  // Outflow limits of a planned action.

  ghost predicate OutflowsFrom(l: Limits, before: seq<Step>, steps: seq<Step>) {
    forall k :: 0 <= k < |steps| ==>
      OutflowReady(l, before + steps[..k], steps[k]) && (steps[k].Send? ==> steps[k].transfer.amount.units > 0)
  }

  lemma {:induction false} AtomOutflows(r: Request, before: seq<Step>, atom: Atom)
    requires AtomAccepted(r, before, atom)
    ensures OutflowsFrom(LimitsOf(r), before, StepsOf(atom))
  {
    hide MovesAccepted, StepReady, SeenAfter, EvidenceShape, SpentInAll, AmendShape, WalletShape, PurchaseShape;
    assert before + StepsOf(atom)[..0] == before;
  }

  lemma {:induction false} OutflowsThen(l: Limits, before: seq<Step>, steps: seq<Step>)
    requires OutflowsReady(l, before) && PositiveSends(before) && OutflowsFrom(l, before, steps)
    ensures OutflowsReady(l, before + steps) && PositiveSends(before + steps)
  {
    hide OutflowReady;
    var all := before + steps;
    forall k | 0 <= k < |all|
      ensures OutflowReady(l, all[..k], all[k]) && (all[k].Send? ==> all[k].transfer.amount.units > 0)
    {
      if k < |before| {
        assert all[..k] == before[..k];
      } else {
        assert all[..k] == before + steps[..k - |before|];
      }
    }
  }

  lemma {:induction false} PrefixOutflows(r: Request, atoms: seq<Atom>, i: nat)
    requires i <= |atoms| && AtomsAccepted(r, atoms)
    ensures OutflowsReady(LimitsOf(r), Steps(atoms[..i])) && PositiveSends(Steps(atoms[..i]))
  {
    if i > 0 {
      hide AtomAccepted, Steps, AtomsAccepted, OutflowsReady, PositiveSends, OutflowsFrom, LimitsOf;
      AcceptedAt(r, atoms, i - 1);
      PrefixOutflows(r, atoms, i - 1);
      NextAtom(atoms, i - 1);
      AtomOutflows(r, Steps(atoms[..i - 1]), atoms[i - 1]);
      OutflowsThen(LimitsOf(r), Steps(atoms[..i - 1]), StepsOf(atoms[i - 1]));
    }
  }

  /**
   * At every prefix of a planned action each transfer source keeps its spending plus sending within its
   * capacity and each buying account within its charge, and so would any other order of the same steps.
   */
  lemma {:induction false} PlanOutflowsBounded(r: Request, atoms: seq<Atom>, k: nat, other: seq<Step>)
    requires Plannable(r, atoms) && k <= |Steps(atoms)|
    ensures Bounded(LimitsOf(r), Steps(atoms)[..k])
    ensures multiset(other) == multiset(Steps(atoms)) ==> OutflowsReady(LimitsOf(r), other)
  {
    PlanOutflows(r, atoms);
    hide Plannable, OutflowsReady, PositiveSends, Bounded, Steps, LimitsOf;
    EveryPrefixBounded(LimitsOf(r), Steps(atoms), k);
    if multiset(other) == multiset(Steps(atoms)) {
      OrderIndependent(LimitsOf(r), Steps(atoms), other);
    }
  }

  lemma {:induction false} PlanOutflows(r: Request, atoms: seq<Atom>)
    requires Plannable(r, atoms)
    ensures OutflowsReady(LimitsOf(r), Steps(atoms)) && PositiveSends(Steps(atoms))
  {
    hide AtomsAccepted, Dispatchable, OutflowsReady, PositiveSends, ChargesSound, CartBought, PathsCovered, Steps, LimitsOf;
    PrefixOutflows(r, atoms, |atoms|);
    assert atoms[..|atoms|] == atoms;
  }
}
