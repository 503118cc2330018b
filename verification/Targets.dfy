/** Deciding before dispatch whether an assignment the plan moves is no longer what it was. */
module Targets {
  import opened CheckedMoney
  import opened Rows
  import opened Action
  import opened Dispatch

  /** One expected assignment after the whole action. */
  datatype Condition = Condition(slot: Slot, amount: Money)

  type Expected = map<Slot, i64>

  /** The conditions as a map, or nothing when two of them name one slot. */
  function ExpectedAfter(conditions: seq<Condition>): Option<Expected> {
    if conditions == [] then Some(map[])
    else
      var last := conditions[|conditions| - 1];
      match ExpectedAfter(conditions[..|conditions| - 1])
      case None => None
      case Some(e) => if last.slot in e then None else Some(e[last.slot := last.amount.units])
  }

  function UnwindMove(expected: Expected, m: Movement): Option<Expected> {
    if m.source == m.destination || m.source !in expected then None else
    if !Fits(expected[m.source] + m.amount.units) || m.destination !in expected then None else
    if !Fits(expected[m.destination] - m.amount.units) then None else
    Some(expected[m.source := expected[m.source] + m.amount.units]
                 [m.destination := expected[m.destination] - m.amount.units])
  }

  /** The movements taken back out, the last first. */
  function Unwind(expected: Expected, moves: seq<Movement>): Option<Expected>
    decreases |moves|
  {
    if moves == [] then Some(expected)
    else
      match UnwindMove(expected, moves[|moves| - 1])
      case None => None
      case Some(e) => Unwind(e, moves[..|moves| - 1])
  }

  function MovesOf(atom: Atom): seq<Movement> {
    if atom.Reallocation? then atom.moves else []
  }

  function Moves(atoms: seq<Atom>): seq<Movement> {
    if atoms == [] then [] else Moves(atoms[..|atoms| - 1]) + MovesOf(atoms[|atoms| - 1])
  }

  function UnitsAt(ledger: Capture, slot: Slot): Option<i64> {
    match Lookup(ledger.assignments, slot)
    case None => None
    case Some(money) => Some(money.units)
  }

  function Get(expected: Expected, slot: Slot): Option<i64> {
    if slot in expected then Some(expected[slot]) else None
  }

  predicate Differs(expected: Expected, ledger: Capture, m: Movement) {
    UnitsAt(ledger, m.source) != Get(expected, m.source) || UnitsAt(ledger, m.destination) != Get(expected, m.destination)
  }

  predicate Changed(atoms: seq<Atom>, conditions: seq<Condition>, ledger: Capture) {
    var after := ExpectedAfter(conditions);
    if after.None? then true else
    var before := Unwind(after.value, Moves(atoms));
    before.None? || exists m :: m in Moves(atoms) && Differs(before.value, ledger, m)
  }

  method CollectConditions(conditions: seq<Condition>) returns (r: Option<Expected>)
    ensures r == ExpectedAfter(conditions)
  {
    var expected: Expected := map[];
    for i := 0 to |conditions|
      invariant ExpectedAfter(conditions[..i]) == Some(expected)
    {
      assert conditions[..i + 1][..i] == conditions[..i];
      if conditions[i].slot in expected {
        NoneFurther(conditions, i + 1);
        return None;
      }
      expected := expected[conditions[i].slot := conditions[i].amount.units];
    }
    assert conditions[..|conditions|] == conditions;
    r := Some(expected);
  }

  lemma {:induction false} NoneFurther(conditions: seq<Condition>, i: nat)
    requires i <= |conditions| && ExpectedAfter(conditions[..i]).None?
    ensures ExpectedAfter(conditions).None?
    decreases |conditions| - i
  {
    if i < |conditions| {
      assert conditions[..i + 1][..i] == conditions[..i];
      NoneFurther(conditions, i + 1);
    } else {
      assert conditions[..i] == conditions;
    }
  }

  method UnwindMoves(expected: Expected, moves: seq<Movement>) returns (r: Option<Expected>)
    ensures r == Unwind(expected, moves)
  {
    var e, n := expected, |moves|;
    assert moves[..n] == moves;
    while n > 0
      invariant 0 <= n <= |moves|
      invariant Unwind(expected, moves) == Unwind(e, moves[..n])
    {
      assert moves[..n][..n - 1] == moves[..n - 1];
      var next := UnwindMove(e, moves[n - 1]);
      if next.None? {
        return None;
      }
      e := next.value;
      n := n - 1;
    }
    r := Some(e);
  }

  lemma {:induction false} UnwindAppended(expected: Expected, first: seq<Movement>, second: seq<Movement>)
    ensures Unwind(expected, first + second)
         == match Unwind(expected, second) case None => None case Some(e) => Unwind(e, first)
    decreases |second|
  {
    if second == [] {
      assert first + second == first;
    } else {
      var all := first + second;
      assert all[..|all| - 1] == first + second[..|second| - 1];
      var next := UnwindMove(expected, second[|second| - 1]);
      if next.Some? {
        UnwindAppended(next.value, first, second[..|second| - 1]);
      }
    }
  }

  /** The atoms walked backwards, each reallocation's movements backwards too. */
  method UnwindAtoms(expected: Expected, atoms: seq<Atom>) returns (r: Option<Expected>)
    ensures r == Unwind(expected, Moves(atoms))
  {
    var e, n := expected, |atoms|;
    assert atoms[..n] == atoms;
    while n > 0
      invariant 0 <= n <= |atoms|
      invariant Unwind(expected, Moves(atoms)) == Unwind(e, Moves(atoms[..n]))
    {
      assert atoms[..n][..n - 1] == atoms[..n - 1];
      UnwindAppended(e, Moves(atoms[..n - 1]), MovesOf(atoms[n - 1]));
      if atoms[n - 1].Reallocation? {
        var next := UnwindMoves(e, atoms[n - 1].moves);
        if next.None? {
          return None;
        }
        e := next.value;
      }
      n := n - 1;
    }
    r := Some(e);
  }

  method TargetsChanged(atoms: seq<Atom>, conditions: seq<Condition>, ledger: Capture) returns (changed: bool)
    ensures changed == Changed(atoms, conditions, ledger)
  {
    var after := CollectConditions(conditions);
    if after.None? {
      return true;
    }
    var before := UnwindAtoms(after.value, atoms);
    if before.None? {
      return true;
    }
    var moves := Moves(atoms);
    for i := 0 to |moves|
      invariant forall j :: 0 <= j < i ==> !Differs(before.value, ledger, moves[j])
    {
      if Differs(before.value, ledger, moves[i]) {
        return true;
      }
    }
    changed := false;
  }

  // For a plan's own conditions the answer is exact.

  /** The movements of the first steps of an action. */
  function StepMoves(steps: seq<Step>): seq<Movement> {
    if steps == [] then []
    else
      var last := steps[|steps| - 1];
      StepMoves(steps[..|steps| - 1]) + if last.Move? then [last.movement] else []
  }

  ghost predicate DistinctMoves(steps: seq<Step>) {
    forall k :: 0 <= k < |steps| && steps[k].Move? ==> steps[k].movement.source != steps[k].movement.destination
  }

  ghost predicate Reflects(expected: Expected, source: Capture, steps: seq<Step>) {
    forall slot :: slot in expected ==>
      slot in KeysOf(source.assignments) && expected[slot] == AssignedAfter(source, steps, slot)
  }

  /** The conditions of a plan made from this ledger: one for each slot moved, at its final value. */
  ghost predicate BuiltFrom(source: Capture, atoms: seq<Atom>, conditions: seq<Condition>) {
    ExpectedAfter(conditions).Some?
    && Reflects(ExpectedAfter(conditions).value, source, Steps(atoms))
    && ExpectedAfter(conditions).value.Keys == Touched(Moves(atoms))
  }

  /** What one movement of a dispatchable action does to the value at a slot. */
  lemma {:induction false} MoveShifts(source: Capture, front: seq<Step>, m: Movement, slot: Slot)
    requires Dispatchable(source, front + [Move(m)]) && slot in KeysOf(source.assignments)
    ensures Fits(AssignedAfter(source, front, slot))
    ensures AssignedAfter(source, front + [Move(m)], slot)
         == AssignedAfter(source, front, slot)
            + (if slot == m.destination then m.amount.units else if slot == m.source then -(m.amount.units as int) else 0)
  {
    DispatchableThen(source, front, [Move(m)]);
    AlwaysRepresentable(source, front);
    MovedBy(front, Move(m));
  }

  lemma {:induction false} UnwindOne(source: Capture, expected: Expected, front: seq<Step>, m: Movement)
    requires Dispatchable(source, front + [Move(m)]) && m.source != m.destination
    requires Reflects(expected, source, front + [Move(m)]) && m.source in expected && m.destination in expected
    ensures var next := UnwindMove(expected, m);
            next.Some? && next.value.Keys == expected.Keys && Reflects(next.value, source, front)
  {
    hide Dispatchable, AssignedAfter;
    MoveShifts(source, front, m, m.source);
    MoveShifts(source, front, m, m.destination);
    var next := UnwindMove(expected, m);
    forall slot | slot in expected
      ensures next.value[slot] == AssignedAfter(source, front, slot)
    {
      MoveShifts(source, front, m, slot);
    }
  }

  lemma {:induction false} LastMove(steps: seq<Step>, m: Movement)
    ensures StepMoves(steps + [Move(m)]) == StepMoves(steps) + [m]
    ensures Touched(StepMoves(steps + [Move(m)])) == Touched(StepMoves(steps)) + {m.source, m.destination}
  {
    assert (steps + [Move(m)])[..|steps|] == steps;
    var moves := StepMoves(steps) + [m];
    assert m in moves;
    assert forall x :: x in moves <==> x in StepMoves(steps) || x == m;
  }

  lemma {:induction false} OtherStep(source: Capture, expected: Expected, front: seq<Step>, last: Step)
    requires !last.Move?
    ensures StepMoves(front + [last]) == StepMoves(front)
    ensures Reflects(expected, source, front + [last]) ==> Reflects(expected, source, front)
  {
    assert (front + [last])[..|front|] == front;
    MovedBy(front, last);
  }

  lemma {:induction false} UnwindLast(expected: Expected, moves: seq<Movement>, m: Movement)
    requires UnwindMove(expected, m).Some?
    ensures Unwind(expected, moves + [m]) == Unwind(UnwindMove(expected, m).value, moves)
  {
    assert (moves + [m])[..|moves|] == moves;
  }

  /** The expected values, unwound, are those of the source ledger. */
  ghost predicate Unwinds(source: Capture, expected: Expected, moves: seq<Movement>) {
    var before := Unwind(expected, moves);
    before.Some? && before.value.Keys == expected.Keys && Reflects(before.value, source, [])
  }

  lemma {:induction false} UnwindStep(source: Capture, expected: Expected, front: seq<Step>, m: Movement)
    requires Dispatchable(source, front + [Move(m)]) && m.source != m.destination
    requires Reflects(expected, source, front + [Move(m)])
    requires Touched(StepMoves(front + [Move(m)])) <= expected.Keys
    ensures var next := UnwindMove(expected, m);
            next.Some? && Reflects(next.value, source, front) && Touched(StepMoves(front)) <= next.value.Keys
            && (Unwinds(source, next.value, StepMoves(front)) ==> Unwinds(source, expected, StepMoves(front + [Move(m)])))
  {
    LastMove(front, m);
    UnwindOne(source, expected, front, m);
    UnwindLast(expected, StepMoves(front), m);
  }

  lemma {:induction false} UnwindReachesSource(source: Capture, expected: Expected, steps: seq<Step>)
    requires Dispatchable(source, steps) && DistinctMoves(steps)
    requires Reflects(expected, source, steps) && Touched(StepMoves(steps)) <= expected.Keys
    ensures Unwinds(source, expected, StepMoves(steps))
    decreases |steps|
  {
    if steps != [] {
      var last, front := steps[|steps| - 1], steps[..|steps| - 1];
      assert steps == front + [last];
      DispatchableThen(source, front, [last]);
      hide UnwindMove, Unwinds, Dispatchable, ReadyFrom, Reflects, Touched, StepMoves;
      if last.Move? {
        UnwindStep(source, expected, front, last.movement);
        UnwindReachesSource(source, UnwindMove(expected, last.movement).value, front);
      } else {
        OtherStep(source, expected, front, last);
        UnwindReachesSource(source, expected, front);
      }
    }
  }

  lemma {:induction false} MovesAreStepMoves(atoms: seq<Atom>)
    ensures StepMoves(Steps(atoms)) == Moves(atoms)
  {
    if atoms != [] {
      var front, last := atoms[..|atoms| - 1], atoms[|atoms| - 1];
      MovesAreStepMoves(front);
      StepMovesThen(Steps(front), StepsOf(last));
      OwnMoves(last);
    }
  }

  lemma {:induction false} StepMovesThen(a: seq<Step>, b: seq<Step>)
    ensures StepMoves(a + b) == StepMoves(a) + StepMoves(b)
    decreases |b|
  {
    if b == [] {
      assert a + b == a;
    } else {
      assert (a + b)[..|a + b| - 1] == a + b[..|b| - 1];
      StepMovesThen(a, b[..|b| - 1]);
    }
  }

  lemma {:induction false} OwnMoves(atom: Atom)
    ensures StepMoves(StepsOf(atom)) == MovesOf(atom)
  {
    if atom.Reallocation? {
      MoveStepsBack(atom.moves);
    } else {
      assert StepsOf(atom)[..0] == [];
    }
  }

  lemma {:induction false} MoveStepsBack(moves: seq<Movement>)
    ensures StepMoves(MoveSteps(moves)) == moves
  {
    if moves != [] {
      assert MoveSteps(moves)[..|moves| - 1] == MoveSteps(moves[..|moves| - 1]);
      MoveStepsBack(moves[..|moves| - 1]);
    }
  }

  /** Undoing a plan's own conditions never overflows, and ends at the values of the ledger it was made from. */
  lemma {:induction false} PlanUnwinds(source: Capture, atoms: seq<Atom>, conditions: seq<Condition>) returns (before: Expected)
    requires Dispatchable(source, Steps(atoms)) && DistinctMoves(Steps(atoms))
    requires BuiltFrom(source, atoms, conditions)
    ensures Unwind(ExpectedAfter(conditions).value, Moves(atoms)) == Some(before)
    ensures forall slot :: slot in Touched(Moves(atoms)) ==> Get(before, slot) == UnitsAt(source, slot)
  {
    MovesAreStepMoves(atoms);
    UnwindReachesSource(source, ExpectedAfter(conditions).value, Steps(atoms));
    before := Unwind(ExpectedAfter(conditions).value, Moves(atoms)).value;
    hide *;
    assert before.Keys == Touched(Moves(atoms));
  }

  lemma {:induction false} AnyDiffers(before: Expected, source: Capture, moves: seq<Movement>, ledger: Capture)
    requires forall slot :: slot in Touched(moves) ==> Get(before, slot) == UnitsAt(source, slot)
    ensures (exists m :: m in moves && Differs(before, ledger, m))
            <==> exists slot :: slot in Touched(moves) && UnitsAt(ledger, slot) != UnitsAt(source, slot)
  {
    hide Get, UnitsAt;
    if m :| m in moves && Differs(before, ledger, m) {
      assert m.source in Touched(moves) && m.destination in Touched(moves);
    }
    if slot :| slot in Touched(moves) && UnitsAt(ledger, slot) != UnitsAt(source, slot) {
      var m :| m in moves && (m.source == slot || m.destination == slot);
      assert Differs(before, ledger, m);
    }
  }

  /**
   * For a plan's own conditions the check reports a change exactly when some slot it moves has left
   * the ledger or holds other minor units than it held at planning.
   */
  lemma {:induction false} TargetsChangedExactly(source: Capture, atoms: seq<Atom>, conditions: seq<Condition>, ledger: Capture)
    requires Dispatchable(source, Steps(atoms)) && DistinctMoves(Steps(atoms))
    requires BuiltFrom(source, atoms, conditions)
    ensures Changed(atoms, conditions, ledger)
            <==> exists slot :: slot in Touched(Moves(atoms)) && UnitsAt(ledger, slot) != UnitsAt(source, slot)
  {
    var before := PlanUnwinds(source, atoms, conditions);
    AnyDiffers(before, source, Moves(atoms), ledger);
  }
}
