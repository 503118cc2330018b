/** The whole card as an action: its moves accepted in any order, covered, and its cart affordable after them. */
module CardCart {
  import opened CheckedMoney
  import opened Rows
  import opened Text
  import opened Action
  import opened Permutations
  import opened Sums
  import opened Cart
  import opened Outflow
  import opened Dispatch
  import opened Donors
  import opened Funding
  import opened Envelopes
  import opened Planner
  import opened PlanAction
  import opened CardPlan

  // Coverage.

  /** The card's approved paths, as the planner reads them. */
  function ApprovedLines(paths: seq<Path>): (r: seq<(PathKey, i64)>)
    ensures |r| == |paths|
    ensures forall i :: 0 <= i < |r| ==> r[i] == (PathKey(paths[i].source, paths[i].destination, paths[i].currency), paths[i].amount)
  {
    PathLines(Movements(paths))
  }

  lemma {:induction false} LinesTakenOut(paths: seq<Path>, i: nat, k: PathKey)
    requires i < |paths|
    ensures SumFor(ApprovedLines(paths), k)
         == SumFor(ApprovedLines(Without(paths, i)), k) + if ApprovedLines(paths)[i].0 == k then paths[i].amount else 0
  {
    var a, b, c := ApprovedLines(paths)[..i], [ApprovedLines(paths)[i]], ApprovedLines(paths)[i + 1..];
    assert ApprovedLines(paths) == a + (b + c);
    assert ApprovedLines(Without(paths, i)) == a + c;
    SumForConcat(a, b + c, k);
    SumForConcat(b, c, k);
    SumForConcat(a, c, k);
  }

  lemma {:induction false} LinesPermute(a: seq<Path>, b: seq<Path>, k: PathKey)
    requires multiset(a) == multiset(b)
    ensures SumFor(ApprovedLines(a), k) == SumFor(ApprovedLines(b), k)
    decreases |a|
  {
    SameMembers(a, b);
    if a != [] {
      var i := BothWithout(a, b, 0);
      LinesPermute(Without(a, 0), Without(b, i), k);
      LinesTakenOut(a, 0, k);
      LinesTakenOut(b, i, k);
    }
  }

  lemma {:induction false} KeysPermute(a: seq<Path>, b: seq<Path>)
    requires multiset(a) == multiset(b)
    ensures KeysIn(ApprovedLines(a)) <= KeysIn(ApprovedLines(b))
  {
    SameMembers(a, b);
    forall k | k in KeysIn(ApprovedLines(a))
      ensures k in KeysIn(ApprovedLines(b))
    {
      var i :| 0 <= i < |a| && ApprovedLines(a)[i].0 == k;
      assert a[i] in b;
      var j :| 0 <= j < |b| && b[j] == a[i];
      assert ApprovedLines(b)[j] in ApprovedLines(b);
    }
  }

  /** Distinct keys never add up, so nothing overflows. */
  lemma {:induction false} DistinctRunsFit<K>(lines: seq<(K, i64)>)
    requires forall i, j :: 0 <= i < j < |lines| ==> lines[i].0 != lines[j].0
    ensures RunsFit(lines, |lines|)
  {
    forall j | 0 <= j < |lines|
      ensures Fits(SumFor(lines[..j + 1], lines[j].0))
    {
      NextSum(lines, j, lines[j].0);
      SumOfOther(lines[..j], lines[j].0);
    }
  }

  /** An order of the approved moves covers the approved paths exactly. */
  lemma {:induction false} OrderCovers(c: Card, paths: seq<Path>, other: seq<Path>)
    requires Allocation(c, paths) && multiset(paths) == multiset(other)
    ensures PathsCovered(ApprovedLines(paths), PathLines(Movements(other)))
  {
    hide Shortfall, Spendable, Into, OutOf, SumFor, Usable;
    AllocationPermutes(c, paths, other);
    assert forall i :: 0 <= i < |paths| ==> paths[i] in paths && PathSound(c, paths[i]);
    assert Positive(ApprovedLines(paths));
    DistinctRunsFit(ApprovedLines(paths));
    DistinctRunsFit(ApprovedLines(other));
    KeysPermute(paths, other);
    KeysPermute(other, paths);
    forall k
      ensures SumFor(ApprovedLines(paths), k) == SumFor(ApprovedLines(other), k)
    {
      LinesPermute(paths, other, k);
    }
  }

  // Moves.

  /** The ledger side a card cannot see: its categories, one current month, and room in the assignments. */
  ghost predicate LedgerReady(r: Request, c: Card) {
    CardBudget(c, r.budget) && ValidMonth(c.facts.asOfMonth)
    && forall slot :: Usable(c, slot) ==>
         slot.month == c.facts.asOfMonth && slot.categoryId in r.budget.categories
         && (Shortfall(c, slot) > 0 || Spendable(c, slot) > 0 ==>
               AssignmentIn(r.ledger, slot, CurrencyAt(c.facts, slot))
               && Fits(AssignedAfter(r.ledger, [], slot) + Shortfall(c, slot))
               && Fits(AssignedAfter(r.ledger, [], slot) - Spendable(c, slot)))
  }

  lemma {:induction false} SeenPairs(ledger: Capture, paths: seq<Path>, k: nat)
    requires k <= |paths|
    ensures SeenAfter(ledger, PathSteps(paths)[..k]).moves == set i | 0 <= i < k :: (paths[i].source, paths[i].destination)
  {
    if k > 0 {
      SeenPairs(ledger, paths, k - 1);
      assert PathSteps(paths)[..k][..k - 1] == PathSteps(paths)[..k - 1];
    }
  }

  lemma {:induction false} PairFresh(ledger: Capture, paths: seq<Path>, k: nat)
    requires k < |paths| && DistinctPairs(paths)
    ensures Fresh(SeenAfter(ledger, PathSteps(paths)[..k]), Move(MovementOf(paths[k])))
  {
    SeenPairs(ledger, paths, k);
  }

  lemma {:induction false} MovesFlow(steps: seq<Step>, slot: Slot)
    requires forall i :: 0 <= i < |steps| ==> steps[i].Move?
    ensures AssignmentMoved(steps, slot) == Flow(steps, slot)
  {
    if steps != [] {
      MovesFlow(steps[..|steps| - 1], slot);
    }
  }

  lemma {:induction false} AssignedThere(r: Request, c: Card, p: Path)
    requires ValidCard(c) && LedgerReady(r, c) && PathSound(c, p)
    ensures MoveShape(MovementOf(p)) && p.source.categoryId in r.budget.categories && p.destination.categoryId in r.budget.categories
    ensures AssignmentIn(r.ledger, p.source, p.currency) && AssignmentIn(r.ledger, p.destination, p.currency)
    ensures Fits(AssignedAfter(r.ledger, [], p.source) - Spendable(c, p.source))
    ensures Fits(AssignedAfter(r.ledger, [], p.destination) + Shortfall(c, p.destination))
  {
    NeedKnown(c, p.destination);
    hide Shortfall, Spendable, Usable, AssignedAfter, CardBudget, ValidMonth, AssignmentIn;
  }

  lemma {:induction false} RoomAtBothEnds(ledger: Capture, before: seq<Step>, m: Movement, given: int, spendable: int, received: int, shortfall: int)
    requires AssignmentIn(ledger, m.source, m.amount.currency) && AssignmentIn(ledger, m.destination, m.amount.currency)
    requires m.amount.units > 0 && AssignmentMoved(before, m.source) == -given && AssignmentMoved(before, m.destination) == received
    requires 0 <= given && given + m.amount.units <= spendable && 0 <= received && received + m.amount.units <= shortfall
    requires Fits(AssignedAfter(ledger, [], m.source) - spendable) && Fits(AssignedAfter(ledger, [], m.destination) + shortfall)
    ensures StepReady(ledger, before, Move(m))
  {
    assert AssignmentMoved([], m.source) == 0 && AssignmentMoved([], m.destination) == 0;
    hide AssignmentMoved;
  }

  lemma {:induction false} AssignmentsFit(r: Request, c: Card, paths: seq<Path>, k: nat)
    requires ValidCard(c) && LedgerReady(r, c) && Allocation(c, paths) && k < |paths|
    ensures StepReady(r.ledger, PathSteps(paths)[..k], Move(MovementOf(paths[k])))
  {
    hide *;
    var p, before := paths[k], PathSteps(paths)[..k];
    PathAt(c, paths, k);
    AssignedThere(r, c, p);
    PathAmounts(c, paths, k);
    MovesFlow(before, p.source);
    MovesFlow(before, p.destination);
    assert MovementOf(p).amount.currency == p.currency by {
      SameCurrency(p);
    }
    RoomAtBothEnds(r.ledger, before, MovementOf(p), OutOf(paths[..k], p.source), Spendable(c, p.source),
                   Into(paths[..k], p.destination), Shortfall(c, p.destination));
  }

  lemma {:induction false} SameCurrency(p: Path)
    ensures MovementOf(p).amount.currency == p.currency
  {
  }

  lemma {:induction false} CardMoveAccepted(r: Request, c: Card, paths: seq<Path>, k: nat)
    requires ValidCard(c) && Backed(c) && Headroom(c) && DonorsOpen(c, paths) && LedgerReady(r, c)
    requires Allocation(c, paths) && k < |paths|
    ensures MoveAccepted(r, PathSteps(paths)[..k], MovementOf(paths[k]))
  {
    PathFunded(c, r.budget, paths, k);
    AssignmentsFit(r, c, paths, k);
    PathAt(c, paths, k);
    AssignedThere(r, c, paths[k]);
    PairFresh(r.ledger, paths, k);
    hide *;
    Accept(r, PathSteps(paths)[..k], MovementOf(paths[k]));
  }

  lemma {:induction false} Accept(r: Request, before: seq<Step>, m: Movement)
    requires MoveShape(m) && Fresh(SeenAfter(r.ledger, before), Move(m))
    requires m.source.categoryId in r.budget.categories && m.destination.categoryId in r.budget.categories
    requires MoveFunded(r.budget, before, m) && StepReady(r.ledger, before, Move(m))
    ensures MoveAccepted(r, before, m)
  {
    hide MoveShape, Fresh, MoveFunded, StepReady, SeenAfter;
  }

  lemma {:induction false} LockedRefused(r: Request, c: Card, before: seq<Step>, p: Path)
    requires CardBudget(c, r.budget) && MoveAccepted(r, before, MovementOf(p))
    ensures p.source.categoryId in c.policies && !Locked(c.policies[p.source.categoryId])
  {
    hide Locked, StepReady, Fresh, MoveShape, SourceFunded, DestinationFits;
  }

  lemma {:induction false} AllAccepted(r: Request, c: Card, paths: seq<Path>)
    requires ValidCard(c) && Backed(c) && Headroom(c) && DonorsOpen(c, paths) && LedgerReady(r, c) && Allocation(c, paths)
    ensures MovesAccepted(r, [], Movements(paths))
  {
    hide ValidCard, Backed, Headroom, DonorsOpen, LedgerReady, Allocation, MoveAccepted;
    forall k | 0 <= k < |paths|
      ensures MoveAccepted(r, [] + MoveSteps(Movements(paths))[..k], Movements(paths)[k])
    {
      CardMoveAccepted(r, c, paths, k);
      assert [] + MoveSteps(Movements(paths))[..k] == PathSteps(paths)[..k];
    }
  }

  lemma {:induction false} OpenPermutes(c: Card, a: seq<Path>, b: seq<Path>)
    requires multiset(a) == multiset(b)
    ensures DonorsOpen(c, a) <==> DonorsOpen(c, b)
  {
    hide Locked;
    SameMembers(a, b);
  }

  lemma {:induction false} BudgetOf(r: Request, c: Card)
    requires LedgerReady(r, c)
    ensures CardBudget(c, r.budget)
  {
    hide CardBudget;
  }

  lemma {:induction false} AcceptedOpen(r: Request, c: Card, other: seq<Path>)
    requires CardBudget(c, r.budget) && MovesAccepted(r, [], Movements(other))
    ensures DonorsOpen(c, other)
  {
    hide MoveAccepted, CardBudget, Locked;
    forall p | p in other
      ensures p.source.categoryId in c.policies && !Locked(c.policies[p.source.categoryId])
    {
      var k :| 0 <= k < |other| && other[k] == p;
      assert MoveAccepted(r, [] + MoveSteps(Movements(other))[..k], Movements(other)[k]);
      LockedRefused(r, c, [] + MoveSteps(Movements(other))[..k], p);
    }
  }

  /**
   * The card's own moves, in any order, cover its approved paths and pass every running check of the planner,
   * unless one of them takes from a protected or goal category, which the planner refuses and the card does not.
   */
  lemma {:induction false} CardMovesAccepted(r: Request, c: Card, paths: seq<Path>, other: seq<Path>)
    requires ValidCard(c) && Backed(c) && Headroom(c) && LedgerReady(r, c)
    requires Allocation(c, paths) && multiset(paths) == multiset(other)
    ensures MovesAccepted(r, [], Movements(other)) <==> DonorsOpen(c, paths)
    ensures PathsCovered(ApprovedLines(paths), PathLines(Movements(other)))
  {
    hide *;
    AllocationPermutes(c, paths, other);
    OrderCovers(c, paths, other);
    OpenPermutes(c, paths, other);
    BudgetOf(r, c);
    if DonorsOpen(c, other) {
      AllAccepted(r, c, other);
    }
    if MovesAccepted(r, [], Movements(other)) {
      AcceptedOpen(r, c, other);
    }
  }

  // Purchases after the moves.

  function PostSteps(txs: seq<Transaction>): (r: seq<Step>)
    ensures |r| == |txs| && forall i :: 0 <= i < |r| ==> r[i] == Post(txs[i])
  {
    seq(|txs|, i requires 0 <= i < |txs| => Post(txs[i]))
  }

  /** One effect of a cart purchase: money out of a category the cart charges. */
  ghost predicate CartEffect(c: Card, b: Budget, slot: Slot, amount: i64, currency: string) {
    amount < 0 && CanNegate(amount) && slot in c.totals && slot in c.purchases
    && slot.categoryId in b.categories && slot.categoryId in b.charges
    && b.charges[slot.categoryId].currency == currency == CurrencyAt(c.facts, slot)
  }

  /** The card moves money for this purchase if need be, or there is enough without. */
  ghost predicate CoveredAt(c: Card, slot: Slot) {
    slot in c.purchases ==> slot in c.totals && (Usable(c, slot) || c.purchases[slot] <= Spare(c.totals[slot]))
  }

  /** Every purchase outside the current ordinary categories, which the card moves nothing for, is covered as it is. */
  ghost predicate CartCovered(c: Card) {
    forall slot :: slot in c.purchases ==> CoveredAt(c, slot)
  }

  /** Purchases that stay within the cart: slot by slot within its purchases, category by category within its charges. */
  ghost predicate WithinCart(c: Card, b: Budget, txs: seq<Transaction>) {
    (forall i :: 0 <= i < |txs| ==> Spends(Post(txs[i])) && WithinEffects(c, b, txs[i]))
    && (forall slot :: -Flow(PostSteps(txs), slot) <= Left(c.purchases, slot))
    && forall id :: id in b.charges ==> CategorySpent(PostSteps(txs), id) <= b.charges[id].units
  }

  ghost predicate WithinEffects(c: Card, b: Budget, tx: Transaction) {
    forall j :: 0 <= j < |MonthDeltas(tx)| ==> CartEffect(c, b, MonthDeltas(tx)[j].0, MonthDeltas(tx)[j].1, tx.amount.currency)
  }

  lemma {:induction false} NegativeSums<K>(lines: seq<(K, i64)>, i: nat, k: K)
    requires i <= |lines| && forall j :: 0 <= j < |lines| ==> lines[j].1 < 0
    ensures SumFor(lines, k) <= SumFor(lines[..i], k) <= 0
    decreases |lines| - i
  {
    if i == |lines| {
      assert lines[..i] == lines;
      SumForSign(lines, k);
    } else {
      NegativeSums(lines, i + 1, k);
      NextSum(lines, i, k);
      SumForSign(lines[..i], k);
    }
  }

  lemma {:induction false} PostFlows(c: Card, b: Budget, txs: seq<Transaction>, k: nat, slot: Slot, id: string)
    requires k < |txs| && forall i :: 0 <= i < |txs| ==> Spends(Post(txs[i])) && WithinEffects(c, b, txs[i])
    ensures Flow(PostSteps(txs)[..k + 1], slot) == Flow(PostSteps(txs)[..k], slot) + SumFor(MonthDeltas(txs[k]), slot)
    ensures CategorySpent(PostSteps(txs)[..k + 1], id) == CategorySpent(PostSteps(txs)[..k], id) - SumFor(ByCategory(MonthDeltas(txs[k])), id)
    ensures SumFor(MonthDeltas(txs[k]), slot) <= 0 && SumFor(ByCategory(MonthDeltas(txs[k])), id) <= 0
  {
    hide Usable;
    assert PostSteps(txs)[..k + 1] == PostSteps(txs)[..k] + [Post(txs[k])];
    FlowThen(PostSteps(txs)[..k], Post(txs[k]));
    EffectsNegative(c, b, txs[k]);
    NegativeSums(MonthDeltas(txs[k]), 0, slot);
    NegativeSums(ByCategory(MonthDeltas(txs[k])), 0, id);
    hide MonthDeltas, Flow, CategorySpent, SumFor;
  }

  lemma {:induction false} EffectsNegative(c: Card, b: Budget, tx: Transaction)
    requires WithinEffects(c, b, tx)
    ensures forall j :: 0 <= j < |MonthDeltas(tx)| ==> MonthDeltas(tx)[j].1 < 0
    ensures forall j :: 0 <= j < |ByCategory(MonthDeltas(tx))| ==> ByCategory(MonthDeltas(tx))[j].1 < 0
  {
    hide Usable, MonthDeltas;
    assert forall j :: 0 <= j < |MonthDeltas(tx)| ==> CartEffect(c, b, MonthDeltas(tx)[j].0, MonthDeltas(tx)[j].1, tx.amount.currency);
  }

  /** Spending only grows: at any point it is within what it comes to in the end. */
  lemma {:induction false} SpendingGrows(c: Card, b: Budget, txs: seq<Transaction>, k: nat, slot: Slot, id: string)
    requires k <= |txs| && forall i :: 0 <= i < |txs| ==> Spends(Post(txs[i])) && WithinEffects(c, b, txs[i])
    ensures Flow(PostSteps(txs), slot) <= Flow(PostSteps(txs)[..k], slot) <= 0
    ensures 0 <= CategorySpent(PostSteps(txs)[..k], id) <= CategorySpent(PostSteps(txs), id)
    decreases |txs| - k
  {
    hide WithinEffects;
    if k == |txs| {
      assert PostSteps(txs)[..k] == PostSteps(txs);
    } else {
      PostFlows(c, b, txs, k, slot, id);
      SpendingGrows(c, b, txs, k + 1, slot, id);
    }
    SpendingSign(c, b, txs, k, slot, id);
  }

  lemma {:induction false} SpendingSign(c: Card, b: Budget, txs: seq<Transaction>, k: nat, slot: Slot, id: string)
    requires k <= |txs| && forall i :: 0 <= i < |txs| ==> Spends(Post(txs[i])) && WithinEffects(c, b, txs[i])
    ensures Flow(PostSteps(txs)[..k], slot) <= 0 && 0 <= CategorySpent(PostSteps(txs)[..k], id)
    decreases k
  {
    hide WithinEffects;
    if k > 0 {
      PostFlows(c, b, txs, k - 1, slot, id);
      SpendingSign(c, b, txs, k - 1, slot, id);
    }
  }

  lemma {:induction false} FlowConcat(a: seq<Step>, b: seq<Step>, slot: Slot, id: string)
    ensures Flow(a + b, slot) == Flow(a, slot) + Flow(b, slot)
    ensures CategorySpent(a + b, id) == CategorySpent(a, id) + CategorySpent(b, id)
    decreases |b|
  {
    if b == [] {
      assert a + b == a;
    } else {
      assert (a + b)[..|a + b| - 1] == a + b[..|b| - 1];
      FlowConcat(a, b[..|b| - 1], slot, id);
    }
  }

  lemma {:induction false} MovesSpendNothing(steps: seq<Step>, id: string)
    requires forall i :: 0 <= i < |steps| ==> steps[i].Move?
    ensures CategorySpent(steps, id) == 0
  {
    if steps != [] {
      MovesSpendNothing(steps[..|steps| - 1], id);
    }
  }

  lemma {:induction false} FlowOfAll(c: Card, paths: seq<Path>, slot: Slot)
    requires ValidCard(c) && Allocation(c, paths)
    ensures Flow(PathSteps(paths), slot) == Shortfall(c, slot) - OutOf(paths, slot)
    ensures 0 <= OutOf(paths, slot) <= Spendable(c, slot) && 0 <= Shortfall(c, slot)
  {
    assert forall p :: p in paths ==> PathSound(c, p);
    FlowOfPaths(paths, |paths|, slot);
    assert PathSteps(paths)[..|paths|] == PathSteps(paths) && paths[..|paths|] == paths;
    NeverBoth(c, slot);
    hide Flow, Into, OutOf, Shortfall, Spendable;
    assert Into(paths, slot) == Shortfall(c, slot) && 0 <= OutOf(paths, slot) <= Spendable(c, slot);
  }

  /** What the envelopes hold against purchases: enough for all of them, and never too much to represent. */
  lemma {:induction false} EnvelopeHolds(c: Card, paths: seq<Path>, slot: Slot, spent: int)
    requires ValidCard(c) && Backed(c) && Headroom(c) && Allocation(c, paths) && slot in c.purchases && CoveredAt(c, slot)
    requires 0 <= spent <= c.purchases[slot]
    ensures var flow, t := Shortfall(c, slot) - OutOf(paths, slot) - spent, c.totals[slot];
            0 <= Spare(t) + flow && Fits(Spare(t) + flow) && Fits(t.availability + flow)
  {
    NeverBoth(c, slot);
    if Usable(c, slot) {
      PurchasesCovered(c, paths, slot);
    }
    assert Fits(c.totals[slot].availability + Shortfall(c, slot));
    assert c.totals[slot].reservations >= 0 && c.totals[slot].commitments >= 0;
    assert Into(paths, slot) == Shortfall(c, slot) && 0 <= OutOf(paths, slot) <= Spendable(c, slot);
    assert !Usable(c, slot) ==> Shortfall(c, slot) == 0 && Spendable(c, slot) == 0;
    var i := IndexOf(KeysOf(c.facts.categories), slot);
    assert c.facts.categories[i].key == slot && c.totals[slot].availability >= 0;
    hide Shortfall, Spendable, Into, OutOf, Allocation, Backed, Headroom;
  }

  /** Where one effect stands among all the cart's spending. */
  lemma {:induction false} EffectPosition(c: Card, b: Budget, paths: seq<Path>, txs: seq<Transaction>, k: nat, j: nat)
    requires ValidCard(c) && Allocation(c, paths) && WithinCart(c, b, txs) && k < |txs| && j < |MonthDeltas(txs[k])|
    ensures var deltas := MonthDeltas(txs[k]);
            var slot, before := deltas[j].0, PathSteps(paths) + PostSteps(txs)[..k];
            var spent := Shortfall(c, slot) - OutOf(paths, slot) - Flow(before, slot) - SumFor(deltas[..j + 1], slot);
            0 <= spent <= Left(c.purchases, slot)
    ensures var deltas := MonthDeltas(txs[k]);
            var id, before := deltas[j].0.categoryId, PathSteps(paths) + PostSteps(txs)[..k];
            var spent := CategorySpent(before, id) - SumFor(ByCategory(deltas)[..j + 1], id);
            0 <= spent && (id in b.charges ==> spent <= b.charges[id].units)
  {
    var deltas := MonthDeltas(txs[k]);
    var slot, id := deltas[j].0, deltas[j].0.categoryId;
    assert -Flow(PostSteps(txs), slot) <= Left(c.purchases, slot);
    assert WithinEffects(c, b, txs[k]);
    hide Usable, Shortfall, Spendable, Into, OutOf, MonthDeltas, Flow, CategorySpent, SumFor, Allocation, ValidCard;
    FlowConcat(PathSteps(paths), PostSteps(txs)[..k], slot, id);
    FlowOfAll(c, paths, slot);
    MovesSpendNothing(PathSteps(paths), id);
    PostFlows(c, b, txs, k, slot, id);
    SpendingGrows(c, b, txs, k, slot, id);
    SpendingGrows(c, b, txs, k + 1, slot, id);
    EffectsNegative(c, b, txs[k]);
    NegativeSums(deltas, j + 1, slot);
    NegativeSums(ByCategory(deltas), j + 1, id);
  }

  lemma {:induction false} EffectKnownIn(c: Card, b: Budget, slot: Slot, amount: i64, currency: string)
    requires Backed(c) && CardBudget(c, b) && CartEffect(c, b, slot, amount, currency)
    ensures EffectKnown(b, slot, currency) && CanNegate(amount) && slot in c.purchases
    ensures slot in c.totals && slot in b.states
    ensures b.states[slot].availability.units == c.totals[slot].availability && b.states[slot].uncommitted.units == Spare(c.totals[slot])
  {
    KnownEnd(c, b, slot);
    hide CardBudget, Backed, FactAgrees, Usable;
  }

  lemma {:induction false} EffectAt(c: Card, b: Budget, txs: seq<Transaction>, k: nat, j: nat)
    requires WithinCart(c, b, txs) && k < |txs| && j < |MonthDeltas(txs[k])|
    ensures CartEffect(c, b, MonthDeltas(txs[k])[j].0, MonthDeltas(txs[k])[j].1, txs[k].amount.currency)
  {
    assert WithinEffects(c, b, txs[k]);
    hide CartEffect, MonthDeltas;
  }

  lemma {:induction false} CartEffectFunded(c: Card, b: Budget, paths: seq<Path>, txs: seq<Transaction>, k: nat, j: nat)
    requires ValidCard(c) && Backed(c) && Headroom(c) && CardBudget(c, b) && Allocation(c, paths) && WithinCart(c, b, txs)
    requires CartCovered(c) && k < |txs| && j < |MonthDeltas(txs[k])|
    ensures EffectFunded(b, PathSteps(paths) + PostSteps(txs)[..k], MonthDeltas(txs[k]), j, txs[k].amount.currency)
  {
    hide *;
    var deltas, before := MonthDeltas(txs[k]), PathSteps(paths) + PostSteps(txs)[..k];
    var slot := deltas[j].0;
    EffectAt(c, b, txs, k, j);
    EffectKnownIn(c, b, slot, deltas[j].1, txs[k].amount.currency);
    EffectPosition(c, b, paths, txs, k, j);
    LeftOf(c, slot);
    CoveredThere(c, slot);
    var flow := Flow(before, slot) + SumFor(deltas[..j + 1], slot);
    EnvelopeHolds(c, paths, slot, Shortfall(c, slot) - OutOf(paths, slot) - flow);
    AssembleEffect(b, before, deltas, j, txs[k].amount.currency, flow, CategorySpent(before, slot.categoryId)
                   - SumFor(ByCategory(deltas)[..j + 1], slot.categoryId));
  }

  lemma {:induction false} CoveredThere(c: Card, slot: Slot)
    requires CartCovered(c) && slot in c.purchases
    ensures CoveredAt(c, slot)
  {
  }

  lemma {:induction false} LeftOf(c: Card, slot: Slot)
    requires slot in c.purchases
    ensures Left(c.purchases, slot) == c.purchases[slot]
  {
  }

  lemma {:induction false} AssembleEffect(b: Budget, before: seq<Step>, deltas: seq<(Slot, i64)>, j: nat, currency: string, flow: int, spent: int)
    requires j < |deltas| && EffectKnown(b, deltas[j].0, currency) && CanNegate(deltas[j].1)
    requires flow == Flow(before, deltas[j].0) + SumFor(deltas[..j + 1], deltas[j].0)
    requires spent == CategorySpent(before, deltas[j].0.categoryId) - SumFor(ByCategory(deltas)[..j + 1], deltas[j].0.categoryId)
    requires 0 <= spent && (deltas[j].0.categoryId in b.charges ==> spent <= b.charges[deltas[j].0.categoryId].units)
    requires deltas[j].0 in b.states && 0 <= b.states[deltas[j].0].uncommitted.units + flow && Fits(b.states[deltas[j].0].uncommitted.units + flow)
    requires Fits(b.states[deltas[j].0].availability.units + flow)
    ensures EffectFunded(b, before, deltas, j, currency)
  {
    hide Flow, SumFor, CategorySpent, FactAgrees;
  }

  /**
   * After the card's moves, every purchase within a covered cart finds its money, in any order of moves and
   * purchases.
   */
  lemma {:induction false} CartAffordable(c: Card, b: Budget, paths: seq<Path>, other: seq<Path>, txs: seq<Transaction>, k: nat)
    requires ValidCard(c) && Backed(c) && Headroom(c) && CardBudget(c, b) && Allocation(c, paths) && multiset(paths) == multiset(other)
    requires WithinCart(c, b, txs) && CartCovered(c) && k < |txs|
    ensures Affordable(b, PathSteps(other) + PostSteps(txs)[..k], MonthDeltas(txs[k]), txs[k].amount.currency)
  {
    AllocationPermutes(c, paths, other);
    hide ValidCard, Backed, Headroom, CardBudget, Allocation, WithinCart, EffectFunded, MonthDeltas, CartCovered;
    forall j | 0 <= j < |MonthDeltas(txs[k])|
      ensures EffectFunded(b, PathSteps(other) + PostSteps(txs)[..k], MonthDeltas(txs[k]), j, txs[k].amount.currency)
    {
      CartEffectFunded(c, b, other, txs, k, j);
    }
  }

  // The converse: what finds its money was covered.

  lemma {:induction false} LastEffect(deltas: seq<(Slot, i64)>, slot: Slot) returns (j: nat)
    requires exists i :: 0 <= i < |deltas| && deltas[i].0 == slot
    ensures j < |deltas| && deltas[j].0 == slot && SumFor(deltas[..j + 1], slot) == SumFor(deltas, slot)
  {
    j := |deltas| - 1;
    while deltas[j].0 != slot
      invariant j < |deltas| && forall i :: j < i < |deltas| ==> deltas[i].0 != slot
      decreases j
    {
      assert exists i :: 0 <= i < j && deltas[i].0 == slot;
      j := j - 1;
    }
    assert deltas == deltas[..j + 1] + deltas[j + 1..];
    SumForConcat(deltas[..j + 1], deltas[j + 1..], slot);
    SumOfOther(deltas[j + 1..], slot);
  }

  lemma {:induction false} FundedAfter(b: Budget, before: seq<Step>, deltas: seq<(Slot, i64)>, currency: string, slot: Slot)
    requires Affordable(b, before, deltas, currency)
    ensures SumFor(deltas, slot) == 0 || (slot in b.states && 0 <= b.states[slot].uncommitted.units + Flow(before, slot) + SumFor(deltas, slot))
  {
    hide Flow, SumFor, CategorySpent;
    if exists i :: 0 <= i < |deltas| && deltas[i].0 == slot {
      var j := LastEffect(deltas, slot);
      assert EffectFunded(b, before, deltas, j, currency);
    } else {
      SumOfOther(deltas, slot);
    }
  }

  lemma {:induction false} StaysFunded(b: Budget, moves: seq<Step>, txs: seq<Transaction>, k: nat, slot: Slot)
    requires k <= |txs| && forall i :: 0 <= i < |txs| ==> Spends(Post(txs[i]))
    requires forall i :: 0 <= i < k ==> Affordable(b, moves + PostSteps(txs)[..i], MonthDeltas(txs[i]), txs[i].amount.currency)
    ensures Flow(PostSteps(txs)[..k], slot) == 0
            || (slot in b.states && 0 <= b.states[slot].uncommitted.units + Flow(moves + PostSteps(txs)[..k], slot))
  {
    hide Affordable, MonthDeltas;
    if k > 0 {
      var before, step := PostSteps(txs)[..k - 1], Post(txs[k - 1]);
      assert PostSteps(txs)[..k] == before + [step] && moves + PostSteps(txs)[..k] == moves + before + [step];
      StaysFunded(b, moves, txs, k - 1, slot);
      FundedAfter(b, moves + before, MonthDeltas(txs[k - 1]), txs[k - 1].amount.currency, slot);
      FlowThen(before, step);
      FlowThen(moves + before, step);
      assert EnvelopeDelta(step, slot) == SumFor(MonthDeltas(txs[k - 1]), slot);
      hide Flow, SumFor;
    }
  }

  /** When every purchase finds its money and together they spend what the card says, the cart was covered. */
  lemma {:induction false} FundedIsCovered(c: Card, b: Budget, paths: seq<Path>, txs: seq<Transaction>)
    requires ValidCard(c) && Backed(c) && CardBudget(c, b) && Allocation(c, paths)
    requires forall i :: 0 <= i < |txs| ==> Spends(Post(txs[i]))
    requires forall slot :: -Flow(PostSteps(txs), slot) == Left(c.purchases, slot)
    requires forall i :: 0 <= i < |txs| ==>
               Affordable(b, PathSteps(paths) + PostSteps(txs)[..i], MonthDeltas(txs[i]), txs[i].amount.currency)
    ensures CartCovered(c)
  {
    assert PostSteps(txs)[..|txs|] == PostSteps(txs);
    forall slot | slot in c.purchases
      ensures CoveredAt(c, slot)
    {
      StaysFunded(b, PathSteps(paths), txs, |txs|, slot);
      FlowConcat(PathSteps(paths), PostSteps(txs), slot, "");
      FlowOfAll(c, paths, slot);
      CoveredSlot(c, b, paths, slot);
    }
  }

  lemma {:induction false} CoveredSlot(c: Card, b: Budget, paths: seq<Path>, slot: Slot)
    requires ValidCard(c) && Backed(c) && CardBudget(c, b) && slot in c.purchases && slot in b.states
    requires 0 <= OutOf(paths, slot) <= Spendable(c, slot)
    requires 0 <= b.states[slot].uncommitted.units + Shortfall(c, slot) - OutOf(paths, slot) - c.purchases[slot]
    ensures CoveredAt(c, slot)
  {
    assert slot in c.totals by {
      assert b.states.Keys == c.totals.Keys;
    }
    KnownEnd(c, b, slot);
    hide Backed, CardBudget, FactAgrees, OutOf;
  }

  /**
   * Buying the whole cart leaves the planner's envelopes exactly where the card says they will be. The money
   * not claimed agrees as well, unless the purchase is not covered.
   */
  lemma {:induction false} CardForetells(c: Card, b: Budget, paths: seq<Path>, txs: seq<Transaction>, redirected: int, slot: Slot, after: CategoryState, e: Envelope)
    requires ValidCard(c) && CardBudget(c, b) && Allocation(c, paths) && slot in c.totals
    requires redirected == Into(paths, slot) - OutOf(paths, slot) && -Flow(PostSteps(txs), slot) == Left(c.purchases, slot)
    requires StateMeans(c, slot, Left(c.purchases, slot), redirected, after)
    requires EnvelopeAt(e, b.states[slot], Flow(PathSteps(paths) + PostSteps(txs), slot))
    ensures e.availability == after.availability.units
    ensures e.uncommitted == after.uncommitted.units
            <==> CoveredAt(c, slot)
  {
    FlowConcat(PathSteps(paths), PostSteps(txs), slot, "");
    FlowOfAll(c, paths, slot);
    assert Into(paths, slot) == Shortfall(c, slot);
    assert StateMeans(c, slot, 0, 0, b.states[slot]);
    SpareAfter(c, slot, OutOf(paths, slot));
    hide Flow, Into, OutOf, Shortfall, Spendable, Allocation, Usable;
  }

  /** What is unclaimed moves with the money, as long as it covers what is taken. */
  lemma {:induction false} SpareAfter(c: Card, slot: Slot, given: int)
    requires ValidCard(c) && slot in c.totals && 0 <= given <= Spendable(c, slot)
    ensures var t, flow := c.totals[slot], Shortfall(c, slot) - given - Left(c.purchases, slot);
            Spare(t) + flow == Max(0, t.availability + flow - t.reservations - t.commitments)
            <==> CoveredAt(c, slot)
  {
    hide FactAt;
  }
}
