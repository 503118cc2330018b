/** What a decision card proposes, the planner accepts: its moves in any order, then its own purchases. */
module CardPlan {
  import opened CheckedMoney
  import opened Rows
  import opened Action
  import opened Ordered
  import opened Permutations
  import opened Sorting
  import opened Sums
  import opened Cart
  import opened Donors
  import opened Funding
  import opened Envelopes

  // The category states a card shows.

  /** A category after spending and redirecting: what is left, what is unclaimed, what a donor may still give. */
  ghost predicate StateMeans(c: Card, slot: Slot, purchase: int, redirected: int, state: CategoryState)
    requires slot in c.totals
  {
    var t, currency := c.totals[slot], CurrencyAt(c.facts, slot);
    var after := t.(availability := state.availability.units);
    state.availability.units == t.availability - purchase + redirected
    && state.uncommitted.units == Spare(after)
    && state.commitments == Money(t.commitments, currency) && state.reservations == Money(t.reservations, currency)
    && state.availability.currency == state.uncommitted.currency == state.safeToRedirect.currency == currency
    && state.safeToRedirect.units == (if InFuture(c.facts, slot) then 0 else Surplus(after, PolicyAt(c, slot)))
    && state.policyKind == if PolicyAt(c, slot).Some? then Some(PolicyAt(c, slot).value.kind) else None
  }

  predicate InFuture(facts: Facts, slot: Slot) {
    FactAt(facts, slot).Some? && FactAt(facts, slot).value.rest.period == Future
  }

  /** What it takes to show a category: what is left and unclaimed is representable, and so is the floor of a present donor. */
  predicate StateFits(c: Card, slot: Slot, purchase: int, redirected: int)
    requires slot in c.totals
  {
    var t, policy := c.totals[slot], PolicyAt(c, slot);
    Fits(t.availability - purchase) && Fits(t.availability - purchase + redirected)
    && Fits(t.availability - purchase + redirected - t.reservations - t.commitments)
    && (!InFuture(c.facts, slot) && policy.Some? && policy.value.donorEligible ==> Fits(Floor(policy.value)))
  }

  function StateOf(c: Card, slot: Slot, purchase: i64, redirected: i64): (r: Result<CategoryState>)
    requires ValidCard(c) && FactAt(c.facts, slot).Some?
    ensures r.Ok? <==> slot in c.totals && StateFits(c, slot, purchase, redirected)
    ensures r.Ok? ==> StateMeans(c, slot, purchase, redirected, r.value)
  {
    if slot !in c.totals then Err("category_total_missing") else
    var t, currency, policy := c.totals[slot], CurrencyAt(c.facts, slot), PolicyAt(c, slot);
    var left :- CheckedSub(t.availability, purchase);
    var availability :- CheckedAdd(left, redirected);
    var after := t.(availability := availability);
    var uncommitted :- CheckedSpare(after);
    var safe :- if InFuture(c.facts, slot) then Ok(0) else PolicySurplus(after, policy);
    Ok(CategoryState(Money(availability, currency), Money(uncommitted, currency), Money(t.commitments, currency),
                     Money(t.reservations, currency), Money(safe, currency), if policy.Some? then Some(policy.value.kind) else None))
  }

  ghost predicate FitsAfter(c: Card, redirected: map<Slot, i64>, after: bool, slot: Slot) {
    slot in c.totals && StateFits(c, slot, if after then Left(c.purchases, slot) else 0, if after then Left(redirected, slot) else 0)
  }

  ghost predicate StateAfter(c: Card, redirected: map<Slot, i64>, after: bool, slot: Slot, state: CategoryState) {
    slot in c.totals
    && StateMeans(c, slot, if after then Left(c.purchases, slot) else 0, if after then Left(redirected, slot) else 0, state)
  }

  type States = seq<(Slot, CategoryState)>

  function SlotOf(state: (Slot, CategoryState)): Slot {
    state.0
  }

  /** The states of these rows: each after its own purchase and redirection, or before the cart. */
  ghost predicate StatesOf(c: Card, redirected: map<Slot, i64>, after: bool, rows: CategoryRows, states: States) {
    |states| == |rows|
    && forall i :: 0 <= i < |rows| ==>
         states[i].0 == rows[i].key && FitsAfter(c, redirected, after, rows[i].key) && StateAfter(c, redirected, after, rows[i].key, states[i].1)
  }

  /** The card's rows in slot order: the same slots, each once. */
  lemma {:induction false} RowsSorted(c: Card, rows: CategoryRows)
    requires Backed(c) && rows == SortBy(KeyOf, SlotLt, c.facts.categories)
    ensures Ascending(SlotLt, Keys(KeyOf, rows)) && forall slot :: slot in Keys(KeyOf, rows) <==> slot in c.totals
  {
    var facts := c.facts.categories;
    SlotsOrdered();
    assert Keys(KeyOf, facts) == KeysOf(facts);
    hide SortBy, SlotLt, StrictOrder, Ascending;
    forall i, j | 0 <= i < j < |facts|
      ensures KeyOf(facts[i]) != KeyOf(facts[j])
    {
      assert KeysOf(facts)[i] != KeysOf(facts)[j];
    }
    SortedKeys(KeyOf, SlotLt, facts);
  }

  lemma {:induction false} RowOf(c: Card, slot: Slot)
    requires Backed(c) && slot in c.totals
    ensures FactAt(c.facts, slot).Some?
  {
    hide FactAt;
    var i :| 0 <= i < |c.facts.categories| && KeysOf(c.facts.categories)[i] == slot;
    RowFact(c, i);
  }

  lemma {:induction false} RowFact(c: Card, i: nat)
    requires i < |c.facts.categories|
    ensures FactAt(c.facts, c.facts.categories[i].key).Some?
  {
    assert KeysOf(c.facts.categories)[i] == c.facts.categories[i].key;
  }

  lemma {:induction false} NoStates(c: Card, redirected: map<Slot, i64>, after: bool)
    ensures StatesOf(c, redirected, after, [], [])
  {
  }

  lemma {:induction false} NextState(c: Card, redirected: map<Slot, i64>, after: bool, rows: CategoryRows, i: nat, states: States, state: CategoryState)
    requires i < |rows| && StatesOf(c, redirected, after, rows[..i], states)
    requires FitsAfter(c, redirected, after, rows[i].key) && StateAfter(c, redirected, after, rows[i].key, state)
    ensures StatesOf(c, redirected, after, rows[..i + 1], states + [(rows[i].key, state)])
  {
    hide FitsAfter, StateAfter;
    assert rows[..i + 1] == rows[..i] + [rows[i]];
  }

  lemma {:induction false} StatesListed(c: Card, redirected: map<Slot, i64>, after: bool, rows: CategoryRows, states: States)
    requires StatesOf(c, redirected, after, rows, states)
    requires forall slot :: slot in Keys(KeyOf, rows) <==> slot in c.totals
    ensures Keys(SlotOf, states) == Keys(KeyOf, rows)
    ensures forall i :: 0 <= i < |states| ==> StateAfter(c, redirected, after, states[i].0, states[i].1)
    ensures forall slot :: slot in c.totals ==> FitsAfter(c, redirected, after, slot)
  {
    hide FitsAfter, StateAfter;
    forall slot | slot in c.totals
      ensures FitsAfter(c, redirected, after, slot)
    {
      var i :| 0 <= i < |rows| && Keys(KeyOf, rows)[i] == slot;
    }
  }

  /** Every category's state in slot order, before the cart or after it: shown exactly when each of them can be computed. */
  method StateCategories(c: Card, redirected: map<Slot, i64>, after: bool) returns (r: Result<States>)
    requires ValidCard(c) && Backed(c)
    ensures r.Ok? <==> forall slot :: slot in c.totals ==> FitsAfter(c, redirected, after, slot)
    ensures r.Ok? ==> Ascending(SlotLt, Keys(SlotOf, r.value)) && forall slot :: slot in Keys(SlotOf, r.value) <==> slot in c.totals
    ensures r.Ok? ==> forall i :: 0 <= i < |r.value| ==> StateAfter(c, redirected, after, r.value[i].0, r.value[i].1)
  {
    hide StateMeans, StateFits, StateOf, ValidCard, Backed, SortBy, SlotLt, Ascending, StatesOf, FactAt;
    var states: States := [];
    var rows := SortBy(KeyOf, SlotLt, c.facts.categories);
    RowsSorted(c, rows);
    NoStates(c, redirected, after);
    for i := 0 to |rows|
      invariant StatesOf(c, redirected, after, rows[..i], states)
    {
      var slot := rows[i].key;
      assert Keys(KeyOf, rows)[i] == slot;
      RowOf(c, slot);
      var state :- StateOf(c, slot, if after then Left(c.purchases, slot) else 0, if after then Left(redirected, slot) else 0);
      NextState(c, redirected, after, rows, i, states, state);
      states := states + [(slot, state)];
    }
    assert rows[..|rows|] == rows;
    StatesListed(c, redirected, after, rows, states);
    r := Ok(states);
  }

  // A budget read off a card.

  /** The planner's category inputs are the card's own facts, policies and states before the cart. */
  ghost predicate CardBudget(c: Card, b: Budget) {
    b.facts == c.facts.categories && b.policies == c.policies && b.states.Keys == c.totals.Keys
    && (forall slot :: slot in c.totals ==> StateMeans(c, slot, 0, 0, b.states[slot]))
    && forall slot :: slot in c.totals && slot.categoryId in c.policies ==>
         var p := c.policies[slot.categoryId];
         p.minimumRetained.currency == p.projectedRemainingNeed.currency == CurrencyAt(c.facts, slot)
  }

  /** No category that gives is protected or a goal: the card looks only at donor eligibility. */
  ghost predicate DonorsOpen(c: Card, paths: seq<Path>) {
    forall p :: p in paths ==> p.source.categoryId in c.policies && !Locked(c.policies[p.source.categoryId])
  }

  function MovementOf(p: Path): Movement {
    Movement(p.source, p.destination, Money(p.amount, p.currency))
  }

  function Movements(paths: seq<Path>): (r: seq<Movement>)
    ensures |r| == |paths| && forall i :: 0 <= i < |r| ==> r[i] == MovementOf(paths[i])
  {
    seq(|paths|, i requires 0 <= i < |paths| => MovementOf(paths[i]))
  }

  function PathSteps(paths: seq<Path>): (r: seq<Step>)
    ensures |r| == |paths| && forall i :: 0 <= i < |r| ==> r[i] == Move(MovementOf(paths[i]))
  {
    MoveSteps(Movements(paths))
  }

  // Reordering an allocation.

  lemma {:induction false} AmountsTakenOut(paths: seq<Path>, i: nat, slot: Slot)
    requires i < |paths|
    ensures Into(paths, slot) == Into(Without(paths, i), slot) + if paths[i].destination == slot then paths[i].amount else 0
    ensures OutOf(paths, slot) == OutOf(Without(paths, i), slot) + if paths[i].source == slot then paths[i].amount else 0
  {
    assert paths == paths[..i] + ([paths[i]] + paths[i + 1..]);
    IntoConcat(paths[..i], [paths[i]] + paths[i + 1..], slot);
    IntoConcat([paths[i]], paths[i + 1..], slot);
    IntoConcat(paths[..i], paths[i + 1..], slot);
  }

  lemma {:induction false} AmountsPermute(a: seq<Path>, b: seq<Path>, slot: Slot)
    requires multiset(a) == multiset(b)
    ensures Into(a, slot) == Into(b, slot) && OutOf(a, slot) == OutOf(b, slot)
    decreases |a|
  {
    SameMembers(a, b);
    if a != [] {
      var i := BothWithout(a, b, 0);
      AmountsPermute(Without(a, 0), Without(b, i), slot);
      AmountsTakenOut(a, 0, slot);
      AmountsTakenOut(b, i, slot);
    }
  }

  lemma {:induction false} OnceEach<T>(s: seq<T>, x: T, i: nat, j: nat)
    requires i < j < |s| && s[i] == x && s[j] == x
    ensures multiset(s)[x] >= 2
  {
    TakenOut(s, j);
    assert Without(s, j)[i] == x;
    assert x in Without(s, j);
    assert x in multiset(Without(s, j));
  }

  lemma {:induction false} TwiceSomewhere<T>(s: seq<T>, x: T)
    requires multiset(s)[x] >= 2
    ensures exists i, j :: 0 <= i < j < |s| && s[i] == x && s[j] == x
  {
    assert x in multiset(s);
    var i :| 0 <= i < |s| && s[i] == x;
    TakenOut(s, i);
    assert x in multiset(Without(s, i));
    var k :| 0 <= k < |Without(s, i)| && Without(s, i)[k] == x;
    var j := if k < i then k else k + 1;
    assert s[j] == x && j != i;
    if i < j {
      assert s[i] == x && s[j] == x;
    } else {
      assert s[j] == x && s[i] == x;
    }
  }

  lemma {:induction false} DistinctPairsPermute(a: seq<Path>, b: seq<Path>)
    requires multiset(a) == multiset(b) && DistinctPairs(a)
    ensures DistinctPairs(b)
  {
    SameMembers(a, b);
    forall i, j | 0 <= i < j < |b|
      ensures b[i].source != b[j].source || b[i].destination != b[j].destination
    {
      assert b[i] in b && b[j] in b;
      var k :| 0 <= k < |a| && a[k] == b[i];
      var l :| 0 <= l < |a| && a[l] == b[j];
      if b[i] == b[j] {
        OnceEach(b, b[i], i, j);
        TwiceSomewhere(a, b[i]);
      }
    }
  }

  /** Any order of an allocation is the same allocation. */
  lemma {:induction false} AllocationPermutes(c: Card, a: seq<Path>, b: seq<Path>)
    requires Allocation(c, a) && multiset(a) == multiset(b)
    ensures Allocation(c, b)
  {
    hide PathSound, Shortfall, Spendable, Into, OutOf, DistinctPairs;
    DistinctPairsPermute(a, b);
    SameMembers(a, b);
    forall slot
      ensures Into(b, slot) == Shortfall(c, slot) && 0 <= OutOf(b, slot) <= Spendable(c, slot)
    {
      AmountsPermute(a, b, slot);
      assert Into(a, slot) == Shortfall(c, slot) && 0 <= OutOf(a, slot) <= Spendable(c, slot);
    }
  }

  // Every move is funded when its turn comes.

  lemma {:induction false} FlowOfPaths(paths: seq<Path>, k: nat, slot: Slot)
    requires k <= |paths| && forall p :: p in paths ==> p.amount > 0 && p.source != p.destination
    ensures Flow(PathSteps(paths)[..k], slot) == Into(paths[..k], slot) - OutOf(paths[..k], slot)
  {
    if k > 0 {
      FlowOfPaths(paths, k - 1, slot);
      PrefixAmounts(paths, k - 1, slot);
      assert PathSteps(paths)[..k] == PathSteps(paths)[..k - 1] + [Move(MovementOf(paths[k - 1]))];
      FlowThen(PathSteps(paths)[..k - 1], Move(MovementOf(paths[k - 1])));
      assert paths[k - 1] in paths;
    }
  }

  lemma {:induction false} PathAmounts(c: Card, paths: seq<Path>, k: nat)
    requires ValidCard(c) && Allocation(c, paths) && k < |paths|
    ensures var s, d, n := paths[k].source, paths[k].destination, paths[k].amount;
            Flow(PathSteps(paths)[..k], s) == -OutOf(paths[..k], s) && 0 <= OutOf(paths[..k], s)
            && OutOf(paths[..k], s) + n <= Spendable(c, s)
            && Flow(PathSteps(paths)[..k], d) == Into(paths[..k], d) && 0 <= Into(paths[..k], d)
            && Into(paths[..k], d) + n <= Shortfall(c, d)
  {
    var s, d := paths[k].source, paths[k].destination;
    assert forall p :: p in paths ==> PathSound(c, p);
    assert PathSound(c, paths[k]);
    FlowOfPaths(paths, k, s);
    FlowOfPaths(paths, k, d);
    PrefixAmounts(paths, k, s);
    PrefixAmounts(paths, k, d);
    NeverBoth(c, s);
    NeverBoth(c, d);
    hide Flow, Into, OutOf, Shortfall, Spendable;
    assert Into(paths, s) == Shortfall(c, s) && OutOf(paths, s) <= Spendable(c, s);
    assert Into(paths, d) == Shortfall(c, d) && OutOf(paths, d) <= Spendable(c, d);
  }

  lemma {:induction false} KnownEnd(c: Card, b: Budget, slot: Slot)
    requires Backed(c) && CardBudget(c, b) && slot in c.totals
    ensures FactAgrees(b, slot, CurrencyAt(c.facts, slot))
    ensures b.states[slot].availability.units == c.totals[slot].availability >= 0
    ensures b.states[slot].uncommitted.units == Spare(c.totals[slot])
  {
    var i := IndexOf(KeysOf(c.facts.categories), slot);
    assert c.facts.categories[i].key == slot;
    assert StateMeans(c, slot, 0, 0, b.states[slot]);
    assert c.totals[slot].(availability := b.states[slot].availability.units) == c.totals[slot];
  }

  lemma {:induction false} SourceTerms(c: Card, b: Budget, p: Path)
    requires ValidCard(c) && Backed(c) && CardBudget(c, b) && PathSound(c, p) && p.destination in c.totals
    requires p.source.categoryId in c.policies && !Locked(c.policies[p.source.categoryId])
    ensures MoveKnown(b, MovementOf(p)) && DonorTerms(b, MovementOf(p))
  {
    KnownEnd(c, b, p.source);
    KnownEnd(c, b, p.destination);
    assert PolicyAt(c, p.source).Some? && PolicyAt(c, p.source).value.donorEligible;
    assert StateMeans(c, p.source, 0, 0, b.states[p.source]);
    hide Locked, Surplus, Spendable, Shortfall, StateMeans, Backed, ValidCard;
  }

  lemma {:induction false} SurplusRoom(t: Totals, p: Policy, state: CategoryState, given: int, amount: int)
    requires t.reservations >= 0 && t.commitments >= 0 && t.availability >= 0
    requires p.minimumRetained.units >= 0 && p.projectedRemainingNeed.units >= 0
    requires state.availability.units == t.availability && state.uncommitted.units == Spare(t)
    requires state.safeToRedirect.units == Surplus(t, Some(p))
    requires 0 <= given && 0 < amount && given + amount <= Surplus(t, Some(p))
    ensures SourceFunded(state, p, -given, amount)
  {
  }

  lemma {:induction false} SpendableSurplus(c: Card, slot: Slot)
    requires ValidCard(c) && Spendable(c, slot) > 0
    ensures slot in c.totals && slot.categoryId in c.policies && PolicyAt(c, slot) == Some(c.policies[slot.categoryId])
    ensures Spendable(c, slot) <= Surplus(c.totals[slot], PolicyAt(c, slot))
    ensures c.totals[slot].reservations >= 0 && c.totals[slot].commitments >= 0
    ensures c.policies[slot.categoryId].minimumRetained.units >= 0 && c.policies[slot.categoryId].projectedRemainingNeed.units >= 0
    ensures FactAt(c.facts, slot).Some? && FactAt(c.facts, slot).value.rest.period == Current
  {
  }

  lemma {:induction false} SourceRoom(c: Card, b: Budget, slot: Slot, given: int, amount: int)
    requires ValidCard(c) && Backed(c) && CardBudget(c, b)
    requires 0 <= given && 0 < amount && given + amount <= Spendable(c, slot)
    ensures slot.categoryId in c.policies && slot in b.states
    ensures SourceFunded(b.states[slot], c.policies[slot.categoryId], -given, amount)
  {
    SpendableSurplus(c, slot);
    KnownEnd(c, b, slot);
    assert StateMeans(c, slot, 0, 0, b.states[slot]);
    assert c.totals[slot].(availability := b.states[slot].availability.units) == c.totals[slot];
    hide Spendable, Surplus, Spare, SourceFunded, Backed, ValidCard, FactAgrees;
    SurplusRoom(c.totals[slot], c.policies[slot.categoryId], b.states[slot], given, amount);
  }

  lemma {:induction false} RoomToReceive(state: CategoryState, t: Totals, shortfall: int, received: int, amount: int)
    requires t.reservations >= 0 && t.commitments >= 0 && t.availability >= 0
    requires state.availability.units == t.availability && state.uncommitted.units == Spare(t)
    requires Fits(t.availability + shortfall) && 0 <= received && 0 < amount && received + amount <= shortfall
    ensures DestinationFits(state, received, amount)
  {
  }

  lemma {:induction false} DestinationRoom(c: Card, b: Budget, slot: Slot, received: int, amount: int)
    requires ValidCard(c) && Backed(c) && CardBudget(c, b) && Headroom(c) && slot in c.totals
    requires 0 <= received && 0 < amount && received + amount <= Shortfall(c, slot)
    ensures slot in b.states && DestinationFits(b.states[slot], received, amount)
  {
    KnownEnd(c, b, slot);
    assert Fits(c.totals[slot].availability + Shortfall(c, slot));
    assert c.totals[slot].reservations >= 0 && c.totals[slot].commitments >= 0;
    assert slot in b.states;
    hide *;
    RoomToReceive(b.states[slot], c.totals[slot], Shortfall(c, slot), received, amount);
  }

  lemma {:induction false} NeedKnown(c: Card, slot: Slot)
    requires Shortfall(c, slot) > 0
    ensures slot in c.totals && Usable(c, slot)
  {
  }

  /** The planner's running checks on the card's own moves, in the order given, all pass. */
  lemma {:induction false} PathFunded(c: Card, b: Budget, paths: seq<Path>, k: nat)
    requires ValidCard(c) && Backed(c) && CardBudget(c, b) && DonorsOpen(c, paths) && Headroom(c)
    requires Allocation(c, paths) && k < |paths|
    ensures MoveFunded(b, PathSteps(paths)[..k], MovementOf(paths[k]))
  {
    hide *;
    var p := paths[k];
    PathAt(c, paths, k);
    OpenAt(c, paths, k);
    PathAmounts(c, paths, k);
    SourceTerms(c, b, p);
    SourceRoom(c, b, p.source, OutOf(paths[..k], p.source), p.amount);
    DestinationRoom(c, b, p.destination, Into(paths[..k], p.destination), p.amount);
    assert -OutOf(paths[..k], p.source) == Flow(PathSteps(paths)[..k], p.source);
    SamePolicies(c, b);
    FundedFrom(b, PathSteps(paths)[..k], MovementOf(p));
  }

  lemma {:induction false} OpenAt(c: Card, paths: seq<Path>, k: nat)
    requires DonorsOpen(c, paths) && k < |paths|
    ensures paths[k].source.categoryId in c.policies && !Locked(c.policies[paths[k].source.categoryId])
  {
    assert paths[k] in paths;
    hide Locked;
  }

  lemma {:induction false} PathAt(c: Card, paths: seq<Path>, k: nat)
    requires Allocation(c, paths) && k < |paths|
    ensures PathSound(c, paths[k]) && paths[k].amount > 0 && paths[k].destination in c.totals
    ensures MovementOf(paths[k]).source == paths[k].source && MovementOf(paths[k]).destination == paths[k].destination
    ensures MovementOf(paths[k]).amount.units == paths[k].amount
  {
    assert paths[k] in paths;
    NeedKnown(c, paths[k].destination);
    hide Shortfall, Spendable, Usable, Into, OutOf;
  }

  lemma {:induction false} SamePolicies(c: Card, b: Budget)
    requires CardBudget(c, b)
    ensures b.policies == c.policies
  {
  }

  lemma {:induction false} FundedFrom(b: Budget, before: seq<Step>, m: Movement)
    requires MoveKnown(b, m) && DonorTerms(b, m) && m.source.categoryId in b.policies
    requires m.source in b.states && m.destination in b.states
    requires SourceFunded(b.states[m.source], b.policies[m.source.categoryId], Flow(before, m.source), m.amount.units)
    requires DestinationFits(b.states[m.destination], Flow(before, m.destination), m.amount.units)
    ensures MoveFunded(b, before, m)
  {
    hide MoveKnown, DonorTerms, SourceFunded, DestinationFits, Flow;
  }
}
