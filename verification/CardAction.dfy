/** From a decision card to its whole action: one reallocation of the card's moves, then the purchases of its cart. */
module CardAction {
  import opened CheckedMoney
  import opened Rows
  import opened Action
  import opened Ordered
  import opened Sorting
  import opened Sums
  import opened Cart
  import opened Outflow
  import opened Dispatch
  import opened Targets
  import opened Donors
  import opened Funding
  import opened Envelopes
  import opened Planner
  import opened PlanAction
  import opened CardPlan
  import opened CardCart
  import CategoryTotals
  import CategoryLaws

  // What the card is made of.

  function PolicyId(row: (string, Policy)): string {
    row.0
  }

  predicate PolicySound(row: (string, Policy)) {
    row.0 != "" && row.1.minimumRetained.units >= 0 && row.1.projectedRemainingNeed.units >= 0
  }

  ghost predicate PoliciesSound(rows: seq<(string, Policy)>) {
    DistinctBy(PolicyId, rows) && forall row :: row in rows ==> PolicySound(row)
  }

  ghost predicate Maps(m: map<string, Policy>, rows: seq<(string, Policy)>) {
    (forall id :: id in m ==> (id, m[id]) in rows) && forall row :: row in rows ==> row.0 in m && m[row.0] == row.1
  }

  lemma {:induction false} MapsNext(m: map<string, Policy>, rows: seq<(string, Policy)>, row: (string, Policy))
    requires Maps(m, rows) && PoliciesSound(rows) && row.0 !in m && PolicySound(row)
    ensures Maps(m[row.0 := row.1], rows + [row]) && PoliciesSound(rows + [row])
  {
    forall i | 0 <= i < |rows|
      ensures rows[i].0 != row.0
    {
      assert rows[i] in rows;
    }
  }

  lemma {:induction false} RowRefused(m: map<string, Policy>, rows: seq<(string, Policy)>, i: nat)
    requires i < |rows| && Maps(m, rows[..i]) && (rows[i].0 in m || !PolicySound(rows[i]))
    ensures !PoliciesSound(rows)
  {
    if rows[i].0 in m {
      var j :| 0 <= j < i && rows[..i][j] == (rows[i].0, m[rows[i].0]);
      assert PolicyId(rows[j]) == PolicyId(rows[i]);
    } else {
      assert rows[i] in rows;
    }
  }

  /** The policies by category, refused unless each is named, distinct and not negative. */
  method PolicyMap(rows: seq<(string, Policy)>) returns (r: Result<map<string, Policy>>)
    ensures r.Ok? <==> PoliciesSound(rows)
    ensures r.Ok? ==> Maps(r.value, rows)
  {
    hide Maps, PoliciesSound, PolicySound;
    var m: map<string, Policy> := map[];
    assert Maps(m, rows[..0]) && PoliciesSound(rows[..0]) by {
      NothingMapped(rows);
    }
    for i := 0 to |rows|
      invariant Maps(m, rows[..i]) && PoliciesSound(rows[..i])
    {
      if rows[i].0 in m || !PolicySound(rows[i]) {
        RowRefused(m, rows, i);
        return Err("duplicate_or_invalid_category_policy");
      }
      MapsNext(m, rows[..i], rows[i]);
      assert rows[..i + 1] == rows[..i] + [rows[i]];
      m := m[rows[i].0 := rows[i].1];
    }
    assert rows[..|rows|] == rows;
    r := Ok(m);
  }

  lemma {:induction false} NothingMapped(rows: seq<(string, Policy)>)
    ensures Maps(map[], rows[..0]) && PoliciesSound(rows[..0])
  {
  }

  lemma {:induction false} MappedSound(m: map<string, Policy>, rows: seq<(string, Policy)>)
    requires PoliciesSound(rows) && Maps(m, rows)
    ensures forall id :: id in m ==> m[id].minimumRetained.units >= 0 && m[id].projectedRemainingNeed.units >= 0
  {
    assert forall id :: id in m ==> PolicySound((id, m[id]));
  }

  lemma {:induction false} ChargedSound(items: seq<CartItem>, adjustments: seq<Adjustment>, facts: Facts, charges: Charges, slot: Slot)
    requires Charged(items, adjustments, facts, charges)
    ensures Left(charges.categories, slot) == SumFor(charges.lines, slot) + SumFor(charges.adjustments, slot)
    ensures slot in charges.categories ==> charges.categories[slot] > 0
  {
    assert ChargesSum(charges.lines, charges.adjustments, charges.categories) && KeysIn(charges.adjustments) <= KeysIn(charges.lines);
    hide Charged, KeysIn, SumFor;
    if slot !in charges.categories {
      Unlisted(charges.lines, slot);
      Unlisted(charges.adjustments, slot);
    }
  }

  /** A card read off a charged cart, the category totals and the policies is one the donor allocator can work on. */
  lemma {:induction false} CardSound(items: seq<CartItem>, adjustments: seq<Adjustment>, charges: Charges, rows: seq<(string, Policy)>,
                                     buckets: seq<string>, dues: seq<CategoryTotals.Due>, effects: seq<CategoryTotals.ClaimEffect>, end: string,
                                     owed: map<string, CategoryTotals.Meta>, claims: map<string, CategoryTotals.ClaimEffect>, c: Card)
    requires Charged(items, adjustments, c.facts, charges) && c.purchases == charges.categories
    requires PoliciesSound(rows) && Maps(c.policies, rows)
    requires CategoryTotals.Totalled(c.facts, buckets, dues, effects, end, owed, claims)
    requires CategoryTotals.TotalsMean(c.facts, owed, claims, c.totals)
    ensures ValidCard(c) && Backed(c)
    ensures forall slot :: Left(c.purchases, slot) == SumFor(charges.lines, slot) + SumFor(charges.adjustments, slot)
  {
    hide Charged, CategoryTotals.Totalled, CategoryTotals.TotalsMean, Backed, Maps, PoliciesSound, SumFor;
    MappedSound(c.policies, rows);
    CategoryLaws.TotalsBack(c.facts, buckets, dues, effects, end, owed, claims, c);
    forall slot
      ensures Left(c.purchases, slot) == SumFor(charges.lines, slot) + SumFor(charges.adjustments, slot)
      ensures slot in c.purchases ==> c.purchases[slot] > 0
    {
      ChargedSound(items, adjustments, c.facts, charges, slot);
    }
  }

  lemma {:induction false} Unlisted(lines: Lines, slot: Slot)
    requires slot !in KeysIn(lines)
    ensures SumFor(lines, slot) == 0
  {
    forall i | 0 <= i < |lines|
      ensures lines[i].0 != slot
    {
      assert lines[i] in lines;
    }
    SumOfOther(lines, slot);
  }

  // Charges by category.

  function SlotLines(m: map<Slot, i64>, slots: seq<Slot>): (r: Lines)
    requires forall i :: 0 <= i < |slots| ==> slots[i] in m
    ensures |r| == |slots| && forall i :: 0 <= i < |r| ==> r[i] == (slots[i], m[slots[i]])
  {
    seq(|slots|, i requires 0 <= i < |slots| => (slots[i], m[slots[i]]))
  }

  /** The charges slot by slot, in slot order. */
  function CategoryLines(m: map<Slot, i64>): Lines {
    SlotsOrdered();
    SlotLines(m, Listing(SlotLt, m.Keys))
  }

  lemma {:induction false} SumOfSlots(m: map<Slot, i64>, slots: seq<Slot>, slot: Slot)
    requires Distinct(slots) && forall i :: 0 <= i < |slots| ==> slots[i] in m
    ensures SumFor(SlotLines(m, slots), slot) == if slot in slots then m[slot] else 0
  {
    if slots != [] {
      SumOfSlots(m, slots[1..], slot);
      assert SlotLines(m, slots)[1..] == SlotLines(m, slots[1..]);
      assert slots == [slots[0]] + slots[1..];
    }
  }

  lemma {:induction false} CategoryLinesAre(m: map<Slot, i64>)
    ensures forall slot :: SumFor(CategoryLines(m), slot) == Left(m, slot)
    ensures KeysIn(CategoryLines(m)) == m.Keys
    ensures forall i :: 0 <= i < |CategoryLines(m)| ==> CategoryLines(m)[i].0 in m && CategoryLines(m)[i].1 == m[CategoryLines(m)[i].0]
  {
    SlotsOrdered();
    var slots := Listing(SlotLt, m.Keys);
    assert Distinct(slots);
    hide SlotLt, StrictOrder, Listing;
    forall slot
      ensures SumFor(CategoryLines(m), slot) == Left(m, slot)
    {
      SumOfSlots(m, slots, slot);
    }
    forall slot | slot in m.Keys
      ensures slot in KeysIn(CategoryLines(m))
    {
      var i :| 0 <= i < |slots| && slots[i] == slot;
      assert CategoryLines(m)[i] in CategoryLines(m);
    }
  }

  lemma {:induction false} SameTotal(lines: Lines)
    ensures Total(ByCategory(lines)) == Total(lines)
  {
    if lines != [] {
      assert ByCategory(lines)[1..] == ByCategory(lines[1..]);
      SameTotal(lines[1..]);
    }
  }

  /** The charges summed over the months of each category. The running sums cannot overflow. */
  method AggregateCategories(m: map<Slot, i64>) returns (r: map<string, i64>)
    requires (forall slot :: slot in m ==> m[slot] > 0) && Fits(SumMap(m))
    ensures Tallies(r, ByCategory(CategoryLines(m))) && SumMap(r) == SumMap(m)
    ensures forall id :: id in r ==> r[id] > 0
  {
    var lines := CategoryLines(m);
    CategoryLinesAre(m);
    SumsToTotal(lines, m);
    SameTotal(lines);
    assert Positive(ByCategory(lines));
    hide Tallies, RunsFit;
    PositiveRunsFit(ByCategory(lines));
    var tally := Tally(ByCategory(lines));
    r := tally.value;
    AllPositive(r, ByCategory(lines));
  }

  lemma {:induction false} AllPositive(m: map<string, i64>, lines: seq<(string, i64)>)
    requires Positive(lines) && Tallies(m, lines)
    ensures SumMap(m) == Total(lines) && forall id :: id in m ==> m[id] > 0
  {
    forall id | id in m
      ensures m[id] > 0
    {
      assert id in KeysIn(lines) && Left(m, id) == SumFor(lines, id);
      PositiveSums(lines, id);
    }
  }

  // Sums by slot decide sums by category.

  function Drop(lines: Lines, slot: Slot): Lines {
    if lines == [] then []
    else (if lines[0].0 == slot then [] else [lines[0]]) + Drop(lines[1..], slot)
  }

  lemma {:induction false} DropSums(lines: Lines, slot: Slot)
    ensures |Drop(lines, slot)| <= |lines| && (lines != [] && lines[0].0 == slot ==> |Drop(lines, slot)| < |lines|)
    ensures forall other :: SumFor(Drop(lines, slot), other) == if other == slot then 0 else SumFor(lines, other)
  {
    if lines != [] {
      DropSums(lines[1..], slot);
      if lines[0].0 != slot {
        assert Drop(lines, slot)[1..] == Drop(lines[1..], slot);
      } else {
        assert Drop(lines, slot) == Drop(lines[1..], slot);
      }
    }
  }

  lemma {:induction false} DropCategory(lines: Lines, slot: Slot, id: string)
    ensures SumFor(ByCategory(lines), id)
         == SumFor(ByCategory(Drop(lines, slot)), id) + if slot.categoryId == id then SumFor(lines, slot) else 0
  {
    if lines != [] {
      DropCategory(lines[1..], slot, id);
      assert ByCategory(lines)[1..] == ByCategory(lines[1..]);
      if lines[0].0 != slot {
        assert Drop(lines, slot)[1..] == Drop(lines[1..], slot);
        assert ByCategory(Drop(lines, slot))[1..] == ByCategory(Drop(lines[1..], slot));
      } else {
        assert Drop(lines, slot) == Drop(lines[1..], slot);
      }
    }
  }

  /** Lists that cancel in every slot cancel in every category. */
  lemma {:induction false} CancelByCategory(a: Lines, b: Lines, id: string)
    requires forall slot :: SumFor(a, slot) == -SumFor(b, slot)
    ensures SumFor(ByCategory(a), id) == -SumFor(ByCategory(b), id)
    decreases |a| + |b|
  {
    if a != [] || b != [] {
      var slot := if a != [] then a[0].0 else b[0].0;
      DropSums(a, slot);
      DropSums(b, slot);
      DropCategory(a, slot, id);
      DropCategory(b, slot, id);
      hide Drop, SumFor;
      CancelByCategory(Drop(a, slot), Drop(b, slot), id);
    }
  }

  function AllDeltas(txs: seq<Transaction>): Lines {
    if txs == [] then [] else AllDeltas(txs[..|txs| - 1]) + MonthDeltas(txs[|txs| - 1])
  }

  lemma {:induction false} DeltasThen(front: Lines, more: Lines, slot: Slot, id: string)
    ensures SumFor(front + more, slot) == SumFor(front, slot) + SumFor(more, slot)
    ensures SumFor(ByCategory(front + more), id) == SumFor(ByCategory(front), id) + SumFor(ByCategory(more), id)
  {
    SumForConcat(front, more, slot);
    assert ByCategory(front + more) == ByCategory(front) + ByCategory(more);
    SumForConcat(ByCategory(front), ByCategory(more), id);
  }

  lemma {:induction false} DeltasFlow(txs: seq<Transaction>, slot: Slot, id: string)
    requires forall i :: 0 <= i < |txs| ==> Spends(Post(txs[i]))
    ensures Flow(PostSteps(txs), slot) == SumFor(AllDeltas(txs), slot)
    ensures CategorySpent(PostSteps(txs), id) == -SumFor(ByCategory(AllDeltas(txs)), id)
  {
    hide MonthDeltas, ByCategory;
    if txs == [] {
      assert ByCategory(AllDeltas(txs)) == [];
    } else {
      var front, last := txs[..|txs| - 1], txs[|txs| - 1];
      assert PostSteps(txs) == PostSteps(front) + [Post(last)] && Spends(Post(last));
      DeltasFlow(front, slot, id);
      DeltasThen(AllDeltas(front), MonthDeltas(last), slot, id);
      hide SumFor;
      FlowThen(PostSteps(front), Post(last));
      assert EnvelopeDelta(Post(last), slot) == SumFor(MonthDeltas(last), slot);
      hide Flow, CategorySpent;
    }
  }

  // Buying the cart.

  /** The budget's charges are the card's purchases, summed by category. */
  ghost predicate ChargesAggregated(c: Card, b: Budget) {
    Tallies(Units(b.charges), ByCategory(CategoryLines(c.purchases)))
  }

  /** The purchases buy the cart slot by slot: exactly what the card says of each. */
  ghost predicate WholeCart(c: Card, b: Budget, txs: seq<Transaction>) {
    (forall i :: 0 <= i < |txs| ==> Spends(Post(txs[i])) && WithinEffects(c, b, txs[i]))
    && forall slot :: -Flow(PostSteps(txs), slot) == Left(c.purchases, slot)
  }

  lemma {:induction false} WholeByCategory(c: Card, b: Budget, txs: seq<Transaction>, id: string)
    requires WholeCart(c, b, txs) && ChargesAggregated(c, b)
    ensures CategorySpent(PostSteps(txs), id) == if id in b.charges then b.charges[id].units else 0
  {
    var lines := CategoryLines(c.purchases);
    CategoryLinesAre(c.purchases);
    hide CategoryLines, WithinEffects, Flow, CategorySpent, AllDeltas, SumFor;
    forall slot
      ensures SumFor(AllDeltas(txs), slot) == -SumFor(lines, slot)
    {
      DeltasFlow(txs, slot, id);
      assert -Flow(PostSteps(txs), slot) == Left(c.purchases, slot);
    }
    CancelByCategory(AllDeltas(txs), lines, id);
    DeltasFlow(txs, Slot(id, ""), id);
    assert Left(Units(b.charges), id) == SumFor(ByCategory(lines), id);
  }

  lemma {:induction false} WholeIsWithin(c: Card, b: Budget, txs: seq<Transaction>)
    requires WholeCart(c, b, txs) && ChargesAggregated(c, b)
    ensures WithinCart(c, b, txs)
  {
    hide WithinEffects, Flow, CategorySpent, ChargesAggregated;
    forall id | id in b.charges
      ensures CategorySpent(PostSteps(txs), id) <= b.charges[id].units
    {
      WholeByCategory(c, b, txs, id);
    }
    assert forall slot :: -Flow(PostSteps(txs), slot) <= Left(c.purchases, slot);
  }

  // The action.

  function Purchases(txs: seq<Transaction>): (r: seq<Atom>)
    ensures |r| == |txs| && forall i :: 0 <= i < |r| ==> r[i] == ManualTransaction(txs[i])
  {
    seq(|txs|, i requires 0 <= i < |txs| => ManualTransaction(txs[i]))
  }

  function Moving(paths: seq<Path>): (r: seq<Atom>)
    ensures |r| == if paths == [] then 0 else 1
  {
    if paths == [] then [] else [Reallocation(Movements(paths))]
  }

  /** The moves the card proposes, if any, then what it is for. */
  function CardAtoms(paths: seq<Path>, txs: seq<Transaction>): seq<Atom> {
    Moving(paths) + Purchases(txs)
  }

  /**
   * The account side of the purchases, which the card leaves to its payment routes: live accounts, new
   * identities, room in each balance, and account by account what the card charges.
   */
  ghost predicate AccountsReady(r: Request, txs: seq<Transaction>) {
    (forall k :: 0 <= k < |txs| ==> AccountReady(r, PostSteps(txs)[..k], txs[k]))
    && SpentInAll(PostSteps(txs)) == r.cartTotal.units
    && forall a :: Spent(PostSteps(txs), a) == if a in r.accountCharges then r.accountCharges[a].units else 0
  }

  ghost predicate AccountReady(r: Request, before: seq<Step>, tx: Transaction) {
    ManualShape(r, tx) && Fresh(SeenAfter(r.ledger, before), Post(tx)) && OutflowReady(LimitsOf(r), before, Post(tx))
    && StepReady(r.ledger, before, Post(tx))
  }

  lemma {:induction false} MovingSteps(paths: seq<Path>)
    ensures Steps(Moving(paths)) == PathSteps(paths) && Moves(Moving(paths)) == Movements(paths)
  {
    if paths != [] {
      assert Moving(paths)[..0] == [];
    }
  }

  lemma {:induction false} PrefixThen(moves: seq<Step>, txs: seq<Transaction>, k: nat)
    requires k < |txs|
    ensures moves + PostSteps(txs)[..k] + [Post(txs[k])] == moves + PostSteps(txs)[..k + 1]
  {
  }

  lemma {:induction false} CardSteps(paths: seq<Path>, txs: seq<Transaction>, k: nat)
    requires k <= |txs|
    ensures Steps(CardAtoms(paths, txs)[..|Moving(paths)| + k]) == PathSteps(paths) + PostSteps(txs)[..k]
  {
    var atoms, n := CardAtoms(paths, txs), |Moving(paths)|;
    hide Steps, PathSteps;
    if k == 0 {
      MovingSteps(paths);
      assert atoms[..n] == Moving(paths) && PathSteps(paths) + PostSteps(txs)[..0] == PathSteps(paths);
    } else {
      assert atoms[n + k - 1] == ManualTransaction(txs[k - 1]);
      hide CardAtoms, Moving;
      CardSteps(paths, txs, k - 1);
      NextAtom(atoms, n + k - 1);
      PrefixThen(PathSteps(paths), txs, k - 1);
    }
  }

  lemma {:induction false} MovesPassAccount(moves: seq<Step>, before: seq<Step>, a: string)
    requires forall i :: 0 <= i < |moves| ==> moves[i].Move?
    ensures Spent(moves + before, a) == Spent(before, a) && Sent(moves + before, a) == Sent(before, a)
    ensures BalanceMoved(moves + before, a) == BalanceMoved(before, a)
    decreases |before|, |moves|
  {
    if before != [] {
      assert (moves + before)[..|moves + before| - 1] == moves + before[..|before| - 1];
      assert (moves + before)[|moves + before| - 1] == before[|before| - 1];
      MovesPassAccount(moves, before[..|before| - 1], a);
    } else {
      assert moves + before == moves;
      if moves != [] {
        assert moves[..|moves| - 1] + before == moves[..|moves| - 1];
        MovesPassAccount(moves[..|moves| - 1], before, a);
      }
    }
  }

  /** Moves come before purchases and touch nothing their account side looks at. */
  lemma {:induction false} MovesPass(r: Request, moves: seq<Step>, before: seq<Step>)
    requires forall i :: 0 <= i < |moves| ==> moves[i].Move?
    ensures SpentInAll(moves + before) == SpentInAll(before)
    ensures SeenAfter(r.ledger, moves + before).(moves := {}) == SeenAfter(r.ledger, before).(moves := {})
    ensures forall a :: Spent(moves + before, a) == Spent(before, a) && Sent(moves + before, a) == Sent(before, a)
    ensures forall a :: BalanceMoved(moves + before, a) == BalanceMoved(before, a)
    decreases |before|, |moves|
  {
    forall a
      ensures Spent(moves + before, a) == Spent(before, a) && Sent(moves + before, a) == Sent(before, a)
      ensures BalanceMoved(moves + before, a) == BalanceMoved(before, a)
    {
      MovesPassAccount(moves, before, a);
    }
    hide Spent, Sent, BalanceMoved;
    if before != [] {
      assert (moves + before)[..|moves + before| - 1] == moves + before[..|before| - 1];
      MovesPass(r, moves, before[..|before| - 1]);
    } else {
      assert moves + before == moves;
      if moves != [] {
        assert moves[..|moves| - 1] + before == moves[..|moves| - 1];
        MovesPass(r, moves[..|moves| - 1], before);
      }
    }
  }

  lemma {:induction false} AccountStillReady(r: Request, moves: seq<Step>, before: seq<Step>, tx: Transaction)
    requires AccountReady(r, before, tx) && forall i :: 0 <= i < |moves| ==> moves[i].Move?
    ensures AccountReady(r, moves + before, tx)
  {
    MovesPass(r, moves, before);
    hide ManualShape, LimitsOf, SeenAfter, Spent, Sent, BalanceMoved, Lookup, SpentInAll;
  }

  lemma {:induction false} SpendingWithin(txs: seq<Transaction>, k: nat)
    requires k <= |txs|
    ensures SpentInAll(PostSteps(txs)[..k]) <= SpentInAll(PostSteps(txs))
    decreases |txs| - k
  {
    if k == |txs| {
      assert PostSteps(txs)[..k] == PostSteps(txs);
    } else {
      SpendingWithin(txs, k + 1);
      assert PostSteps(txs)[..k + 1][..k] == PostSteps(txs)[..k];
    }
  }

  lemma {:induction false} AccountsAt(r: Request, txs: seq<Transaction>, k: nat)
    requires AccountsReady(r, txs) && k < |txs|
    ensures AccountReady(r, PostSteps(txs)[..k], txs[k]) && SpentInAll(PostSteps(txs)[..k + 1]) <= r.cartTotal.units
  {
    hide AccountReady, SpentInAll;
    SpendingWithin(txs, k + 1);
  }

  lemma {:induction false} PurchaseAccepted(r: Request, c: Card, paths: seq<Path>, other: seq<Path>, txs: seq<Transaction>, k: nat)
    requires ValidCard(c) && Backed(c) && Headroom(c) && CardBudget(c, r.budget) && Allocation(c, paths) && multiset(paths) == multiset(other)
    requires WithinCart(c, r.budget, txs) && CartCovered(c) && AccountsReady(r, txs) && k < |txs|
    ensures ManualAccepted(r, PathSteps(other) + PostSteps(txs)[..k], txs[k])
  {
    hide *;
    CartAffordable(c, r.budget, paths, other, txs, k);
    AccountsAt(r, txs, k);
    PathsMove(other);
    AccountStillReady(r, PathSteps(other), PostSteps(txs)[..k], txs[k]);
    MovesPass(r, PathSteps(other), PostSteps(txs)[..k + 1]);
    PrefixThen(PathSteps(other), txs, k);
    AssembleManual(r, PathSteps(other) + PostSteps(txs)[..k], txs[k]);
  }

  lemma {:induction false} PathsMove(paths: seq<Path>)
    ensures forall i :: 0 <= i < |PathSteps(paths)| ==> PathSteps(paths)[i].Move?
  {
  }

  lemma {:induction false} AssembleManual(r: Request, before: seq<Step>, tx: Transaction)
    requires AccountReady(r, before, tx) && SpentInAll(before + [Post(tx)]) <= r.cartTotal.units
    requires Affordable(r.budget, before, MonthDeltas(tx), tx.amount.currency)
    ensures ManualAccepted(r, before, tx)
  {
    hide ManualShape, Fresh, OutflowReady, StepReady, Affordable, SpentInAll, MonthDeltas, SeenAfter, LimitsOf;
  }

  /** The request the card's action is planned on. */
  ghost predicate CardRequest(r: Request, c: Card, paths: seq<Path>) {
    ValidCard(c) && Backed(c) && Headroom(c) && LedgerReady(r, c) && Allocation(c, paths)
    && r.hasCard && r.outcome == (if paths == [] then "funded_now" else "safe_with_reallocation") && r.approved == ApprovedLines(paths) && ChargesSound(r)
    && ChargesAggregated(c, r.budget)
  }

  lemma {:induction false} MovesAtomAccepted(r: Request, c: Card, paths: seq<Path>, other: seq<Path>)
    requires CardRequest(r, c, paths) && multiset(paths) == multiset(other) && DonorsOpen(c, paths) && other != []
    ensures AtomAccepted(r, [], Reallocation(Movements(other)))
  {
    hide ValidCard, Backed, Headroom, LedgerReady, Allocation, ApprovedLines, ChargesSound, ChargesAggregated, DonorsOpen, MovesAccepted,
         PathsCovered;
    assert |multiset(paths)| == |paths| && |multiset(other)| == |other|;
    CardMovesAccepted(r, c, paths, other);
  }

  lemma {:induction false} BuyAtomAccepted(r: Request, c: Card, paths: seq<Path>, other: seq<Path>, txs: seq<Transaction>, k: nat)
    requires CardRequest(r, c, paths) && multiset(paths) == multiset(other)
    requires WithinCart(c, r.budget, txs) && CartCovered(c) && AccountsReady(r, txs) && k < |txs|
    ensures AtomAccepted(r, PathSteps(other) + PostSteps(txs)[..k], ManualTransaction(txs[k]))
  {
    hide ValidCard, Backed, Headroom, LedgerReady, Allocation, ApprovedLines, ChargesSound, ChargesAggregated, CardBudget,
         AccountsReady, ManualAccepted, WithinCart, CartCovered, PathSteps, PostSteps;
    BudgetOf(r, c);
    PurchaseAccepted(r, c, paths, other, txs, k);
  }

  lemma {:induction false} CardAtomAccepted(r: Request, c: Card, paths: seq<Path>, other: seq<Path>, txs: seq<Transaction>, i: nat)
    requires CardRequest(r, c, paths) && multiset(paths) == multiset(other) && DonorsOpen(c, paths)
    requires WithinCart(c, r.budget, txs) && CartCovered(c) && AccountsReady(r, txs) && i < |CardAtoms(other, txs)|
    ensures AtomAccepted(r, Steps(CardAtoms(other, txs)[..i]), CardAtoms(other, txs)[i])
  {
    hide CardRequest, DonorsOpen, AccountsReady, WithinCart, CartCovered, AtomAccepted, PathSteps, PostSteps;
    var n := |Moving(other)|;
    if i < n {
      MovesAtomAccepted(r, c, paths, other);
      assert CardAtoms(other, txs)[..0] == [];
    } else {
      hide Steps;
      CardSteps(other, txs, i - n);
      BuyAtomAccepted(r, c, paths, other, txs, i - n);
      assert CardAtoms(other, txs)[i] == ManualTransaction(txs[i - n]);
    }
  }

  lemma {:induction false} CardMoves(paths: seq<Path>, txs: seq<Transaction>, k: nat)
    requires k <= |txs|
    ensures Moves(CardAtoms(paths, txs)[..|Moving(paths)| + k]) == Movements(paths)
  {
    var atoms, n := CardAtoms(paths, txs), |Moving(paths)|;
    if k == 0 {
      MovingSteps(paths);
      assert atoms[..n] == Moving(paths);
    } else {
      CardMoves(paths, txs, k - 1);
      assert atoms[..n + k][..n + k - 1] == atoms[..n + k - 1] && atoms[n + k - 1] == ManualTransaction(txs[k - 1]);
    }
  }

  lemma {:induction false} AcceptedBefore(r: Request, atoms: seq<Atom>)
    requires AtomsAccepted(r, atoms) && atoms != []
    ensures AtomsAccepted(r, atoms[..|atoms| - 1]) && AtomAccepted(r, Steps(atoms[..|atoms| - 1]), atoms[|atoms| - 1])
  {
    hide AtomAccepted, Steps;
    var front := atoms[..|atoms| - 1];
    forall i | 0 <= i < |front|
      ensures AtomAccepted(r, Steps(front[..i]), front[i])
    {
      assert front[..i] == atoms[..i];
    }
  }

  lemma {:induction false} CardDispatchable(r: Request, atoms: seq<Atom>)
    requires AtomsAccepted(r, atoms) && forall i :: 0 <= i < |atoms| ==> atoms[i].Reallocation? || atoms[i].ManualTransaction?
    ensures Dispatchable(r.ledger, Steps(atoms))
    decreases |atoms|
  {
    if atoms != [] {
      hide AtomAccepted, Dispatchable, ReadyFrom, AtomsAccepted, StepsOf;
      var front, last := atoms[..|atoms| - 1], atoms[|atoms| - 1];
      AcceptedBefore(r, atoms);
      ReadyAfter(r, Steps(front), last);
      CardDispatchable(r, front);
      DispatchableThen(r.ledger, Steps(front), StepsOf(last));
    }
  }

  lemma {:induction false} ReadyAfter(r: Request, before: seq<Step>, atom: Atom)
    requires AtomAccepted(r, before, atom) && (atom.Reallocation? || atom.ManualTransaction?)
    ensures ReadyFrom(r.ledger, before, StepsOf(atom))
  {
    hide StepReady, MoveShape, Fresh, MoveFunded, ManualShape, OutflowReady, Affordable, SpentInAll, SeenAfter;
    assert before + StepsOf(atom)[..0] == before;
  }

  lemma {:induction false} CartIsBought(r: Request, c: Card, other: seq<Path>, txs: seq<Transaction>)
    requires WholeCart(c, r.budget, txs) && ChargesAggregated(c, r.budget) && AccountsReady(r, txs)
    ensures CartBought(r, PathSteps(other) + PostSteps(txs))
  {
    hide WholeCart, ChargesAggregated, AccountReady, Spent, SpentInAll, CategorySpent, PathSteps;
    PathsMove(other);
    MovesPass(r, PathSteps(other), PostSteps(txs));
    forall id
      ensures CategorySpent(PathSteps(other) + PostSteps(txs), id) == if id in r.budget.charges then r.budget.charges[id].units else 0
    {
      FlowConcat(PathSteps(other), PostSteps(txs), Slot(id, ""), id);
      MovesSpendNothing(PathSteps(other), id);
      WholeByCategory(c, r.budget, txs, id);
    }
  }

  lemma {:induction false} CardAllAccepted(r: Request, c: Card, paths: seq<Path>, other: seq<Path>, txs: seq<Transaction>)
    requires CardRequest(r, c, paths) && multiset(paths) == multiset(other) && DonorsOpen(c, paths)
    requires WithinCart(c, r.budget, txs) && CartCovered(c) && AccountsReady(r, txs)
    ensures AtomsAccepted(r, CardAtoms(other, txs)) && Dispatchable(r.ledger, Steps(CardAtoms(other, txs)))
  {
    var atoms := CardAtoms(other, txs);
    hide CardRequest, DonorsOpen, AccountsReady, WithinCart, CartCovered, AtomAccepted, Dispatchable, Steps;
    forall i | 0 <= i < |atoms|
      ensures AtomAccepted(r, Steps(atoms[..i]), atoms[i])
    {
      CardAtomAccepted(r, c, paths, other, txs, i);
    }
    CardDispatchable(r, atoms);
  }

  lemma {:induction false} CardCovered(r: Request, c: Card, paths: seq<Path>, other: seq<Path>)
    requires CardRequest(r, c, paths) && multiset(paths) == multiset(other)
    ensures PathsCovered(r.approved, PathLines(Movements(other))) && r.hasCard && ChargesSound(r) && ChargesAggregated(c, r.budget)
    ensures MovesAccepted(r, [], Movements(other)) <==> DonorsOpen(c, paths)
  {
    hide ValidCard, Backed, Headroom, LedgerReady, Allocation, ApprovedLines, ChargesSound, ChargesAggregated, DonorsOpen, MovesAccepted,
         PathsCovered, Movements;
    CardMovesAccepted(r, c, paths, other);
  }

  lemma {:induction false} CardWhole(paths: seq<Path>, txs: seq<Transaction>)
    ensures Steps(CardAtoms(paths, txs)) == PathSteps(paths) + PostSteps(txs) && Moves(CardAtoms(paths, txs)) == Movements(paths)
  {
    hide Steps, Moves, PathSteps, Movements;
    CardSteps(paths, txs, |txs|);
    CardMoves(paths, txs, |txs|);
    assert CardAtoms(paths, txs)[..|Moving(paths)| + |txs|] == CardAtoms(paths, txs) && PostSteps(txs)[..|txs|] == PostSteps(txs);
  }

  lemma {:induction false} BoughtCovered(r: Request, c: Card, paths: seq<Path>, other: seq<Path>, txs: seq<Transaction>)
    requires CardRequest(r, c, paths) && multiset(paths) == multiset(other) && WholeCart(c, r.budget, txs)
    requires Plannable(r, CardAtoms(other, txs))
    ensures CartCovered(c)
  {
    BudgetOf(r, c);
    AllocationPermutes(c, paths, other);
    assert forall i :: 0 <= i < |txs| ==> Spends(Post(txs[i]));
    assert forall slot :: -Flow(PostSteps(txs), slot) == Left(c.purchases, slot);
    assert ValidCard(c) && Backed(c);
    hide CardRequest, ValidCard, Backed, CardBudget, Allocation, WholeCart, Plannable, CartCovered, Affordable, MonthDeltas, Flow,
         PathSteps, PostSteps;
    forall i | 0 <= i < |txs|
      ensures Affordable(r.budget, PathSteps(other) + PostSteps(txs)[..i], MonthDeltas(txs[i]), txs[i].amount.currency)
    {
      BoughtAffordable(r, other, txs, i);
    }
    FundedIsCovered(c, r.budget, other, txs);
  }

  lemma {:induction false} BoughtAffordable(r: Request, other: seq<Path>, txs: seq<Transaction>, i: nat)
    requires Plannable(r, CardAtoms(other, txs)) && i < |txs|
    ensures Affordable(r.budget, PathSteps(other) + PostSteps(txs)[..i], MonthDeltas(txs[i]), txs[i].amount.currency)
  {
    hide Dispatchable, CartBought, PathsCovered, ChargesSound, Affordable, MonthDeltas, ManualShape, Fresh, OutflowReady, StepReady,
         SpentInAll, Steps, PathSteps, PostSteps, LimitsOf, SeenAfter;
    var atoms := CardAtoms(other, txs);
    var n := |Moving(other)|;
    assert atoms[n + i] == ManualTransaction(txs[i]);
    assert AtomAccepted(r, Steps(atoms[..n + i]), atoms[n + i]);
    CardSteps(other, txs, i);
  }

  /**
   * The card's whole action plans. With accounts that can pay for it, moving the card's money in any order and then
   * buying its cart is accepted exactly when no donor is protected or a goal, and every purchase the card moves
   * nothing for is covered as it is.
   */
  lemma {:induction false} CardPlans(r: Request, c: Card, paths: seq<Path>, other: seq<Path>, txs: seq<Transaction>)
    requires CardRequest(r, c, paths) && multiset(paths) == multiset(other)
    requires WholeCart(c, r.budget, txs) && AccountsReady(r, txs)
    ensures Plannable(r, CardAtoms(other, txs)) <==> DonorsOpen(c, paths) && CartCovered(c)
  {
    hide *;
    CardCovered(r, c, paths, other);
    WholeIsWithin(c, r.budget, txs);
    CardWhole(other, txs);
    CartIsBought(r, c, other, txs);
    if Plannable(r, CardAtoms(other, txs)) {
      FirstMoves(r, other, txs);
      BoughtCovered(r, c, paths, other, txs);
    }
    if DonorsOpen(c, paths) && CartCovered(c) {
      CardAllAccepted(r, c, paths, other, txs);
      NothingProjected(r, other, txs);
      AssemblePlan(r, CardAtoms(other, txs));
    }
  }

  lemma {:induction false} NothingProjected(r: Request, paths: seq<Path>, txs: seq<Transaction>)
    ensures SubjectsApart(r, CardAtoms(paths, txs))
  {
    var atoms := CardAtoms(paths, txs);
    forall i | 0 <= i < |atoms|
      ensures !Projects(atoms[i])
    {
      assert i >= |Moving(paths)| ==> atoms[i] == Purchases(txs)[i - |Moving(paths)|];
    }
  }

  lemma {:induction false} AssemblePlan(r: Request, atoms: seq<Atom>)
    requires Dispatchable(r.ledger, Steps(atoms)) && AtomsAccepted(r, atoms) && CartBought(r, Steps(atoms))
    requires SubjectsApart(r, atoms) && r.hasCard && ChargesSound(r) && PathsCovered(r.approved, PathLines(Moves(atoms)))
    ensures Plannable(r, atoms)
  {
    hide Dispatchable, AtomsAccepted, CartBought, ChargesSound, PathsCovered, Steps, Moves;
  }

  lemma {:induction false} FirstMoves(r: Request, other: seq<Path>, txs: seq<Transaction>)
    requires Plannable(r, CardAtoms(other, txs))
    ensures MovesAccepted(r, [], Movements(other))
  {
    hide MoveAccepted, Dispatchable, CartBought, PathsCovered, ChargesSound;
    var atoms := CardAtoms(other, txs);
    if other != [] {
      assert AtomAccepted(r, Steps(atoms[..0]), atoms[0]);
      assert atoms[..0] == [];
    }
  }
}
