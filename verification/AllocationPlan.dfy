/** The allocation planner: canonical review, tender capacity, remainders and fully funded projections. */
module AllocationPlan {
  import opened CheckedMoney
  import opened Rows
  import opened Action
  import opened Ordered
  import opened Sums
  import opened Sorting
  import opened Matrix
  import opened Allocation

  // The canonical form of a review.

  function Self(s: string): string {
    s
  }

  predicate LineLt(a: LineKey, b: LineKey) {
    StringLt(a.receiptId, b.receiptId) || (a.receiptId == b.receiptId && StringLt(a.lineId, b.lineId))
  }

  /** Lines first, then the target or the category. */
  predicate PlacedLt(a: (LineKey, string), b: (LineKey, string)) {
    LineLt(a.0, b.0) || (a.0 == b.0 && StringLt(a.1, b.1))
  }

  lemma {:induction false} LinesOrdered()
    ensures StrictOrder(LineLt)
  {
    StringsOrdered();
  }

  lemma {:induction false} PlacesOrdered()
    ensures StrictOrder(PlacedLt)
  {
    StringsOrdered();
    LinesOrdered();
    hide LineLt;
  }

  function ChoiceKey(c: Choice): (LineKey, string) {
    (c.line, c.categoryId)
  }

  function Normalize(v: Review): Review {
    Review(SortBy(Self, StringLt, v.receiptIds), SortBy(Self, StringLt, v.targetIds),
           SortBy(ChoiceKey, PlacedLt, v.choices), SortBy(CellKey, PlacedLt, v.cells))
  }

  /** Two listings of the same receipts, targets, choices and cells. */
  ghost predicate SameItems(a: Review, b: Review) {
    multiset(a.receiptIds) == multiset(b.receiptIds) && multiset(a.targetIds) == multiset(b.targetIds)
    && multiset(a.choices) == multiset(b.choices) && multiset(a.cells) == multiset(b.cells)
  }

  /** Receipts and targets by identity, choices by line and category, cells by line and target. */
  ghost predicate InOrder(v: Review) {
    SortedBy(Self, StringLt, v.receiptIds) && SortedBy(Self, StringLt, v.targetIds)
    && SortedBy(ChoiceKey, PlacedLt, v.choices) && SortedBy(CellKey, PlacedLt, v.cells)
  }

  lemma {:induction false} NormalizedItems(v: Review)
    ensures SameItems(v, Normalize(v))
  {
    SortPermutes(Self, StringLt, v.receiptIds);
    SortPermutes(Self, StringLt, v.targetIds);
    SortPermutes(ChoiceKey, PlacedLt, v.choices);
    SortPermutes(CellKey, PlacedLt, v.cells);
  }

  lemma {:induction false} NormalizedOrder(v: Review)
    ensures InOrder(Normalize(v))
  {
    StringsOrdered();
    PlacesOrdered();
    hide StrictOrder, SortedBy, SortBy;
    SortSorts(Self, StringLt, v.receiptIds);
    SortSorts(Self, StringLt, v.targetIds);
    SortSorts(ChoiceKey, PlacedLt, v.choices);
    SortSorts(CellKey, PlacedLt, v.cells);
  }

  /** A review while it is put in order. */
  class ReviewBuffer {
    var receiptIds: seq<string>
    var targetIds: seq<string>
    var choices: seq<Choice>
    var cells: seq<Cell>

    constructor (v: Review)
      ensures View() == v
    {
      receiptIds, targetIds, choices, cells := v.receiptIds, v.targetIds, v.choices, v.cells;
    }

    function View(): Review
      reads this
    {
      Review(receiptIds, targetIds, choices, cells)
    }

    /** The same items, in order; what order that is does not depend on how they came. */
    method NormalizeInPlace()
      modifies this
      ensures SameItems(old(View()), View()) && InOrder(View())
      ensures View() == Normalize(old(View()))
    {
      NormalizedItems(View());
      NormalizedOrder(View());
      hide SortBy, SortedBy;
      receiptIds := SortBy(Self, StringLt, receiptIds);
      targetIds := SortBy(Self, StringLt, targetIds);
      choices := SortBy(ChoiceKey, PlacedLt, choices);
      cells := SortBy(CellKey, PlacedLt, cells);
    }
  }

  // Tender capacity.

  predicate Bank(tender: Tender) {
    tender.kind == "card" || tender.kind == "bank"
  }

  /** A receipt's card and bank tenders, by the transaction they name, if any. */
  function TenderLines(tenders: seq<Tender>): seq<(Option<string>, i64)> {
    if tenders == [] then []
    else
      var last := tenders[|tenders| - 1];
      TenderLines(tenders[..|tenders| - 1]) + if Bank(last) then [(last.observationId, last.amount)] else []
  }

  ghost function Short(pairs: seq<(Pair, i64)>, tenders: seq<(Option<string>, i64)>, receiptId: string, target: string): int {
    SumFor(pairs, (receiptId, target)) - SumFor(tenders, Some(target))
  }

  /** What the unnamed tenders must cover: every pair's amount beyond the tenders that name its target. */
  ghost function Needed(pairs: seq<(Pair, i64)>, tenders: seq<(Option<string>, i64)>, receiptId: string, targets: seq<string>): int {
    if targets == [] then 0
    else Needed(pairs, tenders, receiptId, targets[..|targets| - 1]) + Max(0, Short(pairs, tenders, receiptId, targets[|targets| - 1]))
  }

  ghost predicate TendersCover(pairs: seq<(Pair, i64)>, tenders: seq<Tender>, receiptId: string, targets: seq<string>) {
    var lines := TenderLines(tenders);
    RunsFit(lines, |lines|) && (forall i :: 0 <= i < |targets| ==> Fits(Short(pairs, lines, receiptId, targets[i])))
    && Needed(pairs, lines, receiptId, targets) <= SumFor(lines, None)
  }

  function TargetOrder(ids: seq<string>): (r: seq<string>)
    ensures forall id :: id in r <==> id in ids
  {
    StringsOrdered();
    Listing(StringLt, set id | id in ids)
  }

  lemma {:induction false} NeededGrows(pairs: seq<(Pair, i64)>, tenders: seq<(Option<string>, i64)>, receiptId: string, targets: seq<string>, i: nat)
    requires i <= |targets|
    ensures 0 <= Needed(pairs, tenders, receiptId, targets[..i]) <= Needed(pairs, tenders, receiptId, targets)
    decreases |targets| - i
  {
    NeededSign(pairs, tenders, receiptId, targets[..i]);
    if i == |targets| {
      assert targets[..i] == targets;
    } else {
      NeededGrows(pairs, tenders, receiptId, targets, i + 1);
      assert targets[..i + 1][..i] == targets[..i];
    }
  }

  lemma {:induction false} NeededSign(pairs: seq<(Pair, i64)>, tenders: seq<(Option<string>, i64)>, receiptId: string, targets: seq<string>)
    ensures 0 <= Needed(pairs, tenders, receiptId, targets)
  {
    if targets != [] {
      NeededSign(pairs, tenders, receiptId, targets[..|targets| - 1]);
    }
  }

  ghost predicate NeededUpTo(pairs: seq<(Pair, i64)>, lines: seq<(Option<string>, i64)>, receiptId: string, targets: seq<string>, i: nat, needed: int)
    requires i <= |targets|
  {
    needed == Needed(pairs, lines, receiptId, targets[..i])
    && forall j :: 0 <= j < i ==> Fits(Short(pairs, lines, receiptId, targets[j]))
  }

  lemma {:induction false} NeededNext(pairs: seq<(Pair, i64)>, lines: seq<(Option<string>, i64)>, receiptId: string, targets: seq<string>, i: nat, needed: int)
    requires i < |targets| && NeededUpTo(pairs, lines, receiptId, targets, i, needed)
    ensures needed >= 0
    ensures Fits(Short(pairs, lines, receiptId, targets[i])) ==>
              NeededUpTo(pairs, lines, receiptId, targets, i + 1, needed + Max(0, Short(pairs, lines, receiptId, targets[i])))
    ensures needed + Max(0, Short(pairs, lines, receiptId, targets[i])) <= Needed(pairs, lines, receiptId, targets)
  {
    hide Short;
    NeededGrows(pairs, lines, receiptId, targets, i);
    NeededGrows(pairs, lines, receiptId, targets, i + 1);
    assert targets[..i + 1][..i] == targets[..i];
  }

  method CheckTenders(pairs: map<Pair, i64>, ghost pairLines: seq<(Pair, i64)>, tenders: seq<Tender>, receiptId: string, targets: seq<string>)
    returns (r: Result<()>)
    requires Tallies(pairs, pairLines)
    ensures r.Ok? <==> TendersCover(pairLines, tenders, receiptId, targets)
  {
    var lines := TenderLines(tenders);
    hide RunsFit, TenderLines, Short, Needed, SumFor, Left;
    var tally := Tally(lines);
    if tally.Err? {
      return Err("amount_overflow");
    }
    var known := tally.value;
    var needed: i64 := 0;
    assert NeededUpTo(pairLines, lines, receiptId, targets, 0, 0) by {
      NothingNeeded(pairLines, lines, receiptId, targets);
    }
    for i := 0 to |targets|
      invariant NeededUpTo(pairLines, lines, receiptId, targets, i, needed)
    {
      NeededNext(pairLines, lines, receiptId, targets, i, needed);
      ShortIs(pairs, pairLines, known, lines, receiptId, targets[i]);
      var short := (Left(pairs, (receiptId, targets[i])) as int) - Left(known, Some(targets[i]));
      if !Fits(short) {
        return Err("amount_overflow");
      }
      if !Fits(needed + Max(short, 0)) {
        BeyondUnknown(known, lines, needed + Max(short, 0));
        return Err("amount_overflow");
      }
      needed := needed + Max(short, 0);
    }
    assert targets[..|targets|] == targets;
    UnknownIs(known, lines);
    r := if needed <= Left(known, None) then Ok(()) else Err("allocation_bank_tender_capacity");
  }

  lemma {:induction false} NothingNeeded(pairs: seq<(Pair, i64)>, lines: seq<(Option<string>, i64)>, receiptId: string, targets: seq<string>)
    ensures NeededUpTo(pairs, lines, receiptId, targets, 0, 0)
  {
  }

  lemma {:induction false} ShortIs(pairs: map<Pair, i64>, pairLines: seq<(Pair, i64)>, known: map<Option<string>, i64>, lines: seq<(Option<string>, i64)>,
                    receiptId: string, target: string)
    requires Tallies(pairs, pairLines) && Tallies(known, lines)
    ensures Short(pairLines, lines, receiptId, target) == (Left(pairs, (receiptId, target)) as int) - Left(known, Some(target))
  {
    assert Left(pairs, (receiptId, target)) == SumFor(pairLines, (receiptId, target));
    assert Left(known, Some(target)) == SumFor(lines, Some(target));
    hide SumFor, Left;
  }

  lemma {:induction false} UnknownIs(known: map<Option<string>, i64>, lines: seq<(Option<string>, i64)>)
    requires Tallies(known, lines)
    ensures SumFor(lines, None) == Left(known, None)
  {
    hide SumFor;
  }

  lemma {:induction false} BeyondUnknown(known: map<Option<string>, i64>, lines: seq<(Option<string>, i64)>, needed: int)
    requires Tallies(known, lines) && needed > I64_MAX
    ensures needed > SumFor(lines, None)
  {
    UnknownIs(known, lines);
    hide SumFor;
  }

  // Remainders and projections.

  datatype Plan = Plan(
    review: Review, hash: string, projections: map<string, Effect>, remainders: map<LineKey, i64>, targetRemainders: map<string, i64>)

  type Digest = (Review, map<string, Effect>, map<LineKey, i64>, map<string, i64>) -> string

  function CategoriesFor(splits: map<Pair, i64>, target: string): (r: seq<string>)
    ensures Ascending(StringLt, r) && forall c :: c in r <==> (target, c) in splits
  {
    StringsOrdered();
    var found := set k | k in splits && k.0 == target :: k.1;
    assert forall c :: (target, c) in splits ==> c == (target, c).1 && c in found;
    Listing(StringLt, found)
  }

  function SplitsFor(splits: map<Pair, i64>, target: string, currency: string, categories: seq<string>): (r: seq<Split>)
    requires forall k :: k in splits ==> splits[k] > 0
    requires forall c :: c in categories ==> (target, c) in splits
    ensures |r| == |categories|
    ensures forall i :: 0 <= i < |r| ==>
              categories[i] in categories && (target, categories[i]) in splits
              && r[i] == Split(categories[i], Money(Neg(splits[(target, categories[i])]), currency))
  {
    seq(|categories|, i requires 0 <= i < |categories| =>
      assert categories[i] in categories;
      Split(categories[i], Money(Neg(splits[(target, categories[i])]), currency)))
  }

  /** A fully funded target as one outflow: one category, or splits over several in name order. */
  function EffectFor(target: Target, id: string, total: i64, splits: map<Pair, i64>): Effect
    requires total > 0 && forall k :: k in splits ==> splits[k] > 0
  {
    var parts := SplitsFor(splits, id, target.amount.currency, CategoriesFor(splits, id));
    Effect(target.accountId, Money(Neg(total), target.amount.currency), target.date,
           if |parts| == 1 then Some(parts[0].categoryId) else None, if |parts| == 1 then [] else parts)
  }

  function Leftovers<K(==, !new)>(caps: map<K, Money>, used: map<K, i64>): (r: map<K, i64>)
    requires forall k :: k in caps ==> 0 <= Left(used, k) <= caps[k].units
    ensures forall k :: k in r <==> k in caps && Left(used, k) < caps[k].units
    ensures forall k :: k in r ==> r[k] == caps[k].units - Left(used, k)
  {
    map k | k in caps && Left(used, k) < caps[k].units :: caps[k].units - Left(used, k)
  }

  function AmountsOf(targets: map<string, Target>): map<string, Money> {
    map id | id in targets :: targets[id].amount
  }

  /** Totals within their capacities, over targets worth something, and no empty split. */
  predicate Defined(lines: map<LineKey, Money>, targets: map<string, Target>, r: Running) {
    (forall k :: k in lines ==> 0 <= Left(r.rows, k) <= lines[k].units)
    && (forall id :: id in targets ==> 0 <= Left(r.columns, id) <= targets[id].amount.units && targets[id].amount.units > 0)
    && forall k :: k in r.splits ==> r.splits[k] > 0
  }

  /** The plan read off the totals. */
  function PlanFrom(v: Review, lines: map<LineKey, Money>, targets: map<string, Target>, r: Running, digest: Digest): Plan
    requires Defined(lines, targets, r)
  {
    var remainders := Leftovers(lines, r.rows);
    var targetRemainders := Leftovers(AmountsOf(targets), r.columns);
    var projections := map id | id in targets && Left(r.columns, id) == targets[id].amount.units ::
                         EffectFor(targets[id], id, Left(r.columns, id), r.splits);
    Plan(v, digest(v, projections, remainders, targetRemainders), projections, remainders, targetRemainders)
  }

  /** When an explicit matrix is accepted. */
  ghost predicate Allocatable(t: Tables, v: Review) {
    Selected(t, v) && ChoicesSound(v.choices, LinesOf(t, v))
    && CellsSound(v.cells, LinesOf(t, v), TargetsOf(t, v)) && WithinCapacity(v.cells, LinesOf(t, v), TargetsOf(t, v))
    && GraphSound(t, v) && GraphMatches(t, v)
    && forall id :: id in v.receiptIds ==> id in t.receipts && TendersCover(PairLines(v.cells), t.receipts[id].tenders, id, TargetOrder(v.targetIds))
  }

  /** The relationships carry exactly what the cells say, receipt by receipt and target by target. */
  ghost predicate GraphMatches(t: Tables, v: Review) {
    var graph := GraphLines(t, v, t.edges);
    KeysIn(graph) == KeysIn(PairLines(v.cells)) && forall k :: SumFor(graph, k) == SumFor(PairLines(v.cells), k)
  }

  lemma {:induction false} GraphCompared(t: Tables, v: Review, graph: map<Pair, i64>, pairs: map<Pair, i64>)
    requires Tallies(graph, GraphLines(t, v, t.edges)) && Tallies(pairs, PairLines(v.cells))
    ensures graph == pairs <==> GraphMatches(t, v)
  {
    hide SumFor, Total, SumMap, GraphLines;
    if GraphMatches(t, v) {
      forall k | k in graph
        ensures k in pairs && graph[k] == pairs[k]
      {
        assert k in pairs.Keys;
        assert Left(graph, k) == SumFor(GraphLines(t, v, t.edges), k) && Left(pairs, k) == SumFor(PairLines(v.cells), k);
      }
      assert graph == pairs;
    }
  }

  // What the plan means.

  function UsedCategories(cells: seq<Cell>, categories: map<LineKey, string>, target: string): set<string> {
    set cell | cell in cells && cell.targetId == target :: CategoryAt(categories, cell.line)
  }

  function CategoryOrder(cells: seq<Cell>, categories: map<LineKey, string>, target: string): (r: seq<string>)
    ensures Ascending(StringLt, r) && forall c :: c in r <==> c in UsedCategories(cells, categories, target)
  {
    StringsOrdered();
    Listing(StringLt, UsedCategories(cells, categories, target))
  }

  ghost predicate SplitsMean(splits: seq<Split>, names: seq<string>, cells: seq<Cell>, categories: map<LineKey, string>, target: string, currency: string) {
    |splits| == |names|
    && forall i :: 0 <= i < |splits| ==>
         splits[i].categoryId == names[i] && splits[i].amount.currency == currency
         && splits[i].amount.units == -SumFor(SplitLines(cells, categories), (target, names[i]))
  }

  /** The whole amount flows out, split by category when more than one is used. */
  ghost predicate EffectMeans(e: Effect, target: Target, id: string, cells: seq<Cell>, categories: map<LineKey, string>) {
    var names := CategoryOrder(cells, categories, id);
    e.accountId == target.accountId && e.date == target.date
    && e.amount.currency == target.amount.currency && e.amount.units == -SumFor(ColumnLines(cells), id)
    && if |names| == 1 then e.categoryId == Some(names[0]) && e.splits == []
       else e.categoryId.None? && SplitsMean(e.splits, names, cells, categories, id, target.amount.currency)
  }

  ghost predicate RemaindersMean(plan: Plan, v: Review, lines: map<LineKey, Money>, targets: map<string, Target>) {
    (forall k :: k in plan.remainders <==> k in lines && SumFor(RowLines(v.cells), k) < lines[k].units)
    && (forall k :: k in plan.remainders ==> plan.remainders[k] == lines[k].units - SumFor(RowLines(v.cells), k))
    && (forall id :: id in plan.targetRemainders <==> id in targets && SumFor(ColumnLines(v.cells), id) < targets[id].amount.units)
    && forall id :: id in plan.targetRemainders ==> plan.targetRemainders[id] == targets[id].amount.units - SumFor(ColumnLines(v.cells), id)
  }

  /** Remainders where capacity is left, an effect exactly where none is, and a hash of all of it. */
  ghost predicate PlanMeans(t: Tables, v: Review, digest: Digest, plan: Plan) {
    var targets := TargetsOf(t, v);
    plan.review == v && plan.hash == digest(v, plan.projections, plan.remainders, plan.targetRemainders)
    && RemaindersMean(plan, v, LinesOf(t, v), targets) && ProjectionsMean(plan, v, targets)
  }

  lemma {:induction false} SplitKeys(cells: seq<Cell>, categories: map<LineKey, string>, target: string, c: string)
    ensures (target, c) in KeysIn(SplitLines(cells, categories)) <==> c in UsedCategories(cells, categories, target)
  {
    var lines := SplitLines(cells, categories);
    if (target, c) in KeysIn(lines) {
      var i :| 0 <= i < |lines| && lines[i].0 == (target, c);
      assert cells[i] in cells;
    }
    if c in UsedCategories(cells, categories, target) {
      var i :| 0 <= i < |cells| && cells[i].targetId == target && CategoryAt(categories, cells[i].line) == c;
      assert lines[i] in lines;
    }
  }

  lemma {:induction false} SameCategories(splits: map<Pair, i64>, cells: seq<Cell>, categories: map<LineKey, string>, target: string)
    requires Tallies(splits, SplitLines(cells, categories))
    ensures CategoriesFor(splits, target) == CategoryOrder(cells, categories, target)
  {
    var a, b := CategoriesFor(splits, target), CategoryOrder(cells, categories, target);
    hide SumFor, Total, SumMap, StringLt;
    forall c
      ensures c in a <==> c in b
    {
      SplitKeys(cells, categories, target, c);
      assert (target, c) in splits <==> (target, c) in splits.Keys;
    }
    StringsOrdered();
    AscendingUnique(StringLt, a, b);
  }

  lemma {:induction false} SplitsBuilt(splits: map<Pair, i64>, id: string, currency: string, names: seq<string>, cells: seq<Cell>, categories: map<LineKey, string>)
    requires Tallies(splits, SplitLines(cells, categories)) && forall k :: k in splits ==> splits[k] > 0
    requires forall c :: c in names ==> (id, c) in splits
    ensures SplitsMean(SplitsFor(splits, id, currency, names), names, cells, categories, id, currency)
  {
    hide Total, SumMap, KeysIn, SumFor;
    forall i | 0 <= i < |names|
      ensures names[i] in names && (id, names[i]) in splits && splits[(id, names[i])] == SumFor(SplitLines(cells, categories), (id, names[i]))
    {
      assert Left(splits, (id, names[i])) == SumFor(SplitLines(cells, categories), (id, names[i]));
    }
  }

  lemma {:induction false} EffectBuilt(target: Target, id: string, total: i64, r: Running, cells: seq<Cell>, categories: map<LineKey, string>)
    requires Tallies(r.splits, SplitLines(cells, categories)) && total > 0 && total == SumFor(ColumnLines(cells), id)
    requires forall k :: k in r.splits ==> r.splits[k] > 0
    ensures EffectMeans(EffectFor(target, id, total, r.splits), target, id, cells, categories)
  {
    hide Tallies, SumFor, SplitsMean, CategoryOrder, CategoriesFor;
    SameCategories(r.splits, cells, categories, id);
    SplitsBuilt(r.splits, id, target.amount.currency, CategoriesFor(r.splits, id), cells, categories);
  }

  lemma {:induction false} TallyPositive<K(!new)>(m: map<K, i64>, lines: seq<(K, i64)>)
    requires Tallies(m, lines) && Positive(lines)
    ensures forall k :: Left(m, k) >= 0 && Left(m, k) == SumFor(lines, k)
    ensures forall k :: k in m ==> m[k] > 0
  {
    hide SumFor, Total, SumMap, Positive;
    forall k
      ensures Left(m, k) == SumFor(lines, k) >= 0 && (k in m ==> m[k] > 0)
    {
      PositiveSums(lines, k);
      assert k in m.Keys <==> k in KeysIn(lines);
    }
  }

  lemma {:induction false} SplitsPositive(cells: seq<Cell>, categories: map<LineKey, string>, lines: map<LineKey, Money>, targets: map<string, Target>)
    requires CellsSound(cells, lines, targets)
    ensures Positive(SplitLines(cells, categories))
  {
  }

  lemma {:induction false} TotalsBounded(r: Running, v: Review, lines: map<LineKey, Money>, targets: map<string, Target>)
    requires Runs(r, v.cells, CategoriesOf(v.choices)) && CellsSound(v.cells, lines, targets)
    ensures forall k :: Left(r.rows, k) >= 0 && Left(r.rows, k) == SumFor(RowLines(v.cells), k)
    ensures forall id :: Left(r.columns, id) >= 0 && Left(r.columns, id) == SumFor(ColumnLines(v.cells), id)
    ensures forall k :: k in r.splits ==> r.splits[k] > 0
  {
    hide CategoriesOf, Tallies, Positive, CellsSound, Left, SumFor;
    SoundPositive(v.cells, lines, targets);
    SplitsPositive(v.cells, CategoriesOf(v.choices), lines, targets);
    TallyPositive(r.rows, RowLines(v.cells));
    TallyPositive(r.columns, ColumnLines(v.cells));
    TallyPositive(r.splits, SplitLines(v.cells, CategoriesOf(v.choices)));
  }

  predicate LinesFit(lines: map<LineKey, Money>, r: Running) {
    forall k :: k in lines ==> Left(r.rows, k) <= lines[k].units
  }

  predicate TargetsFit(targets: map<string, Target>, r: Running) {
    forall id :: id in targets ==> Left(r.columns, id) <= targets[id].amount.units
  }

  lemma {:induction false} RowsDefined(r: Running, v: Review, lines: map<LineKey, Money>, targets: map<string, Target>)
    requires Runs(r, v.cells, CategoriesOf(v.choices)) && CellsSound(v.cells, lines, targets)
    requires LinesFit(lines, r) && TargetsFit(targets, r) && forall id :: id in targets ==> targets[id].amount.units > 0
    ensures Defined(lines, targets, r)
  {
    TotalsBounded(r, v, lines, targets);
    hide Runs, CellsSound, CategoriesOf, Left, SumFor;
  }

  lemma {:induction false} TargetsWorth(t: Tables, v: Review)
    requires Selected(t, v)
    ensures forall id :: id in TargetsOf(t, v) ==> TargetsOf(t, v)[id].amount.units > 0
  {
    hide ReceiptsCurrent, Identity;
    assert forall id :: id in TargetsOf(t, v) ==> TargetReady(t, id);
  }

  lemma {:induction false} RemaindersBuilt(v: Review, lines: map<LineKey, Money>, targets: map<string, Target>, r: Running, digest: Digest)
    requires Defined(lines, targets, r) && Tallies(r.rows, RowLines(v.cells)) && Tallies(r.columns, ColumnLines(v.cells))
    ensures RemaindersMean(PlanFrom(v, lines, targets, r, digest), v, lines, targets)
  {
    hide EffectFor, Tallies, Left, SumFor;
    LeftIs(r.rows, RowLines(v.cells));
    LeftIs(r.columns, ColumnLines(v.cells));
    var plan := PlanFrom(v, lines, targets, r, digest);
    assert plan.remainders == Leftovers(lines, r.rows);
    assert plan.targetRemainders == Leftovers(AmountsOf(targets), r.columns);
    hide PlanFrom;
  }

  lemma {:induction false} LeftIs<K(!new)>(m: map<K, i64>, lines: seq<(K, i64)>)
    requires Tallies(m, lines)
    ensures forall k :: Left(m, k) == SumFor(lines, k)
  {
    hide Left, SumFor;
  }

  ghost predicate ProjectionsMean(plan: Plan, v: Review, targets: map<string, Target>) {
    (forall id :: id in plan.projections <==> id in targets && SumFor(ColumnLines(v.cells), id) == targets[id].amount.units)
    && forall id :: id in plan.projections ==> EffectMeans(plan.projections[id], targets[id], id, v.cells, CategoriesOf(v.choices))
  }

  lemma {:induction false} ProjectionsBuilt(v: Review, lines: map<LineKey, Money>, targets: map<string, Target>, r: Running, digest: Digest)
    requires Defined(lines, targets, r) && Tallies(r.columns, ColumnLines(v.cells))
    requires Tallies(r.splits, SplitLines(v.cells, CategoriesOf(v.choices)))
    ensures ProjectionsMean(PlanFrom(v, lines, targets, r, digest), v, targets)
  {
    hide EffectFor, Tallies, Left, SumFor, EffectMeans, CategoriesOf, Leftovers, AmountsOf;
    LeftIs(r.columns, ColumnLines(v.cells));
    var plan := PlanFrom(v, lines, targets, r, digest);
    assert forall id :: id in plan.projections <==> id in targets && Left(r.columns, id) == targets[id].amount.units;
    assert forall id :: id in plan.projections ==> plan.projections[id] == EffectFor(targets[id], id, Left(r.columns, id), r.splits);
    hide PlanFrom;
    forall id | id in plan.projections
      ensures EffectMeans(plan.projections[id], targets[id], id, v.cells, CategoriesOf(v.choices))
    {
      EffectBuilt(targets[id], id, Left(r.columns, id), r, v.cells, CategoriesOf(v.choices));
    }
  }

  lemma {:induction false} PlanSealed(v: Review, lines: map<LineKey, Money>, targets: map<string, Target>, r: Running, digest: Digest)
    requires Defined(lines, targets, r)
    ensures var plan := PlanFrom(v, lines, targets, r, digest);
            plan.review == v && plan.hash == digest(v, plan.projections, plan.remainders, plan.targetRemainders)
  {
    hide Defined, EffectFor, Left;
  }

  lemma {:induction false} PlanBuilt(t: Tables, v: Review, r: Running, digest: Digest)
    requires Selected(t, v) && Runs(r, v.cells, CategoriesOf(v.choices)) && CellsSound(v.cells, LinesOf(t, v), TargetsOf(t, v))
    requires LinesFit(LinesOf(t, v), r) && TargetsFit(TargetsOf(t, v), r)
    ensures Defined(LinesOf(t, v), TargetsOf(t, v), r)
    ensures PlanMeans(t, v, digest, PlanFrom(v, LinesOf(t, v), TargetsOf(t, v), r, digest))
  {
    assert Tallies(r.rows, RowLines(v.cells)) && Tallies(r.columns, ColumnLines(v.cells))
           && Tallies(r.splits, SplitLines(v.cells, CategoriesOf(v.choices)));
    hide *;
    TargetsWorth(t, v);
    RowsDefined(r, v, LinesOf(t, v), TargetsOf(t, v));
    RemaindersBuilt(v, LinesOf(t, v), TargetsOf(t, v), r, digest);
    ProjectionsBuilt(v, LinesOf(t, v), TargetsOf(t, v), r, digest);
    PlanSealed(v, LinesOf(t, v), TargetsOf(t, v), r, digest);
    MeansAll(t, v, digest, PlanFrom(v, LinesOf(t, v), TargetsOf(t, v), r, digest));
  }

  lemma {:induction false} MeansAll(t: Tables, v: Review, digest: Digest, plan: Plan)
    requires plan.review == v && plan.hash == digest(v, plan.projections, plan.remainders, plan.targetRemainders)
    requires RemaindersMean(plan, v, LinesOf(t, v), TargetsOf(t, v)) && ProjectionsMean(plan, v, TargetsOf(t, v))
    ensures PlanMeans(t, v, digest, plan)
  {
    hide RemaindersMean, ProjectionsMean, LinesOf, TargetsOf;
  }

  // The computation.

  ghost predicate ReceiptsCover(t: Tables, v: Review, ids: seq<string>) {
    forall id :: id in ids ==> id in t.receipts && TendersCover(PairLines(v.cells), t.receipts[id].tenders, id, TargetOrder(v.targetIds))
  }

  method CheckAllTenders(t: Tables, v: Review, pairs: map<Pair, i64>) returns (r: Result<()>)
    requires Tallies(pairs, PairLines(v.cells)) && forall id :: id in v.receiptIds ==> id in t.receipts
    ensures r.Ok? <==> ReceiptsCover(t, v, v.receiptIds)
  {
    hide TendersCover, Tallies, TargetOrder;
    for i := 0 to |v.receiptIds|
      invariant ReceiptsCover(t, v, v.receiptIds[..i])
    {
      var id := v.receiptIds[i];
      assert id in v.receiptIds && v.receiptIds[..i + 1] == v.receiptIds[..i] + [id];
      var covered := CheckTenders(pairs, PairLines(v.cells), t.receipts[id].tenders, id, TargetOrder(v.targetIds));
      if covered.Err? {
        return covered;
      }
    }
    assert v.receiptIds[..|v.receiptIds|] == v.receiptIds;
    r := Ok(());
  }

  lemma {:induction false} FitIsCapacity(v: Review, lines: map<LineKey, Money>, targets: map<string, Target>, r: Running)
    requires Runs(r, v.cells, CategoriesOf(v.choices))
    ensures WithinCapacity(v.cells, lines, targets) <==> LinesFit(lines, r) && TargetsFit(targets, r)
  {
    hide Tallies, SumFor, Left;
    LeftIs(r.rows, RowLines(v.cells));
    LeftIs(r.columns, ColumnLines(v.cells));
  }

  lemma {:induction false} RunsParts(r: Running, cells: seq<Cell>, categories: map<LineKey, string>)
    requires Runs(r, cells, categories)
    ensures Tallies(r.pairs, PairLines(cells))
  {
    hide Tallies;
  }

  lemma {:induction false} AllocatableIs(t: Tables, v: Review)
    ensures Allocatable(t, v) <==>
              Selected(t, v) && ChoicesSound(v.choices, LinesOf(t, v))
              && CellsSound(v.cells, LinesOf(t, v), TargetsOf(t, v)) && WithinCapacity(v.cells, LinesOf(t, v), TargetsOf(t, v))
              && GraphSound(t, v) && GraphMatches(t, v) && ReceiptsCover(t, v, v.receiptIds)
  {
    hide Selected, ChoicesSound, CellsSound, WithinCapacity, GraphSound, GraphMatches, TendersCover, LinesOf, TargetsOf, TargetOrder;
  }

  lemma {:induction false} SelectedReceipts(t: Tables, v: Review)
    requires Selected(t, v)
    ensures forall id :: id in v.receiptIds ==> id in t.receipts
  {
    hide TargetReady, Identity;
    assert forall id :: id in v.receiptIds ==> ReceiptReady(t, id);
  }

  /** Compute the plan of a review already in canonical order. */
  method ComputeOrdered(t: Tables, v: Review, digest: Digest) returns (r: Result<Plan>)
    ensures r.Ok? <==> Allocatable(t, v)
    ensures r.Ok? ==> PlanMeans(t, v, digest, r.value)
  {
    AllocatableIs(t, v);
    hide Selected, ChoicesSound, CellsSound, WithinCapacity, GraphSound, GraphMatches, ReceiptsCover, LinesOf, TargetsOf, Runs,
         LinesFit, TargetsFit, Allocatable, PlanMeans, PlanFrom, Defined, Tallies;
    var selected :- CheckSelected(t, v);
    var lines, targets := LinesOf(t, v), TargetsOf(t, v);
    var categories :- CollectChoices(v.choices, lines);
    var running :- AccumulateCells(v.cells, categories, lines, targets);
    FitIsCapacity(v, lines, targets, running);
    RunsParts(running, v.cells, categories);
    var graph :- AccumulateGraph(t, v);
    GraphCompared(t, v, graph, running.pairs);
    if graph != running.pairs {
      return Err("allocation_graph_matrix_mismatch");
    }
    SelectedReceipts(t, v);
    var tenders :- CheckAllTenders(t, v, running.pairs);
    if !LinesFit(lines, running) {
      return Err("allocation_line_capacity");
    }
    if !TargetsFit(targets, running) {
      return Err("allocation_target_capacity");
    }
    PlanBuilt(t, v, running, digest);
    r := Ok(PlanFrom(v, lines, targets, running, digest));
  }

  /** Put the review in canonical order and compute its plan. */
  method ComputeAllocation(t: Tables, v: Review, digest: Digest) returns (r: Result<Plan>)
    ensures r.Ok? <==> Allocatable(t, Normalize(v))
    ensures r.Ok? ==> PlanMeans(t, Normalize(v), digest, r.value)
  {
    hide Allocatable, PlanMeans, Normalize;
    var buffer := new ReviewBuffer(v);
    buffer.NormalizeInPlace();
    r := ComputeOrdered(t, buffer.View(), digest);
  }
}
