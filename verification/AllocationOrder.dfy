/** An allocation depends on what is selected, never on the order it is listed in. */
module AllocationOrder {
  import opened CheckedMoney
  import opened Rows
  import opened Action
  import opened Ordered
  import opened Permutations
  import opened Sums
  import opened Sorting
  import opened Matrix
  import opened Allocation
  import opened AllocationPlan
  import opened AllocationLaws

  // Keyed sums of a projected list.

  function Project<T, K>(f: T -> (K, i64), s: seq<T>): (r: seq<(K, i64)>)
    ensures |r| == |s| && forall i :: 0 <= i < |r| ==> r[i] == f(s[i])
  {
    seq(|s|, i requires 0 <= i < |s| => f(s[i]))
  }

  lemma {:induction false} ProjectTakenOut<T, K>(f: T -> (K, i64), s: seq<T>, i: nat, k: K)
    requires i < |s|
    ensures SumFor(Project(f, s), k) == SumFor(Project(f, Without(s, i)), k) + if f(s[i]).0 == k then f(s[i]).1 else 0
  {
    var a, b, c := Project(f, s)[..i], [f(s[i])], Project(f, s)[i + 1..];
    assert Project(f, s) == a + (b + c);
    assert Project(f, Without(s, i)) == a + c;
    SumForConcat(a, b + c, k);
    SumForConcat(b, c, k);
    SumForConcat(a, c, k);
  }

  lemma {:induction false} ProjectPermutes<T, K>(f: T -> (K, i64), a: seq<T>, b: seq<T>, k: K)
    requires multiset(a) == multiset(b)
    ensures SumFor(Project(f, a), k) == SumFor(Project(f, b), k)
    decreases |a|
  {
    SameMembers(a, b);
    if a != [] {
      var i := BothWithout(a, b, 0);
      ProjectPermutes(f, Without(a, 0), Without(b, i), k);
      ProjectTakenOut(f, a, 0, k);
      ProjectTakenOut(f, b, i, k);
    }
  }

  function RowLine(cell: Cell): (LineKey, i64) {
    (cell.line, cell.amount.units)
  }

  function ColumnLine(cell: Cell): (string, i64) {
    (cell.targetId, cell.amount.units)
  }

  function PairLine(cell: Cell): (Pair, i64) {
    ((cell.line.receiptId, cell.targetId), cell.amount.units)
  }

  lemma {:induction false} RowsPermute(a: seq<Cell>, b: seq<Cell>, k: LineKey)
    requires multiset(a) == multiset(b)
    ensures SumFor(RowLines(a), k) == SumFor(RowLines(b), k)
  {
    assert RowLines(a) == Project(RowLine, a) && RowLines(b) == Project(RowLine, b);
    ProjectPermutes(RowLine, a, b, k);
  }

  lemma {:induction false} ColumnsPermute(a: seq<Cell>, b: seq<Cell>, k: string)
    requires multiset(a) == multiset(b)
    ensures SumFor(ColumnLines(a), k) == SumFor(ColumnLines(b), k)
  {
    assert ColumnLines(a) == Project(ColumnLine, a) && ColumnLines(b) == Project(ColumnLine, b);
    ProjectPermutes(ColumnLine, a, b, k);
  }

  lemma {:induction false} PairsPermute(a: seq<Cell>, b: seq<Cell>, k: Pair)
    requires multiset(a) == multiset(b)
    ensures SumFor(PairLines(a), k) == SumFor(PairLines(b), k)
  {
    assert PairLines(a) == Project(PairLine, a) && PairLines(b) == Project(PairLine, b);
    ProjectPermutes(PairLine, a, b, k);
  }

  lemma {:induction false} SplitsPermute(a: seq<Cell>, b: seq<Cell>, categories: map<LineKey, string>, k: Pair)
    requires multiset(a) == multiset(b)
    ensures SumFor(SplitLines(a, categories), k) == SumFor(SplitLines(b, categories), k)
  {
    var f := (cell: Cell) => ((cell.targetId, CategoryAt(categories, cell.line)), cell.amount.units);
    assert SplitLines(a, categories) == Project(f, a) && SplitLines(b, categories) == Project(f, b);
    ProjectPermutes(f, a, b, k);
  }

  lemma {:induction false} PairKeys(a: seq<Cell>, b: seq<Cell>)
    requires multiset(a) == multiset(b)
    ensures KeysIn(PairLines(a)) == KeysIn(PairLines(b))
  {
    PairKeysWithin(a, b);
    PairKeysWithin(b, a);
  }

  lemma {:induction false} PairKeysWithin(a: seq<Cell>, b: seq<Cell>)
    requires multiset(a) == multiset(b)
    ensures KeysIn(PairLines(a)) <= KeysIn(PairLines(b))
  {
    SameMembers(a, b);
    forall k | k in KeysIn(PairLines(a))
      ensures k in KeysIn(PairLines(b))
    {
      var i :| 0 <= i < |a| && PairLines(a)[i].0 == k;
      assert a[i] in b;
      var j :| 0 <= j < |b| && b[j] == a[i];
      assert PairLines(b)[j] in PairLines(b);
    }
  }

  // The selection.

  lemma {:induction false} DistinctIdsPermute(a: seq<string>, b: seq<string>)
    requires multiset(a) == multiset(b) && DistinctIds(a)
    ensures DistinctIds(b)
  {
    assert DistinctBy(Self, a);
    DistinctPermutes(Self, a, b);
    assert forall i, j :: 0 <= i < j < |b| ==> Self(b[i]) != Self(b[j]);
  }

  lemma {:induction false} ObservationsPermute(t: Tables, a: seq<string>, b: seq<string>)
    requires multiset(a) == multiset(b)
    requires forall i, j :: 0 <= i < j < |a| ==> ObservationOf(t, a[i]) != ObservationOf(t, a[j])
    ensures forall i, j :: 0 <= i < j < |b| ==> ObservationOf(t, b[i]) != ObservationOf(t, b[j])
  {
    hide ObservationOf;
    var key := (id: string) => ObservationOf(t, id);
    assert DistinctBy(key, a);
    DistinctPermutes(key, a, b);
    forall i, j | 0 <= i < j < |b|
      ensures ObservationOf(t, b[i]) != ObservationOf(t, b[j])
    {
      assert key(b[i]) != key(b[j]);
    }
  }

  lemma {:induction false} SelectedPermutes(t: Tables, a: Review, b: Review)
    requires SameItems(a, b) && Selected(t, a)
    ensures Selected(t, b)
  {
    hide Identity, TargetReady, ReceiptReady, ObservationOf, DistinctIds;
    SameMembers(a.receiptIds, b.receiptIds);
    SameMembers(a.targetIds, b.targetIds);
    SameMembers(a.choices, b.choices);
    SameMembers(a.cells, b.cells);
    DistinctIdsPermute(a.receiptIds, b.receiptIds);
    DistinctIdsPermute(a.targetIds, b.targetIds);
    ObservationsPermute(t, a.receiptIds, b.receiptIds);
    assert (set id | id in a.receiptIds) == (set id | id in b.receiptIds);
    assert (set id | id in a.targetIds) == (set id | id in b.targetIds);
  }

  lemma {:induction false} SameSelection(t: Tables, a: Review, b: Review)
    requires SameItems(a, b)
    ensures LinesOf(t, a) == LinesOf(t, b) && TargetsOf(t, a) == TargetsOf(t, b)
    ensures TargetOrder(a.targetIds) == TargetOrder(b.targetIds)
  {
    SameMembers(a.receiptIds, b.receiptIds);
    SameMembers(a.targetIds, b.targetIds);
    assert LineSet(t, a) == LineSet(t, b);
    assert (set id | id in a.targetIds) == (set id | id in b.targetIds);
  }

  lemma {:induction false} CategoriesPermute(a: seq<Choice>, b: seq<Choice>)
    requires multiset(a) == multiset(b) && DistinctBy(LineOf, a)
    ensures DistinctBy(LineOf, b) && CategoriesOf(a) == CategoriesOf(b)
  {
    DistinctPermutes(LineOf, a, b);
    CategoriesWithin(a, b);
    CategoriesWithin(b, a);
  }

  lemma {:induction false} CategoriesWithin(a: seq<Choice>, b: seq<Choice>)
    requires multiset(a) == multiset(b) && DistinctBy(LineOf, a) && DistinctBy(LineOf, b)
    ensures forall line :: line in CategoriesOf(a) ==> line in CategoriesOf(b) && CategoriesOf(a)[line] == CategoriesOf(b)[line]
  {
    SameMembers(a, b);
    hide DistinctBy;
    forall line | line in CategoriesOf(a)
      ensures line in CategoriesOf(b) && CategoriesOf(a)[line] == CategoriesOf(b)[line]
    {
      ChoiceMade(a, line);
      var i :| 0 <= i < |a| && a[i].line == line;
      assert a[i] in b;
      var j :| 0 <= j < |b| && b[j] == a[i];
      ChoiceFor(a, i);
      ChoiceFor(b, j);
    }
  }

  lemma {:induction false} ChoicesPermute(a: seq<Choice>, b: seq<Choice>, lines: map<LineKey, Money>)
    requires multiset(a) == multiset(b) && ChoicesSound(a, lines)
    ensures ChoicesSound(b, lines) && CategoriesOf(a) == CategoriesOf(b)
  {
    hide Identity, DistinctBy;
    SameMembers(a, b);
    CategoriesPermute(a, b);
    forall i | 0 <= i < |b|
      ensures Identity(b[i].categoryId)
    {
      assert b[i] in a;
      var j :| 0 <= j < |a| && a[j] == b[i];
    }
  }

  lemma {:induction false} CellsPermute(a: seq<Cell>, b: seq<Cell>, lines: map<LineKey, Money>, targets: map<string, Target>)
    requires multiset(a) == multiset(b) && CellsSound(a, lines, targets) && WithinCapacity(a, lines, targets)
    ensures CellsSound(b, lines, targets) && WithinCapacity(b, lines, targets)
  {
    hide DistinctBy, CellSound, SumFor;
    SameMembers(a, b);
    DistinctPermutes(CellKey, a, b);
    forall i | 0 <= i < |b|
      ensures CellSound(b[i], lines, targets)
    {
      assert b[i] in a;
      var j :| 0 <= j < |a| && a[j] == b[i];
    }
    forall k | k in lines
      ensures SumFor(RowLines(b), k) <= lines[k].units
    {
      RowsPermute(a, b, k);
    }
    forall id | id in targets
      ensures SumFor(ColumnLines(b), id) <= targets[id].amount.units
    {
      ColumnsPermute(a, b, id);
    }
  }

  // The graph and the tenders.

  lemma {:induction false} ReceiptFound(t: Tables, ids: seq<string>, i: nat)
    requires i < |ids| && forall i, j :: 0 <= i < j < |ids| ==> ObservationOf(t, ids[i]) != ObservationOf(t, ids[j])
    ensures ReceiptFor(t, ids, ObservationOf(t, ids[i])) == Some(ids[i])
  {
    hide ObservationOf;
    if i > 0 {
      assert forall k :: 0 <= k < |ids| - 1 ==> ids[1..][k] == ids[k + 1];
      ReceiptFound(t, ids[1..], i - 1);
    }
  }

  lemma {:induction false} ReceiptNone(t: Tables, ids: seq<string>, observation: string)
    ensures ReceiptFor(t, ids, observation).None? ==> forall i :: 0 <= i < |ids| ==> ObservationOf(t, ids[i]) != observation
    ensures ReceiptFor(t, ids, observation).Some? ==> exists i :: 0 <= i < |ids| && ObservationOf(t, ids[i]) == observation
  {
    hide ObservationOf;
    if ids != [] && ObservationOf(t, ids[0]) != observation {
      ReceiptNone(t, ids[1..], observation);
      if ReceiptFor(t, ids, observation).None? {
        forall i | 0 <= i < |ids|
          ensures ObservationOf(t, ids[i]) != observation
        {
          assert i > 0 ==> ids[i] == ids[1..][i - 1];
        }
      } else {
        var i :| 0 <= i < |ids[1..]| && ObservationOf(t, ids[1..][i]) == observation;
        assert ObservationOf(t, ids[i + 1]) == observation;
      }
    }
  }

  lemma {:induction false} ReceiptForPermutes(t: Tables, a: Review, b: Review, observation: string)
    requires SameItems(a, b) && Selected(t, a) && Selected(t, b)
    ensures ReceiptFor(t, a.receiptIds, observation) == ReceiptFor(t, b.receiptIds, observation)
  {
    assert ReceiptsCurrent(t, a) && ReceiptsCurrent(t, b);
    hide Selected, ObservationOf, ReceiptFor, ReceiptReady;
    SameMembers(a.receiptIds, b.receiptIds);
    ReceiptNone(t, a.receiptIds, observation);
    ReceiptNone(t, b.receiptIds, observation);
    if i :| 0 <= i < |a.receiptIds| && ObservationOf(t, a.receiptIds[i]) == observation {
      assert a.receiptIds[i] in b.receiptIds;
      var j :| 0 <= j < |b.receiptIds| && b.receiptIds[j] == a.receiptIds[i];
      ReceiptFound(t, a.receiptIds, i);
      ReceiptFound(t, b.receiptIds, j);
    }
  }

  lemma {:induction false} EdgesPermute(t: Tables, a: Review, b: Review, e: Edge)
    requires SameItems(a, b) && Selected(t, a) && Selected(t, b)
    ensures EdgeSound(t, a, e) <==> EdgeSound(t, b, e)
    ensures EdgeLine(t, a, e) == EdgeLine(t, b, e)
  {
    hide Selected, ReceiptFor;
    SameMembers(a.targetIds, b.targetIds);
    ReceiptForPermutes(t, a, b, e.fromId);
  }

  lemma {:induction false} GraphPermutes(t: Tables, a: Review, b: Review, edges: seq<Edge>)
    requires SameItems(a, b) && Selected(t, a) && Selected(t, b)
    ensures GraphLines(t, a, edges) == GraphLines(t, b, edges)
  {
    hide Selected, EdgeLine;
    if edges != [] {
      GraphPermutes(t, a, b, edges[..|edges| - 1]);
      EdgesPermute(t, a, b, edges[|edges| - 1]);
    }
  }

  lemma {:induction false} GraphsPermute(t: Tables, a: Review, b: Review)
    requires SameItems(a, b) && Selected(t, a) && Selected(t, b) && GraphSound(t, a) && GraphMatches(t, a)
    ensures GraphSound(t, b) && GraphMatches(t, b)
  {
    hide Selected, EdgeSound, RunsFit, SumFor, KeysIn, GraphLines;
    GraphPermutes(t, a, b, t.edges);
    forall i | 0 <= i < |t.edges|
      ensures EdgeSound(t, b, t.edges[i])
    {
      EdgesPermute(t, a, b, t.edges[i]);
    }
    PairKeys(a.cells, b.cells);
    forall k
      ensures SumFor(PairLines(a.cells), k) == SumFor(PairLines(b.cells), k)
    {
      PairsPermute(a.cells, b.cells, k);
    }
  }

  lemma {:induction false} NeedsPermute(x: seq<(Pair, i64)>, y: seq<(Pair, i64)>, tenders: seq<(Option<string>, i64)>, receiptId: string, targets: seq<string>)
    requires forall k :: SumFor(x, k) == SumFor(y, k)
    ensures Needed(x, tenders, receiptId, targets) == Needed(y, tenders, receiptId, targets)
    ensures forall i :: 0 <= i < |targets| ==> Short(x, tenders, receiptId, targets[i]) == Short(y, tenders, receiptId, targets[i])
  {
    hide SumFor;
    if targets != [] {
      NeedsPermute(x, y, tenders, receiptId, targets[..|targets| - 1]);
    }
  }

  lemma {:induction false} TendersPermute(t: Tables, a: Review, b: Review)
    requires SameItems(a, b) && ReceiptsCover(t, a, a.receiptIds)
    ensures ReceiptsCover(t, b, b.receiptIds)
  {
    SameSelection(t, a, b);
    SameMembers(a.receiptIds, b.receiptIds);
    forall k
      ensures SumFor(PairLines(a.cells), k) == SumFor(PairLines(b.cells), k)
    {
      PairsPermute(a.cells, b.cells, k);
    }
    hide SumFor, TenderLines, RunsFit, Needed, Short, TargetOrder, PairLines;
    forall id | id in b.receiptIds
      ensures id in t.receipts && TendersCover(PairLines(b.cells), t.receipts[id].tenders, id, TargetOrder(b.targetIds))
    {
      assert id in a.receiptIds && id in t.receipts;
      NeedsPermute(PairLines(a.cells), PairLines(b.cells), TenderLines(t.receipts[id].tenders), id, TargetOrder(a.targetIds));
    }
  }

  // The whole allocation.

  lemma {:induction false} AllocatablePermutes(t: Tables, a: Review, b: Review)
    requires SameItems(a, b) && Allocatable(t, a)
    ensures Allocatable(t, b) && Selected(t, a) && Selected(t, b) && CategoriesOf(a.choices) == CategoriesOf(b.choices)
  {
    AllocatableIs(t, a);
    AllocatableIs(t, b);
    hide Allocatable, Selected, ChoicesSound, CellsSound, WithinCapacity, GraphSound, GraphMatches, ReceiptsCover, LinesOf, TargetsOf;
    SelectedPermutes(t, a, b);
    SameSelection(t, a, b);
    ChoicesPermute(a.choices, b.choices, LinesOf(t, a));
    CellsPermute(a.cells, b.cells, LinesOf(t, a), TargetsOf(t, a));
    GraphsPermute(t, a, b);
    TendersPermute(t, a, b);
  }

  lemma {:induction false} SameMultisets(a: Review, b: Review)
    requires SameItems(a, b)
    ensures SameItems(b, a)
  {
  }

  /** Whether a matrix is accepted does not depend on the order it is listed in. */
  lemma {:induction false} OrderIrrelevant(t: Tables, a: Review, b: Review)
    requires SameItems(a, b)
    ensures Allocatable(t, a) <==> Allocatable(t, b)
  {
    hide Allocatable;
    if Allocatable(t, a) {
      AllocatablePermutes(t, a, b);
    }
    if Allocatable(t, b) {
      AllocatablePermutes(t, b, a);
    }
  }

  lemma {:induction false} ChoiceKeysDistinct(choices: seq<Choice>)
    requires DistinctBy(LineOf, choices)
    ensures DistinctBy(ChoiceKey, choices)
  {
    forall i, j | 0 <= i < j < |choices|
      ensures ChoiceKey(choices[i]) != ChoiceKey(choices[j])
    {
      assert LineOf(choices[i]) != LineOf(choices[j]);
    }
  }

  /** An accepted matrix has one canonical review. */
  lemma {:induction false} NormalizeCanonical(t: Tables, a: Review, b: Review)
    requires SameItems(a, b) && Allocatable(t, a)
    ensures Normalize(a) == Normalize(b)
  {
    AllocatableIs(t, a);
    hide Allocatable;
    StringsOrdered();
    PlacesOrdered();
    assert DistinctBy(Self, a.receiptIds) && DistinctBy(Self, a.targetIds);
    ChoiceKeysDistinct(a.choices);
    assert DistinctBy(CellKey, a.cells);
    hide Selected, ChoicesSound, CellsSound, WithinCapacity, GraphSound, GraphMatches, ReceiptsCover, DistinctBy, SortBy, StrictOrder;
    SortCanonical(Self, StringLt, a.receiptIds, b.receiptIds);
    SortCanonical(Self, StringLt, a.targetIds, b.targetIds);
    SortCanonical(ChoiceKey, PlacedLt, a.choices, b.choices);
    SortCanonical(CellKey, PlacedLt, a.cells, b.cells);
  }

  /** A canonical review is its own canonical form. */
  lemma {:induction false} NormalizeTwice(v: Review)
    ensures Normalize(Normalize(v)) == Normalize(v)
  {
    StringsOrdered();
    PlacesOrdered();
    hide StrictOrder, SortedBy, SortBy;
    SortSorts(Self, StringLt, v.receiptIds);
    SortSorts(Self, StringLt, v.targetIds);
    SortSorts(ChoiceKey, PlacedLt, v.choices);
    SortSorts(CellKey, PlacedLt, v.cells);
    SortedStays(Self, StringLt, SortBy(Self, StringLt, v.receiptIds));
    SortedStays(Self, StringLt, SortBy(Self, StringLt, v.targetIds));
    SortedStays(ChoiceKey, PlacedLt, SortBy(ChoiceKey, PlacedLt, v.choices));
    SortedStays(CellKey, PlacedLt, SortBy(CellKey, PlacedLt, v.cells));
  }

  // One plan.

  lemma {:induction false} SplitsUnique(x: seq<Split>, y: seq<Split>, names: seq<string>, cells: seq<Cell>, categories: map<LineKey, string>, target: string, currency: string)
    requires SplitsMean(x, names, cells, categories, target, currency) && SplitsMean(y, names, cells, categories, target, currency)
    ensures x == y
  {
    forall i | 0 <= i < |x|
      ensures x[i] == y[i]
    {
    }
  }

  lemma {:induction false} EffectUnique(x: Effect, y: Effect, target: Target, id: string, cells: seq<Cell>, categories: map<LineKey, string>)
    requires EffectMeans(x, target, id, cells, categories) && EffectMeans(y, target, id, cells, categories)
    ensures x == y
  {
    hide SumFor, SplitsMean, CategoryOrder;
    var names := CategoryOrder(cells, categories, id);
    if |names| != 1 {
      SplitsUnique(x.splits, y.splits, names, cells, categories, id, target.amount.currency);
    }
  }

  lemma {:induction false} RemaindersUnique(p: Plan, q: Plan, v: Review, lines: map<LineKey, Money>, targets: map<string, Target>)
    requires RemaindersMean(p, v, lines, targets) && RemaindersMean(q, v, lines, targets)
    ensures p.remainders == q.remainders && p.targetRemainders == q.targetRemainders
  {
    hide SumFor;
    assert forall k :: k in p.remainders <==> k in q.remainders;
    assert forall id :: id in p.targetRemainders <==> id in q.targetRemainders;
  }

  lemma {:induction false} ProjectionsUnique(p: Plan, q: Plan, v: Review, targets: map<string, Target>)
    requires ProjectionsMean(p, v, targets) && ProjectionsMean(q, v, targets)
    ensures p.projections == q.projections
  {
    hide SumFor, EffectMeans, CategoriesOf;
    assert forall id :: id in p.projections <==> id in q.projections;
    forall id | id in p.projections
      ensures p.projections[id] == q.projections[id]
    {
      EffectUnique(p.projections[id], q.projections[id], targets[id], id, v.cells, CategoriesOf(v.choices));
    }
  }

  /** The meaning of a plan leaves nothing open. */
  lemma {:induction false} PlanUnique(t: Tables, v: Review, digest: Digest, p: Plan, q: Plan)
    requires PlanMeans(t, v, digest, p) && PlanMeans(t, v, digest, q)
    ensures p == q
  {
    MeansRemainders(t, v, digest, p);
    MeansRemainders(t, v, digest, q);
    hide LinesOf, TargetsOf, RemaindersMean, ProjectionsMean;
    RemaindersUnique(p, q, v, LinesOf(t, v), TargetsOf(t, v));
    ProjectionsUnique(p, q, v, TargetsOf(t, v));
  }

  /** Listing the same receipts, targets, choices and cells in another order gives the same plan and the same hash. */
  lemma {:induction false} PlanCanonical(t: Tables, a: Review, b: Review, digest: Digest, p: Plan, q: Plan)
    requires SameItems(a, b) && Allocatable(t, Normalize(a))
    requires PlanMeans(t, Normalize(a), digest, p) && PlanMeans(t, Normalize(b), digest, q)
    ensures p == q
  {
    hide *;
    NormalizedItems(a);
    SameMultisets(a, Normalize(a));
    OrderIrrelevant(t, Normalize(a), a);
    NormalizeCanonical(t, a, b);
    PlanUnique(t, Normalize(a), digest, p, q);
  }

  /** Recomputing from a plan's own review gives back that plan, review and hash included. */
  lemma {:induction false} PlanIdempotent(t: Tables, v: Review, digest: Digest, p: Plan, q: Plan)
    requires Allocatable(t, Normalize(v)) && PlanMeans(t, Normalize(v), digest, p)
    ensures p.review == Normalize(v) == Normalize(p.review) && Allocatable(t, Normalize(p.review))
    ensures PlanMeans(t, Normalize(p.review), digest, q) ==> q == p
  {
    assert p.review == Normalize(v);
    hide Allocatable, PlanMeans, Normalize;
    NormalizeTwice(v);
    if PlanMeans(t, Normalize(p.review), digest, q) {
      PlanUnique(t, Normalize(v), digest, p, q);
    }
  }
}
