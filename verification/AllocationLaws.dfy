/** Laws of accepted allocations: two-sided conservation, well-formed effects, canonical and idempotent plans. */
module AllocationLaws {
  import opened CheckedMoney
  import opened Rows
  import opened Text
  import opened Action
  import opened Ordered
  import opened Sums
  import opened Sorting
  import opened Matrix
  import opened Allocation
  import opened AllocationPlan

  // Conservation.

  function NetsOf<K(!new)>(caps: map<K, Money>): (r: map<K, i64>)
    ensures r.Keys == caps.Keys && forall k :: k in r ==> r[k] == caps[k].units
  {
    map k | k in caps :: caps[k].units
  }

  /** Maps that agree wherever either is nonzero have one sum. */
  lemma {:induction false} SupportSum<K(!new)>(u: map<K, i64>, v: map<K, i64>)
    requires v.Keys <= u.Keys && forall k :: k in u ==> u[k] == Left(v, k)
    ensures SumMap(u) == SumMap(v)
    decreases |u|
  {
    if u != map[] {
      var k :| k in u;
      SumMapRemove(u, k);
      SupportSum(u - {k}, v - {k});
      if k in v {
        SumMapRemove(v, k);
      } else {
        assert v - {k} == v;
      }
    } else {
      assert v == map[];
    }
  }

  /** Capacity minus what is left is what was used. */
  lemma {:induction false} LeftoverSum<K(!new)>(caps: map<K, i64>, left: map<K, i64>, used: map<K, i64>)
    requires used.Keys == caps.Keys && left.Keys <= caps.Keys
    requires forall k :: k in caps ==> Left(left, k) == (caps[k] as int) - used[k]
    ensures SumMap(caps) - SumMap(left) == SumMap(used)
    decreases |caps|
  {
    if caps == map[] {
      assert left == map[] && used == map[];
    } else {
      var k :| k in caps;
      SumMapRemove(caps, k);
      SumMapRemove(used, k);
      if k in left {
        SumMapRemove(left, k);
      } else {
        assert left - {k} == left;
      }
      assert forall j :: j in caps - {k} ==> j in caps && Left(left - {k}, j) == Left(left, j);
      LeftoverSum(caps - {k}, left - {k}, used - {k});
    }
  }

  lemma {:induction false} UsedSum<K(!new)>(caps: map<K, Money>, lines: seq<(K, i64)>, left: map<K, i64>)
    requires Positive(lines) && KeysIn(lines) <= caps.Keys
    requires forall k :: k in caps ==> SumFor(lines, k) <= caps[k].units
    requires forall k :: k in left <==> k in caps && SumFor(lines, k) < caps[k].units
    requires forall k :: k in left ==> left[k] == caps[k].units - SumFor(lines, k)
    ensures SumMap(NetsOf(caps)) - SumMap(left) == Total(lines)
  {
    forall k | k in caps
      ensures 0 <= SumFor(lines, k) <= I64_MAX && (k !in KeysIn(lines) ==> SumFor(lines, k) == 0)
    {
      PositiveSums(lines, k);
    }
    var used := map k | k in caps :: SumFor(lines, k);
    var tally := map k | k in KeysIn(lines) :: SumFor(lines, k);
    SumsToTotal(lines, tally);
    SupportSum(used, tally);
    LeftoverSum(NetsOf(caps), left, used);
  }

  lemma {:induction false} SameTotals(cells: seq<Cell>)
    ensures Total(RowLines(cells)) == Total(ColumnLines(cells))
  {
    if cells != [] {
      assert RowLines(cells)[1..] == RowLines(cells[1..]) && ColumnLines(cells)[1..] == ColumnLines(cells[1..]);
      SameTotals(cells[1..]);
    }
  }

  lemma {:induction false} CellsCovered(cells: seq<Cell>, lines: map<LineKey, Money>, targets: map<string, Target>)
    requires CellsSound(cells, lines, targets)
    ensures KeysIn(RowLines(cells)) <= lines.Keys && KeysIn(ColumnLines(cells)) <= targets.Keys
  {
    forall k | k in KeysIn(RowLines(cells))
      ensures k in lines
    {
      var i :| 0 <= i < |cells| && RowLines(cells)[i].0 == k;
      assert CellSound(cells[i], lines, targets);
    }
    forall k | k in KeysIn(ColumnLines(cells))
      ensures k in targets
    {
      var i :| 0 <= i < |cells| && ColumnLines(cells)[i].0 == k;
      assert CellSound(cells[i], lines, targets);
    }
  }

  /** What the lines give up, what the targets take, and what the cells say are one amount. */
  lemma {:induction false} Conserved(t: Tables, v: Review, digest: Digest, plan: Plan)
    requires Allocatable(t, v) && PlanMeans(t, v, digest, plan)
    ensures SumMap(NetsOf(LinesOf(t, v))) - SumMap(plan.remainders) == Total(RowLines(v.cells))
    ensures SumMap(NetsOf(AmountsOf(TargetsOf(t, v)))) - SumMap(plan.targetRemainders) == Total(RowLines(v.cells))
  {
    AllocatableIs(t, v);
    MeansRemainders(t, v, digest, plan);
    hide Allocatable, PlanMeans, LinesOf, TargetsOf;
    ConservedBy(plan, v, LinesOf(t, v), TargetsOf(t, v));
  }

  lemma {:induction false} MeansRemainders(t: Tables, v: Review, digest: Digest, plan: Plan)
    requires PlanMeans(t, v, digest, plan)
    ensures RemaindersMean(plan, v, LinesOf(t, v), TargetsOf(t, v)) && ProjectionsMean(plan, v, TargetsOf(t, v))
  {
    hide RemaindersMean, ProjectionsMean;
  }

  lemma {:induction false} ConservedBy(plan: Plan, v: Review, lines: map<LineKey, Money>, targets: map<string, Target>)
    requires CellsSound(v.cells, lines, targets) && WithinCapacity(v.cells, lines, targets) && RemaindersMean(plan, v, lines, targets)
    ensures SumMap(NetsOf(lines)) - SumMap(plan.remainders) == Total(RowLines(v.cells))
    ensures SumMap(NetsOf(AmountsOf(targets))) - SumMap(plan.targetRemainders) == Total(RowLines(v.cells))
  {
    SoundPositive(v.cells, lines, targets);
    CellsCovered(v.cells, lines, targets);
    SameTotals(v.cells);
    hide CellsSound, Total, SumFor, KeysIn, SumMap, Positive, RowLines, ColumnLines;
    UsedSum(lines, RowLines(v.cells), plan.remainders);
    UsedSum(AmountsOf(targets), ColumnLines(v.cells), plan.targetRemainders);
  }

  /** A target has an effect or a remainder, never both and never neither. */
  lemma {:induction false} FundedOrRemaining(t: Tables, v: Review, digest: Digest, plan: Plan, id: string)
    requires Allocatable(t, v) && PlanMeans(t, v, digest, plan) && id in TargetsOf(t, v)
    ensures id in plan.projections <==> id !in plan.targetRemainders
    ensures id in plan.projections ==> plan.projections[id].amount.units == -(TargetsOf(t, v)[id].amount.units as int)
  {
    AllocatableIs(t, v);
    MeansRemainders(t, v, digest, plan);
    hide Allocatable, PlanMeans, LinesOf, TargetsOf, SumFor, CategoryOrder, SplitsMean;
  }

  // Effects are well formed.

  function SplitTotal(splits: seq<Split>): int {
    if splits == [] then 0 else SplitTotal(splits[..|splits| - 1]) + splits[|splits| - 1].amount.units
  }

  /** What a ledger effect must be to be resolved from evidence. */
  ghost predicate EffectValid(e: Effect) {
    !Blank(e.accountId) && ValidDate(e.date) && ValidCurrency(e.amount.currency)
    && (e.categoryId.Some? ==> !Blank(e.categoryId.value))
    && (forall i :: 0 <= i < |e.splits| ==> !Blank(e.splits[i].categoryId) && e.splits[i].amount.currency == e.amount.currency)
    && (e.splits != [] ==> SplitTotal(e.splits) == e.amount.units && forall i :: 0 <= i <= |e.splits| ==> Fits(SplitTotal(e.splits[..i])))
  }

  method ValidateEffect(e: Effect) returns (r: Result<()>)
    ensures r.Ok? <==> EffectValid(e)
  {
    hide Blank, ValidDate, ValidCurrency;
    if Blank(e.accountId) || !ValidDate(e.date) || !ValidCurrency(e.amount.currency)
       || (e.categoryId.Some? && Blank(e.categoryId.value))
       || exists i :: 0 <= i < |e.splits| && (Blank(e.splits[i].categoryId) || e.splits[i].amount.currency != e.amount.currency) {
      return Err("invalid_economic_event_ledger_effect");
    }
    if e.splits != [] {
      var total: i64 := 0;
      for i := 0 to |e.splits|
        invariant total == SplitTotal(e.splits[..i])
        invariant forall j :: 0 <= j <= i ==> Fits(SplitTotal(e.splits[..j]))
      {
        assert e.splits[..i + 1][..i] == e.splits[..i];
        total :- CheckedAdd(total, e.splits[i].amount.units);
      }
      assert e.splits[..|e.splits|] == e.splits;
      if total != e.amount.units {
        return Err("invalid_economic_event_ledger_effect");
      }
    }
    r := Ok(());
  }

  function SplitSum(cells: seq<Cell>, categories: map<LineKey, string>, target: string, names: seq<string>): int {
    if names == [] then 0
    else SplitSum(cells, categories, target, names[..|names| - 1]) + SumFor(SplitLines(cells, categories), (target, names[|names| - 1]))
  }

  lemma {:induction false} SplitSumStep(cells: seq<Cell>, categories: map<LineKey, string>, target: string, names: seq<string>)
    requires cells != [] && DistinctIds(names)
    ensures SplitSum(cells, categories, target, names)
         == SplitSum(cells[1..], categories, target, names)
            + if cells[0].targetId == target && CategoryAt(categories, cells[0].line) in names then cells[0].amount.units else 0
  {
    if names != [] {
      var front, last := names[..|names| - 1], names[|names| - 1];
      SplitSumStep(cells, categories, target, front);
      assert SplitLines(cells, categories)[1..] == SplitLines(cells[1..], categories);
      assert names == front + [last];
    }
  }

  /** A target's splits over all its categories add up to its column. */
  lemma {:induction false} SplitsFillColumn(cells: seq<Cell>, categories: map<LineKey, string>, target: string, names: seq<string>)
    requires DistinctIds(names)
    requires forall i :: 0 <= i < |cells| && cells[i].targetId == target ==> CategoryAt(categories, cells[i].line) in names
    ensures SplitSum(cells, categories, target, names) == SumFor(ColumnLines(cells), target)
  {
    if cells == [] {
      EmptySplits(categories, target, names);
    } else {
      assert forall i :: 0 <= i < |cells[1..]| ==> cells[1..][i] == cells[i + 1];
      SplitsFillColumn(cells[1..], categories, target, names);
      SplitSumStep(cells, categories, target, names);
      assert ColumnLines(cells)[1..] == ColumnLines(cells[1..]);
    }
  }

  lemma {:induction false} EmptySplits(categories: map<LineKey, string>, target: string, names: seq<string>)
    ensures SplitSum([], categories, target, names) == 0
  {
    if names != [] {
      EmptySplits(categories, target, names[..|names| - 1]);
    }
  }

  lemma {:induction false} SplitTotals(splits: seq<Split>, names: seq<string>, cells: seq<Cell>, categories: map<LineKey, string>, target: string, currency: string, i: nat)
    requires SplitsMean(splits, names, cells, categories, target, currency) && i <= |splits|
    ensures SplitTotal(splits[..i]) == -SplitSum(cells, categories, target, names[..i])
  {
    if i > 0 {
      SplitTotals(splits, names, cells, categories, target, currency, i - 1);
      assert splits[..i][..i - 1] == splits[..i - 1] && names[..i][..i - 1] == names[..i - 1];
    }
  }

  lemma {:induction false} SplitSumGrows(cells: seq<Cell>, categories: map<LineKey, string>, target: string, names: seq<string>, i: nat)
    requires Positive(ColumnLines(cells)) && i <= |names|
    ensures 0 <= SplitSum(cells, categories, target, names[..i]) <= SplitSum(cells, categories, target, names)
    decreases |names| - i
  {
    SplitSumSign(cells, categories, target, names[..i]);
    if i == |names| {
      assert names[..i] == names;
    } else {
      SplitSumGrows(cells, categories, target, names, i + 1);
      assert names[..i + 1][..i] == names[..i];
      PartsWithinColumn(cells, categories, names[i], target);
    }
  }

  lemma {:induction false} SplitSumSign(cells: seq<Cell>, categories: map<LineKey, string>, target: string, names: seq<string>)
    requires Positive(ColumnLines(cells))
    ensures 0 <= SplitSum(cells, categories, target, names)
  {
    if names != [] {
      SplitSumSign(cells, categories, target, names[..|names| - 1]);
      PartsWithinColumn(cells, categories, names[|names| - 1], target);
    }
  }

  lemma {:induction false} NamesSound(choices: seq<Choice>, lines: map<LineKey, Money>, cells: seq<Cell>, targets: map<string, Target>, target: string)
    requires ChoicesSound(choices, lines) && CellsSound(cells, lines, targets)
    ensures forall c :: c in UsedCategories(cells, CategoriesOf(choices), target) ==> !Blank(c)
    ensures DistinctIds(CategoryOrder(cells, CategoriesOf(choices), target))
  {
    hide Blank, DistinctBy;
    forall c | c in UsedCategories(cells, CategoriesOf(choices), target)
      ensures !Blank(c)
    {
      var i :| 0 <= i < |cells| && cells[i].targetId == target && CategoryAt(CategoriesOf(choices), cells[i].line) == c;
      assert CellSound(cells[i], lines, targets) && cells[i].line in CategoriesOf(choices).Keys;
      ChoiceMade(choices, cells[i].line);
      var j :| 0 <= j < |choices| && choices[j].line == cells[i].line;
      ChoiceFor(choices, j);
      assert Identity(choices[j].categoryId);
    }
    var names := CategoryOrder(cells, CategoriesOf(choices), target);
    forall i, j | 0 <= i < j < |names|
      ensures names[i] != names[j]
    {
      assert StringLt(names[i], names[j]);
      StringLtIrreflexive(names[i]);
    }
  }

  lemma {:induction false} SplitsValid(splits: seq<Split>, names: seq<string>, cells: seq<Cell>, categories: map<LineKey, string>, target: string, currency: string)
    requires SplitsMean(splits, names, cells, categories, target, currency) && DistinctIds(names) && Positive(ColumnLines(cells))
    requires forall i :: 0 <= i < |cells| && cells[i].targetId == target ==> CategoryAt(categories, cells[i].line) in names
    requires Fits(-SumFor(ColumnLines(cells), target))
    ensures SplitTotal(splits) == -SumFor(ColumnLines(cells), target)
    ensures forall i :: 0 <= i <= |splits| ==> Fits(SplitTotal(splits[..i]))
  {
    SplitsFillColumn(cells, categories, target, names);
    SplitTotals(splits, names, cells, categories, target, currency, |splits|);
    assert splits[..|splits|] == splits && names[..|splits|] == names;
    forall i | 0 <= i <= |splits|
      ensures Fits(SplitTotal(splits[..i]))
    {
      SplitTotals(splits, names, cells, categories, target, currency, i);
      SplitSumGrows(cells, categories, target, names, i);
    }
  }

  lemma {:induction false} SplitEffectValid(e: Effect, names: seq<string>, cells: seq<Cell>, categories: map<LineKey, string>, id: string)
    requires e.categoryId.None? && SplitsMean(e.splits, names, cells, categories, id, e.amount.currency)
    requires e.amount.units == -SumFor(ColumnLines(cells), id) && DistinctIds(names) && Positive(ColumnLines(cells))
    requires forall i :: 0 <= i < |cells| && cells[i].targetId == id ==> CategoryAt(categories, cells[i].line) in names
    requires forall c :: c in names ==> !Blank(c)
    requires !Blank(e.accountId) && ValidDate(e.date) && ValidCurrency(e.amount.currency)
    ensures EffectValid(e)
  {
    hide Blank, ValidDate, ValidCurrency, Positive, SumFor, SplitTotal, CategoryAt, DistinctIds;
    SplitsValid(e.splits, names, cells, categories, id, e.amount.currency);
    forall i | 0 <= i < |e.splits|
      ensures !Blank(e.splits[i].categoryId) && e.splits[i].amount.currency == e.amount.currency
    {
      assert names[i] in names;
    }
  }

  lemma {:induction false} WholeEffectValid(e: Effect)
    requires e.categoryId.Some? && e.splits == [] && !Blank(e.categoryId.value)
    requires !Blank(e.accountId) && ValidDate(e.date) && ValidCurrency(e.amount.currency)
    ensures EffectValid(e)
  {
    hide Blank, ValidDate, ValidCurrency;
  }

  lemma {:induction false} EffectIsValid(e: Effect, target: Target, id: string, v: Review, lines: map<LineKey, Money>, targets: map<string, Target>)
    requires ChoicesSound(v.choices, lines) && CellsSound(v.cells, lines, targets)
    requires EffectMeans(e, target, id, v.cells, CategoriesOf(v.choices))
    requires !Blank(target.accountId) && ValidDate(target.date) && ValidCurrency(target.amount.currency)
    ensures EffectValid(e)
  {
    hide Blank, ValidDate, ValidCurrency, Positive, CellsSound, ChoicesSound, CategoriesOf, SumFor, CategoryAt, SplitsMean, EffectValid, DistinctIds,
         Ascending, UsedCategories;
    var names := CategoryOrder(v.cells, CategoriesOf(v.choices), id);
    NamesSound(v.choices, lines, v.cells, targets, id);
    SoundPositive(v.cells, lines, targets);
    if |names| == 1 {
      assert names[0] in names;
      WholeEffectValid(e);
    } else {
      CategoriesNamed(v.cells, CategoriesOf(v.choices), id);
      SplitEffectValid(e, names, v.cells, CategoriesOf(v.choices), id);
    }
  }

  lemma {:induction false} CategoriesNamed(cells: seq<Cell>, categories: map<LineKey, string>, id: string)
    ensures forall i :: 0 <= i < |cells| && cells[i].targetId == id ==> CategoryAt(categories, cells[i].line) in CategoryOrder(cells, categories, id)
  {
    forall i | 0 <= i < |cells| && cells[i].targetId == id
      ensures CategoryAt(categories, cells[i].line) in CategoryOrder(cells, categories, id)
    {
      assert cells[i] in cells;
    }
  }

  /** Every projected effect passes the ledger-effect validation, given dated targets in real currencies. */
  lemma {:induction false} ProjectionsValid(t: Tables, v: Review, digest: Digest, plan: Plan, id: string)
    requires Allocatable(t, v) && PlanMeans(t, v, digest, plan) && id in plan.projections
    requires id in t.targets && ValidDate(t.targets[id].date) && ValidCurrency(t.targets[id].amount.currency)
    ensures EffectValid(plan.projections[id])
  {
    AllocatableIs(t, v);
    MeansRemainders(t, v, digest, plan);
    assert id in TargetsOf(t, v) && EffectMeans(plan.projections[id], TargetsOf(t, v)[id], id, v.cells, CategoriesOf(v.choices));
    assert TargetReady(t, id);
    hide Allocatable, PlanMeans, LinesOf, CellsSound, ChoicesSound, EffectMeans, CategoriesOf, SumFor, Selected;
    EffectIsValid(plan.projections[id], t.targets[id], id, v, LinesOf(t, v), TargetsOf(t, v));
  }
}
