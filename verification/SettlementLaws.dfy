/** Settling by whole receipts is the matrix whose cells are the receipts' positive lines. */
module SettlementLaws {
  import opened CheckedMoney
  import opened Text
  import opened Rows
  import opened Action
  import opened Ordered
  import opened Sums
  import opened Sorting
  import opened Matrix
  import opened Allocation
  import opened AllocationPlan
  import opened AllocationLaws
  import opened AllocationOrder
  import opened Settlement

  /** One cell for every line that is worth something. */
  function PositiveCells(nets: Nets, target: string, currency: string): seq<Cell> {
    if nets == [] then []
    else
      var last := nets[|nets| - 1];
      PositiveCells(nets[..|nets| - 1], target, currency)
      + if last.1 > 0 then [Cell(last.0, target, Money(last.1, currency))] else []
  }

  ghost predicate Nonnegative(nets: Nets) {
    forall i :: 0 <= i < |nets| ==> nets[i].1 >= 0
  }

  /** Every receipt's lines add up to its total. */
  ghost predicate LinesAddUp(receipts: seq<WholeReceipt>) {
    forall i :: 0 <= i < |receipts| ==> Total(NetsOfReceipt(receipts[i])) == receipts[i].total
  }

  lemma {:induction false} TotalsAddUp(receipts: seq<WholeReceipt>)
    requires LinesAddUp(receipts)
    ensures Total(AllNets(receipts)) == TotalOf(receipts)
  {
    if receipts != [] {
      TotalsAddUp(receipts[..|receipts| - 1]);
      TotalConcat(AllNets(receipts[..|receipts| - 1]), NetsOfReceipt(receipts[|receipts| - 1]));
    }
  }

  lemma {:induction false} LastLine(nets: Nets)
    requires nets != []
    ensures Total(nets) == Total(nets[..|nets| - 1]) + nets[|nets| - 1].1
  {
    TotalNext(nets, |nets| - 1);
    assert nets[..|nets|] == nets;
  }

  lemma {:induction false} ColumnOfCells(nets: Nets, target: string, currency: string)
    requires Nonnegative(nets)
    ensures SumFor(ColumnLines(PositiveCells(nets, target, currency)), target) == Total(nets)
  {
    if nets != [] {
      var front, last := nets[..|nets| - 1], nets[|nets| - 1];
      ColumnOfCells(front, target, currency);
      LastLine(nets);
      var before := PositiveCells(front, target, currency);
      if last.1 > 0 {
        assert ColumnLines(PositiveCells(nets, target, currency)) == ColumnLines(before) + [(target, last.1)];
        SumForConcat(ColumnLines(before), [(target, last.1)], target);
      } else {
        assert PositiveCells(nets, target, currency) == before;
      }
    }
  }

  lemma {:induction false} SplitsOfCells(nets: Nets, target: string, currency: string, categories: map<LineKey, string>, c: string)
    requires Nonnegative(nets)
    ensures SumFor(SplitLines(PositiveCells(nets, target, currency), categories), (target, c)) == SumFor(CategoryNets(nets, categories), c)
  {
    if nets != [] {
      var front, last := nets[..|nets| - 1], nets[|nets| - 1];
      SplitsOfCells(front, target, currency, categories, c);
      var before, category := PositiveCells(front, target, currency), CategoryAt(categories, last.0);
      assert CategoryNets(nets, categories) == CategoryNets(front, categories) + [(category, last.1)];
      SumForConcat(CategoryNets(front, categories), [(category, last.1)], c);
      if last.1 > 0 {
        var line := ((target, category), last.1);
        assert SplitLines(PositiveCells(nets, target, currency), categories) == SplitLines(before, categories) + [line];
        SumForConcat(SplitLines(before, categories), [line], (target, c));
      } else {
        assert PositiveCells(nets, target, currency) == before;
      }
    }
  }

  /** The matrix and the settlement find the same categories with the same amounts. */
  lemma {:induction false} SameCategoryTotals(v: Review, lines: map<LineKey, Money>, targets: map<string, Target>, nets: Nets, target: string, currency: string,
                               categories: map<LineKey, string>, c: string)
    requires CellsSound(v.cells, lines, targets) && Nonnegative(nets) && multiset(v.cells) == multiset(PositiveCells(nets, target, currency))
    ensures SumFor(SplitLines(v.cells, categories), (target, c)) == SumFor(CategoryNets(nets, categories), c)
    ensures c in UsedCategories(v.cells, categories, target) <==> SumFor(CategoryNets(nets, categories), c) > 0
  {
    SplitsPermute(v.cells, PositiveCells(nets, target, currency), categories, (target, c));
    SplitsOfCells(nets, target, currency, categories, c);
    SplitKeys(v.cells, categories, target, c);
    SoundPositive(v.cells, lines, targets);
    var splits := SplitLines(v.cells, categories);
    assert Positive(splits) by {
      assert forall i :: 0 <= i < |splits| ==> splits[i].1 == ColumnLines(v.cells)[i].1;
    }
    PositiveSums(splits, (target, c));
  }

  lemma {:induction false} SameSplits(x: seq<Split>, y: seq<Split>, names: seq<string>, cells: seq<Cell>, categories: map<LineKey, string>, target: string,
                       lines: seq<(string, i64)>, currency: string)
    requires SplitsMean(x, names, cells, categories, target, currency) && SplitsOver(y, names, lines, currency)
    requires forall c :: SumFor(SplitLines(cells, categories), (target, c)) == SumFor(lines, c)
    ensures x == y
  {
    hide SumFor;
    forall i | 0 <= i < |x|
      ensures x[i] == y[i]
    {
    }
  }

  lemma {:induction false} SameEffect(x: Effect, y: Effect, target: Target, id: string, cells: seq<Cell>, categories: map<LineKey, string>,
                       receipts: seq<WholeReceipt>, choices: seq<Choice>)
    requires EffectMeans(x, target, id, cells, categories) && SettledAs(y, receipts, choices, target) && categories == CategoriesOf(choices)
    requires SumFor(ColumnLines(cells), id) == target.amount.units
    requires forall c :: SumFor(SplitLines(cells, categories), (id, c)) == SumFor(CategoryNets(AllNets(receipts), categories), c)
    requires forall c :: c in UsedCategories(cells, categories, id) <==> SumFor(CategoryNets(AllNets(receipts), categories), c) > 0
    ensures x == y
  {
    hide SumFor, SplitsMean, SplitsOver, AllNets, CategoriesOf, UsedCategories, Ascending, StringLt;
    var lines := CategoryNets(AllNets(receipts), categories);
    var names :| PositiveNames(names, lines)
                 && if |names| == 1 then y.categoryId == Some(names[0]) && y.splits == []
                    else y.categoryId.None? && SplitsOver(y.splits, names, lines, target.amount.currency);
    StringsOrdered();
    AscendingUnique(StringLt, names, CategoryOrder(cells, categories, id));
    if |names| != 1 {
      SameSplits(x.splits, y.splits, names, cells, categories, id, lines, target.amount.currency);
    }
  }

  /**
   * With lines worth nothing less than zero that add up to each receipt's total, the settlement's effect is
   * the projection of the one-target matrix whose cells are the positive lines.
   */
  lemma {:induction false} SettlementIsMatrix(t: Tables, v: Review, digest: Digest, plan: Plan, receipts: seq<WholeReceipt>, choices: seq<Choice>, id: string, e: Effect)
    requires Allocatable(t, v) && PlanMeans(t, v, digest, plan) && v.targetIds == [id] && id in t.targets
    requires multiset(v.cells) == multiset(PositiveCells(AllNets(receipts), id, t.targets[id].amount.currency))
    requires CategoriesOf(v.choices) == CategoriesOf(choices)
    requires Settleable(receipts, choices, t.targets[id]) && SettledAs(e, receipts, choices, t.targets[id])
    requires Nonnegative(AllNets(receipts)) && LinesAddUp(receipts)
    ensures id in plan.projections && plan.projections[id] == e
  {
    AllocatableIs(t, v);
    MeansRemainders(t, v, digest, plan);
    var target, nets, categories := t.targets[id], AllNets(receipts), CategoriesOf(choices);
    assert TotalOf(receipts) == target.amount.units;
    assert id in v.targetIds && TargetsOf(t, v)[id] == target;
    hide Allocatable, PlanMeans, SettledAs, Settleable, Selected, CellsSound, EffectMeans, SumFor, CategoriesOf, AllNets, LinesOf, UsedCategories;
    TotalsAddUp(receipts);
    ColumnOfCells(nets, id, target.amount.currency);
    ColumnsPermute(v.cells, PositiveCells(nets, id, target.amount.currency), id);
    assert id in plan.projections;
    forall c
      ensures SumFor(SplitLines(v.cells, categories), (id, c)) == SumFor(CategoryNets(nets, categories), c)
      ensures c in UsedCategories(v.cells, categories, id) <==> SumFor(CategoryNets(nets, categories), c) > 0
    {
      SameCategoryTotals(v, LinesOf(t, v), TargetsOf(t, v), nets, id, target.amount.currency, categories, c);
    }
    SameEffect(plan.projections[id], e, target, id, v.cells, categories, receipts, choices);
  }

  // The settled effect is a sound one.

  lemma {:induction false} PositiveColumn(nets: Nets, target: string, currency: string)
    ensures Positive(ColumnLines(PositiveCells(nets, target, currency)))
    ensures forall i :: 0 <= i < |PositiveCells(nets, target, currency)| ==> PositiveCells(nets, target, currency)[i].targetId == target
  {
    if nets != [] {
      PositiveColumn(nets[..|nets| - 1], target, currency);
    }
  }

  /** A category with something settled in it was chosen, and chosen categories have names. */
  lemma {:induction false} SettledNamed(receipts: seq<WholeReceipt>, choices: seq<Choice>, target: Target, c: string)
    requires Settleable(receipts, choices, target) && SumFor(CategoryNets(AllNets(receipts), CategoriesOf(choices)), c) > 0
    ensures !Blank(c)
  {
    var nets := AllNets(receipts);
    var lines := CategoryNets(nets, CategoriesOf(choices));
    assert DistinctBy(LineOf, choices) && KeysIn(nets) == CategoriesOf(choices).Keys
           && forall i :: 0 <= i < |choices| ==> ChoiceIdentified(choices[i]);
    hide Settleable, AllNets, CategoriesOf, Blank, SumFor, DistinctBy;
    if forall i :: 0 <= i < |lines| ==> lines[i].0 != c {
      SumOfOther(lines, c);
    }
    var i :| 0 <= i < |lines| && lines[i].0 == c;
    assert nets[i] in nets && nets[i].0 in CategoriesOf(choices);
    ChoiceMade(choices, nets[i].0);
    var j :| 0 <= j < |choices| && choices[j].line == nets[i].0;
    ChoiceFor(choices, j);
    assert Identity(choices[j].categoryId);
  }

  lemma {:induction false} CellsNamed(nets: Nets, target: string, currency: string, categories: map<LineKey, string>, names: seq<string>, i: nat)
    requires Nonnegative(nets) && PositiveNames(names, CategoryNets(nets, categories)) && i < |PositiveCells(nets, target, currency)|
    ensures CategoryAt(categories, PositiveCells(nets, target, currency)[i].line) in names
  {
    var cells := PositiveCells(nets, target, currency);
    PositiveColumn(nets, target, currency);
    var c := CategoryAt(categories, cells[i].line);
    var splits := SplitLines(cells, categories);
    assert forall k :: 0 <= k < |splits| ==> splits[k].1 == ColumnLines(cells)[k].1;
    assert splits[i].0 == (target, c) && splits[i] in splits;
    PositiveSums(splits, (target, c));
    SplitsOfCells(nets, target, currency, categories, c);
    hide SumFor, Ascending;
  }

  lemma {:induction false} NamesApart(names: seq<string>)
    requires Ascending(StringLt, names)
    ensures DistinctIds(names)
  {
    forall i, j | 0 <= i < j < |names|
      ensures names[i] != names[j]
    {
      assert StringLt(names[i], names[j]);
      StringLtIrreflexive(names[i]);
    }
  }

  lemma {:induction false} OverIsMean(splits: seq<Split>, names: seq<string>, nets: Nets, categories: map<LineKey, string>, id: string, currency: string)
    requires Nonnegative(nets) && SplitsOver(splits, names, CategoryNets(nets, categories), currency)
    ensures SplitsMean(splits, names, PositiveCells(nets, id, currency), categories, id, currency)
  {
    hide SumFor, PositiveCells;
    forall i | 0 <= i < |splits|
      ensures splits[i].amount.units == -SumFor(SplitLines(PositiveCells(nets, id, currency), categories), (id, names[i]))
    {
      SplitsOfCells(nets, id, currency, categories, names[i]);
    }
  }

  lemma {:induction false} SplitSettled(e: Effect, names: seq<string>, nets: Nets, categories: map<LineKey, string>)
    requires Nonnegative(nets) && PositiveNames(names, CategoryNets(nets, categories)) && e.amount.units == -Total(nets)
    requires e.categoryId.None? && SplitsOver(e.splits, names, CategoryNets(nets, categories), e.amount.currency)
    requires forall c :: c in names ==> !Blank(c)
    requires !Blank(e.accountId) && ValidDate(e.date) && ValidCurrency(e.amount.currency)
    ensures EffectValid(e)
  {
    var cells := PositiveCells(nets, "", e.amount.currency);
    PositiveColumn(nets, "", e.amount.currency);
    ColumnOfCells(nets, "", e.amount.currency);
    hide SumFor, PositiveCells, Blank, ValidDate, ValidCurrency, EffectValid, StringLt, Total;
    OverIsMean(e.splits, names, nets, categories, "", e.amount.currency);
    NamesApart(names);
    forall i | 0 <= i < |cells|
      ensures CategoryAt(categories, cells[i].line) in names
    {
      CellsNamed(nets, "", e.amount.currency, categories, names, i);
    }
    SplitEffectValid(e, names, cells, categories, "");
  }

  /** What a settlement writes passes the ledger-effect validation, given a dated target in a real currency. */
  lemma {:induction false} SettledValid(receipts: seq<WholeReceipt>, choices: seq<Choice>, target: Target, e: Effect)
    requires Settleable(receipts, choices, target) && SettledAs(e, receipts, choices, target)
    requires Nonnegative(AllNets(receipts)) && LinesAddUp(receipts)
    requires !Blank(target.accountId) && ValidDate(target.date) && ValidCurrency(target.amount.currency)
    ensures EffectValid(e)
  {
    var categories := CategoriesOf(choices);
    var lines := CategoryNets(AllNets(receipts), categories);
    var names :| PositiveNames(names, lines)
                 && if |names| == 1 then e.categoryId == Some(names[0]) && e.splits == []
                    else e.categoryId.None? && SplitsOver(e.splits, names, lines, target.amount.currency);
    TotalsAddUp(receipts);
    assert Total(AllNets(receipts)) == target.amount.units;
    forall c | c in names
      ensures !Blank(c)
    {
      SettledNamed(receipts, choices, target, c);
    }
    hide Settleable, SumFor, AllNets, CategoriesOf, Blank, ValidDate, ValidCurrency, EffectValid, SplitsOver, StringLt, Total;
    if |names| == 1 {
      assert names[0] in names;
      WholeEffectValid(e);
    } else {
      SplitSettled(e, names, AllNets(receipts), categories);
    }
  }
}
