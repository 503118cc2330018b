/** Receipt-line allocation cells: their row, column, pair and split totals against lines and targets. */
module Matrix {
  import opened CheckedMoney
  import opened Rows
  import opened Text
  import opened Sums
  import opened Sorting

  datatype LineKey = LineKey(receiptId: string, lineId: string)

  datatype Cell = Cell(line: LineKey, targetId: string, amount: Money)

  datatype Choice = Choice(line: LineKey, categoryId: string)

  datatype Edge = Edge(fromId: string, toId: string, kind: string, confirmed: bool, amount: Option<i64>)

  datatype Tender = Tender(kind: string, observationId: Option<string>, amount: i64)

  /** A selected receipt; `current` is the resolver's verdict that it is a valid, current purchase. */
  datatype Receipt = Receipt(observationId: string, total: Money, lines: map<string, Money>, tenders: seq<Tender>, current: bool)

  /** A bank transaction; `eligible` is the verdict that it is a completed, unshared ledger outflow. */
  datatype Target = Target(accountId: string, amount: Money, date: string, eligible: bool)

  datatype Review = Review(receiptIds: seq<string>, targetIds: seq<string>, choices: seq<Choice>, cells: seq<Cell>)

  /** An identity: not blank, at most 256 units long, without control characters. */
  predicate Identity(s: string) {
    !Blank(s) && |s| <= 256 && forall i :: 0 <= i < |s| ==> !Control(s[i])
  }

  predicate Control(c: char) {
    (c as int) < 0x20 || 0x7F <= (c as int) < 0xA0
  }

  // The four totals.

  function RowLines(cells: seq<Cell>): (r: seq<(LineKey, i64)>)
    ensures |r| == |cells| && forall i :: 0 <= i < |r| ==> r[i] == (cells[i].line, cells[i].amount.units)
  {
    seq(|cells|, i requires 0 <= i < |cells| => (cells[i].line, cells[i].amount.units))
  }

  function ColumnLines(cells: seq<Cell>): (r: seq<(string, i64)>)
    ensures |r| == |cells| && forall i :: 0 <= i < |r| ==> r[i] == (cells[i].targetId, cells[i].amount.units)
  {
    seq(|cells|, i requires 0 <= i < |cells| => (cells[i].targetId, cells[i].amount.units))
  }

  type Pair = (string, string)

  function PairLines(cells: seq<Cell>): (r: seq<(Pair, i64)>)
    ensures |r| == |cells|
    ensures forall i :: 0 <= i < |r| ==> r[i] == ((cells[i].line.receiptId, cells[i].targetId), cells[i].amount.units)
  {
    seq(|cells|, i requires 0 <= i < |cells| => ((cells[i].line.receiptId, cells[i].targetId), cells[i].amount.units))
  }

  function CategoryAt(categories: map<LineKey, string>, line: LineKey): string {
    if line in categories then categories[line] else ""
  }

  /** Amounts by target and chosen category. */
  function SplitLines(cells: seq<Cell>, categories: map<LineKey, string>): (r: seq<(Pair, i64)>)
    ensures |r| == |cells|
    ensures forall i :: 0 <= i < |r| ==> r[i] == ((cells[i].targetId, CategoryAt(categories, cells[i].line)), cells[i].amount.units)
  {
    seq(|cells|, i requires 0 <= i < |cells| => ((cells[i].targetId, CategoryAt(categories, cells[i].line)), cells[i].amount.units))
  }

  datatype Running = Running(rows: map<LineKey, i64>, columns: map<string, i64>, pairs: map<Pair, i64>, splits: map<Pair, i64>)

  ghost predicate Runs(r: Running, cells: seq<Cell>, categories: map<LineKey, string>) {
    Tallies(r.rows, RowLines(cells)) && Tallies(r.columns, ColumnLines(cells))
    && Tallies(r.pairs, PairLines(cells)) && Tallies(r.splits, SplitLines(cells, categories))
  }

  function AddTo<K(==)>(m: map<K, i64>, k: K, amount: i64): Result<map<K, i64>> {
    if Fits(Left(m, k) + amount) then Ok(m[k := Left(m, k) + amount]) else Err("amount_overflow")
  }

  function CellKey(cell: Cell): (LineKey, string) {
    (cell.line, cell.targetId)
  }

  predicate CellSound(cell: Cell, lines: map<LineKey, Money>, targets: map<string, Target>) {
    cell.line in lines && cell.targetId in targets && cell.amount.units > 0
    && cell.amount.currency == lines[cell.line].currency == targets[cell.targetId].amount.currency
  }

  /** Positive cells of known lines and targets in one currency, no line meeting a target twice. */
  ghost predicate CellsSound(cells: seq<Cell>, lines: map<LineKey, Money>, targets: map<string, Target>) {
    (forall i :: 0 <= i < |cells| ==> CellSound(cells[i], lines, targets)) && DistinctBy(CellKey, cells)
  }

  lemma {:induction false} PrefixLines(cells: seq<Cell>, categories: map<LineKey, string>, i: nat)
    requires i <= |cells|
    ensures RowLines(cells[..i]) == RowLines(cells)[..i] && ColumnLines(cells[..i]) == ColumnLines(cells)[..i]
    ensures PairLines(cells[..i]) == PairLines(cells)[..i] && SplitLines(cells[..i], categories) == SplitLines(cells, categories)[..i]
  {
  }

  lemma {:induction false} AddTallies<K(!new)>(m: map<K, i64>, lines: seq<(K, i64)>, i: nat)
    requires i < |lines| && Tallies(m, lines[..i])
    ensures AddTo(m, lines[i].0, lines[i].1).Ok? <==> Fits(SumFor(lines[..i + 1], lines[i].0))
    ensures AddTo(m, lines[i].0, lines[i].1).Ok? ==> Tallies(AddTo(m, lines[i].0, lines[i].1).value, lines[..i + 1])
  {
    TalliesNext(m, lines[..i], lines[i]);
    assert lines[..i + 1] == lines[..i] + [lines[i]];
    hide Tallies, SumFor;
  }

  /** Positive amounts whose key's whole sum is bounded never overflow on the way. */
  lemma {:induction false} PrefixFits<K>(lines: seq<(K, i64)>, i: nat)
    requires i < |lines| && Positive(lines)
    ensures 0 < SumFor(lines[..i + 1], lines[i].0) <= SumFor(lines, lines[i].0)
  {
    PrefixSums(lines, i, lines[i].0);
    PositiveSums(lines[..i], lines[i].0);
  }

  /** A pair or a split belongs to one column, so it never outgrows it. */
  lemma {:induction false} PartsWithinColumn(cells: seq<Cell>, categories: map<LineKey, string>, x: string, target: string)
    requires Positive(ColumnLines(cells))
    ensures 0 <= SumFor(PairLines(cells), (x, target)) <= SumFor(ColumnLines(cells), target)
    ensures 0 <= SumFor(SplitLines(cells, categories), (target, x)) <= SumFor(ColumnLines(cells), target)
  {
    if cells != [] {
      assert ColumnLines(cells)[1..] == ColumnLines(cells[1..]);
      assert PairLines(cells)[1..] == PairLines(cells[1..]);
      assert SplitLines(cells, categories)[1..] == SplitLines(cells[1..], categories);
      assert ColumnLines(cells)[0].1 >= 1;
      assert forall i :: 0 <= i < |cells| - 1 ==> ColumnLines(cells[1..])[i] == ColumnLines(cells)[i + 1];
      PartsWithinColumn(cells[1..], categories, x, target);
    }
  }

  /** Every line within its net and every target within its amount. */
  ghost predicate WithinCapacity(cells: seq<Cell>, lines: map<LineKey, Money>, targets: map<string, Target>) {
    (forall k :: k in lines ==> SumFor(RowLines(cells), k) <= lines[k].units)
    && forall t :: t in targets ==> SumFor(ColumnLines(cells), t) <= targets[t].amount.units
  }

  lemma {:induction false} SoundPositive(cells: seq<Cell>, lines: map<LineKey, Money>, targets: map<string, Target>)
    requires CellsSound(cells, lines, targets)
    ensures Positive(RowLines(cells)) && Positive(ColumnLines(cells)) && Positive(PairLines(cells))
  {
  }

  /** Within capacity, no running total of any of the four kinds overflows. */
  lemma {:induction false} CapacityFits(cells: seq<Cell>, categories: map<LineKey, string>, lines: map<LineKey, Money>, targets: map<string, Target>, i: nat)
    requires CellsSound(cells, lines, targets) && WithinCapacity(cells, lines, targets) && i < |cells|
    ensures Fits(SumFor(RowLines(cells)[..i + 1], cells[i].line)) && Fits(SumFor(ColumnLines(cells)[..i + 1], cells[i].targetId))
    ensures Fits(SumFor(PairLines(cells)[..i + 1], (cells[i].line.receiptId, cells[i].targetId)))
    ensures Fits(SumFor(SplitLines(cells, categories)[..i + 1], (cells[i].targetId, CategoryAt(categories, cells[i].line))))
  {
    SoundPositive(cells, lines, targets);
    assert Positive(SplitLines(cells, categories)) by {
      assert forall j :: 0 <= j < |cells| ==> SplitLines(cells, categories)[j].1 == ColumnLines(cells)[j].1;
    }
    assert CellSound(cells[i], lines, targets);
    PrefixFits(RowLines(cells), i);
    PrefixFits(ColumnLines(cells), i);
    PrefixFits(PairLines(cells), i);
    PrefixFits(SplitLines(cells, categories), i);
    PartsWithinColumn(cells, categories, cells[i].line.receiptId, cells[i].targetId);
    PartsWithinColumn(cells, categories, CategoryAt(categories, cells[i].line), cells[i].targetId);
    hide SumFor, Positive;
  }

  function AddCell(r: Running, cell: Cell, categories: map<LineKey, string>): Result<Running> {
    var rows :- AddTo(r.rows, cell.line, cell.amount.units);
    var columns :- AddTo(r.columns, cell.targetId, cell.amount.units);
    var pairs :- AddTo(r.pairs, (cell.line.receiptId, cell.targetId), cell.amount.units);
    var splits :- AddTo(r.splits, (cell.targetId, CategoryAt(categories, cell.line)), cell.amount.units);
    Ok(Running(rows, columns, pairs, splits))
  }

  lemma {:induction false} CellAdded(r: Running, cells: seq<Cell>, categories: map<LineKey, string>, i: nat)
    requires i < |cells| && Runs(r, cells[..i], categories)
    ensures AddCell(r, cells[i], categories).Ok? ==> Runs(AddCell(r, cells[i], categories).value, cells[..i + 1], categories)
    ensures AddCell(r, cells[i], categories).Ok?
            <==> Fits(SumFor(RowLines(cells)[..i + 1], cells[i].line)) && Fits(SumFor(ColumnLines(cells)[..i + 1], cells[i].targetId))
                 && Fits(SumFor(PairLines(cells)[..i + 1], (cells[i].line.receiptId, cells[i].targetId)))
                 && Fits(SumFor(SplitLines(cells, categories)[..i + 1], (cells[i].targetId, CategoryAt(categories, cells[i].line))))
  {
    hide Tallies, SumFor, AddTo;
    PrefixLines(cells, categories, i);
    PrefixLines(cells, categories, i + 1);
    AddTallies(r.rows, RowLines(cells), i);
    AddTallies(r.columns, ColumnLines(cells), i);
    AddTallies(r.pairs, PairLines(cells), i);
    AddTallies(r.splits, SplitLines(cells, categories), i);
  }

  ghost predicate CellsUpTo(cells: seq<Cell>, i: nat, lines: map<LineKey, Money>, targets: map<string, Target>, seen: set<(LineKey, string)>)
    requires i <= |cells|
  {
    CellsSound(cells[..i], lines, targets) && seen == set j | 0 <= j < i :: CellKey(cells[j])
  }

  lemma {:induction false} CellNext(cells: seq<Cell>, i: nat, lines: map<LineKey, Money>, targets: map<string, Target>, seen: set<(LineKey, string)>)
    requires i < |cells| && CellsUpTo(cells, i, lines, targets, seen)
    ensures CellSound(cells[i], lines, targets) && CellKey(cells[i]) !in seen ==>
              CellsUpTo(cells, i + 1, lines, targets, seen + {CellKey(cells[i])})
    ensures !(CellSound(cells[i], lines, targets) && CellKey(cells[i]) !in seen) ==> !CellsSound(cells, lines, targets)
  {
    assert cells[..i + 1] == cells[..i] + [cells[i]];
  }

  lemma {:induction false} NoCells(categories: map<LineKey, string>, cells: seq<Cell>, lines: map<LineKey, Money>, targets: map<string, Target>)
    ensures CellsUpTo(cells, 0, lines, targets, {})
    ensures Runs(Running(map[], map[], map[], map[]), cells[..0], categories)
  {
    TallyStart(RowLines(cells));
    TallyStart(ColumnLines(cells));
    TallyStart(PairLines(cells));
    TallyStart(SplitLines(cells, categories));
    PrefixLines(cells, categories, 0);
    hide Tallies;
  }

  /** One pass over the cells, checking each and adding it to all four totals. */
  method AccumulateCells(cells: seq<Cell>, categories: map<LineKey, string>, lines: map<LineKey, Money>, targets: map<string, Target>)
    returns (r: Result<Running>)
    ensures r.Ok? ==> CellsSound(cells, lines, targets) && Runs(r.value, cells, categories)
    ensures r.Err? ==> !CellsSound(cells, lines, targets) || !WithinCapacity(cells, lines, targets)
  {
    NoCells(categories, cells, lines, targets);
    hide CellsSound, CellsUpTo, Runs, AddCell, WithinCapacity;
    var running := Running(map[], map[], map[], map[]);
    var seen: set<(LineKey, string)> := {};
    for i := 0 to |cells|
      invariant CellsUpTo(cells, i, lines, targets, seen) && Runs(running, cells[..i], categories)
    {
      CellNext(cells, i, lines, targets, seen);
      if cells[i].line !in lines {
        return Err("allocation_line_missing");
      }
      if cells[i].targetId !in targets {
        return Err("allocation_cell_target");
      }
      if CellKey(cells[i]) in seen || !CellSound(cells[i], lines, targets) {
        return Err("allocation_cell_amount_or_duplicate");
      }
      CellAdded(running, cells, categories, i);
      var next := AddCell(running, cells[i], categories);
      if next.Err? {
        if CellsSound(cells, lines, targets) && WithinCapacity(cells, lines, targets) {
          CapacityFits(cells, categories, lines, targets, i);
        }
        return Err(next.error);
      }
      seen := seen + {CellKey(cells[i])};
      running := next.value;
    }
    assert cells[..|cells|] == cells;
    assert CellsSound(cells, lines, targets) by {
      CellsDone(cells, lines, targets, seen);
    }
    r := Ok(running);
  }

  lemma {:induction false} CellsDone(cells: seq<Cell>, lines: map<LineKey, Money>, targets: map<string, Target>, seen: set<(LineKey, string)>)
    requires CellsUpTo(cells, |cells|, lines, targets, seen)
    ensures CellsSound(cells, lines, targets)
  {
    assert cells[..|cells|] == cells;
  }
}
