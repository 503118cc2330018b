/** Allocating receipt lines to bank transactions: when an explicit matrix is accepted, and the plan it gives. */
module Allocation {
  import opened CheckedMoney
  import opened Rows
  import opened Action
  import opened Sums
  import opened Sorting
  import opened Matrix

  /** The evidence an allocation reads; `clear` says that no unselected or blocked source shares an event with the selection. */
  datatype Tables = Tables(
    receipts: map<string, Receipt>, targets: map<string, Target>, edges: seq<Edge>, clear: (set<string>, set<string>) -> bool)

  /** What a fully funded target is to be written as. */
  datatype Effect = Effect(accountId: string, amount: Money, date: string, categoryId: Option<string>, splits: seq<Split>)

  // The selection.

  predicate DistinctIds(ids: seq<string>) {
    forall i, j :: 0 <= i < j < |ids| ==> ids[i] != ids[j]
  }

  predicate Shaped(v: Review) {
    0 < |v.receiptIds| <= 100 && 0 < |v.targetIds| <= 100 && |v.cells| <= 10000 && |v.choices| <= 10000
  }

  predicate TargetReady(t: Tables, id: string) {
    id in t.targets && t.targets[id].eligible && t.targets[id].amount.units > 0 && Identity(t.targets[id].accountId)
  }

  predicate ReceiptReady(t: Tables, id: string) {
    id in t.receipts && t.receipts[id].current && t.receipts[id].total.units > 0
  }

  function ObservationOf(t: Tables, id: string): string {
    if id in t.receipts then t.receipts[id].observationId else ""
  }

  /** Every selected receipt is usable, and no source stands behind two selections. */
  predicate ReceiptsCurrent(t: Tables, v: Review) {
    (forall id :: id in v.receiptIds ==> ReceiptReady(t, id) && ObservationOf(t, id) !in v.targetIds)
    && forall i, j :: 0 <= i < j < |v.receiptIds| ==> ObservationOf(t, v.receiptIds[i]) != ObservationOf(t, v.receiptIds[j])
  }

  predicate Selected(t: Tables, v: Review) {
    Shaped(v) && DistinctIds(v.receiptIds) && DistinctIds(v.targetIds)
    && (forall id :: id in v.receiptIds ==> Identity(id)) && (forall id :: id in v.targetIds ==> Identity(id) && TargetReady(t, id))
    && ReceiptsCurrent(t, v) && t.clear(set id | id in v.receiptIds, set id | id in v.targetIds)
  }

  function CheckSelected(t: Tables, v: Review): (r: Result<()>)
    ensures r.Ok? <==> Selected(t, v)
  {
    if !Shaped(v) then Err("allocation_shape")
    else if !DistinctIds(v.receiptIds) || !DistinctIds(v.targetIds)
            || (exists id :: id in v.receiptIds && !Identity(id)) || (exists id :: id in v.targetIds && !Identity(id))
    then Err("allocation_duplicate_selection")
    else if exists id :: id in v.targetIds && id !in t.targets then Err("allocation_target_missing")
    else if exists id :: id in v.targetIds && !TargetReady(t, id) then Err("allocation_target_unsupported")
    else if exists id :: id in v.receiptIds && id !in t.receipts then Err("allocation_receipt_missing")
    else if !ReceiptsCurrent(t, v) then Err("allocation_receipt_not_current_purchase")
    else if !t.clear(set id | id in v.receiptIds, set id | id in v.targetIds) then Err("allocation_source_blocked")
    else Ok(())
  }

  function LineSet(t: Tables, v: Review): set<LineKey> {
    set r, l | r in v.receiptIds && r in t.receipts && l in t.receipts[r].lines :: LineKey(r, l)
  }

  function LinesOf(t: Tables, v: Review): map<LineKey, Money> {
    map k | k in LineSet(t, v) :: t.receipts[k.receiptId].lines[k.lineId]
  }

  function TargetsOf(t: Tables, v: Review): map<string, Target> {
    map id | id in v.targetIds && id in t.targets :: t.targets[id]
  }

  // Line categories.

  function LineOf(c: Choice): LineKey {
    c.line
  }

  function CategoriesOf(choices: seq<Choice>): map<LineKey, string> {
    if choices == [] then map[]
    else CategoriesOf(choices[..|choices| - 1])[choices[|choices| - 1].line := choices[|choices| - 1].categoryId]
  }

  /** One category for every selected line and for nothing else. */
  ghost predicate ChoicesSound(choices: seq<Choice>, lines: map<LineKey, Money>) {
    (forall i :: 0 <= i < |choices| ==> Identity(choices[i].categoryId)) && DistinctBy(LineOf, choices)
    && CategoriesOf(choices).Keys == lines.Keys
  }

  lemma {:induction false} ChoiceFor(choices: seq<Choice>, i: nat)
    requires i < |choices|
    ensures choices[i].line in CategoriesOf(choices)
    ensures DistinctBy(LineOf, choices) ==> CategoriesOf(choices)[choices[i].line] == choices[i].categoryId
    decreases |choices|
  {
    if i < |choices| - 1 {
      ChoiceFor(choices[..|choices| - 1], i);
    }
  }

  lemma {:induction false} ChoiceMade(choices: seq<Choice>, line: LineKey)
    requires line in CategoriesOf(choices)
    ensures exists i :: 0 <= i < |choices| && choices[i].line == line
  {
    if choices[|choices| - 1].line != line {
      ChoiceMade(choices[..|choices| - 1], line);
      var i :| 0 <= i < |choices| - 1 && choices[..|choices| - 1][i].line == line;
      assert choices[i].line == line;
    }
  }

  ghost predicate ChosenUpTo(choices: seq<Choice>, i: nat, categories: map<LineKey, string>)
    requires i <= |choices|
  {
    categories == CategoriesOf(choices[..i])
    && (forall j :: 0 <= j < i ==> Identity(choices[j].categoryId)) && DistinctBy(LineOf, choices[..i])
  }

  lemma {:induction false} ChoiceNext(choices: seq<Choice>, i: nat, categories: map<LineKey, string>)
    requires i < |choices| && ChosenUpTo(choices, i, categories)
    ensures Identity(choices[i].categoryId) && choices[i].line !in categories ==>
              ChosenUpTo(choices, i + 1, categories[choices[i].line := choices[i].categoryId])
    ensures choices[i].line in categories ==> !DistinctBy(LineOf, choices)
  {
    hide Identity;
    assert choices[..i + 1][..i] == choices[..i];
    if choices[i].line in categories {
      ChoiceMade(choices[..i], choices[i].line);
      var j :| 0 <= j < i && choices[..i][j].line == choices[i].line;
      assert LineOf(choices[j]) == LineOf(choices[i]);
    } else {
      forall j | 0 <= j < i
        ensures choices[j].line != choices[i].line
      {
        ChoiceFor(choices[..i], j);
      }
    }
  }

  lemma {:induction false} SameSizeKeys<K, V, W>(a: map<K, V>, b: map<K, W>)
    requires |a| == |b| && b.Keys <= a.Keys
    ensures a.Keys == b.Keys
  {
    assert |a.Keys - b.Keys| == |a.Keys| - |b.Keys|;
  }

  method CollectChoices(choices: seq<Choice>, lines: map<LineKey, Money>) returns (r: Result<map<LineKey, string>>)
    ensures r.Ok? <==> ChoicesSound(choices, lines)
    ensures r.Ok? ==> r.value == CategoriesOf(choices)
  {
    hide Identity, DistinctBy, CategoriesOf;
    var categories: map<LineKey, string> := map[];
    assert ChosenUpTo(choices, 0, categories) by {
      NoneChosen(choices);
    }
    hide ChosenUpTo;
    for i := 0 to |choices|
      invariant ChosenUpTo(choices, i, categories)
    {
      ChoiceNext(choices, i, categories);
      if !Identity(choices[i].categoryId) || choices[i].line in categories {
        return Err("allocation_line_choice");
      }
      categories := categories[choices[i].line := choices[i].categoryId];
    }
    AllChosen(choices, categories);
    if |categories| != |lines| || exists k :: k in lines && k !in categories {
      assert categories.Keys == lines.Keys ==> |categories| == |categories.Keys| && |lines| == |lines.Keys|;
      return Err("allocation_line_categories_required");
    }
    SameSizeKeys(categories, lines);
    r := Ok(categories);
  }

  lemma {:induction false} NoneChosen(choices: seq<Choice>)
    ensures ChosenUpTo(choices, 0, map[])
  {
  }

  lemma {:induction false} AllChosen(choices: seq<Choice>, categories: map<LineKey, string>)
    requires ChosenUpTo(choices, |choices|, categories)
    ensures categories == CategoriesOf(choices) && DistinctBy(LineOf, choices)
    ensures forall j :: 0 <= j < |choices| ==> Identity(choices[j].categoryId)
  {
    assert choices[..|choices|] == choices;
    hide Identity;
  }

  // The relationship graph.

  predicate Funds(e: Edge) {
    e.confirmed && e.kind in {"funding", "partial_funding", "settlement", "transfer"}
  }

  function ReceiptFor(t: Tables, ids: seq<string>, observation: string): Option<string> {
    if ids == [] then None
    else if ObservationOf(t, ids[0]) == observation then Some(ids[0])
    else ReceiptFor(t, ids[1..], observation)
  }

  predicate FromReceipt(t: Tables, v: Review, e: Edge) {
    Funds(e) && ReceiptFor(t, v.receiptIds, e.fromId).Some?
  }

  predicate EdgeSound(t: Tables, v: Review, e: Edge) {
    FromReceipt(t, v, e) ==> e.toId in v.targetIds && e.kind != "transfer" && e.amount.Some?
  }

  function EdgeLine(t: Tables, v: Review, e: Edge): seq<(Pair, i64)> {
    if FromReceipt(t, v, e) && e.amount.Some? then [((ReceiptFor(t, v.receiptIds, e.fromId).value, e.toId), e.amount.value)] else []
  }

  /** The amounts the resolved relationships carry from selected receipts. */
  function GraphLines(t: Tables, v: Review, edges: seq<Edge>): seq<(Pair, i64)> {
    if edges == [] then [] else GraphLines(t, v, edges[..|edges| - 1]) + EdgeLine(t, v, edges[|edges| - 1])
  }

  ghost predicate GraphSound(t: Tables, v: Review) {
    (forall i :: 0 <= i < |t.edges| ==> EdgeSound(t, v, t.edges[i]))
    && RunsFit(GraphLines(t, v, t.edges), |GraphLines(t, v, t.edges)|)
  }

  ghost predicate GraphUpTo(t: Tables, v: Review, i: nat, m: map<Pair, i64>)
    requires i <= |t.edges|
  {
    var lines := GraphLines(t, v, t.edges[..i]);
    Tallies(m, lines) && RunsFit(lines, |lines|) && forall j :: 0 <= j < i ==> EdgeSound(t, v, t.edges[j])
  }

  lemma {:induction false} RunsFitFront<K>(lines: seq<(K, i64)>, line: (K, i64))
    requires RunsFit(lines, |lines|)
    ensures RunsFit(lines + [line], |lines|)
  {
    hide SumFor;
    var all := lines + [line];
    forall j | 0 <= j < |lines|
      ensures Fits(SumFor(all[..j + 1], all[j].0))
    {
      assert all[..j + 1] == lines[..j + 1];
    }
  }

  lemma {:induction false} RunsFitOne<K(!new)>(lines: seq<(K, i64)>, line: (K, i64), m: map<K, i64>)
    requires Tallies(m, lines) && RunsFit(lines, |lines|)
    ensures RunsFit(lines + [line], |lines| + 1) <==> Fits(Left(m, line.0) + line.1)
    ensures Fits(Left(m, line.0) + line.1) ==> Tallies(m[line.0 := Left(m, line.0) + line.1], lines + [line])
  {
    hide SumFor, Tallies, RunsFit;
    var all := lines + [line];
    assert all[..|lines|] == lines && all[..|all|] == all;
    RunsFitFront(lines, line);
    TallyNext(all, |lines|, m);
  }

  lemma {:induction false} RunsFitGrows<K>(a: seq<(K, i64)>, b: seq<(K, i64)>)
    requires RunsFit(a + b, |a + b|)
    ensures RunsFit(a, |a|)
  {
    forall j | 0 <= j < |a|
      ensures Fits(SumFor(a[..j + 1], a[j].0))
    {
      assert (a + b)[..j + 1] == a[..j + 1];
      assert Fits(SumFor((a + b)[..j + 1], (a + b)[j].0));
    }
  }

  lemma {:induction false} GraphGrows(t: Tables, v: Review, i: nat) returns (rest: seq<(Pair, i64)>)
    requires i <= |t.edges|
    ensures GraphLines(t, v, t.edges) == GraphLines(t, v, t.edges[..i]) + rest
    decreases |t.edges| - i
  {
    hide EdgeLine;
    if i == |t.edges| {
      assert t.edges[..i] == t.edges;
      rest := [];
    } else {
      var more := GraphGrows(t, v, i + 1);
      assert t.edges[..i + 1][..i] == t.edges[..i];
      rest := EdgeLine(t, v, t.edges[i]) + more;
    }
  }

  lemma {:induction false} GraphNext(t: Tables, v: Review, i: nat, m: map<Pair, i64>)
    requires i < |t.edges| && GraphUpTo(t, v, i, m) && EdgeSound(t, v, t.edges[i])
    ensures !FromReceipt(t, v, t.edges[i]) ==> GraphUpTo(t, v, i + 1, m)
    ensures FromReceipt(t, v, t.edges[i]) ==>
              var line := EdgeLine(t, v, t.edges[i])[0];
              (Fits(Left(m, line.0) + line.1) ==> GraphUpTo(t, v, i + 1, m[line.0 := Left(m, line.0) + line.1]))
              && (!Fits(Left(m, line.0) + line.1) ==> !GraphSound(t, v))
  {
    hide FromReceipt, EdgeSound, Tallies, RunsFit;
    var e := t.edges[i];
    var lines := GraphLines(t, v, t.edges[..i]);
    assert t.edges[..i + 1][..i] == t.edges[..i];
    assert GraphLines(t, v, t.edges[..i + 1]) == lines + EdgeLine(t, v, e);
    if !FromReceipt(t, v, e) {
      assert lines + [] == lines;
    } else {
      assert e.amount.Some? by {
        SoundAmount(t, v, e);
      }
      var line := EdgeLine(t, v, e)[0];
      RunsFitOne(lines, line, m);
      var rest := GraphGrows(t, v, i + 1);
      if GraphSound(t, v) {
        RunsFitGrows(lines + [line], rest);
      }
    }
  }

  lemma {:induction false} SoundAmount(t: Tables, v: Review, e: Edge)
    requires FromReceipt(t, v, e) && EdgeSound(t, v, e)
    ensures e.amount.Some?
  {
    hide FromReceipt;
  }

  method AccumulateGraph(t: Tables, v: Review) returns (r: Result<map<Pair, i64>>)
    ensures r.Ok? <==> GraphSound(t, v)
    ensures r.Ok? ==> Tallies(r.value, GraphLines(t, v, t.edges))
  {
    hide FromReceipt, Tallies, RunsFit, GraphLines, AddTo;
    var m: map<Pair, i64> := map[];
    assert GraphUpTo(t, v, 0, m) by {
      NoEdges(t, v);
    }
    for i := 0 to |t.edges|
      invariant GraphUpTo(t, v, i, m)
    {
      var e := t.edges[i];
      if !EdgeSound(t, v, e) {
        return Err(if e.toId !in v.targetIds || e.kind == "transfer" then "allocation_graph_target" else "allocation_graph_amount");
      }
      GraphNext(t, v, i, m);
      if FromReceipt(t, v, e) {
        var line := EdgeLine(t, v, e)[0];
        if !Fits(Left(m, line.0) + line.1) {
          return Err("amount_overflow");
        }
        m := m[line.0 := Left(m, line.0) + line.1];
      }
    }
    assert t.edges[..|t.edges|] == t.edges;
    r := Ok(m);
  }

  lemma {:induction false} NoEdges(t: Tables, v: Review)
    ensures GraphUpTo(t, v, 0, map[])
  {
    TallyStart(GraphLines(t, v, t.edges));
  }
}
