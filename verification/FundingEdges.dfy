/** Relationships derived from the cells themselves, so that an inspected allocation funds exactly what it says. */
module FundingEdges {
  import opened CheckedMoney
  import opened Rows
  import opened Ordered
  import opened Sums
  import opened Matrix
  import opened Allocation
  import opened AllocationPlan

  predicate PairLt(a: Pair, b: Pair) {
    StringLt(a.0, b.0) || (a.0 == b.0 && StringLt(a.1, b.1))
  }

  lemma {:induction false} PairsOrdered()
    ensures StrictOrder(PairLt)
  {
    StringsOrdered();
  }

  function PairOf(cell: Cell): Pair {
    (cell.line.receiptId, cell.targetId)
  }

  /** The first cells are positive, each pair in one currency and within range. */
  ghost predicate PairsSound(cells: seq<Cell>, i: nat)
    requires i <= |cells|
  {
    (forall j :: 0 <= j < i ==> cells[j].amount.units > 0)
    && (forall j, k :: 0 <= j < k < i && PairOf(cells[j]) == PairOf(cells[k]) ==> cells[j].amount.currency == cells[k].amount.currency)
    && RunsFit(PairLines(cells), i)
  }

  predicate Replaced(e: Edge, fromId: string, toId: string) {
    e.fromId == fromId && e.toId == toId && e.kind in {"funding", "partial_funding", "settlement"}
  }

  function Retained(edges: seq<Edge>, fromId: string, toId: string): seq<Edge> {
    if edges == [] then []
    else Retained(edges[..|edges| - 1], fromId, toId) + if Replaced(edges[|edges| - 1], fromId, toId) then [] else [edges[|edges| - 1]]
  }

  function NewEdge(t: Tables, p: Pair, units: i64): Edge {
    Edge(ObservationOf(t, p.0), p.1, "partial_funding", true, Some(units))
  }

  /** For each pair in turn, whatever funded it before gives way to one edge of exactly its cells' total. */
  function Funded(t: Tables, edges: seq<Edge>, names: seq<Pair>, pairs: map<Pair, i64>): seq<Edge> {
    if names == [] then edges
    else
      var p := names[|names| - 1];
      Retained(Funded(t, edges, names[..|names| - 1], pairs), ObservationOf(t, p.0), p.1) + [NewEdge(t, p, Left(pairs, p))]
  }

  function PairOrder(pairs: map<Pair, i64>): (r: seq<Pair>)
    ensures forall p :: p in r <==> p in pairs
    ensures Ascending(PairLt, r)
  {
    PairsOrdered();
    Listing(PairLt, pairs.Keys)
  }

  predicate PairsKnown(t: Tables, cells: seq<Cell>) {
    forall i :: 0 <= i < |cells| ==> cells[i].line.receiptId in t.receipts && cells[i].targetId in t.targets
  }

  ghost predicate CurrenciesUpTo(cells: seq<Cell>, i: nat, currencies: map<Pair, string>)
    requires i <= |cells|
  {
    (forall j :: 0 <= j < i ==> PairOf(cells[j]) in currencies && currencies[PairOf(cells[j])] == cells[j].amount.currency)
    && forall p :: p in currencies ==> exists j :: 0 <= j < i && PairOf(cells[j]) == p
  }

  ghost predicate TotalsUpTo(cells: seq<Cell>, i: nat, pairs: map<Pair, i64>, currencies: map<Pair, string>)
    requires i <= |cells|
  {
    PairsSound(cells, i) && Tallies(pairs, PairLines(cells)[..i]) && CurrenciesUpTo(cells, i, currencies)
  }

  lemma {:induction false} CurrenciesNext(cells: seq<Cell>, i: nat, currencies: map<Pair, string>)
    requires i < |cells| && CurrenciesUpTo(cells, i, currencies)
    requires PairOf(cells[i]) in currencies ==> currencies[PairOf(cells[i])] == cells[i].amount.currency
    ensures CurrenciesUpTo(cells, i + 1, currencies[PairOf(cells[i]) := cells[i].amount.currency])
  {
    var next := currencies[PairOf(cells[i]) := cells[i].amount.currency];
    forall p | p in next
      ensures exists j :: 0 <= j < i + 1 && PairOf(cells[j]) == p
    {
      if p != PairOf(cells[i]) {
        var j :| 0 <= j < i && PairOf(cells[j]) == p;
      }
    }
  }

  lemma {:induction false} TotalsNext(cells: seq<Cell>, i: nat, pairs: map<Pair, i64>, currencies: map<Pair, string>)
    requires i < |cells| && TotalsUpTo(cells, i, pairs, currencies)
    requires cells[i].amount.units > 0 && (PairOf(cells[i]) in currencies ==> currencies[PairOf(cells[i])] == cells[i].amount.currency)
    ensures var p, after := PairOf(cells[i]), Left(pairs, PairOf(cells[i])) + cells[i].amount.units;
            (Fits(after) ==> TotalsUpTo(cells, i + 1, pairs[p := after], currencies[p := cells[i].amount.currency]))
            && (PairsSound(cells, i + 1) ==> Fits(after))
  {
    hide Tallies, RunsFit, Left;
    assert PairLines(cells)[i] == (PairOf(cells[i]), cells[i].amount.units);
    TallyNext(PairLines(cells), i, pairs);
    CurrenciesNext(cells, i, currencies);
  }

  lemma {:induction false} SoundPrefix(cells: seq<Cell>, i: nat)
    requires i <= |cells| && PairsSound(cells, |cells|)
    ensures PairsSound(cells, i)
  {
    RunsFitPrefix(PairLines(cells), i);
    hide RunsFit;
  }

  /** One pass over the cells, adding each to its pair. */
  method PairTotals(cells: seq<Cell>) returns (r: Result<map<Pair, i64>>)
    ensures r.Ok? <==> PairsSound(cells, |cells|)
    ensures r.Ok? ==> Tallies(r.value, PairLines(cells))
  {
    hide Tallies, RunsFit, Left;
    var pairs: map<Pair, i64>, currencies: map<Pair, string> := map[], map[];
    assert TotalsUpTo(cells, 0, pairs, currencies) by {
      NoPairs(cells);
    }
    for i := 0 to |cells|
      invariant TotalsUpTo(cells, i, pairs, currencies)
    {
      var p := PairOf(cells[i]);
      if cells[i].amount.units <= 0 {
        return Err("allocation_cell_amount_or_duplicate");
      }
      if p in currencies && currencies[p] != cells[i].amount.currency {
        MixedPair(cells, i, pairs, currencies);
        return Err("allocation_currency");
      }
      TotalsNext(cells, i, pairs, currencies);
      var after := CheckedAdd(Left(pairs, p), cells[i].amount.units);
      if after.Err? {
        if PairsSound(cells, |cells|) {
          SoundPrefix(cells, i + 1);
        }
        return Err("amount_overflow");
      }
      pairs, currencies := pairs[p := after.value], currencies[p := cells[i].amount.currency];
    }
    assert PairLines(cells)[..|cells|] == PairLines(cells);
    r := Ok(pairs);
  }

  lemma {:induction false} NoPairs(cells: seq<Cell>)
    ensures TotalsUpTo(cells, 0, map[], map[])
  {
    TallyStart(PairLines(cells));
  }

  lemma {:induction false} MixedPair(cells: seq<Cell>, i: nat, pairs: map<Pair, i64>, currencies: map<Pair, string>)
    requires i < |cells| && TotalsUpTo(cells, i, pairs, currencies)
    requires PairOf(cells[i]) in currencies && currencies[PairOf(cells[i])] != cells[i].amount.currency
    ensures !PairsSound(cells, |cells|)
  {
    hide RunsFit, Tallies;
    var j :| 0 <= j < i && PairOf(cells[j]) == PairOf(cells[i]);
    assert cells[j].amount.currency == currencies[PairOf(cells[j])];
  }

  method RetainEdges(edges: seq<Edge>, fromId: string, toId: string) returns (kept: seq<Edge>)
    ensures kept == Retained(edges, fromId, toId)
  {
    kept := [];
    for i := 0 to |edges|
      invariant kept == Retained(edges[..i], fromId, toId)
    {
      assert edges[..i + 1][..i] == edges[..i];
      if !Replaced(edges[i], fromId, toId) {
        kept := kept + [edges[i]];
      }
    }
    assert edges[..|edges|] == edges;
  }

  /** The relationships of the request with one edge for every pair its cells name. */
  method DeriveRelationships(t: Tables, cells: seq<Cell>) returns (r: Result<seq<Edge>>)
    ensures r.Ok? <==> |cells| <= 10000 && PairsSound(cells, |cells|) && PairsKnown(t, cells)
    ensures r.Ok? ==> exists pairs :: Tallies(pairs, PairLines(cells)) && r.value == Funded(t, t.edges, PairOrder(pairs), pairs)
  {
    hide PairsSound, Tallies;
    if |cells| > 10000 {
      return Err("allocation_shape");
    }
    var totals := PairTotals(cells);
    if totals.Err? {
      return Err(totals.error);
    }
    var pairs, edges := totals.value, t.edges;
    var names := PairOrder(pairs);
    NamesAreCells(cells, pairs);
    for i := 0 to |names|
      invariant forall j :: 0 <= j < i ==> names[j].0 in t.receipts && names[j].1 in t.targets
      invariant edges == Funded(t, t.edges, names[..i], pairs)
    {
      var p := names[i];
      assert p in names;
      if p.0 !in t.receipts || p.1 !in t.targets {
        return Err(if p.0 !in t.receipts then "allocation_receipt_missing" else "allocation_target_missing");
      }
      assert names[..i + 1][..i] == names[..i];
      var kept := RetainEdges(edges, ObservationOf(t, p.0), p.1);
      edges := kept + [NewEdge(t, p, Left(pairs, p))];
    }
    assert names[..|names|] == names;
    r := Ok(edges);
  }

  lemma {:induction false} NamesAreCells(cells: seq<Cell>, pairs: map<Pair, i64>)
    requires Tallies(pairs, PairLines(cells))
    ensures forall p :: p in PairOrder(pairs) ==> exists i :: 0 <= i < |cells| && PairOf(cells[i]) == p
    ensures forall i :: 0 <= i < |cells| ==> PairOf(cells[i]) in PairOrder(pairs)
  {
    var lines := PairLines(cells);
    forall p | p in PairOrder(pairs)
      ensures exists i :: 0 <= i < |cells| && PairOf(cells[i]) == p
    {
      assert p in KeysIn(lines);
      var i :| 0 <= i < |lines| && lines[i].0 == p;
      assert PairOf(cells[i]) == p;
    }
    forall i | 0 <= i < |cells|
      ensures PairOf(cells[i]) in PairOrder(pairs)
    {
      assert lines[i].0 in KeysIn(lines);
    }
  }

  // What is left of the old relationships, and what is new.

  predicate Survives(t: Tables, e: Edge, names: seq<Pair>) {
    forall i :: 0 <= i < |names| ==> !Replaced(e, ObservationOf(t, names[i].0), names[i].1)
  }

  function Survivors(t: Tables, edges: seq<Edge>, names: seq<Pair>): seq<Edge> {
    if edges == [] then []
    else Survivors(t, edges[..|edges| - 1], names) + if Survives(t, edges[|edges| - 1], names) then [edges[|edges| - 1]] else []
  }

  function NewEdges(t: Tables, names: seq<Pair>, pairs: map<Pair, i64>): (r: seq<Edge>)
    ensures |r| == |names| && forall i :: 0 <= i < |r| ==> r[i] == NewEdge(t, names[i], Left(pairs, names[i]))
  {
    seq(|names|, i requires 0 <= i < |names| => NewEdge(t, names[i], Left(pairs, names[i])))
  }

  lemma {:induction false} RetainedConcat(a: seq<Edge>, b: seq<Edge>, fromId: string, toId: string)
    ensures Retained(a + b, fromId, toId) == Retained(a, fromId, toId) + Retained(b, fromId, toId)
    decreases |b|
  {
    hide Replaced;
    if b == [] {
      assert a + b == a;
    } else {
      assert (a + b)[..|a + b| - 1] == a + b[..|b| - 1];
      RetainedConcat(a, b[..|b| - 1], fromId, toId);
    }
  }

  lemma {:induction false} RetainedAll(edges: seq<Edge>, fromId: string, toId: string)
    requires forall i :: 0 <= i < |edges| ==> !Replaced(edges[i], fromId, toId)
    ensures Retained(edges, fromId, toId) == edges
  {
    if edges != [] {
      RetainedAll(edges[..|edges| - 1], fromId, toId);
    }
  }

  lemma {:induction false} RetainedSurvivors(t: Tables, edges: seq<Edge>, names: seq<Pair>, p: Pair)
    ensures Retained(Survivors(t, edges, names), ObservationOf(t, p.0), p.1) == Survivors(t, edges, names + [p])
  {
    if edges != [] {
      var front, last := edges[..|edges| - 1], edges[|edges| - 1];
      RetainedSurvivors(t, front, names, p);
      SurvivesBoth(t, last, names, p);
      hide Survives, Replaced;
      var kept: seq<Edge> := if Survives(t, last, names) then [last] else [];
      RetainedConcat(Survivors(t, front, names), kept, ObservationOf(t, p.0), p.1);
      assert kept != [] ==> kept[..0] == [];
    }
  }

  lemma {:induction false} SurvivesBoth(t: Tables, e: Edge, names: seq<Pair>, p: Pair)
    ensures Survives(t, e, names + [p]) <==> Survives(t, e, names) && !Replaced(e, ObservationOf(t, p.0), p.1)
  {
    hide Replaced;
    var all := names + [p];
    assert forall i :: 0 <= i < |names| ==> all[i] == names[i];
    assert all[|names|] == p;
  }

  lemma {:induction false} AllSurvive(t: Tables, edges: seq<Edge>)
    ensures Survivors(t, edges, []) == edges
  {
    if edges != [] {
      AllSurvive(t, edges[..|edges| - 1]);
    }
  }

  /** No two named pairs have both ends in common. */
  ghost predicate Apart(t: Tables, names: seq<Pair>) {
    forall i, j :: 0 <= i < j < |names| ==> ObservationOf(t, names[i].0) != ObservationOf(t, names[j].0) || names[i].1 != names[j].1
  }

  lemma {:induction false} NewRetained(t: Tables, front: seq<Pair>, p: Pair, pairs: map<Pair, i64>)
    requires Apart(t, front + [p])
    ensures Apart(t, front) && Retained(NewEdges(t, front, pairs), ObservationOf(t, p.0), p.1) == NewEdges(t, front, pairs)
  {
    hide Retained, ObservationOf;
    var all := front + [p];
    assert forall i :: 0 <= i < |front| ==> all[i] == front[i];
    assert all[|front|] == p;
    RetainedAll(NewEdges(t, front, pairs), ObservationOf(t, p.0), p.1);
  }

  lemma {:induction false} FundedNext(t: Tables, edges: seq<Edge>, names: seq<Pair>, pairs: map<Pair, i64>)
    requires names != []
    ensures var front, p := names[..|names| - 1], names[|names| - 1];
            names == front + [p]
            && Funded(t, edges, names, pairs) == Retained(Funded(t, edges, front, pairs), ObservationOf(t, p.0), p.1) + [NewEdge(t, p, Left(pairs, p))]
            && NewEdges(t, names, pairs) == NewEdges(t, front, pairs) + [NewEdge(t, p, Left(pairs, p))]
  {
    hide Retained, ObservationOf, NewEdge;
  }

  lemma {:induction false} FundedNone(t: Tables, edges: seq<Edge>, pairs: map<Pair, i64>)
    ensures Funded(t, edges, [], pairs) == Survivors(t, edges, []) + NewEdges(t, [], pairs)
  {
    AllSurvive(t, edges);
  }

  lemma {:induction false} FundedIs(t: Tables, edges: seq<Edge>, names: seq<Pair>, pairs: map<Pair, i64>)
    requires Apart(t, names)
    ensures Funded(t, edges, names, pairs) == Survivors(t, edges, names) + NewEdges(t, names, pairs)
  {
    hide *;
    if names == [] {
      FundedNone(t, edges, pairs);
    } else {
      var front, p := names[..|names| - 1], names[|names| - 1];
      FundedNext(t, edges, names, pairs);
      NewRetained(t, front, p, pairs);
      FundedIs(t, edges, front, pairs);
      RetainedConcat(Survivors(t, edges, front), NewEdges(t, front, pairs), ObservationOf(t, p.0), p.1);
      RetainedSurvivors(t, edges, front, p);
      Regroup(Survivors(t, edges, names), NewEdges(t, front, pairs), [NewEdge(t, p, Left(pairs, p))]);
    }
  }

  lemma {:induction false} Regroup(a: seq<Edge>, b: seq<Edge>, c: seq<Edge>)
    ensures (a + b) + c == a + (b + c)
  {
  }

  // The graph of the derived relationships.

  lemma {:induction false} ReceiptFound(t: Tables, ids: seq<string>, id: string)
    requires id in ids && forall i, j :: 0 <= i < j < |ids| ==> ObservationOf(t, ids[i]) != ObservationOf(t, ids[j])
    ensures ReceiptFor(t, ids, ObservationOf(t, id)) == Some(id)
  {
    var k :| 0 <= k < |ids| && ids[k] == id;
    if k > 0 {
      assert ids[1..][k - 1] == id;
      ReceiptFound(t, ids[1..], id);
    }
  }

  lemma {:induction false} ReceiptBehind(t: Tables, ids: seq<string>, observation: string)
    requires ReceiptFor(t, ids, observation).Some?
    ensures ReceiptFor(t, ids, observation).value in ids && ObservationOf(t, ReceiptFor(t, ids, observation).value) == observation
  {
    if ObservationOf(t, ids[0]) != observation {
      ReceiptBehind(t, ids[1..], observation);
    }
  }

  lemma {:induction false} GraphConcat(t: Tables, v: Review, a: seq<Edge>, b: seq<Edge>)
    ensures GraphLines(t, v, a + b) == GraphLines(t, v, a) + GraphLines(t, v, b)
    decreases |b|
  {
    hide EdgeLine;
    if b == [] {
      assert a + b == a;
    } else {
      assert (a + b)[..|a + b| - 1] == a + b[..|b| - 1];
      GraphConcat(t, v, a, b[..|b| - 1]);
    }
  }

  lemma {:induction false} QuietGraph(t: Tables, v: Review, edges: seq<Edge>)
    requires forall i :: 0 <= i < |edges| ==> !FromReceipt(t, v, edges[i])
    ensures GraphLines(t, v, edges) == []
  {
    hide FromReceipt;
    if edges != [] {
      QuietGraph(t, v, edges[..|edges| - 1]);
    }
  }

  function NewLines(names: seq<Pair>, pairs: map<Pair, i64>): (r: seq<(Pair, i64)>)
    ensures |r| == |names| && forall i :: 0 <= i < |r| ==> r[i] == (names[i], Left(pairs, names[i]))
  {
    seq(|names|, i requires 0 <= i < |names| => (names[i], Left(pairs, names[i])))
  }

  lemma {:induction false} NewEdgeReads(t: Tables, v: Review, p: Pair, units: i64)
    requires Selected(t, v) && p.0 in v.receiptIds && p.1 in v.targetIds
    ensures EdgeLine(t, v, NewEdge(t, p, units)) == [(p, units)] && EdgeSound(t, v, NewEdge(t, p, units))
  {
    ReceiptFound(t, v.receiptIds, p.0);
    hide Selected, ReceiptFor;
  }

  lemma {:induction false} NewGraph(t: Tables, v: Review, names: seq<Pair>, pairs: map<Pair, i64>)
    requires Selected(t, v) && forall i :: 0 <= i < |names| ==> names[i].0 in v.receiptIds && names[i].1 in v.targetIds
    ensures GraphLines(t, v, NewEdges(t, names, pairs)) == NewLines(names, pairs)
    ensures forall i :: 0 <= i < |names| ==> EdgeSound(t, v, NewEdges(t, names, pairs)[i])
  {
    hide Selected, EdgeLine, EdgeSound, NewEdge, Left;
    if names != [] {
      var front, p := names[..|names| - 1], names[|names| - 1];
      NewGraph(t, v, front, pairs);
      NewEdgeReads(t, v, p, Left(pairs, p));
      assert NewEdges(t, names, pairs)[..|front|] == NewEdges(t, front, pairs);
      assert NewLines(names, pairs) == NewLines(front, pairs) + [(p, Left(pairs, p))];
      assert forall i :: 0 <= i < |front| ==> NewEdges(t, names, pairs)[i] == NewEdges(t, front, pairs)[i];
    }
  }

  lemma {:induction false} NewTotals(names: seq<Pair>, pairs: map<Pair, i64>, k: Pair)
    requires forall i, j :: 0 <= i < j < |names| ==> names[i] != names[j]
    ensures SumFor(NewLines(names, pairs), k) == if k in names then Left(pairs, k) else 0
    decreases |names|
  {
    if names != [] {
      assert NewLines(names, pairs)[1..] == NewLines(names[1..], pairs);
      NewTotals(names[1..], pairs, k);
      assert k in names <==> k == names[0] || k in names[1..];
    }
  }

  lemma {:induction false} NewRunsFit(names: seq<Pair>, pairs: map<Pair, i64>)
    requires forall i, j :: 0 <= i < j < |names| ==> names[i] != names[j]
    ensures RunsFit(NewLines(names, pairs), |names|)
  {
    forall j | 0 <= j < |names|
      ensures Fits(SumFor(NewLines(names, pairs)[..j + 1], names[j]))
    {
      assert NewLines(names, pairs)[..j + 1] == NewLines(names[..j + 1], pairs);
      NewTotals(names[..j + 1], pairs, names[j]);
    }
  }

  /** Only the receipts matter to a relationship's reading. */
  lemma {:induction false} SameReading(t: Tables, u: Tables, v: Review, edges: seq<Edge>)
    requires u == t.(edges := u.edges)
    ensures GraphLines(u, v, edges) == GraphLines(t, v, edges)
    ensures forall e :: (FromReceipt(u, v, e) <==> FromReceipt(t, v, e)) && (EdgeSound(u, v, e) <==> EdgeSound(t, v, e))
  {
    forall e: Edge
      ensures ReceiptFor(u, v.receiptIds, e.fromId) == ReceiptFor(t, v.receiptIds, e.fromId)
    {
      SameReceipt(t, u, v.receiptIds, e.fromId);
    }
    hide ReceiptFor;
    SameLines(t, u, v, edges);
  }

  lemma {:induction false} SameReceipt(t: Tables, u: Tables, ids: seq<string>, observation: string)
    requires u == t.(edges := u.edges)
    ensures ReceiptFor(u, ids, observation) == ReceiptFor(t, ids, observation)
  {
    if ids != [] {
      SameReceipt(t, u, ids[1..], observation);
    }
  }

  lemma {:induction false} SameLines(t: Tables, u: Tables, v: Review, edges: seq<Edge>)
    requires forall e: Edge :: ReceiptFor(u, v.receiptIds, e.fromId) == ReceiptFor(t, v.receiptIds, e.fromId)
    ensures GraphLines(u, v, edges) == GraphLines(t, v, edges)
  {
    hide ReceiptFor;
    if edges != [] {
      SameLines(t, u, v, edges[..|edges| - 1]);
    }
  }

  /** An old relationship that still leaves a selected receipt. */
  ghost predicate Stray(t: Tables, v: Review, names: seq<Pair>, e: Edge) {
    e in t.edges && Survives(t, e, names) && FromReceipt(t, v, e)
  }

  lemma {:induction false} SurvivorsAre(t: Tables, edges: seq<Edge>, names: seq<Pair>, e: Edge)
    ensures e in Survivors(t, edges, names) <==> e in edges && Survives(t, e, names)
  {
    hide Survives;
    if edges != [] {
      SurvivorsAre(t, edges[..|edges| - 1], names, e);
      assert edges == edges[..|edges| - 1] + [edges[|edges| - 1]];
    }
  }

  lemma {:induction false} NamesSelected(t: Tables, v: Review, pairs: map<Pair, i64>)
    requires CellsSound(v.cells, LinesOf(t, v), TargetsOf(t, v)) && Tallies(pairs, PairLines(v.cells))
    ensures forall i :: 0 <= i < |PairOrder(pairs)| ==> PairOrder(pairs)[i].0 in v.receiptIds && PairOrder(pairs)[i].1 in v.targetIds
  {
    NamesAreCells(v.cells, pairs);
    hide Tallies;
    var names := PairOrder(pairs);
    forall i | 0 <= i < |names|
      ensures names[i].0 in v.receiptIds && names[i].1 in v.targetIds
    {
      assert names[i] in names;
      var j :| 0 <= j < |v.cells| && PairOf(v.cells[j]) == names[i];
      assert CellSound(v.cells[j], LinesOf(t, v), TargetsOf(t, v));
    }
  }

  lemma {:induction false} NamesOnce(pairs: map<Pair, i64>)
    ensures var names := PairOrder(pairs); forall i, j :: 0 <= i < j < |names| ==> names[i] != names[j]
  {
    PairsOrdered();
    hide PairLt;
  }

  lemma {:induction false} NamesApart(t: Tables, v: Review, names: seq<Pair>)
    requires Selected(t, v) && forall i :: 0 <= i < |names| ==> names[i].0 in v.receiptIds
    requires forall i, j :: 0 <= i < j < |names| ==> names[i] != names[j]
    ensures Apart(t, names)
  {
    forall i, j | 0 <= i < j < |names|
      ensures ObservationOf(t, names[i].0) != ObservationOf(t, names[j].0) || names[i].1 != names[j].1
    {
      ReceiptFound(t, v.receiptIds, names[i].0);
      ReceiptFound(t, v.receiptIds, names[j].0);
    }
  }

  lemma {:induction false} NamesFit(t: Tables, v: Review, pairs: map<Pair, i64>)
    requires Selected(t, v) && CellsSound(v.cells, LinesOf(t, v), TargetsOf(t, v)) && Tallies(pairs, PairLines(v.cells))
    ensures Apart(t, PairOrder(pairs))
    ensures Funded(t, t.edges, PairOrder(pairs), pairs) == Survivors(t, t.edges, PairOrder(pairs)) + NewEdges(t, PairOrder(pairs), pairs)
  {
    hide Selected, CellsSound, Tallies, Apart, Funded, Survivors;
    NamesSelected(t, v, pairs);
    NamesOnce(pairs);
    NamesApart(t, v, PairOrder(pairs));
    FundedIs(t, t.edges, PairOrder(pairs), pairs);
  }

  lemma {:induction false} QuietSurvivors(t: Tables, v: Review, names: seq<Pair>)
    requires forall e :: !Stray(t, v, names, e)
    ensures GraphLines(t, v, Survivors(t, t.edges, names)) == []
    ensures forall i :: 0 <= i < |Survivors(t, t.edges, names)| ==> EdgeSound(t, v, Survivors(t, t.edges, names)[i])
  {
    var kept := Survivors(t, t.edges, names);
    hide GraphLines, EdgeSound, FromReceipt, Survives, Survivors;
    forall i | 0 <= i < |kept|
      ensures !FromReceipt(t, v, kept[i]) && EdgeSound(t, v, kept[i])
    {
      SurvivorsAre(t, t.edges, names, kept[i]);
      assert !Stray(t, v, names, kept[i]);
      QuietSound(t, v, kept[i]);
    }
    QuietGraph(t, v, kept);
  }

  lemma {:induction false} BothSound(t: Tables, v: Review, a: seq<Edge>, b: seq<Edge>)
    requires forall i :: 0 <= i < |a| ==> EdgeSound(t, v, a[i])
    requires forall i :: 0 <= i < |b| ==> EdgeSound(t, v, b[i])
    ensures forall i :: 0 <= i < |a + b| ==> EdgeSound(t, v, (a + b)[i])
  {
    hide EdgeSound;
  }

  lemma {:induction false} DerivedGraph(t: Tables, v: Review, pairs: map<Pair, i64>)
    requires Selected(t, v) && CellsSound(v.cells, LinesOf(t, v), TargetsOf(t, v)) && Tallies(pairs, PairLines(v.cells))
    requires forall e :: !Stray(t, v, PairOrder(pairs), e)
    ensures var edges := Funded(t, t.edges, PairOrder(pairs), pairs);
            GraphLines(t, v, edges) == NewLines(PairOrder(pairs), pairs) && forall i :: 0 <= i < |edges| ==> EdgeSound(t, v, edges[i])
  {
    hide *;
    var names := PairOrder(pairs);
    var kept, added := Survivors(t, t.edges, names), NewEdges(t, names, pairs);
    NamesFit(t, v, pairs);
    NamesSelected(t, v, pairs);
    QuietSurvivors(t, v, names);
    NewGraph(t, v, names, pairs);
    GraphConcat(t, v, kept, added);
    BothSound(t, v, kept, added);
    NothingBefore(NewLines(names, pairs));
  }

  lemma {:induction false} NothingBefore(lines: seq<(Pair, i64)>)
    ensures [] + lines == lines
  {
  }

  lemma {:induction false} NewMatches(cells: seq<Cell>, pairs: map<Pair, i64>)
    requires Tallies(pairs, PairLines(cells))
    ensures var lines := NewLines(PairOrder(pairs), pairs);
            RunsFit(lines, |lines|) && KeysIn(lines) == KeysIn(PairLines(cells)) && forall k :: SumFor(lines, k) == SumFor(PairLines(cells), k)
  {
    var names := PairOrder(pairs);
    NamesOnce(pairs);
    NewRunsFit(names, pairs);
    NewKeys(names, pairs);
    hide SumFor, RunsFit, Total, SumMap;
    forall k
      ensures SumFor(NewLines(names, pairs), k) == SumFor(PairLines(cells), k)
    {
      NewTotals(names, pairs, k);
      assert Left(pairs, k) == SumFor(PairLines(cells), k);
    }
  }

  /** With no stray the derived relationships carry exactly the cells. */
  lemma {:induction false} DerivedMatches(t: Tables, v: Review, pairs: map<Pair, i64>, u: Tables)
    requires Selected(t, v) && CellsSound(v.cells, LinesOf(t, v), TargetsOf(t, v)) && Tallies(pairs, PairLines(v.cells))
    requires u == t.(edges := Funded(t, t.edges, PairOrder(pairs), pairs))
    requires forall e :: !Stray(t, v, PairOrder(pairs), e)
    ensures GraphSound(u, v) && GraphMatches(u, v)
  {
    DerivedGraph(t, v, pairs);
    SameReading(t, u, v, u.edges);
    NewMatches(v.cells, pairs);
    hide Selected, CellsSound, Tallies, Stray, Funded, GraphLines, EdgeSound, FromReceipt, SumFor, RunsFit, KeysIn;
  }

  lemma {:induction false} QuietSound(t: Tables, v: Review, e: Edge)
    requires !FromReceipt(t, v, e)
    ensures EdgeSound(t, v, e)
  {
  }

  lemma {:induction false} NewKeys(names: seq<Pair>, pairs: map<Pair, i64>)
    requires forall p :: p in names <==> p in pairs
    ensures KeysIn(NewLines(names, pairs)) == pairs.Keys
  {
    forall p | p in pairs
      ensures p in KeysIn(NewLines(names, pairs))
    {
      var i :| 0 <= i < |names| && names[i] == p;
      assert NewLines(names, pairs)[i].0 == p;
    }
  }

  lemma {:induction false} StrayKey(t: Tables, v: Review, names: seq<Pair>, e: Edge)
    requires Stray(t, v, names, e) && EdgeSound(t, v, e)
    ensures FromReceipt(t, v, e) && e.amount.Some? && ReceiptFor(t, v.receiptIds, e.fromId).Some?
    ensures (ReceiptFor(t, v.receiptIds, e.fromId).value, e.toId) !in names
  {
    ReceiptBehind(t, v.receiptIds, e.fromId);
    hide ReceiptFor, ObservationOf;
  }

  lemma {:induction false} MatchedKey(u: Tables, v: Review, pairs: map<Pair, i64>, p: Pair)
    requires GraphMatches(u, v) && Tallies(pairs, PairLines(v.cells)) && p in KeysIn(GraphLines(u, v, u.edges))
    ensures p in PairOrder(pairs)
  {
    hide SumFor, Total, SumMap, KeysIn, GraphLines;
  }

  lemma {:induction false} SoundAt(u: Tables, v: Review, i: nat)
    requires GraphSound(u, v) && i < |u.edges|
    ensures EdgeSound(u, v, u.edges[i])
  {
    hide EdgeSound, RunsFit, GraphLines;
  }

  lemma {:induction false} StrayListed(t: Tables, v: Review, names: seq<Pair>, added: seq<Edge>, e: Edge) returns (i: nat)
    requires Stray(t, v, names, e)
    ensures var edges := Survivors(t, t.edges, names) + added; i < |edges| && edges[i] == e
  {
    SurvivorsAre(t, t.edges, names, e);
    hide Survives, Survivors, FromReceipt;
    i :| 0 <= i < |Survivors(t, t.edges, names)| && Survivors(t, t.edges, names)[i] == e;
  }

  lemma {:induction false} StrayClash(t: Tables, u: Tables, v: Review, pairs: map<Pair, i64>, e: Edge, i: nat)
    requires GraphSound(u, v) && GraphMatches(u, v) && Tallies(pairs, PairLines(v.cells)) && u == t.(edges := u.edges)
    requires i < |u.edges| && u.edges[i] == e
    ensures !Stray(t, v, PairOrder(pairs), e)
  {
    hide *;
    if Stray(t, v, PairOrder(pairs), e) {
      SoundAt(u, v, i);
      SameReading(t, u, v, u.edges);
      StrayKey(t, v, PairOrder(pairs), e);
      LineListed(t, v, u.edges, i);
      MatchedKey(u, v, pairs, (ReceiptFor(t, v.receiptIds, e.fromId).value, e.toId));
    }
  }

  /** A stray names a pair that no cell names, or is a transfer: either is refused. */
  lemma {:induction false} StrayRefused(t: Tables, v: Review, pairs: map<Pair, i64>, u: Tables, e: Edge)
    requires Selected(t, v) && CellsSound(v.cells, LinesOf(t, v), TargetsOf(t, v)) && Tallies(pairs, PairLines(v.cells))
    requires u == t.(edges := Funded(t, t.edges, PairOrder(pairs), pairs)) && Stray(t, v, PairOrder(pairs), e)
    ensures !(GraphSound(u, v) && GraphMatches(u, v))
  {
    hide *;
    NamesFit(t, v, pairs);
    var i := StrayListed(t, v, PairOrder(pairs), NewEdges(t, PairOrder(pairs), pairs), e);
    if GraphSound(u, v) && GraphMatches(u, v) {
      StrayClash(t, u, v, pairs, e, i);
    }
  }

  lemma {:induction false} LineListed(t: Tables, v: Review, edges: seq<Edge>, i: nat)
    requires i < |edges| && FromReceipt(t, v, edges[i]) && edges[i].amount.Some?
    ensures (ReceiptFor(t, v.receiptIds, edges[i].fromId).value, edges[i].toId) in KeysIn(GraphLines(t, v, edges))
    decreases |edges|
  {
    var p := (ReceiptFor(t, v.receiptIds, edges[i].fromId).value, edges[i].toId);
    var lines, front := GraphLines(t, v, edges), GraphLines(t, v, edges[..|edges| - 1]);
    hide FromReceipt;
    if i < |edges| - 1 {
      LineListed(t, v, edges[..|edges| - 1], i);
      var j :| 0 <= j < |front| && front[j].0 == p;
      assert lines[j].0 == p;
    } else {
      assert lines[|front|].0 == p;
    }
  }

  /**
   * An allocation whose relationships are derived from its own cells passes the comparison of graph and matrix
   * exactly when no other confirmed funding or transfer leaves one of its receipts.
   */
  lemma {:induction false} DerivedExactly(t: Tables, v: Review, pairs: map<Pair, i64>, u: Tables)
    requires Selected(t, v) && CellsSound(v.cells, LinesOf(t, v), TargetsOf(t, v)) && Tallies(pairs, PairLines(v.cells))
    requires u == t.(edges := Funded(t, t.edges, PairOrder(pairs), pairs))
    ensures GraphSound(u, v) && GraphMatches(u, v) <==> forall e :: !Stray(t, v, PairOrder(pairs), e)
  {
    hide Selected, CellsSound, Tallies, Stray, GraphSound, GraphMatches, Funded;
    if forall e :: !Stray(t, v, PairOrder(pairs), e) {
      DerivedMatches(t, v, pairs, u);
    } else {
      var e :| Stray(t, v, PairOrder(pairs), e);
      StrayRefused(t, v, pairs, u, e);
    }
  }
}
