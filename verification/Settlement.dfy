/** Settling one bank transaction by whole receipts, and its place inside the matrix planner. */
module Settlement {
  import opened CheckedMoney
  import opened Rows
  import opened Action
  import opened Ordered
  import opened Sums
  import opened Sorting
  import opened Matrix
  import opened Allocation

  type Nets = seq<(LineKey, i64)>

  /** A receipt as the settlement reads it; `settled` says it is current and fully funded by the target alone. */
  datatype WholeReceipt = WholeReceipt(id: string, observationId: string, total: i64, lines: seq<(string, i64)>, settled: bool)

  function NetsOfReceipt(r: WholeReceipt): (n: Nets)
    ensures |n| == |r.lines| && forall i :: 0 <= i < |n| ==> n[i] == (LineKey(r.id, r.lines[i].0), r.lines[i].1)
  {
    seq(|r.lines|, i requires 0 <= i < |r.lines| => (LineKey(r.id, r.lines[i].0), r.lines[i].1))
  }

  /** Every line of the receipts, in the order the settlement meets them. */
  function AllNets(receipts: seq<WholeReceipt>): Nets {
    if receipts == [] then [] else AllNets(receipts[..|receipts| - 1]) + NetsOfReceipt(receipts[|receipts| - 1])
  }

  function TotalOf(receipts: seq<WholeReceipt>): int {
    if receipts == [] then 0 else TotalOf(receipts[..|receipts| - 1]) + receipts[|receipts| - 1].total
  }

  function CategoryNets(nets: Nets, categories: map<LineKey, string>): (r: seq<(string, i64)>)
    ensures |r| == |nets| && forall i :: 0 <= i < |r| ==> r[i] == (CategoryAt(categories, nets[i].0), nets[i].1)
  {
    seq(|nets|, i requires 0 <= i < |nets| => (CategoryAt(categories, nets[i].0), nets[i].1))
  }

  function NetKey(net: (LineKey, i64)): LineKey {
    net.0
  }

  function ReceiptId(r: WholeReceipt): string {
    r.id
  }

  function ObservationOf(r: WholeReceipt): string {
    r.observationId
  }

  /** The observations of the receipts, with that of the transaction they settle. */
  function Observations(receipts: seq<WholeReceipt>, own: string): set<string> {
    {own} + set i | 0 <= i < |receipts| :: receipts[i].observationId
  }

  /** No receipt shares its observation with another one or with the transaction. */
  ghost predicate Apart(receipts: seq<WholeReceipt>, own: string) {
    DistinctBy(ObservationOf, receipts) && forall i :: 0 <= i < |receipts| ==> receipts[i].observationId != own
  }

  /** Nothing of the event is left out: it has as many observations as were met, each of them met. */
  ghost predicate Covers(receipts: seq<WholeReceipt>, own: string, event: seq<string>) {
    Apart(receipts, own) && |event| == |receipts| + 1 && forall o :: o in event ==> o in Observations(receipts, own)
  }

  lemma {:induction false} ApartNext(receipts: seq<WholeReceipt>, own: string, i: nat)
    requires i < |receipts| && Apart(receipts[..i], own)
    ensures Observations(receipts[..i + 1], own) == Observations(receipts[..i], own) + {receipts[i].observationId}
    ensures receipts[i].observationId !in Observations(receipts[..i], own) ==> Apart(receipts[..i + 1], own)
    ensures receipts[i].observationId in Observations(receipts[..i], own) ==> !Apart(receipts, own)
  {
    var before, after := receipts[..i], receipts[..i + 1];
    forall j | 0 <= j < i
      ensures after[j] == before[j] == receipts[j] && before[j].observationId in Observations(before, own)
    {
    }
    if receipts[i].observationId in Observations(before, own) && receipts[i].observationId != own {
      var j :| 0 <= j < i && before[j].observationId == receipts[i].observationId;
      assert ObservationOf(receipts[j]) == ObservationOf(receipts[i]);
    }
  }

  lemma {:induction false} ApartCount(receipts: seq<WholeReceipt>, own: string)
    requires Apart(receipts, own)
    ensures |Observations(receipts, own)| == |receipts| + 1
  {
    if receipts == [] {
      assert Observations(receipts, own) == {own};
    } else {
      var i := |receipts| - 1;
      forall j, k | 0 <= j < k < i
        ensures ObservationOf(receipts[..i][j]) != ObservationOf(receipts[..i][k])
      {
        assert ObservationOf(receipts[j]) != ObservationOf(receipts[k]);
      }
      ApartCount(receipts[..i], own);
      ApartNext(receipts, own, i);
      assert receipts[..i + 1] == receipts;
    }
  }

  lemma {:induction false} DistinctCount(ids: seq<string>)
    requires forall i, j :: 0 <= i < j < |ids| ==> ids[i] != ids[j]
    ensures |set o | o in ids| == |ids|
  {
    if ids != [] {
      var front, last := ids[..|ids| - 1], ids[|ids| - 1];
      DistinctCount(front);
      assert (set o | o in ids) == (set o | o in front) + {last};
    }
  }

  lemma {:induction false} CoveredBy(a: set<string>, b: set<string>)
    requires a <= b && |a| == |b|
    ensures a == b
  {
    assert b == a + (b - a);
  }

  /** A covered event is the transaction with its receipts and nothing else. */
  lemma {:induction false} CoversWhole(receipts: seq<WholeReceipt>, own: string, event: seq<string>)
    requires Apart(receipts, own) && forall i, j :: 0 <= i < j < |event| ==> event[i] != event[j]
    ensures Covers(receipts, own, event) <==> (set o | o in event) == Observations(receipts, own)
  {
    ApartCount(receipts, own);
    DistinctCount(event);
    hide Apart;
    if Covers(receipts, own, event) {
      CoveredBy((set o | o in event), Observations(receipts, own));
    }
    if (set o | o in event) == Observations(receipts, own) {
      forall o | o in event
        ensures o in Observations(receipts, own)
      {
        assert o in (set p | p in event);
      }
    }
  }

  // The loops: choices are used up line by line.

  /** What is left of the choices after these lines, each line having used its own. */
  ghost predicate Spent(categories: map<LineKey, string>, nets: Nets, left: map<LineKey, string>) {
    DistinctBy(NetKey, nets) && KeysIn(nets) <= categories.Keys && left == categories - KeysIn(nets)
  }

  lemma {:induction false} SpentNext(categories: map<LineKey, string>, nets: Nets, left: map<LineKey, string>, net: (LineKey, i64))
    requires Spent(categories, nets, left)
    ensures net.0 in left ==> Spent(categories, nets + [net], left - {net.0}) && left[net.0] == CategoryAt(categories, net.0)
    ensures net.0 !in left ==> net.0 !in categories || net.0 in KeysIn(nets)
  {
    var all := nets + [net];
    assert KeysIn(all) == KeysIn(nets) + {net.0};
    forall i | 0 <= i < |nets|
      ensures nets[i].0 in KeysIn(nets)
    {
      assert nets[i] in nets;
    }
  }

  ghost predicate Settling(categories: map<LineKey, string>, nets: Nets, left: map<LineKey, string>, totals: map<string, i64>) {
    var lines := CategoryNets(nets, categories);
    Spent(categories, nets, left) && Tallies(totals, lines) && RunsFit(lines, |lines|)
  }

  /** The lines are distinct, each has its category, and no category total overflows on the way. */
  ghost predicate Settles(categories: map<LineKey, string>, nets: Nets) {
    var lines := CategoryNets(nets, categories);
    DistinctBy(NetKey, nets) && KeysIn(nets) <= categories.Keys && RunsFit(lines, |lines|)
  }

  lemma {:induction false} CategoryNext(categories: map<LineKey, string>, nets: Nets, net: (LineKey, i64))
    ensures CategoryNets(nets + [net], categories) == CategoryNets(nets, categories) + [(CategoryAt(categories, net.0), net.1)]
  {
  }

  lemma {:induction false} SettlingNext(categories: map<LineKey, string>, nets: Nets, left: map<LineKey, string>, totals: map<string, i64>, net: (LineKey, i64))
    requires Settling(categories, nets, left, totals) && net.0 in left && Fits(Left(totals, left[net.0]) + net.1)
    ensures Settling(categories, nets + [net], left - {net.0}, totals[left[net.0] := Left(totals, left[net.0]) + net.1])
  {
    hide Tallies, RunsFit, Left, CategoryNets, Spent;
    SpentNext(categories, nets, left, net);
    CategoryNext(categories, nets, net);
    RunsFitOne(CategoryNets(nets, categories), (CategoryAt(categories, net.0), net.1), totals);
  }

  lemma {:induction false} SettlingRefused(categories: map<LineKey, string>, nets: Nets, left: map<LineKey, string>, totals: map<string, i64>, net: (LineKey, i64))
    requires Settling(categories, nets, left, totals)
    requires net.0 !in left || !Fits(Left(totals, left[net.0]) + net.1)
    ensures !Settles(categories, nets + [net])
  {
    hide Tallies, RunsFit, Left, CategoryNets, Spent, DistinctBy, KeysIn;
    SpentNext(categories, nets, left, net);
    NotDistinct(nets, net);
    if net.0 in left {
      CategoryNext(categories, nets, net);
      RunsFitOne(CategoryNets(nets, categories), (CategoryAt(categories, net.0), net.1), totals);
    }
  }

  lemma {:induction false} NotDistinct(nets: Nets, net: (LineKey, i64))
    ensures net.0 in KeysIn(nets) ==> !DistinctBy(NetKey, nets + [net])
    ensures net.0 in KeysIn(nets + [net])
  {
    assert (nets + [net])[|nets|] == net && net in nets + [net];
    if net.0 in KeysIn(nets) {
      var i :| 0 <= i < |nets| && nets[i].0 == net.0;
      assert NetKey((nets + [net])[i]) == NetKey((nets + [net])[|nets|]);
    }
  }

  lemma {:induction false} SettlesFront(categories: map<LineKey, string>, a: Nets, b: Nets)
    requires Settles(categories, a + b)
    ensures Settles(categories, a)
  {
    assert CategoryNets(a + b, categories) == CategoryNets(a, categories) + CategoryNets(b, categories);
    RunsFitGrows(CategoryNets(a, categories), CategoryNets(b, categories));
    forall i, j | 0 <= i < j < |a|
      ensures NetKey(a[i]) != NetKey(a[j])
    {
      assert NetKey((a + b)[i]) != NetKey((a + b)[j]);
    }
    forall net | net in a
      ensures net.0 in KeysIn(a + b)
    {
      assert net in a + b;
    }
  }

  method SettleReceipt(r: WholeReceipt, left: map<LineKey, string>, totals: map<string, i64>, ghost categories: map<LineKey, string>, ghost before: Nets)
    returns (ok: Result<(map<LineKey, string>, map<string, i64>)>)
    requires Settling(categories, before, left, totals)
    ensures ok.Ok? ==> Settling(categories, before + NetsOfReceipt(r), ok.value.0, ok.value.1)
    ensures ok.Err? ==> !Settles(categories, before + NetsOfReceipt(r))
  {
    hide Settling, Settles;
    var unused: map<LineKey, string>, running: map<string, i64> := left, totals;
    assert before + NetsOfReceipt(r)[..0] == before;
    for i := 0 to |r.lines|
      invariant Settling(categories, before + NetsOfReceipt(r)[..i], unused, running)
    {
      var key, net := LineKey(r.id, r.lines[i].0), r.lines[i].1;
      assert before + NetsOfReceipt(r)[..i + 1] == before + NetsOfReceipt(r)[..i] + [(key, net)];
      if key !in unused || !Fits(Left(running, unused[key]) + net) {
        SettlingRefused(categories, before + NetsOfReceipt(r)[..i], unused, running, (key, net));
        if Settles(categories, before + NetsOfReceipt(r)) {
          assert before + NetsOfReceipt(r) == before + NetsOfReceipt(r)[..i + 1] + NetsOfReceipt(r)[i + 1..];
          SettlesFront(categories, before + NetsOfReceipt(r)[..i + 1], NetsOfReceipt(r)[i + 1..]);
        }
        return Err(if key !in unused then "settlement_line_category_required" else "amount_overflow");
      }
      SettlingNext(categories, before + NetsOfReceipt(r)[..i], unused, running, (key, net));
      running := running[unused[key] := Left(running, unused[key]) + net];
      unused := unused - {key};
    }
    assert NetsOfReceipt(r)[..|r.lines|] == NetsOfReceipt(r);
    ok := Ok((unused, running));
  }

  predicate ReceiptUsable(r: WholeReceipt) {
    Identity(r.id) && r.settled && r.total > 0
  }

  predicate ChoiceIdentified(c: Choice) {
    Identity(c.line.receiptId) && Identity(c.line.lineId) && Identity(c.categoryId)
  }

  /** When whole receipts settle a transaction. */
  ghost predicate Settleable(receipts: seq<WholeReceipt>, choices: seq<Choice>, target: Target) {
    (forall i :: 0 <= i < |choices| ==> ChoiceIdentified(choices[i])) && DistinctBy(LineOf, choices)
    && (forall i :: 0 <= i < |receipts| ==> ReceiptUsable(receipts[i])) && DistinctBy(ReceiptId, receipts)
    && Settles(CategoriesOf(choices), AllNets(receipts)) && KeysIn(AllNets(receipts)) == CategoriesOf(choices).Keys
    && TotalOf(receipts) == target.amount.units
  }

  /** The categories left with something positive, in name order, or the only one. */
  ghost predicate SettledAs(e: Effect, receipts: seq<WholeReceipt>, choices: seq<Choice>, target: Target) {
    var lines := CategoryNets(AllNets(receipts), CategoriesOf(choices));
    e.accountId == target.accountId && e.date == target.date
    && e.amount.currency == target.amount.currency && e.amount.units == -(target.amount.units as int)
    && exists names :: PositiveNames(names, lines)
                       && if |names| == 1 then e.categoryId == Some(names[0]) && e.splits == []
                          else e.categoryId.None? && SplitsOver(e.splits, names, lines, target.amount.currency)
  }

  ghost predicate PositiveNames(names: seq<string>, lines: seq<(string, i64)>) {
    Ascending(StringLt, names) && forall c :: c in names <==> SumFor(lines, c) > 0
  }

  ghost predicate SplitsOver(splits: seq<Split>, names: seq<string>, lines: seq<(string, i64)>, currency: string) {
    |splits| == |names|
    && forall i :: 0 <= i < |splits| ==>
         splits[i].categoryId == names[i] && splits[i].amount.currency == currency && splits[i].amount.units == -SumFor(lines, names[i])
  }

  // The settlement.

  method CollectSelections(choices: seq<Choice>) returns (r: Result<map<LineKey, string>>)
    ensures r.Ok? <==> (forall i :: 0 <= i < |choices| ==> ChoiceIdentified(choices[i])) && DistinctBy(LineOf, choices)
    ensures r.Ok? ==> r.value == CategoriesOf(choices)
  {
    hide Identity, DistinctBy, CategoriesOf;
    var categories: map<LineKey, string> := map[];
    assert ChosenUpTo(choices, 0, categories) by {
      NoneChosen(choices);
    }
    hide ChosenUpTo;
    for i := 0 to |choices|
      invariant ChosenUpTo(choices, i, categories)
      invariant forall j :: 0 <= j < i ==> ChoiceIdentified(choices[j])
    {
      ChoiceNext(choices, i, categories);
      if !ChoiceIdentified(choices[i]) || choices[i].line in categories {
        return Err("settlement_line_choice");
      }
      categories := categories[choices[i].line := choices[i].categoryId];
    }
    AllChosen(choices, categories);
    r := Ok(categories);
  }

  ghost predicate ReceiptsTo(receipts: seq<WholeReceipt>, i: nat, ids: set<string>, total: int)
    requires i <= |receipts|
  {
    (forall j :: 0 <= j < i ==> ReceiptUsable(receipts[j])) && DistinctBy(ReceiptId, receipts[..i])
    && ids == (set j | 0 <= j < i :: receipts[j].id) && total == TotalOf(receipts[..i])
  }

  lemma {:induction false} ReceiptsNext(receipts: seq<WholeReceipt>, i: nat, ids: set<string>, total: int)
    requires i < |receipts| && ReceiptsTo(receipts, i, ids, total)
    ensures ReceiptUsable(receipts[i]) && receipts[i].id !in ids ==>
              ReceiptsTo(receipts, i + 1, ids + {receipts[i].id}, total + receipts[i].total)
    ensures receipts[i].id in ids ==> !DistinctBy(ReceiptId, receipts)
  {
    hide ReceiptUsable;
    assert receipts[..i + 1][..i] == receipts[..i];
    if receipts[i].id in ids {
      var j :| 0 <= j < i && receipts[j].id == receipts[i].id;
      assert ReceiptId(receipts[j]) == ReceiptId(receipts[i]);
    }
  }

  lemma {:induction false} TotalsGrow(receipts: seq<WholeReceipt>, i: nat)
    requires i <= |receipts| && forall j :: 0 <= j < |receipts| ==> receipts[j].total > 0
    ensures 0 <= TotalOf(receipts[..i]) <= TotalOf(receipts)
    decreases |receipts| - i
  {
    TotalSign(receipts, i);
    if i == |receipts| {
      assert receipts[..i] == receipts;
    } else {
      TotalsGrow(receipts, i + 1);
      assert receipts[..i + 1][..i] == receipts[..i];
    }
  }

  lemma {:induction false} TotalSign(receipts: seq<WholeReceipt>, i: nat)
    requires i <= |receipts| && forall j :: 0 <= j < i ==> receipts[j].total > 0
    ensures 0 <= TotalOf(receipts[..i])
  {
    if i > 0 {
      TotalSign(receipts, i - 1);
      assert receipts[..i][..i - 1] == receipts[..i - 1];
    }
  }

  lemma {:induction false} NetsGrow(receipts: seq<WholeReceipt>, i: nat) returns (rest: Nets)
    requires i <= |receipts|
    ensures AllNets(receipts) == AllNets(receipts[..i]) + rest
    decreases |receipts| - i
  {
    if i == |receipts| {
      assert receipts[..i] == receipts;
      rest := [];
    } else {
      var more := NetsGrow(receipts, i + 1);
      assert receipts[..i + 1][..i] == receipts[..i];
      rest := NetsOfReceipt(receipts[i]) + more;
    }
  }

  lemma {:induction false} ReceiptRefused(receipts: seq<WholeReceipt>, choices: seq<Choice>, target: Target, i: nat)
    requires i < |receipts|
    requires !ReceiptUsable(receipts[i]) || !DistinctBy(ReceiptId, receipts) || !Settles(CategoriesOf(choices), AllNets(receipts[..i + 1]))
             || ((forall j :: 0 <= j < |receipts| ==> receipts[j].total > 0) && TotalOf(receipts[..i + 1]) > I64_MAX)
    ensures !Settleable(receipts, choices, target)
  {
    hide Settles, DistinctBy, CategoriesOf;
    if Settleable(receipts, choices, target) {
      var rest := NetsGrow(receipts, i + 1);
      SettlesFront(CategoriesOf(choices), AllNets(receipts[..i + 1]), rest);
      TotalsGrow(receipts, i + 1);
    }
  }

  function CheckReceipt(r: WholeReceipt, ids: set<string>, met: set<string>): (ok: Result<()>)
    ensures ok.Ok? <==> ReceiptUsable(r) && r.id !in ids && r.observationId !in met
  {
    if !Identity(r.id) || r.id in ids then Err("settlement_receipt_duplicate")
    else if r.observationId in met || !ReceiptUsable(r) then Err("settlement_receipt_not_current_purchase")
    else Ok(())
  }

  /** Where the settlement stands: unused choices, category totals, receipts and observations met, and the receipts' total. */
  datatype Settled = Settled(left: map<LineKey, string>, totals: map<string, i64>, ids: set<string>, met: set<string>, total: i64)

  ghost predicate SettledTo(receipts: seq<WholeReceipt>, own: string, categories: map<LineKey, string>, i: nat, s: Settled)
    requires i <= |receipts|
  {
    Settling(categories, AllNets(receipts[..i]), s.left, s.totals) && ReceiptsTo(receipts, i, s.ids, s.total)
    && Apart(receipts[..i], own) && s.met == Observations(receipts[..i], own)
  }

  method SettleNext(receipts: seq<WholeReceipt>, own: string, ghost choices: seq<Choice>, ghost target: Target,
                    ghost categories: map<LineKey, string>, i: nat, s: Settled)
    returns (r: Result<Settled>)
    requires i < |receipts| && categories == CategoriesOf(choices) && SettledTo(receipts, own, categories, i, s)
    ensures r.Ok? ==> SettledTo(receipts, own, categories, i + 1, r.value)
    ensures r.Err? ==> !Settleable(receipts, choices, target) || !Apart(receipts, own)
  {
    hide Settling, Settles, Settleable, ReceiptsTo, DistinctBy, CategoriesOf, AllNets, CheckReceipt, ReceiptUsable, TotalOf, Apart, Observations;
    var receipt := receipts[i];
    ReceiptsNext(receipts, i, s.ids, s.total);
    ApartNext(receipts, own, i);
    var usable := CheckReceipt(receipt, s.ids, s.met);
    if usable.Err? {
      if receipt.observationId in s.met {
        return Err(usable.error);
      }
      ReceiptRefused(receipts, choices, target, i);
      return Err(usable.error);
    }
    var added := AddTotal(s.total, receipt.total);
    if added.Err? {
      if Settleable(receipts, choices, target) {
        TotalFits(receipts, choices, target, i, s.ids, s.total);
      }
      return Err(added.error);
    }
    NetsNext(receipts, i);
    var settled := SettleReceipt(receipt, s.left, s.totals, categories, AllNets(receipts[..i]));
    if settled.Err? {
      ReceiptRefused(receipts, choices, target, i);
      return Err(settled.error);
    }
    r := Ok(Settled(settled.value.0, settled.value.1, s.ids + {receipt.id}, s.met + {receipt.observationId}, added.value));
  }

  method SettleReceipts(receipts: seq<WholeReceipt>, own: string, choices: seq<Choice>, target: Target, categories: map<LineKey, string>)
    returns (r: Result<Settled>)
    requires categories == CategoriesOf(choices)
    ensures r.Ok? ==> SettledTo(receipts, own, categories, |receipts|, r.value)
    ensures r.Err? ==> !Settleable(receipts, choices, target) || !Apart(receipts, own)
  {
    assert SettledTo(receipts, own, categories, 0, Settled(categories, map[], {}, {own}, 0)) by {
      NothingSettled(categories, receipts);
    }
    hide *;
    var state := Settled(categories, map[], {}, {own}, 0);
    for i := 0 to |receipts|
      invariant SettledTo(receipts, own, categories, i, state)
    {
      var next := SettleNext(receipts, own, choices, target, categories, i, state);
      if next.Err? {
        return next;
      }
      state := next.value;
    }
    r := Ok(state);
  }

  lemma {:induction false} SettledAll(receipts: seq<WholeReceipt>, own: string, categories: map<LineKey, string>, s: Settled)
    requires SettledTo(receipts, own, categories, |receipts|, s)
    ensures Apart(receipts, own) && s.met == Observations(receipts, own) && |s.met| == |receipts| + 1
    ensures Settling(categories, AllNets(receipts), s.left, s.totals) && s.total == TotalOf(receipts)
    ensures DistinctBy(ReceiptId, receipts) && forall i :: 0 <= i < |receipts| ==> ReceiptUsable(receipts[i])
  {
    assert receipts[..|receipts|] == receipts;
    hide Settling, DistinctBy, ReceiptUsable, Apart, Observations;
    ApartCount(receipts, own);
    ReceiptsDone(receipts, s.ids, s.total);
  }

  lemma {:induction false} NetsNext(receipts: seq<WholeReceipt>, i: nat)
    requires i < |receipts|
    ensures AllNets(receipts[..i + 1]) == AllNets(receipts[..i]) + NetsOfReceipt(receipts[i])
  {
    assert receipts[..i + 1][..i] == receipts[..i];
  }

  lemma {:induction false} ReceiptsDone(receipts: seq<WholeReceipt>, ids: set<string>, total: int)
    requires ReceiptsTo(receipts, |receipts|, ids, total)
    ensures total == TotalOf(receipts) && DistinctBy(ReceiptId, receipts) && forall i :: 0 <= i < |receipts| ==> ReceiptUsable(receipts[i])
  {
    assert receipts[..|receipts|] == receipts;
    hide DistinctBy, ReceiptUsable;
  }

  lemma {:induction false} TotalFits(receipts: seq<WholeReceipt>, choices: seq<Choice>, target: Target, i: nat, ids: set<string>, total: int)
    requires i < |receipts| && ReceiptsTo(receipts, i, ids, total) && Settleable(receipts, choices, target)
    ensures Fits(total + receipts[i].total)
  {
    hide Settles, DistinctBy, CategoriesOf, Identity, AllNets;
    TotalsGrow(receipts, i + 1);
    assert receipts[..i + 1][..i] == receipts[..i];
    TotalsGrow(receipts, i);
  }

  function AddTotal(a: i64, b: i64): (r: Result<i64>)
    ensures r.Ok? <==> Fits(a + b)
    ensures r.Ok? ==> r.value == a + b
  {
    if Fits(a + b) then Ok(a + b) else Err("amount_overflow")
  }

  lemma {:induction false} NothingSettled(categories: map<LineKey, string>, receipts: seq<WholeReceipt>)
    ensures Settling(categories, AllNets(receipts[..0]), categories, map[]) && ReceiptsTo(receipts, 0, {}, 0)
  {
    assert AllNets(receipts[..0]) == [] && categories - {} == categories;
    TallyStart(CategoryNets([], categories));
  }

  function PositiveCategories(totals: map<string, i64>): (r: seq<string>)
    ensures Ascending(StringLt, r) && forall c :: c in r <==> c in totals && totals[c] > 0
  {
    StringsOrdered();
    Listing(StringLt, set c | c in totals && totals[c] > 0)
  }

  function SplitsOf(totals: map<string, i64>, names: seq<string>, currency: string): (r: seq<Split>)
    requires forall c :: c in names ==> c in totals && totals[c] > 0
    ensures |r| == |names|
    ensures forall i :: 0 <= i < |r| ==> names[i] in names && r[i] == Split(names[i], Money(Neg(totals[names[i]]), currency))
  {
    seq(|names|, i requires 0 <= i < |names| => assert names[i] in names; Split(names[i], Money(Neg(totals[names[i]]), currency)))
  }

  function SettledEffect(target: Target, totals: map<string, i64>): Effect
    requires CanNegate(target.amount.units)
  {
    var parts := SplitsOf(totals, PositiveCategories(totals), target.amount.currency);
    Effect(target.accountId, Money(Neg(target.amount.units), target.amount.currency), target.date,
           if |parts| == 1 then Some(parts[0].categoryId) else None, if |parts| == 1 then [] else parts)
  }

  lemma {:induction false} EffectSettled(receipts: seq<WholeReceipt>, choices: seq<Choice>, target: Target, totals: map<string, i64>)
    requires CanNegate(target.amount.units) && Tallies(totals, CategoryNets(AllNets(receipts), CategoriesOf(choices)))
    ensures SettledAs(SettledEffect(target, totals), receipts, choices, target)
  {
    hide Total, SumMap, SumFor, AllNets, CategoriesOf, KeysIn, StringLt, Ascending;
    var lines := CategoryNets(AllNets(receipts), CategoriesOf(choices));
    var names := PositiveCategories(totals);
    forall c
      ensures c in names <==> SumFor(lines, c) > 0
    {
      assert Left(totals, c) == SumFor(lines, c);
    }
    assert PositiveNames(names, lines);
    assert SplitsOver(SplitsOf(totals, names, target.amount.currency), names, lines, target.amount.currency) by {
      forall i | 0 <= i < |names|
        ensures names[i] in names && totals[names[i]] == SumFor(lines, names[i])
      {
        assert Left(totals, names[i]) == SumFor(lines, names[i]);
      }
    }
  }

  lemma {:induction false} SettledExactly(receipts: seq<WholeReceipt>, choices: seq<Choice>, target: Target, left: map<LineKey, string>, totals: map<string, i64>, total: int)
    requires (forall i :: 0 <= i < |choices| ==> ChoiceIdentified(choices[i])) && DistinctBy(LineOf, choices)
    requires (forall i :: 0 <= i < |receipts| ==> ReceiptUsable(receipts[i])) && DistinctBy(ReceiptId, receipts)
    requires Settling(CategoriesOf(choices), AllNets(receipts), left, totals) && total == TotalOf(receipts)
    ensures Settleable(receipts, choices, target) <==> left == map[] && total == target.amount.units
    ensures Tallies(totals, CategoryNets(AllNets(receipts), CategoriesOf(choices)))
  {
    hide Tallies, RunsFit, DistinctBy, CategoriesOf, AllNets, CategoryNets, TotalOf;
    var categories, used := CategoriesOf(choices), KeysIn(AllNets(receipts));
    if left == map[] {
      forall k | k in categories
        ensures k in used
      {
        assert k !in left;
      }
    }
    if used == categories.Keys {
      assert left == map[];
    }
  }

  /** Settle the target by whole receipts: they cover its event, their totals are its amount, and every line has its one category. */
  method Settle(receipts: seq<WholeReceipt>, own: string, event: seq<string>, choices: seq<Choice>, target: Target) returns (r: Result<Effect>)
    requires target.amount.units > 0
    ensures r.Ok? <==> Settleable(receipts, choices, target) && Covers(receipts, own, event)
    ensures r.Ok? ==> SettledAs(r.value, receipts, choices, target)
  {
    assert Settleable(receipts, choices, target) ==>
        (forall i :: 0 <= i < |choices| ==> ChoiceIdentified(choices[i])) && DistinctBy(LineOf, choices);
    hide Settleable, SettledAs, Settling, DistinctBy, CategoriesOf, AllNets, ChoiceIdentified, ReceiptUsable, SettledEffect, Tallies, SettledTo,
         Apart, Observations;
    var categories :- CollectSelections(choices);
    var settled :- SettleReceipts(receipts, own, choices, target, categories);
    SettledAll(receipts, own, categories, settled);
    SettledExactly(receipts, choices, target, settled.left, settled.totals, settled.total);
    if settled.left != map[] || settled.total != target.amount.units
       || |settled.met| != |event| || exists o :: o in event && o !in settled.met {
      return Err("settlement_allocation_incomplete");
    }
    EffectSettled(receipts, choices, target, settled.totals);
    r := Ok(SettledEffect(target, settled.totals));
  }
}
