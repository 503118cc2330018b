/** Charging a cart: category totals with signed adjustments, and their spread over engine lines. */
module Cart {
  import opened CheckedMoney
  import opened Rows
  import opened Sums
  import opened Text
  import opened Action

  datatype CartItem = CartItem(id: string, amount: Money, categoryId: string, purchaseAt: string, allocations: Option<seq<Split>>)

  datatype Adjustment = Adjustment(kind: string, categoryId: string, amount: Money)

  datatype Facts = Facts(asOfMonth: string, categories: seq<NamedMoney<Slot, CategoryFactInfo>>)

  type Lines = seq<(Slot, i64)>

  datatype Charges = Charges(
    currency: string, subtotal: i64, tax: i64, fee: i64, discount: i64, total: i64,
    lines: Lines, adjustments: Lines, categories: map<Slot, i64>)

  function FactAt(facts: Facts, slot: Slot): Option<NamedMoney<Slot, CategoryFactInfo>> {
    if slot in KeysOf(facts.categories) then Some(facts.categories[IndexOf(KeysOf(facts.categories), slot)]) else None
  }

  // Spreading.

  /** Where the spread stands after the lines seen so far, slot by slot. */
  ghost predicate SlotState(seen: Lines, spread: Lines, adjustment: int, left: int, slot: Slot) {
    SumFor(spread, slot) == SumFor(seen, slot) + adjustment - left
    && (adjustment >= 0 ==> left == if Count(seen, slot) == 0 then adjustment else 0)
    && (adjustment < 0 ==> adjustment <= left <= 0)
    && (left < 0 ==> SumFor(spread, slot) == Count(seen, slot))
  }

  ghost predicate SameSlots(a: Lines, b: Lines) {
    |a| == |b| && forall i :: 0 <= i < |a| ==> a[i].0 == b[i].0
  }

  ghost predicate Spreadable(lines: Lines, adjustments: map<Slot, i64>) {
    Positive(lines) && adjustments.Keys <= KeysIn(lines)
    && forall slot :: Fits(SumFor(lines, slot) + Left(adjustments, slot))
  }

  /** One line takes as much of what is left for its slot as keeps it at least one. */
  function Share(left: i64, line: i64): i64
    requires line >= 1
  {
    if left < 0 then Max(left, 1 - line) else left
  }

  lemma {:induction false} ShareKeepsState(lines: Lines, i: nat, spread: Lines, adjustment: int, left: i64, share: i64, slot: Slot)
    requires i < |lines| && Positive(lines) && lines[i].0 == slot
    requires SlotState(lines[..i], spread, adjustment, left, slot) && share == Share(left, lines[i].1)
    requires Fits(lines[i].1 + share)
    ensures SlotState(lines[..i + 1], spread + [(slot, lines[i].1 + share)], adjustment, left - share, slot)
  {
    PrefixSums(lines, i, slot);
    SumForConcat(spread, [(slot, lines[i].1 + share)], slot);
    assert SumFor([(slot, lines[i].1 + share)], slot) == lines[i].1 + share;
  }

  lemma {:induction false} OtherKeepsState(lines: Lines, i: nat, spread: Lines, adjustment: int, left: int, line: (Slot, i64), slot: Slot)
    requires i < |lines| && Positive(lines) && lines[i].0 == line.0 != slot
    requires SlotState(lines[..i], spread, adjustment, left, slot)
    ensures SlotState(lines[..i + 1], spread + [line], adjustment, left, slot)
  {
    PrefixSums(lines, i, slot);
    SumForConcat(spread, [line], slot);
    assert SumFor([line], slot) == 0;
  }

  /** A line's share is within what is left and never overflows the line. */
  lemma {:induction false} ShareFits(lines: Lines, i: nat, spread: Lines, adjustments: map<Slot, i64>, left: i64)
    requires i < |lines| && Spreadable(lines, adjustments)
    requires SlotState(lines[..i], spread, Left(adjustments, lines[i].0), left, lines[i].0)
    ensures var share := Share(left, lines[i].1);
            Fits(left - share) && Fits(lines[i].1 + share) && lines[i].1 + share >= 1
  {
    PrefixSums(lines, i, lines[i].0);
    assert Fits(SumFor(lines, lines[i].0) + Left(adjustments, lines[i].0));
  }

  lemma {:induction false} CountSame(a: Lines, b: Lines, slot: Slot)
    requires SameSlots(a, b)
    ensures Count(a, slot) == Count(b, slot)
  {
    if a != [] {
      assert forall i :: 0 <= i < |a[1..]| ==> a[1..][i] == a[i + 1] && b[1..][i] == b[i + 1];
      CountSame(a[1..], b[1..], slot);
    }
  }

  /** When every line is seen, nothing is left for a slot exactly when its charge covers its lines. */
  lemma {:induction false} SlotDone(lines: Lines, spread: Lines, adjustment: int, left: int, slot: Slot)
    requires SlotState(lines, spread, adjustment, left, slot)
    requires SameSlots(lines, spread) && Positive(lines) && Positive(spread) && slot in KeysIn(lines)
    ensures left == 0 <==> Count(lines, slot) <= SumFor(lines, slot) + adjustment
  {
    CountSame(lines, spread, slot);
    PositiveSums(lines, slot);
    PositiveSums(spread, slot);
  }

  /** The first i lines are spread. */
  ghost predicate SpreadTo(lines: Lines, i: nat, spread: Lines, adjustments: map<Slot, i64>, remaining: map<Slot, i64>)
    requires i <= |lines|
  {
    SameSlots(lines[..i], spread) && Positive(spread)
    && remaining.Keys == adjustments.Keys + KeysIn(lines[..i])
    && forall slot :: SlotState(lines[..i], spread, Left(adjustments, slot), Left(remaining, slot), slot)
  }

  function Shared(remaining: map<Slot, i64>, slot: Slot, share: int): map<Slot, i64>
    requires Fits(Left(remaining, slot) - share)
  {
    remaining[slot := Left(remaining, slot) - share]
  }

  function Grown(spread: Lines, slot: Slot, units: int): Lines
    requires Fits(units)
  {
    spread + [(slot, units)]
  }

  lemma {:induction false} SlotNext(lines: Lines, i: nat, spread: Lines, adjustments: map<Slot, i64>, remaining: map<Slot, i64>, s: Slot)
    requires i < |lines| && Spreadable(lines, adjustments) && SpreadTo(lines, i, spread, adjustments, remaining)
    ensures var slot, line := lines[i].0, lines[i].1;
            var share := Share(Left(remaining, slot), line);
            Fits(Left(remaining, slot) - share) && Fits(line + share) && line + share >= 1
            && SlotState(lines[..i + 1], spread + [(slot, line + share)], Left(adjustments, s),
                         Left(Shared(remaining, slot, share), s), s)
  {
    var slot, line, left := lines[i].0, lines[i].1, Left(remaining, lines[i].0);
    ShareFits(lines, i, spread, adjustments, left);
    var share := Share(left, line);
    if s == slot {
      ShareKeepsState(lines, i, spread, Left(adjustments, s), left, share, s);
    } else {
      OtherKeepsState(lines, i, spread, Left(adjustments, s), Left(remaining, s), (slot, line + share), s);
    }
  }

  lemma {:induction false} SlotsGrow(lines: Lines, i: nat, spread: Lines, adjustments: map<Slot, i64>, remaining: map<Slot, i64>, units: i64)
    requires i < |lines| && SpreadTo(lines, i, spread, adjustments, remaining) && units >= 1
    ensures var more := spread + [(lines[i].0, units)]; SameSlots(lines[..i + 1], more) && Positive(more)
    ensures KeysIn(lines[..i + 1]) == KeysIn(lines[..i]) + {lines[i].0}
  {
    hide SlotState;
    assert lines[..i + 1] == lines[..i] + [lines[i]];
  }

  lemma {:induction false} SpreadNext(lines: Lines, i: nat, spread: Lines, adjustments: map<Slot, i64>, remaining: map<Slot, i64>)
    requires i < |lines| && Spreadable(lines, adjustments) && SpreadTo(lines, i, spread, adjustments, remaining)
    ensures var slot, line := lines[i].0, lines[i].1;
            var share := Share(Left(remaining, slot), line);
            Fits(Left(remaining, slot) - share) && Fits(line + share)
            && SpreadTo(lines, i + 1, Grown(spread, slot, line + share), adjustments, Shared(remaining, slot, share))
  {
    hide SlotState, SameSlots, KeysIn, Share, Left;
    var slot, line := lines[i].0, lines[i].1;
    assert line >= 1;
    hide Positive, Spreadable;
    var share := Share(Left(remaining, slot), line);
    SlotNext(lines, i, spread, adjustments, remaining, slot);
    SlotsGrow(lines, i, spread, adjustments, remaining, line + share);
    forall s
      ensures SlotState(lines[..i + 1], spread + [(slot, line + share)], Left(adjustments, s),
                        Left(Shared(remaining, slot, share), s), s)
    {
      SlotNext(lines, i, spread, adjustments, remaining, s);
    }
  }

  lemma {:induction false} SpreadStart(lines: Lines, adjustments: map<Slot, i64>)
    requires Spreadable(lines, adjustments)
    ensures SpreadTo(lines, 0, [], adjustments, adjustments) && Positive(lines)
  {
    assert lines[..0] == [];
  }

  ghost predicate Covered(lines: Lines, adjustments: map<Slot, i64>) {
    forall slot :: slot in KeysIn(lines) ==> Count(lines, slot) <= SumFor(lines, slot) + Left(adjustments, slot)
  }

  /** The lines after spreading: at least one each, and per slot the lines plus the adjustment. */
  ghost predicate SpreadOver(lines: Lines, adjustments: map<Slot, i64>, spread: Lines) {
    SameSlots(lines, spread) && Positive(spread)
    && forall slot :: SumFor(spread, slot) == SumFor(lines, slot) + Left(adjustments, slot)
  }

  predicate AllSpent(remaining: map<Slot, i64>) {
    forall slot :: slot in remaining ==> remaining[slot] == 0
  }

  lemma {:induction false} SpreadDone(lines: Lines, spread: Lines, adjustments: map<Slot, i64>, remaining: map<Slot, i64>)
    requires Spreadable(lines, adjustments) && SpreadTo(lines, |lines|, spread, adjustments, remaining)
    ensures AllSpent(remaining) <==> Covered(lines, adjustments)
    ensures AllSpent(remaining) ==> SpreadOver(lines, adjustments, spread)
  {
    assert lines[..|lines|] == lines;
    assert remaining.Keys == KeysIn(lines);
    forall slot | slot in KeysIn(lines)
      ensures remaining[slot] == 0 <==> Count(lines, slot) <= SumFor(lines, slot) + Left(adjustments, slot)
    {
      SlotDone(lines, spread, Left(adjustments, slot), Left(remaining, slot), slot);
    }
    if AllSpent(remaining) {
      forall slot
        ensures SumFor(spread, slot) == SumFor(lines, slot) + Left(adjustments, slot)
      {
        assert SlotState(lines, spread, Left(adjustments, slot), Left(remaining, slot), slot);
      }
    }
  }

  /**
   * The greedy spread. It succeeds exactly when every slot's final charge is at least its number of
   * lines, and then every line is at least one and each slot's lines sum to its charge.
   */
  method Spread(lines: Lines, adjustments: map<Slot, i64>) returns (r: Result<Lines>)
    requires Spreadable(lines, adjustments)
    ensures r.Ok? <==> Covered(lines, adjustments)
    ensures r.Ok? ==> SpreadOver(lines, adjustments, r.value)
  {
    hide SpreadTo, Covered, SpreadOver, Spreadable, Share, Left, Shared, Grown, Positive, SlotState, SameSlots, Count, SumFor, KeysIn, AllSpent;
    SpreadStart(lines, adjustments);
    var remaining: map<Slot, i64>, spread: Lines := adjustments, [];
    for i := 0 to |lines|
      invariant SpreadTo(lines, i, spread, adjustments, remaining)
    {
      SpreadNext(lines, i, spread, adjustments, remaining);
      var slot, line := lines[i].0, lines[i].1;
      // A fixed adjustment belongs to the cart, so each line takes only the share that keeps it positive.
      var share := Share(Left(remaining, slot), line);
      spread, remaining := Grown(spread, slot, line + share), Shared(remaining, slot, share);
    }
    SpreadDone(lines, spread, adjustments, remaining);
    r := if AllSpent(remaining) then Ok(spread) else Err("nonpositive_purchase");
  }

  // One item's lines.

  predicate KnownSlot(facts: Facts, slot: Slot, currency: string) {
    FactAt(facts, slot).Some? && FactAt(facts, slot).value.money.currency == currency
  }

  predicate ValidAllocations(raw: seq<Split>, item: CartItem, month: string, facts: Facts) {
    raw != []
    && (forall i :: 0 <= i < |raw| ==>
          !Blank(raw[i].categoryId) && raw[i].amount.currency == item.amount.currency && raw[i].amount.units > 0
          && KnownSlot(facts, Slot(raw[i].categoryId, month), item.amount.currency))
    && (forall i, j :: 0 <= i < j < |raw| ==> raw[i].categoryId != raw[j].categoryId)
    && Total(SplitDeltas(raw, month)) == item.amount.units
  }

  /** A line is charged whole to its own category, or split exactly over explicit allocations. */
  predicate ValidItem(item: CartItem, facts: Facts) {
    item.amount.units > 0 && MonthOf(item.purchaseAt).Some?
    && var month := MonthOf(item.purchaseAt).value;
       match item.allocations
       case None => KnownSlot(facts, Slot(item.categoryId, month), item.amount.currency)
       case Some(raw) => ValidAllocations(raw, item, month, facts)
  }

  function ItemLines(item: CartItem): Lines {
    match (MonthOf(item.purchaseAt), item.allocations)
    case (None, _) => []
    case (Some(month), None) => [(Slot(item.categoryId, month), item.amount.units)]
    case (Some(month), Some(raw)) => SplitDeltas(raw, month)
  }

  predicate ValidAllocation(split: Split, item: CartItem, month: string, facts: Facts) {
    !Blank(split.categoryId) && split.amount.currency == item.amount.currency && split.amount.units > 0
    && FactAt(facts, Slot(split.categoryId, month)).Some?
  }

  ghost predicate AllocatedTo(raw: seq<Split>, item: CartItem, month: string, facts: Facts, i: nat, seen: set<string>, sum: int)
    requires i <= |raw|
  {
    seen == (set s | s in raw[..i] :: s.categoryId)
    && (forall j :: 0 <= j < i ==> ValidAllocation(raw[j], item, month, facts))
    && (forall j, k :: 0 <= j < k < i ==> raw[j].categoryId != raw[k].categoryId)
    && sum == Total(SplitDeltas(raw, month)[..i]) && sum >= 0
  }

  lemma {:induction false} AllocationNext(raw: seq<Split>, item: CartItem, month: string, facts: Facts, i: nat, seen: set<string>, sum: int)
    requires i < |raw| && AllocatedTo(raw, item, month, facts, i, seen, sum)
    ensures ValidAllocation(raw[i], item, month, facts) && raw[i].categoryId !in seen ==>
              AllocatedTo(raw, item, month, facts, i + 1, seen + {raw[i].categoryId}, sum + raw[i].amount.units)
  {
    assert ValidAllocation(raw[i], item, month, facts) ==> raw[i].amount.units > 0;
    hide ValidAllocation;
    TotalNext(SplitDeltas(raw, month), i);
    hide Total;
    assert raw[..i + 1] == raw[..i] + [raw[i]];
  }

  lemma {:induction false} AllocationAt(raw: seq<Split>, item: CartItem, month: string, facts: Facts, i: nat, seen: set<string>, sum: int)
    requires i < |raw| && AllocatedTo(raw, item, month, facts, i, seen, sum) && ValidAllocations(raw, item, month, facts)
    ensures ValidAllocation(raw[i], item, month, facts) && raw[i].categoryId !in seen && Fits(sum + raw[i].amount.units)
  {
    TotalNext(SplitDeltas(raw, month), i);
    hide Blank;
    PositiveTotals(SplitDeltas(raw, month), i + 1);
  }

  method NormalizeAllocations(raw: seq<Split>, item: CartItem, month: string, facts: Facts) returns (r: Result<Lines>)
    ensures r.Ok? <==> ValidAllocations(raw, item, month, facts)
    ensures r.Ok? ==> r.value == SplitDeltas(raw, month)
  {
    if raw == [] {
      return Err("invalid_category_allocation");
    }
    var seen: set<string>, sum: i64 := {}, 0;
    assert AllocatedTo(raw, item, month, facts, 0, seen, sum);
    for i := 0 to |raw|
      invariant AllocatedTo(raw, item, month, facts, i, seen, sum)
    {
      hide AllocatedTo, ValidAllocations;
      AllocationNext(raw, item, month, facts, i, seen, sum);
      if ValidAllocations(raw, item, month, facts) {
        AllocationAt(raw, item, month, facts, i, seen, sum);
      }
      var split := raw[i];
      if Blank(split.categoryId) || split.categoryId in seen || split.amount.currency != item.amount.currency
         || split.amount.units <= 0
      {
        return Err("invalid_category_allocation");
      }
      if FactAt(facts, Slot(split.categoryId, month)).None? {
        return Err("category_missing");
      }
      sum :- CheckedAdd(sum, split.amount.units);
      seen := seen + {split.categoryId};
    }
    assert SplitDeltas(raw, month)[..|raw|] == SplitDeltas(raw, month);
    if sum != item.amount.units {
      return Err("category_allocation_mismatch");
    }
    if exists i :: 0 <= i < |raw| && FactAt(facts, Slot(raw[i].categoryId, month)).value.money.currency != item.amount.currency {
      return Err("currency_mismatch");
    }
    r := Ok(SplitDeltas(raw, month));
  }

  method NormalizeItem(item: CartItem, facts: Facts) returns (r: Result<Lines>)
    ensures r.Ok? <==> ValidItem(item, facts)
    ensures r.Ok? ==> r.value == ItemLines(item)
  {
    if item.amount.units <= 0 {
      return Err("nonpositive_purchase");
    }
    if MonthOf(item.purchaseAt).None? {
      return Err("invalid_canonical_timestamp");
    }
    var month := MonthOf(item.purchaseAt).value;
    match item.allocations {
      case None =>
        var fact := FactAt(facts, Slot(item.categoryId, month));
        if fact.None? {
          return Err("category_missing");
        }
        if fact.value.money.currency != item.amount.currency {
          return Err("currency_mismatch");
        }
        r := Ok([(Slot(item.categoryId, month), item.amount.units)]);
      case Some(raw) =>
        r := NormalizeAllocations(raw, item, month, facts);
    }
  }

  lemma {:induction false} ItemLinesTotal(item: CartItem, facts: Facts)
    requires ValidItem(item, facts)
    ensures Positive(ItemLines(item)) && ItemLines(item) != [] && Total(ItemLines(item)) == item.amount.units
  {
  }

  // All items.

  ghost predicate ValidItems(items: seq<CartItem>, facts: Facts) {
    forall i :: 0 <= i < |items| ==> ValidItem(items[i], facts) && items[i].amount.currency == items[0].amount.currency
  }

  function AllLines(items: seq<CartItem>): Lines {
    if items == [] then [] else AllLines(items[..|items| - 1]) + ItemLines(items[|items| - 1])
  }

  ghost predicate LinesUpTo(items: seq<CartItem>, facts: Facts, i: nat, lines: Lines)
    requires i <= |items|
  {
    ValidItems(items[..i], facts) && lines == AllLines(items[..i]) && Positive(lines)
  }

  lemma {:induction false} ItemsNext(items: seq<CartItem>, facts: Facts, i: nat)
    requires i < |items| && ValidItems(items[..i], facts)
    requires ValidItem(items[i], facts) && items[i].amount.currency == items[0].amount.currency
    ensures ValidItems(items[..i + 1], facts)
  {
    hide ValidItem;
    assert forall j :: 0 <= j < i ==> items[..i + 1][j] == items[..i][j];
  }

  lemma {:induction false} LinesNext(items: seq<CartItem>, facts: Facts, i: nat, lines: Lines)
    requires i < |items| && LinesUpTo(items, facts, i, lines)
    requires ValidItem(items[i], facts) && items[i].amount.currency == items[0].amount.currency
    ensures LinesUpTo(items, facts, i + 1, lines + ItemLines(items[i]))
    ensures Total(lines + ItemLines(items[i])) == Total(lines) + items[i].amount.units
  {
    hide ValidItem, ItemLines, ValidItems;
    ItemsNext(items, facts, i);
    ItemLinesTotal(items[i], facts);
    TotalConcat(lines, ItemLines(items[i]));
    assert items[..i + 1][..i] == items[..i];
  }

  lemma {:induction false} PrefixTotal(items: seq<CartItem>, facts: Facts, i: nat)
    requires i <= |items| && ValidItems(items, facts)
    ensures LinesUpTo(items, facts, i, AllLines(items[..i]))
    ensures 0 <= Total(AllLines(items[..i])) <= Total(AllLines(items))
    decreases |items| - i, 1
  {
    assert i < |items| ==> items[i].amount.units > 0;
    hide ValidItem, ItemLines;
    PrefixLines(items, facts, i);
    if i < |items| {
      PrefixTotal(items, facts, i + 1);
      LinesNext(items, facts, i, AllLines(items[..i]));
      assert items[..i + 1][..i] == items[..i];
    } else {
      assert items[..i] == items;
    }
    PositiveTotals(AllLines(items[..i]), |AllLines(items[..i])|);
    assert AllLines(items[..i])[..|AllLines(items[..i])|] == AllLines(items[..i]);
  }

  lemma {:induction false} PrefixLines(items: seq<CartItem>, facts: Facts, i: nat)
    requires i <= |items| && ValidItems(items, facts)
    ensures LinesUpTo(items, facts, i, AllLines(items[..i]))
    decreases i
  {
    hide ValidItem, ItemLines;
    if i > 0 {
      PrefixLines(items, facts, i - 1);
      LinesNext(items, facts, i - 1, AllLines(items[..i - 1]));
      assert items[..i][..i - 1] == items[..i - 1];
    }
  }

  method CollectLines(items: seq<CartItem>, facts: Facts) returns (r: Result<(Lines, i64)>)
    ensures r.Ok? <==> ValidItems(items, facts) && Fits(Total(AllLines(items)))
    ensures r.Ok? ==> r.value.0 == AllLines(items) && Positive(r.value.0) && r.value.1 == Total(r.value.0)
  {
    PrefixLines([], facts, 0);
    assert items[..0] == [];
    hide ValidItem, ItemLines, Positive;
    var lines, subtotal: i64 := [], 0;
    for i := 0 to |items|
      invariant LinesUpTo(items, facts, i, lines) && subtotal == Total(lines)
    {
      if items[i].amount.currency != items[0].amount.currency {
        return Err("currency_mismatch");
      }
      var more := NormalizeItem(items[i], facts);
      if more.Err? {
        return Err(more.error);
      }
      LinesNext(items, facts, i, lines);
      var next := CheckedAdd(subtotal, items[i].amount.units);
      if next.Err? {
        if ValidItems(items, facts) {
          PrefixTotal(items, facts, i + 1);
        }
        return Err(next.error);
      }
      subtotal := next.value;
      lines := lines + more.value;
    }
    assert items[..|items|] == items;
    r := Ok((lines, subtotal));
  }

  // Cart adjustments.

  function AdjustmentSlot(a: Adjustment, facts: Facts): Slot {
    Slot(a.categoryId, facts.asOfMonth)
  }

  datatype Kind = Tax | Fee | Discount

  function KindOf(kind: string): Option<Kind> {
    if kind == "tax" then Some(Tax) else if kind == "fee" then Some(Fee) else if kind == "discount" then Some(Discount) else None
  }

  /** A positive tax, fee or discount on a category that the cart buys from in the current month. */
  predicate ValidAdjustment(a: Adjustment, facts: Facts, currency: string, lines: Lines) {
    !Blank(a.categoryId) && a.amount.currency == currency && a.amount.units > 0
    && KnownSlot(facts, AdjustmentSlot(a, facts), currency)
    && FactAt(facts, AdjustmentSlot(a, facts)).value.rest.period == Current
    && AdjustmentSlot(a, facts) in KeysIn(lines) && KindOf(a.kind).Some?
  }

  function SumOfKind(adjustments: seq<Adjustment>, kind: Kind): int {
    if adjustments == [] then 0
    else
      var last := adjustments[|adjustments| - 1];
      SumOfKind(adjustments[..|adjustments| - 1], kind) + if KindOf(last.kind) == Some(kind) then last.amount.units else 0
  }

  function SignedAmount(a: Adjustment): i64 {
    if KindOf(a.kind) == Some(Discount) && CanNegate(a.amount.units) then Neg(a.amount.units) else a.amount.units
  }

  function Signed(adjustments: seq<Adjustment>, facts: Facts): (r: Lines)
    ensures |r| == |adjustments|
    ensures forall i :: 0 <= i < |r| ==> r[i] == (AdjustmentSlot(adjustments[i], facts), SignedAmount(adjustments[i]))
  {
    seq(|adjustments|, i requires 0 <= i < |adjustments| =>
      (AdjustmentSlot(adjustments[i], facts), SignedAmount(adjustments[i])))
  }

  datatype Adjusted = Adjusted(tax: i64, fee: i64, discount: i64) {
    function Of(kind: Kind): i64 {
      match kind case Tax => tax case Fee => fee case Discount => discount
    }

    function With(kind: Kind, units: i64): Adjusted {
      match kind
      case Tax => this.(tax := units)
      case Fee => this.(fee := units)
      case Discount => this.(discount := units)
    }
  }

  ghost predicate AdjustedTo(adjustments: seq<Adjustment>, facts: Facts, currency: string, lines: Lines, i: nat, a: Adjusted)
    requires i <= |adjustments|
  {
    (forall j :: 0 <= j < i ==> ValidAdjustment(adjustments[j], facts, currency, lines))
    && (forall kind :: a.Of(kind) == SumOfKind(adjustments[..i], kind) && a.Of(kind) >= 0)
    && Total(Signed(adjustments, facts)[..i]) == a.tax + a.fee - a.discount
  }

  ghost predicate AdjustmentsFit(adjustments: seq<Adjustment>, facts: Facts, currency: string, lines: Lines) {
    (forall j :: 0 <= j < |adjustments| ==> ValidAdjustment(adjustments[j], facts, currency, lines))
    && forall kind :: Fits(SumOfKind(adjustments, kind))
  }

  lemma {:induction false} KindPrefix(adjustments: seq<Adjustment>, kind: Kind, i: nat)
    requires i <= |adjustments| && forall j :: 0 <= j < |adjustments| ==> adjustments[j].amount.units > 0
    ensures 0 <= SumOfKind(adjustments[..i], kind) <= SumOfKind(adjustments, kind)
    decreases |adjustments|
  {
    if i == |adjustments| {
      assert adjustments[..i] == adjustments;
      if i > 0 {
        KindPrefix(adjustments[..i - 1], kind, i - 1);
        assert adjustments[..i - 1][..i - 1] == adjustments[..i - 1];
      }
    } else {
      KindPrefix(adjustments[..|adjustments| - 1], kind, i);
      assert adjustments[..|adjustments| - 1][..i] == adjustments[..i];
    }
  }

  lemma {:induction false} KindNext(adjustments: seq<Adjustment>, kind: Kind, i: nat)
    requires i < |adjustments|
    ensures SumOfKind(adjustments[..i + 1], kind)
         == SumOfKind(adjustments[..i], kind) + if KindOf(adjustments[i].kind) == Some(kind) then adjustments[i].amount.units else 0
  {
    assert adjustments[..i + 1][..i] == adjustments[..i];
  }

  /** A running sum that overflows at one adjustment overflows for good. */
  lemma {:induction false} AdjustmentOverflows(adjustments: seq<Adjustment>, facts: Facts, currency: string, lines: Lines, i: nat, kind: Kind)
    requires i < |adjustments| && KindOf(adjustments[i].kind) == Some(kind)
    requires SumOfKind(adjustments[..i], kind) + adjustments[i].amount.units > I64_MAX
    ensures !AdjustmentsFit(adjustments, facts, currency, lines)
  {
    if forall j :: 0 <= j < |adjustments| ==> ValidAdjustment(adjustments[j], facts, currency, lines) {
      PositiveAdjustments(adjustments, facts, currency, lines);
      hide *;
      KindNext(adjustments, kind, i);
      KindPrefix(adjustments, kind, i + 1);
    }
  }

  lemma {:induction false} PositiveAdjustments(adjustments: seq<Adjustment>, facts: Facts, currency: string, lines: Lines)
    requires forall j :: 0 <= j < |adjustments| ==> ValidAdjustment(adjustments[j], facts, currency, lines)
    ensures forall j :: 0 <= j < |adjustments| ==> adjustments[j].amount.units > 0
  {
  }

  lemma {:induction false} SignedStep(a: Adjusted, kind: Kind, adjustment: Adjustment)
    requires KindOf(adjustment.kind) == Some(kind) && 0 < adjustment.amount.units
    requires Fits((a.Of(kind) as int) + adjustment.amount.units)
    ensures var b := a.With(kind, a.Of(kind) + adjustment.amount.units);
            SignedAmount(adjustment) == (b.tax - a.tax as int) + (b.fee - a.fee as int) - (b.discount - a.discount as int)
            && forall k :: b.Of(k) == a.Of(k) + if k == kind then adjustment.amount.units else 0
  {
  }

  lemma {:induction false} AdjustedNext(adjustments: seq<Adjustment>, facts: Facts, currency: string, lines: Lines, i: nat, a: Adjusted, kind: Kind)
    requires i < |adjustments| && AdjustedTo(adjustments, facts, currency, lines, i, a)
    requires ValidAdjustment(adjustments[i], facts, currency, lines) && KindOf(adjustments[i].kind) == Some(kind)
    ensures (a.Of(kind) as int) + adjustments[i].amount.units == SumOfKind(adjustments[..i + 1], kind)
    ensures Fits((a.Of(kind) as int) + adjustments[i].amount.units) ==>
              AdjustedTo(adjustments, facts, currency, lines, i + 1, a.With(kind, a.Of(kind) + adjustments[i].amount.units))
  {
    assert adjustments[i].amount.units > 0;
    TotalNext(Signed(adjustments, facts), i);
    hide ValidAdjustment, Signed, SignedAmount, KindOf, SumOfKind, Total;
    KindNext(adjustments, kind, i);
    if Fits((a.Of(kind) as int) + adjustments[i].amount.units) {
      SignedStep(a, kind, adjustments[i]);
      var b := a.With(kind, a.Of(kind) + adjustments[i].amount.units);
      forall k
        ensures b.Of(k) == SumOfKind(adjustments[..i + 1], k)
      {
        KindNext(adjustments, k, i);
      }
    }
  }

  method CheckAdjustment(a: Adjustment, facts: Facts, currency: string, lines: Lines) returns (r: Result<Kind>)
    ensures r.Ok? <==> ValidAdjustment(a, facts, currency, lines)
    ensures r.Ok? ==> KindOf(a.kind) == Some(r.value)
  {
    if Blank(a.categoryId) || a.amount.currency != currency || a.amount.units <= 0 {
      return Err("invalid_cart_adjustment");
    }
    var fact := FactAt(facts, AdjustmentSlot(a, facts));
    if fact.None? {
      return Err("category_missing");
    }
    if fact.value.rest.period != Current {
      return Err("category_period_mismatch");
    }
    if fact.value.money.currency != currency {
      return Err("currency_mismatch");
    }
    if AdjustmentSlot(a, facts) !in KeysIn(lines) {
      return Err("adjustment_category_missing_from_cart");
    }
    r := if KindOf(a.kind).Some? then Ok(KindOf(a.kind).value) else Err("invalid_cart_adjustment_kind");
  }

  lemma {:induction false} AdjustedStart(adjustments: seq<Adjustment>, facts: Facts, currency: string, lines: Lines)
    ensures AdjustedTo(adjustments, facts, currency, lines, 0, Adjusted(0, 0, 0))
  {
    assert adjustments[..0] == [] && Signed(adjustments, facts)[..0] == [];
  }

  lemma {:induction false} AdjustedAll(adjustments: seq<Adjustment>, facts: Facts, currency: string, lines: Lines, a: Adjusted)
    requires AdjustedTo(adjustments, facts, currency, lines, |adjustments|, a)
    ensures AdjustmentsFit(adjustments, facts, currency, lines)
  {
    assert adjustments[..|adjustments|] == adjustments;
    forall kind
      ensures Fits(SumOfKind(adjustments, kind))
    {
      assert a.Of(kind) == SumOfKind(adjustments, kind);
    }
  }

  method CollectAdjustments(adjustments: seq<Adjustment>, facts: Facts, currency: string, lines: Lines) returns (r: Result<Adjusted>)
    ensures r.Ok? ==> AdjustedTo(adjustments, facts, currency, lines, |adjustments|, r.value)
    ensures r.Ok? <==> AdjustmentsFit(adjustments, facts, currency, lines)
  {
    var a := Adjusted(0, 0, 0);
    AdjustedStart(adjustments, facts, currency, lines);
    for i := 0 to |adjustments|
      invariant AdjustedTo(adjustments, facts, currency, lines, i, a)
    {
      var kind := CheckAdjustment(adjustments[i], facts, currency, lines);
      if kind.Err? {
        return Err(kind.error);
      }
      hide AdjustedTo, AdjustmentsFit, SumOfKind, KindOf;
      AdjustedNext(adjustments, facts, currency, lines, i, a, kind.value);
      var sum := CheckedAdd(a.Of(kind.value), adjustments[i].amount.units);
      if sum.Err? {
        KindNext(adjustments, kind.value, i);
        AdjustmentOverflows(adjustments, facts, currency, lines, i, kind.value);
        return Err(sum.error);
      }
      a := a.With(kind.value, sum.value);
    }
    AdjustedAll(adjustments, facts, currency, lines, a);
    r := Ok(a);
  }

  // The whole cart.

  /** What a charged cart says: each slot's lines and adjustments, and a total that is their sum. */
  ghost predicate Charged(items: seq<CartItem>, adjustments: seq<Adjustment>, facts: Facts, c: Charges) {
    items != [] && ValidItems(items, facts) && c.lines == AllLines(items) && Positive(c.lines)
    && c.adjustments == Signed(adjustments, facts)
    && (forall i :: 0 <= i < |adjustments| ==> ValidAdjustment(adjustments[i], facts, c.currency, c.lines))
    && c.subtotal == Total(c.lines) && c.tax == SumOfKind(adjustments, Tax) && c.fee == SumOfKind(adjustments, Fee)
    && c.discount == SumOfKind(adjustments, Discount)
    && c.total == c.subtotal + c.tax + c.fee - c.discount && c.total > 0
    && ChargesSum(c.lines, c.adjustments, c.categories) && SumMap(c.categories) == c.total
    && RunsFit(c.adjustments, |c.adjustments|) && KeysIn(c.adjustments) <= KeysIn(c.lines)
  }

  /** Every slot bought from, charged positively with its lines and adjustments. */
  ghost predicate ChargesSum(lines: Lines, adjustments: Lines, categories: map<Slot, i64>) {
    categories.Keys == KeysIn(lines)
    && forall slot :: slot in categories ==>
         categories[slot] == SumFor(lines, slot) + SumFor(adjustments, slot) && categories[slot] > 0
  }

  /** The adjustments of the slots already visited are in the totals. */
  ghost predicate ApplyingTo(lines: Lines, adjustments: Lines, totals: map<Slot, i64>, left: map<Slot, i64>, categories: map<Slot, i64>) {
    left.Keys <= totals.Keys && (forall slot :: slot in left ==> left[slot] == totals[slot])
    && categories.Keys == KeysIn(lines)
    && (forall slot :: slot in categories ==>
          categories[slot] == SumFor(lines, slot) + (if slot in left then 0 else SumFor(adjustments, slot))
          && (slot !in left ==> categories[slot] > 0))
    && SumMap(categories) + SumMap(left) == Total(lines) + Total(adjustments)
  }

  lemma {:induction false} ApplyStart(lines: Lines, adjustments: Lines, base: map<Slot, i64>, totals: map<Slot, i64>)
    requires Positive(lines) && Tallies(base, lines) && Tallies(totals, adjustments)
    ensures ApplyingTo(lines, adjustments, totals, totals, base)
  {
    forall slot | slot in base
      ensures base[slot] == SumFor(lines, slot) && (slot !in totals ==> base[slot] > 0 && SumFor(adjustments, slot) == 0)
    {
      PositiveSums(lines, slot);
      assert Left(base, slot) == SumFor(lines, slot) && Left(totals, slot) == SumFor(adjustments, slot);
    }
  }

  lemma {:induction false} ApplyNext(lines: Lines, adjustments: Lines, totals: map<Slot, i64>, left: map<Slot, i64>, categories: map<Slot, i64>, slot: Slot)
    requires ApplyingTo(lines, adjustments, totals, left, categories) && Tallies(totals, adjustments)
    requires slot in left && slot in categories && 0 < (categories[slot] as int) + left[slot] <= I64_MAX
    ensures ApplyingTo(lines, adjustments, totals, left - {slot}, categories[slot := categories[slot] + left[slot]])
  {
    SumMapRemove(left, slot);
    SumMapUpdate(categories, slot, categories[slot] + left[slot]);
    assert Left(totals, slot) == SumFor(adjustments, slot);
  }

  lemma {:induction false} ApplyDone(lines: Lines, adjustments: Lines, totals: map<Slot, i64>, categories: map<Slot, i64>)
    requires ApplyingTo(lines, adjustments, totals, map[], categories)
    ensures ChargesSum(lines, adjustments, categories) && SumMap(categories) == Total(lines) + Total(adjustments)
    ensures ChargesFit(lines, adjustments)
  {
  }

  lemma {:induction false} ApplyTarget(lines: Lines, adjustments: Lines, totals: map<Slot, i64>, left: map<Slot, i64>, categories: map<Slot, i64>, slot: Slot)
    requires ApplyingTo(lines, adjustments, totals, left, categories) && Tallies(totals, adjustments)
    requires KeysIn(adjustments) <= KeysIn(lines) && slot in left
    ensures slot in categories && slot in KeysIn(lines)
    ensures (categories[slot] as int) + left[slot] == SumFor(lines, slot) + SumFor(adjustments, slot)
  {
  }

  function AdjustedCharge(base: i64, adjustment: i64): (r: Result<i64>)
    ensures r.Ok? <==> 0 < (base as int) + adjustment <= I64_MAX
    ensures r.Ok? ==> r.value == base + adjustment
  {
    var after :- CheckedAdd(base, adjustment);
    if after <= 0 then Err("nonpositive_category_charge") else Ok(after)
  }

  /** Every slot's charge is positive and representable. */
  ghost predicate ChargesFit(lines: Lines, adjustments: Lines) {
    forall slot :: slot in KeysIn(lines) ==> 0 < SumFor(lines, slot) + SumFor(adjustments, slot) <= I64_MAX
  }

  lemma {:induction false} ChargeRefused(lines: Lines, adjustments: Lines, slot: Slot)
    requires slot in KeysIn(lines) && !(0 < SumFor(lines, slot) + SumFor(adjustments, slot) <= I64_MAX)
    ensures !ChargesFit(lines, adjustments)
  {
  }

  lemma {:induction false} ApplyStep(lines: Lines, adjustments: Lines, totals: map<Slot, i64>, left: map<Slot, i64>,
                                     categories: map<Slot, i64>, slot: Slot)
    requires ApplyingTo(lines, adjustments, totals, left, categories) && Tallies(totals, adjustments)
    requires KeysIn(adjustments) <= KeysIn(lines) && slot in left
    ensures slot in categories
    ensures var after := AdjustedCharge(categories[slot], left[slot]);
            if after.Ok? then ApplyingTo(lines, adjustments, totals, left - {slot}, categories[slot := after.value])
            else !ChargesFit(lines, adjustments)
  {
    hide ApplyingTo, Tallies, ChargesFit, KeysIn;
    ApplyTarget(lines, adjustments, totals, left, categories, slot);
    var after := AdjustedCharge(categories[slot], left[slot]);
    if after.Ok? {
      ApplyNext(lines, adjustments, totals, left, categories, slot);
    } else {
      ChargeRefused(lines, adjustments, slot);
    }
  }

  method ApplyAdjustments(lines: Lines, adjustments: Lines, base: map<Slot, i64>, totals: map<Slot, i64>)
    returns (r: Result<map<Slot, i64>>)
    requires Positive(lines) && Tallies(base, lines) && Tallies(totals, adjustments) && KeysIn(adjustments) <= KeysIn(lines)
    ensures r.Ok? ==> ChargesSum(lines, adjustments, r.value)
    ensures r.Ok? ==> SumMap(r.value) == Total(lines) + Total(adjustments)
    ensures r.Ok? <==> ChargesFit(lines, adjustments)
  {
    ApplyStart(lines, adjustments, base, totals);
    hide *;
    var left, categories := totals, base;
    while left != map[]
      invariant ApplyingTo(lines, adjustments, totals, left, categories)
      decreases |left|
    {
      var slot :| slot in left;
      ApplyStep(lines, adjustments, totals, left, categories, slot);
      var after := AdjustedCharge(categories[slot], left[slot]);
      if after.Err? {
        return Err(after.error);
      }
      categories := categories[slot := after.value];
      left := left - {slot};
    }
    ApplyDone(lines, adjustments, totals, categories);
    r := Ok(categories);
  }

  /** When a cart can be charged: valid parts, and every sum it forms representable and positive. */
  ghost predicate Chargeable(items: seq<CartItem>, adjustments: seq<Adjustment>, facts: Facts) {
    items != [] && ValidItems(items, facts)
    && var lines, signed := AllLines(items), Signed(adjustments, facts);
       var tax, fee, discount := SumOfKind(adjustments, Tax), SumOfKind(adjustments, Fee), SumOfKind(adjustments, Discount);
       Fits(Total(lines)) && AdjustmentsFit(adjustments, facts, items[0].amount.currency, lines)
       && RunsFit(signed, |signed|) && ChargesFit(lines, signed)
       && Fits(Total(lines) + tax) && 0 < Total(lines) + tax + fee - discount <= I64_MAX
  }

  lemma {:induction false} ChargeAssembled(items: seq<CartItem>, adjustments: seq<Adjustment>, facts: Facts, lines: Lines, subtotal: i64,
                        a: Adjusted, categories: map<Slot, i64>, total: i64)
    requires items != [] && ValidItems(items, facts) && lines == AllLines(items) && Positive(lines) && subtotal == Total(lines)
    requires AdjustedTo(adjustments, facts, items[0].amount.currency, lines, |adjustments|, a)
    requires RunsFit(Signed(adjustments, facts), |adjustments|) && KeysIn(Signed(adjustments, facts)) <= KeysIn(lines)
    requires ChargesSum(lines, Signed(adjustments, facts), categories)
    requires SumMap(categories) == Total(lines) + Total(Signed(adjustments, facts))
    requires total == subtotal + a.tax + a.fee - a.discount && total > 0
    ensures Charged(items, adjustments, facts,
                    Charges(items[0].amount.currency, subtotal, a.tax, a.fee, a.discount, total, lines,
                            Signed(adjustments, facts), categories))
    ensures SumMap(categories) == total && forall slot :: slot in categories ==> categories[slot] > 0
  {
    hide ValidItem, ValidItems, AllLines, Signed, SumOfKind, RunsFit, Positive, ValidAdjustment;
    AdjustedTotals(adjustments, facts, items[0].amount.currency, lines, a);
  }

  /** Charge the items and adjustments. The running conservation check is an assertion here: it cannot fire. */
  method ChargeCart(items: seq<CartItem>, adjustments: seq<Adjustment>, facts: Facts) returns (r: Result<Charges>)
    ensures r.Ok? ==> Charged(items, adjustments, facts, r.value)
    ensures r.Ok? <==> Chargeable(items, adjustments, facts)
  {
    hide ValidItems, AllLines, Charged, RunsFit, Positive, AdjustedTo, ChargesSum, ChargesFit, AdjustmentsFit, SumOfKind;
    if items == [] {
      return Err("empty_purchase_scenario");
    }
    var currency := items[0].amount.currency;
    var collected :- CollectLines(items, facts);
    var lines, subtotal := collected.0, collected.1;
    var adjusted :- CollectAdjustments(adjustments, facts, currency, lines);
    var signed := Signed(adjustments, facts);
    AdjustedTotals(adjustments, facts, currency, lines, adjusted);
    SignedSlots(adjustments, facts, currency, lines, adjusted);
    var categories :- ChargeCategories(lines, signed);
    var total :- CartTotal(subtotal, adjusted);
    ChargeAssembled(items, adjustments, facts, lines, subtotal, adjusted, categories, total);
    var sum := SumValues(categories);
    assert sum == Ok(total);
    r := Ok(Charges(currency, subtotal, adjusted.tax, adjusted.fee, adjusted.discount, total, lines, signed, categories));
  }

  method CartTotal(subtotal: i64, a: Adjusted) returns (r: Result<i64>)
    requires a.tax >= 0 && a.fee >= 0 && a.discount >= 0
    ensures r.Ok? <==> Fits(subtotal + a.tax) && 0 < subtotal + a.tax + a.fee - a.discount <= I64_MAX
    ensures r.Ok? ==> r.value == subtotal + a.tax + a.fee - a.discount
  {
    var taxed :- CheckedAdd(subtotal, a.tax);
    var charges := CheckedSub(a.fee, a.discount);
    var total :- CheckedAdd(taxed, charges.value);
    r := if total <= 0 then Err("nonpositive_cart_total") else Ok(total);
  }

  lemma {:induction false} AdjustedTotals(adjustments: seq<Adjustment>, facts: Facts, currency: string, lines: Lines, a: Adjusted)
    requires AdjustedTo(adjustments, facts, currency, lines, |adjustments|, a)
    ensures Total(Signed(adjustments, facts)) == a.tax + a.fee - a.discount
    ensures a.tax == SumOfKind(adjustments, Tax) >= 0 && a.fee == SumOfKind(adjustments, Fee) >= 0
    ensures a.discount == SumOfKind(adjustments, Discount) >= 0
  {
    hide ValidAdjustment, SumOfKind;
    assert adjustments[..|adjustments|] == adjustments;
    assert Signed(adjustments, facts)[..|adjustments|] == Signed(adjustments, facts);
    assert a.tax == a.Of(Tax) && a.fee == a.Of(Fee) && a.discount == a.Of(Discount);
  }

  lemma {:induction false} SignedSlots(adjustments: seq<Adjustment>, facts: Facts, currency: string, lines: Lines, a: Adjusted)
    requires AdjustedTo(adjustments, facts, currency, lines, |adjustments|, a)
    ensures KeysIn(Signed(adjustments, facts)) <= KeysIn(lines)
  {
    forall i | 0 <= i < |adjustments|
      ensures AdjustmentSlot(adjustments[i], facts) in KeysIn(lines)
    {
      assert ValidAdjustment(adjustments[i], facts, currency, lines);
    }
    hide ValidAdjustment, AdjustedTo;
  }

  method ChargeCategories(lines: Lines, signed: Lines) returns (r: Result<map<Slot, i64>>)
    requires Positive(lines) && Fits(Total(lines)) && KeysIn(signed) <= KeysIn(lines)
    ensures r.Ok? ==> ChargesSum(lines, signed, r.value) && SumMap(r.value) == Total(lines) + Total(signed)
    ensures r.Ok? <==> RunsFit(signed, |signed|) && ChargesFit(lines, signed)
  {
    PositiveRunsFit(lines);
    hide RunsFit, Positive, Tallies, ChargesFit;
    var base := Tally(lines);
    assert base.Ok?;
    var totals :- Tally(signed);
    r := ApplyAdjustments(lines, signed, base.value, totals);
  }

  /** The engine lines of a charged cart. */
  ghost predicate Distributes(c: Charges, engine: Lines) {
    SameSlots(c.lines, engine) && Positive(engine) && Total(engine) == c.total
    && forall slot :: slot in c.categories ==> SumFor(engine, slot) == c.categories[slot]
  }

  /** Every line can hold at least one unit of its slot's charge. */
  ghost predicate RoomForLines(c: Charges) {
    forall slot :: slot in c.categories ==> Count(c.lines, slot) <= c.categories[slot]
  }

  lemma {:induction false} ProjectionOf(items: seq<CartItem>, adjustments: seq<Adjustment>, facts: Facts, c: Charges, totals: map<Slot, i64>)
    requires Charged(items, adjustments, facts, c) && Tallies(totals, c.adjustments)
    ensures Spreadable(c.lines, totals) && (Covered(c.lines, totals) <==> RoomForLines(c))
  {
    hide ValidItem, ValidItems, AllLines, ValidAdjustment, Signed, SumOfKind, RunsFit;
    assert totals.Keys <= KeysIn(c.lines);
    forall slot
      ensures slot in c.categories ==> SumFor(c.lines, slot) + Left(totals, slot) == c.categories[slot]
      ensures Fits(SumFor(c.lines, slot) + Left(totals, slot))
    {
      PositiveSums(c.lines, slot);
      assert Left(totals, slot) == SumFor(c.adjustments, slot);
    }
  }

  lemma {:induction false} ProjectionAdds(items: seq<CartItem>, adjustments: seq<Adjustment>, facts: Facts, c: Charges, totals: map<Slot, i64>, engine: Lines)
    requires Charged(items, adjustments, facts, c) && Tallies(totals, c.adjustments) && SpreadOver(c.lines, totals, engine)
    ensures Distributes(c, engine)
  {
    forall slot | slot in c.categories
      ensures SumFor(engine, slot) == c.categories[slot]
    {
      assert Left(totals, slot) == SumFor(c.adjustments, slot);
    }
    SlotsSame(c.lines, engine);
    SumsToTotal(engine, c.categories);
  }

  lemma {:induction false} SlotsSame(a: Lines, b: Lines)
    requires SameSlots(a, b)
    ensures KeysIn(a) == KeysIn(b)
  {
    forall slot
      ensures slot in KeysIn(a) <==> slot in KeysIn(b)
    {
      if slot in KeysIn(a) {
        var i :| 0 <= i < |a| && a[i].0 == slot;
        assert b[i] in b;
      }
      if slot in KeysIn(b) {
        var i :| 0 <= i < |b| && b[i].0 == slot;
        assert a[i] in a;
      }
    }
  }

  /**
   * The engine lines. A charged cart projects exactly when each category's final charge is at least its
   * number of lines; then the lines are positive and sum to each charge and to the cart total.
   */
  method ProjectCart(ghost items: seq<CartItem>, ghost adjustments: seq<Adjustment>, ghost facts: Facts, c: Charges)
    returns (r: Result<Lines>)
    requires Charged(items, adjustments, facts, c)
    ensures r.Ok? <==> RoomForLines(c)
    ensures r.Ok? ==> Distributes(c, r.value)
  {
    var totals := Tally(c.adjustments);
    assert totals.Ok?;
    ProjectionOf(items, adjustments, facts, c, totals.value);
    hide *;
    r := Spread(c.lines, totals.value);
    if r.Ok? {
      ProjectionAdds(items, adjustments, facts, c, totals.value, r.value);
    }
  }
}
