/** The category moves a decision card proposes: exact, complete, and within every donor's floor. */
module Funding {
  import opened CheckedMoney
  import opened Rows
  import opened Action
  import opened Ordered
  import opened Sorting
  import opened Sums
  import opened Donors

  // What the collected shortfalls and surpluses say, slot by slot.

  ghost predicate NeedOf(c: Card, n: Need) {
    n.amount == Shortfall(c, n.slot) > 0 && n.currency == CurrencyAt(c.facts, n.slot)
  }

  ghost predicate NeedsOver(c: Card, slots: seq<Slot>, needs: seq<Need>) {
    (forall i :: 0 <= i < |needs| ==> needs[i].slot in slots && NeedOf(c, needs[i]))
    && (forall i, j :: 0 <= i < j < |needs| ==> needs[i].slot != needs[j].slot)
    && forall slot :: slot in slots && Shortfall(c, slot) > 0 ==> NeedAt(needs, slot)
  }

  lemma {:induction false} NeedsOverNext(c: Card, front: seq<Slot>, last: Slot, before: seq<Need>)
    requires last !in front && NeedsOver(c, front, before)
    ensures NeedsOver(c, front + [last], before + NeedItem(c, last))
  {
    hide Shortfall;
    var slots, needs := front + [last], before + NeedItem(c, last);
    forall slot | slot in slots && Shortfall(c, slot) > 0
      ensures NeedAt(needs, slot)
    {
      if slot in front {
        var i :| 0 <= i < |before| && before[i].slot == slot;
        assert needs[i].slot == slot;
      } else {
        assert needs[|before|].slot == slot;
      }
    }
  }

  lemma {:induction false} NeedListed(c: Card, slots: seq<Slot>)
    requires Distinct(slots)
    ensures NeedsOver(c, slots, NeedList(c, slots))
  {
    hide NeedItem;
    if slots != [] {
      var front, last := slots[..|slots| - 1], slots[|slots| - 1];
      NeedListed(c, front);
      assert slots == front + [last];
      hide NeedsOver;
      NeedsOverNext(c, front, last, NeedList(c, front));
    }
  }

  ghost predicate Usable(c: Card, slot: Slot) {
    slot in c.totals && CurrentOrdinary(c.facts, slot)
  }

  ghost predicate DonorOf(c: Card, d: Donor) {
    Usable(c, d.slot) && d.available == Spendable(c, d.slot) && d.currency == CurrencyAt(c.facts, d.slot)
  }

  ghost predicate DonorsOver(c: Card, slots: seq<Slot>, donors: seq<Donor>) {
    (forall i :: 0 <= i < |donors| ==> donors[i].slot in slots && DonorOf(c, donors[i]))
    && DistinctDonors(donors)
    && forall slot :: Offer(donors, slot) == if slot in slots && Usable(c, slot) then Spendable(c, slot) else 0
  }

  lemma {:induction false} OfferConcat(a: seq<Donor>, b: seq<Donor>, slot: Slot)
    ensures Offer(a + b, slot) == Offer(a, slot) + Offer(b, slot)
  {
    if a == [] {
      assert a + b == b;
    } else {
      assert (a + b)[1..] == a[1..] + b;
      OfferConcat(a[1..], b, slot);
    }
  }

  lemma {:induction false} DonorsOverNext(c: Card, front: seq<Slot>, last: Slot, before: seq<Donor>)
    requires last !in front && DonorsOver(c, front, before)
    ensures DonorsOver(c, front + [last], before + DonorItem(c, last))
  {
    hide Spendable, CurrentOrdinary;
    forall slot
      ensures Offer(before + DonorItem(c, last), slot) == if slot in front + [last] && Usable(c, slot) then Spendable(c, slot) else 0
    {
      OfferConcat(before, DonorItem(c, last), slot);
    }
  }

  lemma {:induction false} DonorListed(c: Card, slots: seq<Slot>)
    requires Distinct(slots)
    ensures DonorsOver(c, slots, DonorList(c, slots))
  {
    hide DonorItem, Usable;
    if slots != [] {
      var front, last := slots[..|slots| - 1], slots[|slots| - 1];
      DonorListed(c, front);
      assert slots == front + [last];
      hide DonorsOver;
      DonorsOverNext(c, front, last, DonorList(c, front));
    }
  }

  /** A slot that lacks money for its own purchase has nothing to give. */
  lemma {:induction false} NeverBoth(c: Card, slot: Slot)
    requires ValidCard(c)
    ensures Shortfall(c, slot) > 0 ==> Spendable(c, slot) == 0
    ensures 0 <= Shortfall(c, slot) <= I64_MAX && 0 <= Spendable(c, slot) <= I64_MAX
  {
  }

  lemma {:induction false} ListsValid(c: Card)
    requires ValidCard(c)
    ensures ValidDonors(Surpluses(c)) && DistinctDonors(Surpluses(c)) && ValidNeeds(Needs(c), Surpluses(c))
    ensures NeedsOver(c, SlotsIn(c.purchases.Keys), Needs(c)) && DonorsOver(c, SlotsIn(c.totals.Keys), Surpluses(c))
  {
    hide Shortfall, Spendable, CurrentOrdinary, ValidCard;
    NeedListed(c, SlotsIn(c.purchases.Keys));
    DonorListed(c, SlotsIn(c.totals.Keys));
    var needs, donors := Needs(c), Surpluses(c);
    forall i | 0 <= i < |donors|
      ensures 0 <= donors[i].available <= I64_MAX
    {
      NeverBoth(c, donors[i].slot);
      assert DonorOf(c, donors[i]);
    }
    forall i | 0 <= i < |needs|
      ensures 0 < needs[i].amount <= I64_MAX && NoSelf(donors, needs[i].slot)
    {
      NeverBoth(c, needs[i].slot);
      assert NeedOf(c, needs[i]);
      forall k | 0 <= k < |donors| && donors[k].slot == needs[i].slot
        ensures donors[k].available == 0
      {
        assert DonorOf(c, donors[k]);
      }
    }
  }

  function SlotsIn(slots: set<Slot>): (r: seq<Slot>)
    ensures Distinct(r) && forall slot :: slot in r <==> slot in slots
  {
    SlotsOrdered();
    Listing(SlotLt, slots)
  }

  // The allocation a card proposes.

  ghost predicate PathSound(c: Card, p: Path) {
    p.amount > 0 && p.source != p.destination && Usable(c, p.source)
    && Shortfall(c, p.destination) > 0 && Spendable(c, p.source) > 0
    && p.currency == CurrencyAt(c.facts, p.source) == CurrencyAt(c.facts, p.destination)
  }

  ghost predicate DistinctPairs(paths: seq<Path>) {
    forall i, j :: 0 <= i < j < |paths| ==> paths[i].source != paths[j].source || paths[i].destination != paths[j].destination
  }

  /** Every shortfall is met exactly, no donor gives more than it can spare, and no pair is used twice. */
  ghost predicate Allocation(c: Card, paths: seq<Path>) {
    (forall slot :: Into(paths, slot) == Shortfall(c, slot) && 0 <= OutOf(paths, slot) <= Spendable(c, slot))
    && (forall p :: p in paths ==> PathSound(c, p))
    && DistinctPairs(paths)
  }

  lemma {:induction false} MatchedAmounts(c: Card, slot: Slot)
    requires ValidCard(c) && ValidDonors(Surpluses(c)) && ValidNeeds(Needs(c), Surpluses(c)) && Match(Needs(c), Surpluses(c)).Some?
    requires NeedsOver(c, SlotsIn(c.purchases.Keys), Needs(c)) && DonorsOver(c, SlotsIn(c.totals.Keys), Surpluses(c))
    ensures var paths := Match(Needs(c), Surpluses(c)).value;
            Into(paths, slot) == Shortfall(c, slot) && 0 <= OutOf(paths, slot) <= Spendable(c, slot)
  {
    MatchExact(Needs(c), Surpluses(c), slot);
    NeverBoth(c, slot);
    assert Shortfall(c, slot) > 0 ==> slot in SlotsIn(c.purchases.Keys);
    hide Shortfall, Spendable, CurrentOrdinary, ValidCard, Match;
    if NeedAt(Needs(c), slot) {
      var i :| 0 <= i < |Needs(c)| && Needs(c)[i].slot == slot;
      assert NeedOf(c, Needs(c)[i]);
    }
  }

  lemma {:induction false} MatchedPath(c: Card, p: Path)
    requires ValidCard(c) && ValidDonors(Surpluses(c)) && ValidNeeds(Needs(c), Surpluses(c)) && Match(Needs(c), Surpluses(c)).Some?
    requires NeedsOver(c, SlotsIn(c.purchases.Keys), Needs(c)) && DonorsOver(c, SlotsIn(c.totals.Keys), Surpluses(c))
    requires p in Match(Needs(c), Surpluses(c)).value
    ensures PathSound(c, p)
  {
    hide Shortfall, Spendable, CurrentOrdinary, ValidCard, Match;
    MatchPaths(Needs(c), Surpluses(c));
    assert PathMatches(p, Needs(c), Surpluses(c));
    var i :| 0 <= i < |Needs(c)| && PathFrom(p, Needs(c)[i].slot, Needs(c)[i].currency, Surpluses(c));
    assert NeedOf(c, Needs(c)[i]);
    var k :| 0 <= k < |Surpluses(c)| && Surpluses(c)[k].slot == p.source && Surpluses(c)[k].currency == p.currency
             && Surpluses(c)[k].available > 0;
    assert DonorOf(c, Surpluses(c)[k]);
  }

  lemma {:induction false} MatchAllocates(c: Card)
    requires ValidCard(c)
    ensures ValidDonors(Surpluses(c))
    ensures Match(Needs(c), Surpluses(c)).Some? <==> Coverable(Needs(c), Surpluses(c))
    ensures Match(Needs(c), Surpluses(c)).Some? ==> Allocation(c, Match(Needs(c), Surpluses(c)).value)
  {
    hide *;
    ListsValid(c);
    MatchComplete(Needs(c), Surpluses(c));
    var found := Match(Needs(c), Surpluses(c));
    if found.Some? {
      MatchDistinct(Needs(c), Surpluses(c));
      forall slot
        ensures Into(found.value, slot) == Shortfall(c, slot) && 0 <= OutOf(found.value, slot) <= Spendable(c, slot)
      {
        MatchedAmounts(c, slot);
      }
      forall p | p in found.value
        ensures PathSound(c, p)
      {
        MatchedPath(c, p);
      }
      Allocates(c, found.value);
    }
  }

  lemma {:induction false} Allocates(c: Card, paths: seq<Path>)
    requires forall slot :: Into(paths, slot) == Shortfall(c, slot) && 0 <= OutOf(paths, slot) <= Spendable(c, slot)
    requires forall p :: p in paths ==> PathSound(c, p)
    requires forall i, j :: 0 <= i < j < |paths| ==> paths[i].source != paths[j].source || paths[i].destination != paths[j].destination
    ensures Allocation(c, paths)
  {
    hide Into, OutOf, Shortfall, Spendable, PathSound;
  }

  /** No slot is both paid into and drawn from, and a donor keeps its floor after its own purchase. */
  lemma {:induction false} FloorsKept(c: Card, paths: seq<Path>, slot: Slot)
    requires ValidCard(c) && Allocation(c, paths) && OutOf(paths, slot) > 0
    ensures Into(paths, slot) == 0
    ensures slot in c.totals && PolicyAt(c, slot).Some? && PolicyAt(c, slot).value.donorEligible
    ensures Spare(c.totals[slot]) - OutOf(paths, slot) - Left(c.purchases, slot) >= Floor(PolicyAt(c, slot).value)
  {
    NeverBoth(c, slot);
    assert Into(paths, slot) == Shortfall(c, slot) && 0 < OutOf(paths, slot) <= Spendable(c, slot);
  }

  /** After the moves every purchase in a current ordinary category is covered by what is not already claimed. */
  lemma {:induction false} PurchasesCovered(c: Card, paths: seq<Path>, slot: Slot)
    requires ValidCard(c) && Allocation(c, paths) && slot in c.purchases && slot in c.totals && CurrentOrdinary(c.facts, slot)
    ensures Spare(c.totals[slot]) + Into(paths, slot) - OutOf(paths, slot) >= c.purchases[slot]
  {
    NeverBoth(c, slot);
    assert Into(paths, slot) == Shortfall(c, slot) && 0 <= OutOf(paths, slot) <= Spendable(c, slot);
  }

  ghost predicate Lacking(c: Card) {
    exists slot :: Shortfall(c, slot) > 0
  }

  lemma {:induction false} LackingNeeds(c: Card)
    requires ValidCard(c)
    ensures Lacking(c) <==> Needs(c) != []
  {
    hide NeedList, Spendable, CurrentOrdinary, ValidCard, Surpluses;
    ListsValid(c);
    if Lacking(c) {
      var slot :| Shortfall(c, slot) > 0;
      assert NeedAt(Needs(c), slot);
    }
    if Needs(c) != [] {
      assert NeedOf(c, Needs(c)[0]);
    }
  }

  lemma {:induction false} NothingLacks(c: Card)
    requires ValidCard(c) && !Lacking(c)
    ensures Allocation(c, [])
  {
    hide CurrentOrdinary, ValidCard;
    forall slot
      ensures Into([], slot) == Shortfall(c, slot) && 0 <= OutOf([], slot) <= Spendable(c, slot)
    {
      NeverBoth(c, slot);
    }
  }

  /** Nothing is proposed when some currency's pool falls short; otherwise the moves are a whole allocation. */
  ghost predicate Proposed(c: Card, paths: seq<Path>) {
    if Lacking(c) && !Coverable(Needs(c), Surpluses(c)) then paths == [] else Allocation(c, paths)
  }

  lemma {:induction false} MatchProposes(c: Card)
    requires ValidCard(c)
    ensures ValidDonors(Surpluses(c))
    ensures Needs(c) == [] <==> !Lacking(c)
    ensures !Lacking(c) ==> Proposed(c, [])
    ensures var found := Match(Needs(c), Surpluses(c)); Proposed(c, if found.Some? then found.value else [])
  {
    hide Allocation, Coverable, Needs, Surpluses, Lacking, Match, ValidCard, ValidDonors;
    LackingNeeds(c);
    MatchAllocates(c);
    if !Lacking(c) {
      NothingLacks(c);
    }
  }

  /** The candidate moves before the liquidity engine sees them. */
  method ProposePaths(c: Card) returns (r: Result<seq<Path>>)
    requires ValidCard(c)
    ensures r.Ok? <==> NeedsComputable(c) && (Lacking(c) ==> DonorsComputable(c))
    ensures r.Ok? ==> Proposed(c, r.value)
  {
    hide *;
    MatchProposes(c);
    var needs := CollectNeeds(c);
    if needs.Err? {
      return Err(needs.error);
    }
    if needs.value == [] {
      return Ok([]);
    }
    var donors := CollectDonors(c);
    if donors.Err? {
      return Err(donors.error);
    }
    var found := MatchDonors(needs.value, donors.value);
    r := Ok(if found.Some? then found.value else []);
  }

  // The hypothetical facts the engine is asked about.

  type CategoryRows = seq<NamedMoney<Slot, CategoryFactInfo>>

  /** What building the totals guarantees of them: one row a slot, each with its own availability. */
  ghost predicate Backed(c: Card) {
    var rows := c.facts.categories;
    Distinct(KeysOf(rows)) && (forall slot :: slot in c.totals <==> slot in KeysOf(rows))
    && forall i :: 0 <= i < |rows| ==> rows[i].key in c.totals && c.totals[rows[i].key].availability == rows[i].money.units >= 0
  }

  ghost predicate Redirected(before: CategoryRows, after: CategoryRows, paths: seq<Path>) {
    |before| == |after|
    && forall i :: 0 <= i < |before| ==>
         after[i].key == before[i].key && after[i].rest == before[i].rest && after[i].money.currency == before[i].money.currency
         && after[i].money.units == before[i].money.units + Into(paths, before[i].key) - OutOf(paths, before[i].key)
  }

  ghost predicate Headroom(c: Card) {
    forall slot :: slot in c.totals ==> Fits(c.totals[slot].availability + Shortfall(c, slot))
  }

  lemma {:induction false} PrefixAmounts(paths: seq<Path>, i: nat, slot: Slot)
    requires i < |paths| && forall p :: p in paths ==> p.amount > 0
    ensures Into(paths[..i + 1], slot) == Into(paths[..i], slot) + if paths[i].destination == slot then paths[i].amount else 0
    ensures OutOf(paths[..i + 1], slot) == OutOf(paths[..i], slot) + if paths[i].source == slot then paths[i].amount else 0
    ensures 0 <= Into(paths[..i], slot) && Into(paths[..i + 1], slot) <= Into(paths, slot)
    ensures 0 <= OutOf(paths[..i], slot) && OutOf(paths[..i + 1], slot) <= OutOf(paths, slot)
  {
    assert paths[..i + 1] == paths[..i] + [paths[i]] && paths == paths[..i + 1] + paths[i + 1..];
    IntoConcat(paths[..i], [paths[i]], slot);
    IntoConcat(paths[..i + 1], paths[i + 1..], slot);
    AmountsNonnegative(paths[..i], slot);
    AmountsNonnegative(paths[i + 1..], slot);
  }

  lemma {:induction false} AmountsNonnegative(paths: seq<Path>, slot: Slot)
    requires forall p :: p in paths ==> p.amount > 0
    ensures 0 <= Into(paths, slot) && 0 <= OutOf(paths, slot)
  {
    if paths != [] {
      AmountsNonnegative(paths[1..], slot);
    }
  }

  function MovedBetween(rows: CategoryRows, source: nat, destination: nat, sourceUnits: i64, destinationUnits: i64): (r: CategoryRows)
    requires source < |rows| && destination < |rows|
    ensures |r| == |rows|
  {
    var first := rows[source := rows[source].(money := Money(sourceUnits, rows[source].money.currency))];
    first[destination := first[destination].(money := Money(destinationUnits, first[destination].money.currency))]
  }

  lemma {:induction false} RedirectNext(before: CategoryRows, rows: CategoryRows, paths: seq<Path>, i: nat, s: nat, d: nat)
    requires i < |paths| && (forall p :: p in paths ==> p.amount > 0) && paths[i].source != paths[i].destination
    requires Distinct(KeysOf(before)) && Redirected(before, rows, paths[..i])
    requires s < |rows| && rows[s].key == paths[i].source && d < |rows| && rows[d].key == paths[i].destination
    requires Fits(rows[s].money.units - paths[i].amount) && Fits(rows[d].money.units + paths[i].amount)
    ensures Redirected(before, MovedBetween(rows, s, d, rows[s].money.units - paths[i].amount, rows[d].money.units + paths[i].amount), paths[..i + 1])
  {
    hide Into, OutOf;
    var after := MovedBetween(rows, s, d, rows[s].money.units - paths[i].amount, rows[d].money.units + paths[i].amount);
    forall j | 0 <= j < |before|
      ensures after[j].key == before[j].key && after[j].rest == before[j].rest && after[j].money.currency == before[j].money.currency
      ensures after[j].money.units
              == before[j].money.units + Into(paths[..i + 1], before[j].key) - OutOf(paths[..i + 1], before[j].key)
    {
      PrefixAmounts(paths, i, before[j].key);
      assert KeysOf(before)[j] == before[j].key && KeysOf(before)[s] == before[s].key && KeysOf(before)[d] == before[d].key;
    }
  }

  /** A donor never runs below zero on the way, and a receiver overflows only when its whole shortfall would. */
  lemma {:induction false} PathRoom(c: Card, paths: seq<Path>, rows: CategoryRows, i: nat, s: nat, d: nat)
    requires ValidCard(c) && Backed(c) && Allocation(c, paths) && i < |paths|
    requires Redirected(c.facts.categories, rows, paths[..i])
    requires s < |rows| && rows[s].key == paths[i].source && d < |rows| && rows[d].key == paths[i].destination
    ensures 0 <= rows[s].money.units - paths[i].amount
    ensures 0 <= rows[d].money.units && rows[d].key in c.totals
            && rows[d].money.units + paths[i].amount <= c.totals[rows[d].key].availability + Shortfall(c, rows[d].key)
  {
    assert PathSound(c, paths[i]);
    assert forall p :: p in paths ==> PathSound(c, p);
    var source, destination := paths[i].source, paths[i].destination;
    PrefixAmounts(paths, i, source);
    PrefixAmounts(paths, i, destination);
    NeverBoth(c, source);
    NeverBoth(c, destination);
    SpendableAvailable(c, source);
    hide Shortfall, Spendable, CurrentOrdinary, Into, OutOf;
    assert Into(paths, destination) == Shortfall(c, destination) && OutOf(paths, destination) <= Spendable(c, destination);
    assert OutOf(paths, source) <= Spendable(c, source);
    assert c.facts.categories[s].key == source && c.facts.categories[d].key == destination;
  }

  lemma {:induction false} SpendableAvailable(c: Card, slot: Slot)
    requires ValidCard(c) && slot in c.totals && c.totals[slot].availability >= 0
    ensures Spendable(c, slot) <= c.totals[slot].availability
  {
  }

  lemma {:induction false} PathEnds(c: Card, paths: seq<Path>, rows: CategoryRows, i: nat)
    requires Backed(c) && Allocation(c, paths) && i < |paths|
    requires Redirected(c.facts.categories, rows, paths[..i])
    ensures paths[i].source in KeysOf(rows) && paths[i].destination in KeysOf(rows) && paths[i].source != paths[i].destination
    ensures paths[i].amount > 0 && Distinct(KeysOf(rows))
    ensures Shortfall(c, paths[i].destination) > 0
  {
    hide Into, OutOf, Spendable;
    assert PathSound(c, paths[i]);
    assert KeysOf(rows) == KeysOf(c.facts.categories);
  }

  /**
   * The proposed moves applied to a copy of the facts. They can always be applied unless a receiving
   * category's availability would no longer be representable.
   */
  method ApplyPaths(c: Card, paths: seq<Path>) returns (r: Result<CategoryRows>)
    requires ValidCard(c) && Backed(c) && Allocation(c, paths)
    ensures r.Ok? ==> Redirected(c.facts.categories, r.value, paths)
    ensures r.Ok? <==> Headroom(c)
  {
    PositivePaths(c, paths);
    BackedDistinct(c);
    hide *;
    var rows := c.facts.categories;
    RedirectStart(rows, paths);
    for i := 0 to |paths|
      invariant Redirected(c.facts.categories, rows, paths[..i])
    {
      rows :- ApplyPath(c, paths, rows, i, paths[i]);
    }
    assert paths[..|paths|] == paths;
    HasHeadroom(c, rows, paths);
    r := Ok(rows);
  }

  method ApplyPath(c: Card, ghost paths: seq<Path>, rows: CategoryRows, ghost i: nat, p: Path) returns (r: Result<CategoryRows>)
    requires ValidCard(c) && Backed(c) && Allocation(c, paths) && i < |paths| && p == paths[i]
    requires Redirected(c.facts.categories, rows, paths[..i])
    ensures r.Ok? ==> Redirected(c.facts.categories, r.value, paths[..i + 1])
    ensures r.Err? ==> !Headroom(c)
  {
    hide ValidCard, Allocation, Redirected, Shortfall, Headroom, MovedBetween, Backed, Distinct, FactIndex, KeysOf, Into, OutOf;
    PositivePaths(c, paths);
    BackedDistinct(c);
    PathEnds(c, paths, rows, i);
    var s := FactIndex(rows, p.source);
    var d := FactIndex(rows, p.destination);
    PathRoom(c, paths, rows, i, s, d);
    if !Fits(rows[d].money.units + p.amount) {
      NoHeadroom(c, p.destination);
      return Err(OVERFLOW);
    }
    RedirectNext(c.facts.categories, rows, paths, i, s, d);
    r := Ok(MovedBetween(rows, s, d, rows[s].money.units - p.amount, rows[d].money.units + p.amount));
  }

  function FactIndex(rows: CategoryRows, slot: Slot): (r: nat)
    requires slot in KeysOf(rows)
    ensures r < |rows| && rows[r].key == slot
  {
    IndexOf(KeysOf(rows), slot)
  }

  lemma {:induction false} PositivePaths(c: Card, paths: seq<Path>)
    requires Allocation(c, paths)
    ensures forall p :: p in paths ==> p.amount > 0
  {
    assert forall p :: p in paths ==> PathSound(c, p);
  }

  lemma {:induction false} BackedDistinct(c: Card)
    requires Backed(c)
    ensures Distinct(KeysOf(c.facts.categories))
  {
  }

  lemma {:induction false} RedirectStart(rows: CategoryRows, paths: seq<Path>)
    ensures Redirected(rows, rows, paths[..0])
  {
    assert paths[..0] == [];
  }

  lemma {:induction false} NoHeadroom(c: Card, slot: Slot)
    requires slot in c.totals && c.totals[slot].availability + Shortfall(c, slot) > I64_MAX
    ensures !Headroom(c)
  {
    hide Shortfall;
  }

  lemma {:induction false} HasHeadroom(c: Card, rows: CategoryRows, paths: seq<Path>)
    requires ValidCard(c) && Backed(c) && Allocation(c, paths) && Redirected(c.facts.categories, rows, paths)
    ensures Headroom(c)
  {
    forall slot | slot in c.totals
      ensures Fits(c.totals[slot].availability + Shortfall(c, slot))
    {
      var i := FactIndex(c.facts.categories, slot);
      assert c.facts.categories[i].key == slot && rows[i].key == slot;
      NeverBoth(c, slot);
      hide Shortfall, Spendable, CurrentOrdinary, Into, OutOf;
      assert Into(paths, slot) == Shortfall(c, slot) && 0 <= OutOf(paths, slot) <= Spendable(c, slot);
    }
  }

  /**
   * The moves a card offers. The liquidity engine is a given verdict on hypothetical facts; what it is asked
   * about is exactly the whole allocation, and nothing else is ever offered.
   */
  method DonorPaths(c: Card, engineAccepts: CategoryRows -> bool) returns (r: Result<seq<Path>>)
    requires ValidCard(c) && Backed(c)
    ensures r.Ok? && r.value != [] ==> Allocation(c, r.value) && Headroom(c) && Coverable(Needs(c), Surpluses(c))
    ensures r.Ok? && r.value != [] ==>
              exists rows :: Redirected(c.facts.categories, rows, r.value) && engineAccepts(rows)
    ensures r.Ok? && Lacking(c) && r.value == [] ==>
              !Coverable(Needs(c), Surpluses(c))
              || exists rows, paths :: Allocation(c, paths) && Redirected(c.facts.categories, rows, paths) && !engineAccepts(rows)
  {
    hide ValidCard, Backed, Allocation, Coverable, Needs, Surpluses, Headroom, Redirected, NeedsComputable, DonorsComputable;
    var paths :- ProposePaths(c);
    if paths == [] {
      if Lacking(c) && Coverable(Needs(c), Surpluses(c)) {
        var slot :| Shortfall(c, slot) > 0;
        AllocationPays(c, [], slot);
      }
      return Ok([]);
    }
    assert Allocation(c, paths);
    if Lacking(c) {
    } else {
      SomePathLacks(c, paths);
    }
    var rows :- ApplyPaths(c, paths);
    r := Ok(if engineAccepts(rows) then paths else []);
  }

  lemma {:induction false} AllocationPays(c: Card, paths: seq<Path>, slot: Slot)
    requires Allocation(c, paths)
    ensures Into(paths, slot) == Shortfall(c, slot)
  {
    hide Into, Shortfall;
  }

  lemma {:induction false} SomePathLacks(c: Card, paths: seq<Path>)
    requires Allocation(c, paths) && paths != []
    ensures Lacking(c)
  {
    hide Into, Shortfall;
    assert PathSound(c, paths[0]);
  }
}
