/** Covering a cart's category shortfalls from other categories' policy-limited surpluses. */
module Donors {
  import opened CheckedMoney
  import opened Action
  import opened Ordered
  import opened Cart
  import opened Sums

  datatype Policy = Policy(kind: string, donorEligible: bool, minimumRetained: Money, projectedRemainingNeed: Money)

  datatype Totals = Totals(availability: i64, reservations: i64, commitments: i64)

  datatype Need = Need(slot: Slot, currency: string, amount: int)

  datatype Donor = Donor(slot: Slot, currency: string, available: int)

  datatype Path = Path(source: Slot, destination: Slot, amount: i64, currency: string)

  // The greedy match.

  predicate Draws(need: int, slot: Slot, currency: string, donor: Donor) {
    donor.slot != slot && need > 0 && donor.available > 0 && donor.currency == currency
  }

  datatype Drawn = Drawn(paths: seq<Path>, donors: seq<Donor>, left: int)

  function Taken(need: int, slot: Slot, currency: string, donor: Donor): int {
    if Draws(need, slot, currency, donor) then Min(need, donor.available) else 0
  }

  predicate ValidDonors(donors: seq<Donor>) {
    forall i :: 0 <= i < |donors| ==> 0 <= donors[i].available <= I64_MAX
  }

  /** One shortfall filled from the donors in order. */
  function Draw(need: int, slot: Slot, currency: string, donors: seq<Donor>): Drawn
    requires ValidDonors(donors)
  {
    if donors == [] then Drawn([], [], need)
    else
      var taken := Taken(need, slot, currency, donors[0]);
      var rest := Draw(need - taken, slot, currency, donors[1..]);
      Drawn((if taken > 0 then [Path(donors[0].slot, slot, taken, currency)] else []) + rest.paths,
            [donors[0].(available := donors[0].available - taken)] + rest.donors, rest.left)
  }

  lemma {:induction false} DrawKeeps(need: int, slot: Slot, currency: string, donors: seq<Donor>)
    requires ValidDonors(donors)
    ensures var d := Draw(need, slot, currency, donors);
            |d.donors| == |donors| && ValidDonors(d.donors)
            && forall i :: 0 <= i < |donors| ==>
                 d.donors[i].slot == donors[i].slot && d.donors[i].currency == donors[i].currency
                 && d.donors[i].available <= donors[i].available
  {
    if donors != [] {
      DrawKeeps(need - Taken(need, slot, currency, donors[0]), slot, currency, donors[1..]);
    }
  }

  /** The shortfalls filled one after the other; nothing at all when one cannot be filled. */
  function Match(needs: seq<Need>, donors: seq<Donor>): Option<seq<Path>>
    requires ValidDonors(donors)
    decreases |needs|
  {
    if needs == [] then Some([])
    else
      DrawKeeps(needs[0].amount, needs[0].slot, needs[0].currency, donors);
      var drawn := Draw(needs[0].amount, needs[0].slot, needs[0].currency, donors);
      if drawn.left > 0 then None
      else
        match Match(needs[1..], drawn.donors)
        case None => None
        case Some(paths) => Some(drawn.paths + paths)
  }

  // Amounts over paths, needs and donors.

  function Into(paths: seq<Path>, slot: Slot): int {
    if paths == [] then 0 else (if paths[0].destination == slot then paths[0].amount else 0) + Into(paths[1..], slot)
  }

  function OutOf(paths: seq<Path>, slot: Slot): int {
    if paths == [] then 0 else (if paths[0].source == slot then paths[0].amount else 0) + OutOf(paths[1..], slot)
  }

  function Pool(donors: seq<Donor>, currency: string): int {
    if donors == [] then 0 else (if donors[0].currency == currency then donors[0].available else 0) + Pool(donors[1..], currency)
  }

  function Demand(needs: seq<Need>, currency: string): int {
    if needs == [] then 0 else (if needs[0].currency == currency then needs[0].amount else 0) + Demand(needs[1..], currency)
  }

  /** The surplus a slot offers; a slot absent from the donors offers nothing. */
  function Offer(donors: seq<Donor>, slot: Slot): int {
    if donors == [] then 0 else (if donors[0].slot == slot then donors[0].available else 0) + Offer(donors[1..], slot)
  }

  ghost predicate DistinctDonors(donors: seq<Donor>) {
    forall i, j :: 0 <= i < j < |donors| ==> donors[i].slot != donors[j].slot
  }

  lemma {:induction false} IntoConcat(a: seq<Path>, b: seq<Path>, slot: Slot)
    ensures Into(a + b, slot) == Into(a, slot) + Into(b, slot)
    ensures OutOf(a + b, slot) == OutOf(a, slot) + OutOf(b, slot)
  {
    if a == [] {
      assert a + b == b;
    } else {
      assert (a + b)[1..] == a[1..] + b;
      IntoConcat(a[1..], b, slot);
    }
  }

  /** A path moves a positive amount into the slot, from a donor that offers in the same currency. */
  ghost predicate PathFrom(p: Path, slot: Slot, currency: string, donors: seq<Donor>) {
    p.destination == slot && p.currency == currency && p.amount > 0 && p.source != slot
    && exists i :: 0 <= i < |donors| && donors[i].slot == p.source && donors[i].currency == currency && donors[i].available > 0
  }

  ghost predicate NoSelf(donors: seq<Donor>, slot: Slot) {
    forall i :: 0 <= i < |donors| && donors[i].slot == slot ==> donors[i].available == 0
  }

  lemma {:induction false} PoolNonnegative(donors: seq<Donor>, currency: string)
    requires ValidDonors(donors)
    ensures Pool(donors, currency) >= 0
  {
    if donors != [] {
      PoolNonnegative(donors[1..], currency);
    }
  }

  /** Drawing takes exactly as much as the need and the pool allow, and only from its own currency. */
  lemma {:induction false} DrawAmounts(need: int, slot: Slot, currency: string, donors: seq<Donor>, other: string)
    requires ValidDonors(donors) && need >= 0 && NoSelf(donors, slot)
    ensures var d := Draw(need, slot, currency, donors);
            d.left == Max(0, need - Pool(donors, currency))
            && Pool(d.donors, other) == Pool(donors, other) - if other == currency then need - d.left else 0
  {
    if donors != [] {
      var taken := Taken(need, slot, currency, donors[0]);
      assert NoSelf(donors[1..], slot) by {
        assert forall i :: 0 <= i < |donors[1..]| ==> donors[1..][i] == donors[i + 1];
      }
      DrawAmounts(need - taken, slot, currency, donors[1..], other);
      PoolNonnegative(donors[1..], currency);
      var d, rest := Draw(need, slot, currency, donors), Draw(need - taken, slot, currency, donors[1..]);
      assert d.donors[1..] == rest.donors;
    }
  }

  lemma {:induction false} DrawFills(need: int, slot: Slot, currency: string, donors: seq<Donor>)
    requires ValidDonors(donors) && need >= 0
    ensures var d := Draw(need, slot, currency, donors);
            Into(d.paths, slot) == need - d.left && 0 <= d.left <= need
  {
    if donors != [] {
      var taken := Taken(need, slot, currency, donors[0]);
      DrawFills(need - taken, slot, currency, donors[1..]);
      var d, rest := Draw(need, slot, currency, donors), Draw(need - taken, slot, currency, donors[1..]);
      if taken > 0 {
        assert d.paths[1..] == rest.paths;
      } else {
        assert d.paths == rest.paths;
      }
    }
  }

  /** What leaves a donor is what its offer shrinks by; every path is drawn from a donor. */
  lemma {:induction false} DrawSources(need: int, slot: Slot, currency: string, donors: seq<Donor>, at: Slot)
    requires ValidDonors(donors) && need >= 0
    ensures var d := Draw(need, slot, currency, donors);
            OutOf(d.paths, at) == Offer(donors, at) - Offer(d.donors, at) && 0 <= Offer(d.donors, at)
    ensures var d := Draw(need, slot, currency, donors);
            forall other :: other != slot ==> Into(d.paths, other) == 0
  {
    if donors != [] {
      var taken := Taken(need, slot, currency, donors[0]);
      DrawSources(need - taken, slot, currency, donors[1..], at);
      var d, rest := Draw(need, slot, currency, donors), Draw(need - taken, slot, currency, donors[1..]);
      assert d.donors[1..] == rest.donors;
      if taken > 0 {
        assert d.paths[1..] == rest.paths;
      } else {
        assert d.paths == rest.paths;
      }
    }
  }

  lemma {:induction false} DrawPaths(need: int, slot: Slot, currency: string, donors: seq<Donor>)
    requires ValidDonors(donors) && need >= 0
    ensures forall p :: p in Draw(need, slot, currency, donors).paths ==> PathFrom(p, slot, currency, donors)
  {
    if donors != [] {
      var taken := Taken(need, slot, currency, donors[0]);
      DrawPaths(need - taken, slot, currency, donors[1..]);
      var d, rest := Draw(need, slot, currency, donors), Draw(need - taken, slot, currency, donors[1..]);
      forall p | p in d.paths
        ensures PathFrom(p, slot, currency, donors)
      {
        if p in rest.paths {
          var i :| 0 <= i < |donors[1..]| && donors[1..][i].slot == p.source && donors[1..][i].currency == currency
                   && donors[1..][i].available > 0;
          assert donors[i + 1] == donors[1..][i];
        } else {
          assert p == Path(donors[0].slot, slot, taken, currency);
        }
      }
    }
  }

  ghost predicate DistinctSources(paths: seq<Path>) {
    forall i, j :: 0 <= i < j < |paths| ==> paths[i].source != paths[j].source
  }

  ghost predicate Avoids(paths: seq<Path>, source: Slot) {
    forall j :: 0 <= j < |paths| ==> paths[j].source != source
  }

  lemma {:induction false} DrawsElsewhere(need: int, slot: Slot, currency: string, donors: seq<Donor>, at: Slot)
    requires ValidDonors(donors) && need >= 0
    requires forall i :: 0 <= i < |donors| ==> donors[i].slot != at
    ensures Avoids(Draw(need, slot, currency, donors).paths, at)
  {
    DrawPaths(need, slot, currency, donors);
    var ps := Draw(need, slot, currency, donors).paths;
    forall j | 0 <= j < |ps|
      ensures ps[j].source != at
    {
      assert PathFrom(ps[j], slot, currency, donors);
    }
  }

  lemma {:induction false} PrependDistinct(first: Path, rest: seq<Path>)
    requires DistinctSources(rest) && Avoids(rest, first.source)
    ensures DistinctSources([first] + rest)
  {
    var all := [first] + rest;
    forall i, j | 0 <= i < j < |all|
      ensures all[i].source != all[j].source
    {
      assert all[j] == rest[j - 1];
      assert i > 0 ==> all[i] == rest[i - 1];
    }
  }

  /** No two paths of one draw share a source. */
  lemma {:induction false} DrawDistinct(need: int, slot: Slot, currency: string, donors: seq<Donor>)
    requires ValidDonors(donors) && need >= 0 && DistinctDonors(donors)
    ensures DistinctSources(Draw(need, slot, currency, donors).paths)
  {
    if donors != [] {
      var taken := Taken(need, slot, currency, donors[0]);
      var others := donors[1..];
      assert forall i :: 0 <= i < |others| ==> others[i] == donors[i + 1];
      DrawDistinct(need - taken, slot, currency, others);
      DrawsElsewhere(need - taken, slot, currency, others, donors[0].slot);
      var rest := Draw(need - taken, slot, currency, others).paths;
      if taken > 0 {
        PrependDistinct(Path(donors[0].slot, slot, taken, currency), rest);
      } else {
        assert [] + rest == rest;
      }
    }
  }

  // The whole match.

  ghost predicate ValidNeeds(needs: seq<Need>, donors: seq<Donor>) {
    (forall i :: 0 <= i < |needs| ==> 0 < needs[i].amount <= I64_MAX && NoSelf(donors, needs[i].slot))
    && forall i, j :: 0 <= i < j < |needs| ==> needs[i].slot != needs[j].slot
  }

  ghost predicate Coverable(needs: seq<Need>, donors: seq<Donor>) {
    forall currency :: Demand(needs, currency) <= Pool(donors, currency)
  }

  lemma {:induction false} NeedsAfterDraw(needs: seq<Need>, donors: seq<Donor>)
    requires needs != [] && ValidDonors(donors) && ValidNeeds(needs, donors)
    ensures var d := Draw(needs[0].amount, needs[0].slot, needs[0].currency, donors);
            ValidDonors(d.donors) && ValidNeeds(needs[1..], d.donors)
  {
    var d := Draw(needs[0].amount, needs[0].slot, needs[0].currency, donors);
    DrawKeeps(needs[0].amount, needs[0].slot, needs[0].currency, donors);
    assert forall i :: 0 <= i < |needs[1..]| ==> needs[1..][i] == needs[i + 1];
    forall i | 0 <= i < |needs[1..]|
      ensures NoSelf(d.donors, needs[1..][i].slot)
    {
      assert NoSelf(donors, needs[i + 1].slot);
      assert forall k :: 0 <= k < |donors| ==> 0 <= d.donors[k].available <= donors[k].available;
    }
  }

  lemma {:induction false} DemandNonnegative(needs: seq<Need>, currency: string)
    requires forall i :: 0 <= i < |needs| ==> needs[i].amount > 0
    ensures Demand(needs, currency) >= 0
  {
    if needs != [] {
      DemandNonnegative(needs[1..], currency);
    }
  }

  lemma {:induction false} CoverableAfterDraw(needs: seq<Need>, donors: seq<Donor>)
    requires needs != [] && ValidDonors(donors) && ValidNeeds(needs, donors)
    ensures var d := Draw(needs[0].amount, needs[0].slot, needs[0].currency, donors);
            Coverable(needs, donors) <==> d.left <= 0 && Coverable(needs[1..], d.donors)
  {
    var n := needs[0];
    var d := Draw(n.amount, n.slot, n.currency, donors);
    DrawFills(n.amount, n.slot, n.currency, donors);
    forall currency
      ensures d.left == Max(0, n.amount - Pool(donors, n.currency))
      ensures Demand(needs, currency) == Demand(needs[1..], currency) + (if currency == n.currency then n.amount else 0)
      ensures Pool(d.donors, currency) == Pool(donors, currency) - (if currency == n.currency then n.amount - d.left else 0)
      ensures Demand(needs[1..], currency) >= 0
    {
      DrawAmounts(n.amount, n.slot, n.currency, donors, currency);
      DemandNonnegative(needs[1..], currency);
    }
    if d.left <= 0 && Coverable(needs[1..], d.donors) {
      forall currency
        ensures Demand(needs, currency) <= Pool(donors, currency)
      {
        assert Demand(needs[1..], currency) <= Pool(d.donors, currency);
      }
    }
    if Coverable(needs, donors) {
      assert Demand(needs, n.currency) <= Pool(donors, n.currency);
      forall currency
        ensures Demand(needs[1..], currency) <= Pool(d.donors, currency)
      {
        assert Demand(needs, currency) <= Pool(donors, currency);
      }
    }
  }

  /** The greedy match succeeds exactly when each currency's pool covers its demand. */
  lemma {:induction false} MatchComplete(needs: seq<Need>, donors: seq<Donor>)
    requires ValidDonors(donors) && ValidNeeds(needs, donors)
    ensures Match(needs, donors).Some? <==> Coverable(needs, donors)
    decreases |needs|
  {
    if needs == [] {
      forall currency
        ensures Pool(donors, currency) >= 0
      {
        PoolNonnegative(donors, currency);
      }
    } else {
      NeedsAfterDraw(needs, donors);
      CoverableAfterDraw(needs, donors);
      MatchComplete(needs[1..], Draw(needs[0].amount, needs[0].slot, needs[0].currency, donors).donors);
    }
  }

  ghost predicate NeedAt(needs: seq<Need>, slot: Slot) {
    exists i :: 0 <= i < |needs| && needs[i].slot == slot
  }

  /** Every need is met exactly and nothing else is paid into; no donor gives more than it offers. */
  lemma {:induction false} MatchExact(needs: seq<Need>, donors: seq<Donor>, slot: Slot)
    requires ValidDonors(donors) && ValidNeeds(needs, donors) && Match(needs, donors).Some?
    ensures forall i :: 0 <= i < |needs| && needs[i].slot == slot ==> Into(Match(needs, donors).value, slot) == needs[i].amount
    ensures !NeedAt(needs, slot) ==> Into(Match(needs, donors).value, slot) == 0
    ensures 0 <= OutOf(Match(needs, donors).value, slot) <= Offer(donors, slot)
    decreases |needs|
  {
    if needs == [] {
      OfferNonnegative(donors, slot);
      return;
    }
    var n := needs[0];
    var d := Draw(n.amount, n.slot, n.currency, donors);
    NeedsAfterDraw(needs, donors);
    MatchExact(needs[1..], d.donors, slot);
    MatchExact(needs[1..], d.donors, n.slot);
    IntoConcat(d.paths, Match(needs[1..], d.donors).value, slot);
    DrawFills(n.amount, n.slot, n.currency, donors);
    DrawSources(n.amount, n.slot, n.currency, donors, slot);
    OfferShrinks(n.amount, n.slot, n.currency, donors, slot);
    assert forall i :: 0 <= i < |needs[1..]| ==> needs[1..][i] == needs[i + 1];
    assert !NeedAt(needs[1..], n.slot);
  }

  lemma {:induction false} OfferNonnegative(donors: seq<Donor>, slot: Slot)
    requires ValidDonors(donors)
    ensures Offer(donors, slot) >= 0
  {
    if donors != [] {
      OfferNonnegative(donors[1..], slot);
    }
  }

  lemma {:induction false} OfferShrinks(need: int, slot: Slot, currency: string, donors: seq<Donor>, at: Slot)
    requires ValidDonors(donors)
    ensures Offer(Draw(need, slot, currency, donors).donors, at) <= Offer(donors, at)
  {
    if donors != [] {
      var taken := Taken(need, slot, currency, donors[0]);
      OfferShrinks(need - taken, slot, currency, donors[1..], at);
      var d := Draw(need, slot, currency, donors);
      assert d.donors[1..] == Draw(need - taken, slot, currency, donors[1..]).donors;
    }
  }

  /** Each path goes from a donor that offers something to a need of the same currency. */
  ghost predicate PathMatches(p: Path, needs: seq<Need>, donors: seq<Donor>) {
    exists i :: 0 <= i < |needs| && PathFrom(p, needs[i].slot, needs[i].currency, donors)
  }

  lemma {:induction false} MatchPaths(needs: seq<Need>, donors: seq<Donor>)
    requires ValidDonors(donors) && ValidNeeds(needs, donors) && Match(needs, donors).Some?
    ensures forall p :: p in Match(needs, donors).value ==> PathMatches(p, needs, donors)
    decreases |needs|
  {
    if needs != [] {
      var n := needs[0];
      var d := Draw(n.amount, n.slot, n.currency, donors);
      NeedsAfterDraw(needs, donors);
      MatchPaths(needs[1..], d.donors);
      DrawPaths(n.amount, n.slot, n.currency, donors);
      DrawKeeps(n.amount, n.slot, n.currency, donors);
      forall p | p in Match(needs, donors).value
        ensures PathMatches(p, needs, donors)
      {
        if p in d.paths {
          assert PathFrom(p, needs[0].slot, needs[0].currency, donors);
        } else {
          var i :| 0 <= i < |needs[1..]| && PathFrom(p, needs[1..][i].slot, needs[1..][i].currency, d.donors);
          assert PathFrom(p, needs[i + 1].slot, needs[i + 1].currency, donors);
        }
      }
    }
  }

  /** No pair of slots is moved between twice. */
  lemma {:induction false} MatchDistinct(needs: seq<Need>, donors: seq<Donor>)
    requires ValidDonors(donors) && ValidNeeds(needs, donors) && DistinctDonors(donors) && Match(needs, donors).Some?
    ensures var ps := Match(needs, donors).value;
            forall i, j :: 0 <= i < j < |ps| ==> ps[i].source != ps[j].source || ps[i].destination != ps[j].destination
    decreases |needs|
  {
    if needs != [] {
      var n := needs[0];
      var d := Draw(n.amount, n.slot, n.currency, donors);
      NeedsAfterDraw(needs, donors);
      DrawKeeps(n.amount, n.slot, n.currency, donors);
      MatchDistinct(needs[1..], d.donors);
      DrawDistinct(n.amount, n.slot, n.currency, donors);
      DrawPaths(n.amount, n.slot, n.currency, donors);
      MatchPaths(needs[1..], d.donors);
      var ps, rest := Match(needs, donors).value, Match(needs[1..], d.donors).value;
      forall i, j | 0 <= i < j < |ps|
        ensures ps[i].source != ps[j].source || ps[i].destination != ps[j].destination
      {
        if j < |d.paths| {
        } else if i < |d.paths| {
          assert ps[i] in d.paths && ps[j] == rest[j - |d.paths|] && ps[j] in rest;
          var k :| 0 <= k < |needs[1..]| && PathFrom(ps[j], needs[1..][k].slot, needs[1..][k].currency, d.donors);
          assert needs[k + 1].slot == ps[j].destination;
        } else {
          assert ps[i] == rest[i - |d.paths|] && ps[j] == rest[j - |d.paths|];
        }
      }
    }
  }

  /** The two nested loops over shortfalls and donors, with the donors' offers updated in place. */
  method MatchDonors(needs: seq<Need>, donors: seq<Donor>) returns (r: Option<seq<Path>>)
    requires ValidDonors(donors)
    ensures r == Match(needs, donors)
  {
    var open, paths := donors, [];
    assert needs[0..] == needs && forall rest: seq<Path> :: [] + rest == rest;
    for i := 0 to |needs|
      invariant ValidDonors(open)
      invariant Match(needs, donors) == match Match(needs[i..], open) case None => None case Some(rest) => Some(paths + rest)
    {
      var n := needs[i];
      DrawKeeps(n.amount, n.slot, n.currency, open);
      assert needs[i..][1..] == needs[i + 1..];
      var left, more, after := FillNeed(n, open);
      if left > 0 {
        return None;
      }
      ghost var rest := Match(needs[i + 1..], after);
      assert rest.Some? ==> paths + (more + rest.value) == (paths + more) + rest.value;
      open, paths := after, paths + more;
    }
    assert paths + [] == paths;
    r := Some(paths);
  }

  /** What is drawn so far, continued by what is still to draw, is the whole draw. */
  ghost predicate Continues(whole: Drawn, paths: seq<Path>, kept: seq<Donor>, rest: Drawn) {
    whole == Drawn(paths + rest.paths, kept + rest.donors, rest.left)
  }

  lemma {:induction false} DrawOne(left: int, n: Need, donors: seq<Donor>, i: nat)
    requires i < |donors| && ValidDonors(donors[i..]) && ValidDonors(donors[i + 1..])
    ensures var taken := Taken(left, n.slot, n.currency, donors[i]);
            var rest := Draw(left - taken, n.slot, n.currency, donors[i + 1..]);
            Draw(left, n.slot, n.currency, donors[i..])
            == Drawn((if taken > 0 then [Path(donors[i].slot, n.slot, taken, n.currency)] else []) + rest.paths,
                     [donors[i].(available := donors[i].available - taken)] + rest.donors, rest.left)
  {
    assert donors[i..][0] == donors[i] && donors[i..][1..] == donors[i + 1..];
  }

  lemma {:induction false} DrawNext(whole: Drawn, paths: seq<Path>, kept: seq<Donor>, left: int, n: Need, donors: seq<Donor>, i: nat)
    requires i < |donors| && ValidDonors(donors[i..]) && ValidDonors(donors[i + 1..])
    requires Continues(whole, paths, kept, Draw(left, n.slot, n.currency, donors[i..]))
    ensures var taken := Taken(left, n.slot, n.currency, donors[i]);
            Continues(whole, paths + (if taken > 0 then [Path(donors[i].slot, n.slot, taken, n.currency)] else []),
                      kept + [donors[i].(available := donors[i].available - taken)],
                      Draw(left - taken, n.slot, n.currency, donors[i + 1..]))
  {
    DrawOne(left, n, donors, i);
    hide Draw, ValidDonors;
    var taken := Taken(left, n.slot, n.currency, donors[i]);
    var rest := Draw(left - taken, n.slot, n.currency, donors[i + 1..]);
    var more := if taken > 0 then [Path(donors[i].slot, n.slot, taken, n.currency)] else [];
    assert paths + (more + rest.paths) == (paths + more) + rest.paths;
    var donor := [donors[i].(available := donors[i].available - taken)];
    assert kept + (donor + rest.donors) == (kept + donor) + rest.donors;
  }

  method FillNeed(n: Need, donors: seq<Donor>) returns (left: int, paths: seq<Path>, after: seq<Donor>)
    requires ValidDonors(donors)
    ensures Drawn(paths, after, left) == Draw(n.amount, n.slot, n.currency, donors)
  {
    left, paths, after := n.amount, [], [];
    ghost var whole := Draw(n.amount, n.slot, n.currency, donors);
    assert donors[0..] == donors;
    assert Continues(whole, [], [], whole);
    for i := 0 to |donors|
      invariant Continues(whole, paths, after, Draw(left, n.slot, n.currency, donors[i..]))
    {
      hide Continues, Draw;
      DrawNext(whole, paths, after, left, n, donors, i);
      var taken := Taken(left, n.slot, n.currency, donors[i]);
      if taken > 0 {
        paths := paths + [Path(donors[i].slot, n.slot, taken, n.currency)];
      } else {
        assert paths + [] == paths;
      }
      after := after + [donors[i].(available := donors[i].available - taken)];
      left := left - taken;
    }
    assert paths + [] == paths && after + [] == after;
  }

  // Shortfalls and surpluses of a card's categories.

  predicate SlotLt(a: Slot, b: Slot) {
    StringLt(a.categoryId, b.categoryId) || (a.categoryId == b.categoryId && StringLt(a.month, b.month))
  }

  lemma {:induction false} SlotsOrdered()
    ensures StrictOrder(SlotLt)
  {
    StringsOrdered();
  }

  datatype Card = Card(facts: Facts, policies: map<string, Policy>, totals: map<Slot, Totals>, purchases: map<Slot, i64>)

  /** What the cart and the category totals guarantee of their results. */
  ghost predicate ValidCard(c: Card) {
    (forall slot :: slot in c.purchases ==> c.purchases[slot] > 0)
    && (forall slot :: slot in c.totals ==> c.totals[slot].reservations >= 0 && c.totals[slot].commitments >= 0)
    && (forall id :: id in c.policies ==> c.policies[id].minimumRetained.units >= 0 && c.policies[id].projectedRemainingNeed.units >= 0)
  }

  function Spare(t: Totals): int {
    Max(0, t.availability - t.reservations - t.commitments)
  }

  function CheckedSpare(t: Totals): (r: Result<i64>)
    requires t.reservations >= 0 && t.commitments >= 0
    ensures r.Ok? <==> Fits(t.availability - t.reservations - t.commitments)
    ensures r.Ok? ==> r.value == Spare(t)
  {
    var unreserved :- CheckedSub(t.availability, t.reservations);
    var uncommitted :- CheckedSub(unreserved, t.commitments);
    Ok(Max(uncommitted, 0))
  }

  function Floor(p: Policy): int {
    p.minimumRetained.units + p.projectedRemainingNeed.units
  }

  function PolicyAt(c: Card, slot: Slot): Option<Policy> {
    if slot.categoryId in c.policies then Some(c.policies[slot.categoryId]) else None
  }

  function Surplus(t: Totals, policy: Option<Policy>): int {
    if policy.Some? && policy.value.donorEligible then Max(0, Spare(t) - Floor(policy.value)) else 0
  }

  function PolicySurplus(t: Totals, policy: Option<Policy>): (r: Result<i64>)
    requires t.reservations >= 0 && t.commitments >= 0
    requires policy.Some? ==> policy.value.minimumRetained.units >= 0 && policy.value.projectedRemainingNeed.units >= 0
    ensures r.Ok? ==> r.value == Surplus(t, policy)
    ensures r.Ok? <==> policy.Some? && policy.value.donorEligible ==>
                         Fits(t.availability - t.reservations - t.commitments) && Fits(Floor(policy.value))
  {
    if policy.None? || !policy.value.donorEligible then Ok(0)
    else
      var spare :- CheckedSpare(t);
      var floor :- CheckedAdd(policy.value.minimumRetained.units, policy.value.projectedRemainingNeed.units);
      var above :- CheckedSub(spare, floor);
      Ok(Max(above, 0))
  }

  predicate CurrentOrdinary(facts: Facts, slot: Slot) {
    FactAt(facts, slot).Some? && FactAt(facts, slot).value.rest == CategoryFactInfo(Ordinary, Current)
  }

  function CurrencyAt(facts: Facts, slot: Slot): string {
    if FactAt(facts, slot).Some? then FactAt(facts, slot).value.money.currency else ""
  }

  /** What a purchase lacks in a current ordinary category. */
  function Shortfall(c: Card, slot: Slot): int {
    if slot in c.purchases && slot in c.totals && CurrentOrdinary(c.facts, slot)
    then Max(0, c.purchases[slot] - Spare(c.totals[slot]))
    else 0
  }

  /** What a current ordinary category can give up after its own purchase, its claims and its policy floor. */
  function Spendable(c: Card, slot: Slot): int {
    if slot in c.totals && CurrentOrdinary(c.facts, slot)
    then Max(0, Surplus(c.totals[slot], PolicyAt(c, slot)) - Left(c.purchases, slot))
    else 0
  }

  function NeedItem(c: Card, slot: Slot): seq<Need> {
    if Shortfall(c, slot) > 0 then [Need(slot, CurrencyAt(c.facts, slot), Shortfall(c, slot))] else []
  }

  function DonorItem(c: Card, slot: Slot): seq<Donor> {
    if slot in c.totals && CurrentOrdinary(c.facts, slot) then [Donor(slot, CurrencyAt(c.facts, slot), Spendable(c, slot))] else []
  }

  function NeedList(c: Card, slots: seq<Slot>): seq<Need> {
    if slots == [] then [] else NeedList(c, slots[..|slots| - 1]) + NeedItem(c, slots[|slots| - 1])
  }

  function DonorList(c: Card, slots: seq<Slot>): seq<Donor> {
    if slots == [] then [] else DonorList(c, slots[..|slots| - 1]) + DonorItem(c, slots[|slots| - 1])
  }

  function Needs(c: Card): seq<Need> {
    SlotsOrdered();
    NeedList(c, Listing(SlotLt, c.purchases.Keys))
  }

  /** Every current ordinary category, with what it can give up. */
  function Surpluses(c: Card): seq<Donor> {
    SlotsOrdered();
    DonorList(c, Listing(SlotLt, c.totals.Keys))
  }

  predicate UncommittedFits(t: Totals) {
    Fits(t.availability - t.reservations - t.commitments)
  }

  ghost predicate NeedComputable(c: Card, slot: Slot) {
    slot in c.purchases && FactAt(c.facts, slot).Some? && FactAt(c.facts, slot).value.rest.period == Current ==>
      slot in c.totals && UncommittedFits(c.totals[slot])
  }

  ghost predicate DonorComputable(c: Card, slot: Slot) {
    slot in c.totals && CurrentOrdinary(c.facts, slot) && PolicyAt(c, slot).Some? && PolicyAt(c, slot).value.donorEligible ==>
      UncommittedFits(c.totals[slot]) && Fits(Floor(PolicyAt(c, slot).value))
  }

  ghost predicate NeedsComputable(c: Card) {
    forall slot :: slot in c.purchases ==> NeedComputable(c, slot)
  }

  ghost predicate DonorsComputable(c: Card) {
    forall slot :: slot in c.totals ==> DonorComputable(c, slot)
  }

  method NeedFor(c: Card, slot: Slot) returns (r: Result<seq<Need>>)
    requires ValidCard(c) && slot in c.purchases
    ensures r.Ok? <==> NeedComputable(c, slot)
    ensures r.Ok? ==> r.value == NeedItem(c, slot)
  {
    var fact := FactAt(c.facts, slot);
    if fact.None? || fact.value.rest.period != Current {
      return Ok([]);
    }
    if slot !in c.totals {
      return Err("category_total_missing");
    }
    var spare :- CheckedSpare(c.totals[slot]);
    // Both are nonnegative, so their difference is representable.
    var lack := c.purchases[slot] - spare;
    if lack > 0 && fact.value.rest.kind == Ordinary {
      return Ok([Need(slot, fact.value.money.currency, lack)]);
    }
    r := Ok([]);
  }

  method DonorFor(c: Card, slot: Slot) returns (r: Result<seq<Donor>>)
    requires ValidCard(c) && slot in c.totals
    ensures r.Ok? <==> DonorComputable(c, slot)
    ensures r.Ok? ==> r.value == DonorItem(c, slot)
  {
    if !CurrentOrdinary(c.facts, slot) {
      return Ok([]);
    }
    var surplus :- PolicySurplus(c.totals[slot], PolicyAt(c, slot));
    r := Ok([Donor(slot, CurrencyAt(c.facts, slot), Max(surplus - Left(c.purchases, slot), 0))]);
  }

  ghost predicate NeedsUpTo(c: Card, slots: seq<Slot>, i: nat, needs: seq<Need>)
    requires i <= |slots|
  {
    needs == NeedList(c, slots[..i]) && forall j :: 0 <= j < i ==> NeedComputable(c, slots[j])
  }

  ghost predicate DonorsUpTo(c: Card, slots: seq<Slot>, i: nat, donors: seq<Donor>)
    requires i <= |slots|
  {
    donors == DonorList(c, slots[..i]) && forall j :: 0 <= j < i ==> DonorComputable(c, slots[j])
  }

  lemma {:induction false} CollectStart(c: Card, slots: seq<Slot>)
    ensures NeedsUpTo(c, slots, 0, []) && DonorsUpTo(c, slots, 0, [])
  {
  }

  lemma {:induction false} CollectNext(c: Card, slots: seq<Slot>, i: nat, needs: seq<Need>, donors: seq<Donor>)
    requires i < |slots|
    ensures NeedsUpTo(c, slots, i, needs) && NeedComputable(c, slots[i]) ==> NeedsUpTo(c, slots, i + 1, needs + NeedItem(c, slots[i]))
    ensures DonorsUpTo(c, slots, i, donors) && DonorComputable(c, slots[i]) ==>
              DonorsUpTo(c, slots, i + 1, donors + DonorItem(c, slots[i]))
  {
    hide NeedComputable, DonorComputable, NeedItem, DonorItem;
    assert slots[..i + 1][..i] == slots[..i];
  }

  lemma {:induction false} NeedsCollected(c: Card, needs: seq<Need>)
    requires StrictOrder(SlotLt) && NeedsUpTo(c, Listing(SlotLt, c.purchases.Keys), |Listing(SlotLt, c.purchases.Keys)|, needs)
    ensures needs == Needs(c) && NeedsComputable(c)
  {
    hide NeedComputable, NeedList, StrictOrder;
    var slots := Listing(SlotLt, c.purchases.Keys);
    assert slots[..|slots|] == slots;
    forall slot | slot in c.purchases
      ensures NeedComputable(c, slot)
    {
      assert slot in slots;
    }
  }

  lemma {:induction false} DonorsCollected(c: Card, donors: seq<Donor>)
    requires StrictOrder(SlotLt) && DonorsUpTo(c, Listing(SlotLt, c.totals.Keys), |Listing(SlotLt, c.totals.Keys)|, donors)
    ensures donors == Surpluses(c) && DonorsComputable(c)
  {
    hide DonorComputable, DonorList, StrictOrder;
    var slots := Listing(SlotLt, c.totals.Keys);
    assert slots[..|slots|] == slots;
    forall slot | slot in c.totals
      ensures DonorComputable(c, slot)
    {
      assert slot in slots;
    }
  }

  lemma {:induction false} NotComputable(c: Card, slot: Slot)
    ensures slot in c.purchases && !NeedComputable(c, slot) ==> !NeedsComputable(c)
    ensures slot in c.totals && !DonorComputable(c, slot) ==> !DonorsComputable(c)
  {
    hide NeedComputable, DonorComputable;
  }

  method CollectNeeds(c: Card) returns (r: Result<seq<Need>>)
    requires ValidCard(c)
    ensures r.Ok? <==> NeedsComputable(c)
    ensures r.Ok? ==> r.value == Needs(c)
  {
    hide *;
    SlotsOrdered();
    var slots, needs := Listing(SlotLt, c.purchases.Keys), [];
    CollectStart(c, slots);
    for i := 0 to |slots|
      invariant NeedsUpTo(c, slots, i, needs)
    {
      assert slots[i] in c.purchases;
      NotComputable(c, slots[i]);
      var more := NeedFor(c, slots[i]);
      if more.Err? {
        return Err(more.error);
      }
      CollectNext(c, slots, i, needs, []);
      needs := needs + more.value;
    }
    NeedsCollected(c, needs);
    r := Ok(needs);
  }

  method CollectDonors(c: Card) returns (r: Result<seq<Donor>>)
    requires ValidCard(c)
    ensures r.Ok? <==> DonorsComputable(c)
    ensures r.Ok? ==> r.value == Surpluses(c)
  {
    hide *;
    SlotsOrdered();
    var slots, donors := Listing(SlotLt, c.totals.Keys), [];
    CollectStart(c, slots);
    for i := 0 to |slots|
      invariant DonorsUpTo(c, slots, i, donors)
    {
      assert slots[i] in c.totals;
      NotComputable(c, slots[i]);
      var more := DonorFor(c, slots[i]);
      if more.Err? {
        return Err(more.error);
      }
      CollectNext(c, slots, i, [], donors);
      donors := donors + more.value;
    }
    DonorsCollected(c, donors);
    r := Ok(donors);
  }
}
