/** What category totals depend on: the set of obligations, and which claim of an identity comes first. */
module CategoryLaws {
  import opened CheckedMoney
  import opened Rows
  import opened Text
  import opened Action
  import opened Sums
  import opened Permutations
  import opened Cart
  import opened Donors
  import opened Funding
  import opened CategoryTotals
  import opened CategoryPass

  // The whole pass.

  method CategoryEffects(effects: seq<ClaimEffect>) returns (kept: seq<ClaimEffect>)
    ensures kept == EffectsOf(effects)
  {
    kept := [];
    for i := 0 to |effects|
      invariant kept == EffectsOf(effects[..i])
    {
      assert effects[..i + 1][..i] == effects[..i];
      if effects[i].kind == Category && !effects[i].included {
        kept := kept + [effects[i]];
      }
    }
    assert effects[..|effects|] == effects;
  }

  method CollectEffects(bundles: seq<Bundle>, now: string) returns (effects: seq<ClaimEffect>)
    ensures effects == LiveEffects(bundles, now)
  {
    hide Live, EffectsOf;
    effects := [];
    for i := 0 to |bundles|
      invariant effects == LiveEffects(bundles[..i], now)
    {
      assert bundles[..i + 1][..i] == bundles[..i];
      if Live(bundles[i], now) {
        var kept := CategoryEffects(bundles[i].effects);
        effects := effects + kept;
      }
    }
    assert bundles[..|bundles|] == bundles;
  }

  /** Everything owed by its identity, in one way only. */
  lemma {:induction false} OwedUnique(dues: seq<Due>, end: string, m: map<string, Meta>, n: map<string, Meta>)
    requires Owed(dues, end, m) && Owed(dues, end, n)
    ensures m == n
  {
    assert dues[..|dues|] == dues;
    hide Owed;
    OwedWithin(dues, end, |dues|, m, n);
    OwedWithin(dues, end, |dues|, n, m);
    assert m == n;
  }

  /** Totals exist exactly for sound sources, and say of every category what it has, owes and has reserved. */
  method BuildTotals(facts: Facts, buckets: seq<string>, dues: seq<Due>, bundles: seq<Bundle>, end: string, now: string)
    returns (r: Result<map<Slot, Totals>>)
    requires |buckets| == |facts.categories|
    ensures r.Ok? ==> exists owed, claims ::
              Totalled(facts, buckets, dues, LiveEffects(bundles, now), end, owed, claims) && TotalsMean(facts, owed, claims, r.value)
    ensures r.Err? ==> forall owed, claims :: !Totalled(facts, buckets, dues, LiveEffects(bundles, now), end, owed, claims)
  {
    hide FactsSound, DuesSound, ClaimsSound, TotalsMean, LiveEffects;
    var available := CategoryPass.CollectFacts(facts, buckets);
    if available.Err? {
      return Err(available.error);
    }
    var committed, owed := CollectDues(facts, dues, end, available.value);
    if committed.Err? {
      return Err(committed.error);
    }
    var effects := CollectEffects(bundles, now);
    var reserved, claims := CollectClaims(facts, effects, owed, committed.value);
    if reserved.Err? {
      forall other, m
        ensures !Totalled(facts, buckets, dues, effects, end, other, m)
      {
        SameOwed(facts, dues, end, owed, other);
      }
      return Err(reserved.error);
    }
    assert Totalled(facts, buckets, dues, effects, end, owed, claims);
    r := Ok(reserved.value);
  }

  lemma {:induction false} SameOwed(facts: Facts, dues: seq<Due>, end: string, owed: map<string, Meta>, other: map<string, Meta>)
    requires DuesSound(facts, dues, end, owed)
    ensures DuesSound(facts, dues, end, other) ==> other == owed
  {
    hide Owed, DueSound, SumMap;
    if DuesSound(facts, dues, end, other) {
      OwedUnique(dues, end, owed, other);
    }
  }

  // What the allocator relies on.

  lemma {:induction false} OwedSign(facts: Facts, dues: seq<Due>, end: string, owed: map<string, Meta>, category: string)
    requires DuesSound(facts, dues, end, owed)
    ensures SumMap(OwedIn(owed, category)) >= 0
  {
    hide Counts, SumMap;
    forall id | id in owed
      ensures owed[id].amount.units >= 0
    {
      var d :| d in dues && Counts(d, end) && d.obligationId == id;
      assert DueSound(facts, d);
    }
    SumMapSign(OwedIn(owed, category));
  }

  lemma {:induction false} ReservedSign(facts: Facts, effects: seq<ClaimEffect>, owed: map<string, Meta>, claims: map<string, ClaimEffect>, category: string)
    requires ClaimsSound(facts, effects, owed, claims)
    ensures SumMap(ReservedIn(claims, owed, category)) >= 0
  {
    hide SumMap, Mirrored, CategoryOf, SameClaim;
    forall id | id in claims
      ensures claims[id].amount.units >= 0
    {
      assert FirstAt(effects, id, claims[id]);
      assert claims[id] in effects;
      assert EffectSound(facts, claims[id]);
    }
    SumMapSign(ReservedIn(claims, owed, category));
  }

  lemma {:induction false} FactRow(facts: Facts, i: nat)
    requires i < |facts.categories| && forall j, k :: 0 <= j < k < |facts.categories| ==> facts.categories[j].key != facts.categories[k].key
    ensures FactAt(facts, facts.categories[i].key) == Some(facts.categories[i]) && facts.categories[i].key in KeysOf(facts.categories)
  {
    assert KeysOf(facts.categories)[i] == facts.categories[i].key;
  }

  lemma {:induction false} RowsBacked(facts: Facts, buckets: seq<string>, owed: map<string, Meta>, claims: map<string, ClaimEffect>, c: Card)
    requires FactsSound(facts, buckets) && TotalsMean(facts, owed, claims, c.totals) && c.facts == facts
    ensures Backed(c)
  {
    hide SumMap, OwedIn, ReservedIn, MonthNumber, Blank;
    var rows := facts.categories;
    forall j, k | 0 <= j < k < |rows|
      ensures rows[j].key != rows[k].key
    {
      assert PairSound(facts, buckets, j, k);
    }
    hide PairSound;
    forall i | 0 <= i < |rows|
      ensures rows[i].key in c.totals && c.totals[rows[i].key].availability == rows[i].money.units >= 0
    {
      FactRow(facts, i);
      assert TotalMeans(facts, owed, claims, rows[i].key, c.totals[rows[i].key]);
      assert FactSound(facts, rows[i]);
    }
    assert forall j :: 0 <= j < |rows| ==> KeysOf(rows)[j] == rows[j].key;
  }

  /** Totals back the card's facts row by row, and are never negative: what the donor allocator takes for granted. */
  lemma {:induction false} TotalsBack(facts: Facts, buckets: seq<string>, dues: seq<Due>, effects: seq<ClaimEffect>, end: string,
                                      owed: map<string, Meta>, claims: map<string, ClaimEffect>, c: Card)
    requires Totalled(facts, buckets, dues, effects, end, owed, claims) && TotalsMean(facts, owed, claims, c.totals) && c.facts == facts
    ensures Backed(c)
    ensures forall slot :: slot in c.totals ==> c.totals[slot].reservations >= 0 && c.totals[slot].commitments >= 0
  {
    hide DuesSound, ClaimsSound, SumMap, OwedIn, ReservedIn, MonthNumber, Blank, FactsSound, Backed;
    RowsBacked(facts, buckets, owed, claims, c);
    forall slot | slot in c.totals
      ensures c.totals[slot].reservations >= 0 && c.totals[slot].commitments >= 0
    {
      assert TotalMeans(facts, owed, claims, slot, c.totals[slot]);
      OwedSign(facts, dues, end, owed, slot.categoryId);
      ReservedSign(facts, effects, owed, claims, slot.categoryId);
    }
  }

  // Order.

  /** What is owed depends on which obligations there are, not on their order or their repetition. */
  lemma {:induction false} OwedIsSet(a: seq<Due>, b: seq<Due>, end: string, m: map<string, Meta>)
    requires forall d :: d in a <==> d in b
    ensures Owed(a, end, m) <==> Owed(b, end, m)
  {
    hide Counts;
    if Owed(a, end, m) {
      forall id | id in m
        ensures exists d :: d in b && Counts(d, end) && d.obligationId == id
      {
        var d :| d in a && Counts(d, end) && d.obligationId == id;
        assert d in b;
      }
    }
    if Owed(b, end, m) {
      forall id | id in m
        ensures exists d :: d in a && Counts(d, end) && d.obligationId == id
      {
        var d :| d in b && Counts(d, end) && d.obligationId == id;
        assert d in a;
      }
    }
  }

  /** Claims of one identity are worth nothing, or mirror an obligation all together or not at all. */
  ghost predicate Settled(effects: seq<ClaimEffect>, owed: map<string, Meta>) {
    forall x, y :: x in effects && y in effects && x.obligationId == y.obligationId ==>
      Mirrored(owed, x) == Mirrored(owed, y) || x.amount.units == 0
  }

  ghost predicate OneClaim(effects: seq<ClaimEffect>) {
    forall x, y :: x in effects && y in effects && x.obligationId == y.obligationId ==> SameClaim(x, y)
  }

  function Worth(m: map<string, ClaimEffect>, owed: map<string, Meta>, category: string): map<string, i64> {
    map id | id in m && CategoryOf(m[id]) == category :: if Mirrored(owed, m[id]) then 0 else m[id].amount.units
  }

  /** Mirrored claims add nothing, so they may as well be counted at zero. */
  lemma {:induction false} WorthIsReserved(m: map<string, ClaimEffect>, owed: map<string, Meta>, category: string)
    ensures SumMap(Worth(m, owed, category)) == SumMap(ReservedIn(m, owed, category))
  {
    hide Mirrored, CategoryOf;
    ZerosAdd(ReservedIn(m, owed, category), Worth(m, owed, category));
  }

  lemma {:induction false} ZerosAdd<K>(m: map<K, i64>, n: map<K, i64>)
    requires forall k :: k in m ==> k in n && n[k] == m[k]
    requires forall k :: k in n && k !in m ==> n[k] == 0
    ensures SumMap(m) == SumMap(n)
    decreases |n|
  {
    if n == map[] {
      assert m == map[];
    } else {
      var k :| k in n;
      SumMapRemove(n, k);
      if k in m {
        SumMapRemove(m, k);
        ZerosAdd(m - {k}, n - {k});
      } else {
        ZerosAdd(m, n - {k});
      }
    }
  }

  lemma {:induction false} FirstMember(effects: seq<ClaimEffect>, m: map<string, ClaimEffect>, id: string)
    requires Claimed(effects, m) && id in m
    ensures m[id] in effects && m[id].obligationId == id
  {
    assert FirstAt(effects, id, m[id]);
  }

  lemma {:induction false} MemberClaimed(effects: seq<ClaimEffect>, m: map<string, ClaimEffect>, e: ClaimEffect)
    requires Claimed(effects, m) && e in effects
    ensures e.obligationId in m && SameClaim(m[e.obligationId], e)
  {
    var i :| 0 <= i < |effects| && effects[i] == e;
  }

  /** Where the claims are settled, any order reserves the same. */
  lemma {:induction false} SettledOrder(a: seq<ClaimEffect>, b: seq<ClaimEffect>, owed: map<string, Meta>,
                                        m: map<string, ClaimEffect>, n: map<string, ClaimEffect>, category: string)
    requires (forall e :: e in a <==> e in b) && Claimed(a, m) && Claimed(b, n) && Settled(a, owed)
    ensures SumMap(ReservedIn(m, owed, category)) == SumMap(ReservedIn(n, owed, category))
  {
    hide Mirrored, Claimed;
    forall id
      ensures id in m <==> id in n
      ensures id in m ==> CategoryOf(m[id]) == CategoryOf(n[id]) && m[id].amount == n[id].amount
                          && (Mirrored(owed, m[id]) == Mirrored(owed, n[id]) || m[id].amount.units == 0)
    {
      if id in m {
        FirstMember(a, m, id);
        MemberClaimed(b, n, m[id]);
        FirstMember(b, n, id);
      }
      if id in n {
        FirstMember(b, n, id);
        MemberClaimed(a, m, n[id]);
      }
    }
    assert Worth(m, owed, category) == Worth(n, owed, category);
    WorthIsReserved(m, owed, category);
    WorthIsReserved(n, owed, category);
  }

  // The claims by identity always exist when those of one identity agree.

  lemma {:induction false} ClaimsExist(effects: seq<ClaimEffect>) returns (m: map<string, ClaimEffect>)
    requires OneClaim(effects)
    ensures Claimed(effects, m)
    decreases |effects|
  {
    if effects == [] {
      m := map[];
    } else {
      var front, last := effects[..|effects| - 1], effects[|effects| - 1];
      var before := ClaimsExist(front);
      assert effects[..|front|] == front && effects[..|front| + 1] == effects;
      if last.obligationId in before {
        FirstMember(front, before, last.obligationId);
        assert before[last.obligationId] in effects && last in effects;
        ClaimedSkips(effects, |front|, before);
        m := before;
      } else {
        ClaimedNext(effects, |front|, before);
        m := before[last.obligationId := last];
      }
    }
  }

  lemma {:induction false} HeadClaimed(head: ClaimEffect, rest: seq<ClaimEffect>, m: map<string, ClaimEffect>)
    requires Claimed([head] + rest, m)
    ensures head.obligationId in m && m[head.obligationId] == head
  {
    var all := [head] + rest;
    assert all[0] == head && all[0].obligationId in m;
    assert FirstAt(all, head.obligationId, m[head.obligationId]);
  }

  /** Position by position the same claim, or two claims of one identity. */
  ghost predicate AlikeBut(a: seq<ClaimEffect>, b: seq<ClaimEffect>, id: string) {
    |a| == |b| && forall i :: 0 <= i < |a| ==> a[i] == b[i] || a[i].obligationId == b[i].obligationId == id
  }

  lemma {:induction false} FirstAlike(a: seq<ClaimEffect>, b: seq<ClaimEffect>, id: string, other: string, e: ClaimEffect)
    requires AlikeBut(a, b, id) && FirstAt(a, other, e) && other != id
    ensures FirstAt(b, other, e)
  {
    var i :| 0 <= i < |a| && a[i] == e && forall j :: 0 <= j < i ==> a[j].obligationId != other;
    assert b[i] == e;
    forall j | 0 <= j < i
      ensures b[j].obligationId != other
    {
      assert a[j].obligationId != other;
    }
  }

  lemma {:induction false} OnlyFirst(a: seq<ClaimEffect>, id: string, e: ClaimEffect, m: map<string, ClaimEffect>)
    requires FirstAt(a, id, e) && Claimed(a, m)
    ensures id in m && m[id] == e
  {
    assert a[..|a|] == a;
    FirstClaimed(a, |a|, id, e, m);
    FirstSame(a, |a|, id, e, m[id]);
  }

  lemma {:induction false} TailClaimed(a: seq<ClaimEffect>, b: seq<ClaimEffect>, id: string, m: map<string, ClaimEffect>, n: map<string, ClaimEffect>, other: string)
    requires AlikeBut(a, b, id) && Claimed(a, m) && Claimed(b, n) && other != id && other in m
    ensures other in n && n[other] == m[other]
  {
    assert FirstAt(a, other, m[other]);
    hide FirstAt, AlikeBut, Claimed;
    FirstAlike(a, b, id, other, m[other]);
    OnlyFirst(b, other, m[other], n);
  }

  /** Two orders that differ only in which of two claims of one identity leads reserve differently. */
  lemma {:induction false} UnsettledDiffers(x: ClaimEffect, y: ClaimEffect, rest: seq<ClaimEffect>, owed: map<string, Meta>,
                                            m: map<string, ClaimEffect>, n: map<string, ClaimEffect>)
    requires Claimed([x] + ([y] + rest), m) && Claimed([y] + ([x] + rest), n) && x.obligationId == y.obligationId && SameClaim(x, y)
    requires !Mirrored(owed, x) && Mirrored(owed, y) && x.amount.units != 0
    ensures SumMap(ReservedIn(m, owed, CategoryOf(x))) != SumMap(ReservedIn(n, owed, CategoryOf(x)))
  {
    hide Mirrored, Claimed;
    HeadClaimed(x, [y] + rest, m);
    HeadClaimed(y, [x] + rest, n);
    var id, category := x.obligationId, CategoryOf(x);
    var a, b := [x] + ([y] + rest), [y] + ([x] + rest);
    assert AlikeBut(a, b, id) && AlikeBut(b, a, id);
    hide AlikeBut;
    forall k | k != id
      ensures k in m <==> k in n
      ensures k in m ==> m[k] == n[k]
    {
      if k in m {
        TailClaimed(a, b, id, m, n, k);
      }
      if k in n {
        TailClaimed(b, a, id, n, m, k);
      }
    }
    assert ReservedIn(m, owed, category) == ReservedIn(n, owed, category)[id := x.amount.units];
    SumMapUpdate(ReservedIn(n, owed, category), id, x.amount.units);
    assert id !in ReservedIn(n, owed, category);
  }

  ghost predicate SameReserved(m: map<string, ClaimEffect>, n: map<string, ClaimEffect>, owed: map<string, Meta>) {
    forall category :: SumMap(ReservedIn(m, owed, category)) == SumMap(ReservedIn(n, owed, category))
  }

  predicate Reorders(b: seq<ClaimEffect>, effects: seq<ClaimEffect>) {
    multiset(b) == multiset(effects)
  }

  /** Every order of the same claims is accepted as well, and reserves the same in every category. */
  ghost predicate OrderFree(facts: Facts, effects: seq<ClaimEffect>, owed: map<string, Meta>, m: map<string, ClaimEffect>) {
    forall b :: Reorders(b, effects) ==> exists n :: ClaimsSound(facts, b, owed, n) && SameReserved(m, n, owed)
  }

  /** Whichever claim of an identity is met first, it agrees with the obligation it mirrors. */
  ghost predicate AllAgree(effects: seq<ClaimEffect>, owed: map<string, Meta>) {
    forall e :: e in effects ==> MirrorSound(owed, e)
  }

  lemma {:induction false} ClaimedOnce(effects: seq<ClaimEffect>, m: map<string, ClaimEffect>)
    requires Claimed(effects, m)
    ensures OneClaim(effects)
  {
    hide Claimed, CategoryOf;
    forall x, y | x in effects && y in effects && x.obligationId == y.obligationId
      ensures SameClaim(x, y)
    {
      MemberClaimed(effects, m, x);
      MemberClaimed(effects, m, y);
    }
  }

  lemma {:induction false} SoundThen(facts: Facts, effects: seq<ClaimEffect>, owed: map<string, Meta>, m: map<string, ClaimEffect>,
                                     b: seq<ClaimEffect>, n: map<string, ClaimEffect>)
    requires ClaimsSound(facts, effects, owed, m) && SameReserved(m, n, owed) && Claimed(b, n) && AllAgree(effects, owed)
    requires forall e :: e in effects <==> e in b
    ensures ClaimsSound(facts, b, owed, n)
  {
    hide ReservedIn, SumMap, EffectSound, MirrorSound, Claimed;
    forall id | id in n
      ensures MirrorSound(owed, n[id])
    {
      FirstMember(b, n, id);
    }
  }

  lemma {:induction false} SettledFree(facts: Facts, effects: seq<ClaimEffect>, owed: map<string, Meta>, m: map<string, ClaimEffect>)
    requires ClaimsSound(facts, effects, owed, m) && Settled(effects, owed) && AllAgree(effects, owed)
    ensures OrderFree(facts, effects, owed, m)
  {
    assert Claimed(effects, m);
    ClaimedOnce(effects, m);
    hide ClaimsSound, SameReserved, Settled, AllAgree, Claimed, OneClaim;
    forall b | Reorders(b, effects)
      ensures exists n :: ClaimsSound(facts, b, owed, n) && SameReserved(m, n, owed)
    {
      SameMembers(b, effects);
      OneClaimPermutes(effects, b);
      var n := ClaimsExist(b);
      SettledSame(effects, b, owed, m, n);
      SoundThen(facts, effects, owed, m, b, n);
    }
  }

  lemma {:induction false} SettledSame(a: seq<ClaimEffect>, b: seq<ClaimEffect>, owed: map<string, Meta>,
                                       m: map<string, ClaimEffect>, n: map<string, ClaimEffect>)
    requires (forall e :: e in a <==> e in b) && Claimed(a, m) && Claimed(b, n) && Settled(a, owed)
    ensures SameReserved(m, n, owed)
  {
    hide Claimed, Settled, ReservedIn, SumMap;
    forall category
      ensures SumMap(ReservedIn(m, owed, category)) == SumMap(ReservedIn(n, owed, category))
    {
      SettledOrder(a, b, owed, m, n, category);
    }
  }

  lemma {:induction false} Headed<T>(x: T, s: seq<T>)
    ensures multiset([x] + s) == multiset{x} + multiset(s)
  {
  }

  lemma {:induction false} WithoutOne<T>(s: seq<T>, x: T) returns (rest: seq<T>)
    requires x in s
    ensures multiset(s) == multiset{x} + multiset(rest)
  {
    var i :| 0 <= i < |s| && s[i] == x;
    rest := Without(s, i);
    TakenOut(s, i);
  }

  lemma {:induction false} TwoFirst(effects: seq<ClaimEffect>, x: ClaimEffect, y: ClaimEffect) returns (rest: seq<ClaimEffect>)
    requires x in effects && y in effects && x != y
    ensures multiset([x] + ([y] + rest)) == multiset(effects) == multiset([y] + ([x] + rest))
  {
    var others := WithoutOne(effects, x);
    assert y in multiset(effects) && y in multiset(others);
    rest := WithoutOne(others, y);
    Headed(x, [y] + rest);
    Headed(y, rest);
    Headed(y, [x] + rest);
    Headed(x, rest);
  }

  lemma {:induction false} OneClaimPermutes(effects: seq<ClaimEffect>, a: seq<ClaimEffect>)
    requires OneClaim(effects) && multiset(a) == multiset(effects)
    ensures OneClaim(a)
  {
    SameMembers(a, effects);
    hide SameClaim;
  }

  lemma {:induction false} SomeUnsettled(effects: seq<ClaimEffect>, owed: map<string, Meta>) returns (x: ClaimEffect, y: ClaimEffect)
    requires OneClaim(effects) && !Settled(effects, owed)
    ensures x in effects && y in effects && x != y && x.obligationId == y.obligationId && SameClaim(x, y)
    ensures !Mirrored(owed, x) && Mirrored(owed, y) && x.amount.units != 0
  {
    hide Mirrored;
    x, y :| x in effects && y in effects && x.obligationId == y.obligationId && Mirrored(owed, x) != Mirrored(owed, y) && x.amount.units != 0;
    assert SameClaim(x, y);
    if Mirrored(owed, x) {
      x, y := y, x;
    }
  }

  lemma {:induction false} OrderGives(facts: Facts, effects: seq<ClaimEffect>, owed: map<string, Meta>, m: map<string, ClaimEffect>,
                                      b: seq<ClaimEffect>) returns (n: map<string, ClaimEffect>)
    requires OrderFree(facts, effects, owed, m) && multiset(b) == multiset(effects)
    ensures Claimed(b, n) && (forall id :: id in n ==> MirrorSound(owed, n[id])) && SameReserved(m, n, owed)
  {
    hide Claimed, MirrorSound, SameReserved, EffectSound;
    assert Reorders(b, effects);
    n :| ClaimsSound(facts, b, owed, n) && SameReserved(m, n, owed);
  }

  lemma {:induction false} UnsettledNotFree(facts: Facts, effects: seq<ClaimEffect>, owed: map<string, Meta>, m: map<string, ClaimEffect>)
    requires OneClaim(effects) && !Settled(effects, owed)
    ensures !OrderFree(facts, effects, owed, m)
  {
    hide *;
    if OrderFree(facts, effects, owed, m) {
      var x, y := SomeUnsettled(effects, owed);
      var rest := TwoFirst(effects, x, y);
      var p := OrderGives(facts, effects, owed, m, [x] + ([y] + rest));
      var q := OrderGives(facts, effects, owed, m, [y] + ([x] + rest));
      UnsettledDiffers(x, y, rest, owed, p, q);
      SameAs(m, p, owed, CategoryOf(x));
      SameAs(m, q, owed, CategoryOf(x));
    }
  }

  lemma {:induction false} SameAs(m: map<string, ClaimEffect>, n: map<string, ClaimEffect>, owed: map<string, Meta>, category: string)
    requires SameReserved(m, n, owed)
    ensures SumMap(ReservedIn(m, owed, category)) == SumMap(ReservedIn(n, owed, category))
  {
  }

  /** A claim put first is the one that is compared with its obligation. */
  lemma {:induction false} FreeAgrees(facts: Facts, effects: seq<ClaimEffect>, owed: map<string, Meta>, m: map<string, ClaimEffect>, e: ClaimEffect)
    requires OrderFree(facts, effects, owed, m) && e in effects
    ensures MirrorSound(owed, e)
  {
    hide *;
    var rest := WithoutOne(effects, e);
    Headed(e, rest);
    var n := OrderGives(facts, effects, owed, m, [e] + rest);
    HeadClaimed(e, rest, n);
  }

  /**
   * Of claims that are accepted in one order, every other order is accepted too and reserves the same exactly when
   * the claims are settled and each of them, not only the first of its identity, agrees with what it mirrors.
   */
  lemma {:induction false} ReservationsOrderFree(facts: Facts, effects: seq<ClaimEffect>, owed: map<string, Meta>, m: map<string, ClaimEffect>)
    requires ClaimsSound(facts, effects, owed, m)
    ensures OrderFree(facts, effects, owed, m) <==> Settled(effects, owed) && AllAgree(effects, owed)
  {
    assert Claimed(effects, m);
    ClaimedOnce(effects, m);
    hide OrderFree, Settled, ClaimsSound, OneClaim, Claimed, MirrorSound;
    if OrderFree(facts, effects, owed, m) {
      forall e | e in effects
        ensures MirrorSound(owed, e)
      {
        FreeAgrees(facts, effects, owed, m, e);
      }
      if !Settled(effects, owed) {
        UnsettledNotFree(facts, effects, owed, m);
      }
    }
    if Settled(effects, owed) && AllAgree(effects, owed) {
      SettledFree(facts, effects, owed, m);
    }
  }

  // Sound claims whose order matters.

  function Derived(): ClaimEffect {
    ClaimEffect(Category, false, "home", None, "rent:category:home", Some("rent"), Money(5, "USD"))
  }

  function Plain(): ClaimEffect {
    Derived().(sourceId := None)
  }

  lemma {:induction false} MatchedIds()
    ensures MatchedId(Derived()) == Ok("rent") && MatchedId(Plain()) == Ok("rent:category:home")
  {
    assert "rent" + ":category:" + "home" == "rent:category:home";
  }

  function Home(units: i64): Meta {
    Meta(Money(units, "USD"), Some("home"), "bank")
  }

  lemma {:induction false} Unequal()
    ensures "rent:category:home" != "rent"
  {
    assert |"rent:category:home"| != |"rent"|;
  }

  lemma {:induction false} BothSound(facts: Facts)
    requires InCategory(facts, "home", "USD")
    ensures EffectSound(facts, Derived()) && EffectSound(facts, Plain()) && SameClaim(Derived(), Plain())
  {
    MatchedIds();
    hide MatchedId, InCategory;
  }

  lemma {:induction false} LedBy(first: ClaimEffect, second: ClaimEffect)
    requires first.obligationId == second.obligationId && SameClaim(first, second)
    ensures Claimed([first, second], map[first.obligationId := first])
    ensures forall n :: Claimed([first, second], n) ==> first.obligationId in n && n[first.obligationId] == first
  {
    var both := [first, second];
    assert FirstAt(both, first.obligationId, first) by {
      assert both[0] == first;
    }
    forall n | Claimed(both, n)
      ensures first.obligationId in n && n[first.obligationId] == first
    {
      assert both == [first] + [second];
      HeadClaimed(first, [second], n);
    }
  }

  lemma {:induction false} ReservesOnly(e: ClaimEffect, owed: map<string, Meta>, category: string)
    ensures SumMap(ReservedIn(map[e.obligationId := e], owed, category))
         == if CategoryOf(e) == category && !Mirrored(owed, e) then e.amount.units else 0
  {
    var r := ReservedIn(map[e.obligationId := e], owed, category);
    if e.obligationId in r {
      SumMapRemove(r, e.obligationId);
      assert r - {e.obligationId} == map[];
    } else {
      assert r == map[];
    }
  }

  lemma {:induction false} SoundLedBy(facts: Facts, first: ClaimEffect, second: ClaimEffect, owed: map<string, Meta>)
    requires EffectSound(facts, first) && EffectSound(facts, second) && first.obligationId == second.obligationId && SameClaim(first, second)
    requires MirrorSound(owed, first)
    ensures ClaimsSound(facts, [first, second], owed, map[first.obligationId := first])
  {
    LedBy(first, second);
    hide Claimed, EffectSound, MirrorSound, ReservedIn, SumMap, Mirrored;
    forall category
      ensures Fits(SumMap(ReservedIn(map[first.obligationId := first], owed, category)))
    {
      ReservesOnly(first, owed, category);
    }
  }

  lemma {:induction false} RefusedLedBy(facts: Facts, first: ClaimEffect, second: ClaimEffect, owed: map<string, Meta>)
    requires first.obligationId == second.obligationId && SameClaim(first, second) && !MirrorSound(owed, first)
    ensures forall n :: !ClaimsSound(facts, [first, second], owed, n)
  {
    LedBy(first, second);
    hide MirrorSound, SameClaim, EffectSound, ReservedIn, SumMap;
    assert forall n :: ClaimsSound(facts, [first, second], owed, n) ==> Claimed([first, second], n);
    hide Claimed;
  }

  /**
   * A claim written with its source mirrors the rent; the same claim written without it, and met first, reserves it
   * again. Both orders are accepted.
   */
  lemma {:induction false} OrderMatters(facts: Facts)
    requires InCategory(facts, "home", "USD")
    ensures var owed := map["rent" := Home(5)];
            ClaimsSound(facts, [Derived(), Plain()], owed, map["rent:category:home" := Derived()])
            && ClaimsSound(facts, [Plain(), Derived()], owed, map["rent:category:home" := Plain()])
            && SumMap(ReservedIn(map["rent:category:home" := Derived()], owed, "home")) == 0
            && SumMap(ReservedIn(map["rent:category:home" := Plain()], owed, "home")) == 5
  {
    var owed := map["rent" := Home(5)];
    MatchedIds();
    BothSound(facts);
    Unequal();
    hide MatchedId, InCategory, ClaimsSound, ReservedIn, SumMap, EffectSound;
    assert Mirrored(owed, Derived()) && !Mirrored(owed, Plain());
    SoundLedBy(facts, Derived(), Plain(), owed);
    SoundLedBy(facts, Plain(), Derived(), owed);
    ReservesOnly(Derived(), owed, "home");
    ReservesOnly(Plain(), owed, "home");
  }

  /**
   * Two settled claims, accepted in one order and refused in the other: each mirrors an obligation, and only one of
   * them agrees with it.
   */
  lemma {:induction false} OrderRefuses(facts: Facts)
    requires InCategory(facts, "home", "USD")
    ensures var owed := map["rent" := Home(7), "rent:category:home" := Home(5)];
            Settled([Plain(), Derived()], owed)
            && ClaimsSound(facts, [Plain(), Derived()], owed, map["rent:category:home" := Plain()])
            && forall n :: !ClaimsSound(facts, [Derived(), Plain()], owed, n)
  {
    var owed := map["rent" := Home(7), "rent:category:home" := Home(5)];
    MatchedIds();
    BothSound(facts);
    Unequal();
    hide MatchedId, InCategory, ReservedIn, SumMap, EffectSound;
    assert Mirrored(owed, Derived()) && Mirrored(owed, Plain()) && !MirrorSound(owed, Derived()) && MirrorSound(owed, Plain());
    SoundLedBy(facts, Plain(), Derived(), owed);
    RefusedLedBy(facts, Derived(), Plain(), owed);
  }
}
