/** The three passes that build category totals: over facts, over obligations, over claims. */
module CategoryPass {
  import opened CheckedMoney
  import opened Rows
  import opened Text
  import opened Action
  import opened Sums
  import opened Cart
  import opened Donors
  import opened CategoryTotals

  // Sums over growing maps.

  lemma {:induction false} SumMapGrows<K>(m: map<K, i64>, n: map<K, i64>)
    requires forall k :: k in m ==> k in n && n[k] == m[k]
    requires forall k :: k in n ==> n[k] >= 0
    ensures SumMap(m) <= SumMap(n)
    decreases |n|
  {
    if k :| k in m {
      SumMapRemove(m, k);
      SumMapRemove(n, k);
      SumMapGrows(m - {k}, n - {k});
    } else {
      SumMapSign(n);
    }
  }

  lemma {:induction false} SumMapSign<K>(m: map<K, i64>)
    requires forall k :: k in m ==> m[k] >= 0
    ensures SumMap(m) >= 0
    decreases |m|
  {
    if m != map[] {
      var k :| k in m;
      SumMapRemove(m, k);
      SumMapSign(m - {k});
    }
  }

  // The facts.

  ghost predicate FactsUpTo(facts: Facts, buckets: seq<string>, i: nat, totals: map<Slot, Totals>, currencies: map<string, string>, seen: set<string>)
    requires i <= |facts.categories| && i <= |buckets|
  {
    FactsSoundTo(facts, buckets, i) && Available(facts, i, totals) && Denominated(facts, i, currencies)
    && seen == set j | 0 <= j < i :: buckets[j]
  }

  ghost predicate Available(facts: Facts, i: nat, totals: map<Slot, Totals>)
    requires i <= |facts.categories|
  {
    (forall j :: 0 <= j < i ==> facts.categories[j].key in totals
                                && totals[facts.categories[j].key] == Totals(facts.categories[j].money.units, 0, 0))
    && forall slot :: slot in totals ==> exists j :: 0 <= j < i && facts.categories[j].key == slot
  }

  ghost predicate Denominated(facts: Facts, i: nat, currencies: map<string, string>)
    requires i <= |facts.categories|
  {
    (forall j :: 0 <= j < i ==> facts.categories[j].key.categoryId in currencies
                                && currencies[facts.categories[j].key.categoryId] == facts.categories[j].money.currency)
    && forall id :: id in currencies ==> exists j :: 0 <= j < i && facts.categories[j].key.categoryId == id
  }

  lemma {:induction false} AvailableNext(facts: Facts, i: nat, totals: map<Slot, Totals>)
    requires i < |facts.categories| && Available(facts, i, totals) && facts.categories[i].key !in totals
    ensures Available(facts, i + 1, totals[facts.categories[i].key := Totals(facts.categories[i].money.units, 0, 0)])
  {
    var next := totals[facts.categories[i].key := Totals(facts.categories[i].money.units, 0, 0)];
    forall slot | slot in next
      ensures exists j :: 0 <= j < i + 1 && facts.categories[j].key == slot
    {
      if slot in totals {
        var j :| 0 <= j < i && facts.categories[j].key == slot;
      } else {
        assert facts.categories[i].key == slot;
      }
    }
  }

  lemma {:induction false} DenominatedNext(facts: Facts, i: nat, currencies: map<string, string>)
    requires i < |facts.categories| && Denominated(facts, i, currencies)
    requires var row := facts.categories[i]; row.key.categoryId in currencies ==> currencies[row.key.categoryId] == row.money.currency
    ensures Denominated(facts, i + 1, currencies[facts.categories[i].key.categoryId := facts.categories[i].money.currency])
  {
    var next := currencies[facts.categories[i].key.categoryId := facts.categories[i].money.currency];
    forall id | id in next
      ensures exists j :: 0 <= j < i + 1 && facts.categories[j].key.categoryId == id
    {
      if id != facts.categories[i].key.categoryId {
        var j :| 0 <= j < i && facts.categories[j].key.categoryId == id;
      } else {
        assert facts.categories[i].key.categoryId == id;
      }
    }
  }

  predicate RowFits(facts: Facts, buckets: seq<string>, i: nat, totals: map<Slot, Totals>, currencies: map<string, string>, seen: set<string>)
    requires i < |facts.categories| && i < |buckets| && MonthNumber(facts.asOfMonth).Some?
  {
    var row := facts.categories[i];
    FactSound(facts, row) && row.key !in totals && !Blank(buckets[i]) && buckets[i] !in seen
    && (row.key.categoryId in currencies ==> currencies[row.key.categoryId] == row.money.currency)
  }

  lemma {:induction false} PairFits(facts: Facts, buckets: seq<string>, i: nat, totals: map<Slot, Totals>, currencies: map<string, string>, seen: set<string>, j: nat)
    requires j < i < |facts.categories| && i < |buckets| && FactsUpTo(facts, buckets, i, totals, currencies, seen)
    requires MonthNumber(facts.asOfMonth).Some? && RowFits(facts, buckets, i, totals, currencies, seen)
    ensures PairSound(facts, buckets, j, i)
  {
    hide FactsSoundTo, MonthNumber, FactSound, Blank;
  }

  lemma {:induction false} Unfit(facts: Facts, buckets: seq<string>, i: nat, totals: map<Slot, Totals>, currencies: map<string, string>, seen: set<string>)
    requires i < |facts.categories| && i < |buckets| && FactsUpTo(facts, buckets, i, totals, currencies, seen)
    requires MonthNumber(facts.asOfMonth).Some? && FactSound(facts, facts.categories[i]) && !Blank(buckets[i])
    requires forall j :: 0 <= j < i ==> PairSound(facts, buckets, j, i)
    ensures RowFits(facts, buckets, i, totals, currencies, seen)
  {
    hide FactsSoundTo, MonthNumber, FactSound, Blank;
    var row := facts.categories[i];
    forall slot | slot in totals
      ensures slot != row.key
    {
      var j :| 0 <= j < i && facts.categories[j].key == slot;
      assert PairSound(facts, buckets, j, i);
    }
    forall b | b in seen
      ensures b != buckets[i]
    {
      var j :| 0 <= j < i && buckets[j] == b;
      assert PairSound(facts, buckets, j, i);
    }
    if row.key.categoryId in currencies {
      var j :| 0 <= j < i && facts.categories[j].key.categoryId == row.key.categoryId;
      assert PairSound(facts, buckets, j, i);
    }
  }

  lemma {:induction false} SoundNext(facts: Facts, buckets: seq<string>, i: nat, totals: map<Slot, Totals>, currencies: map<string, string>, seen: set<string>)
    requires i < |facts.categories| && i < |buckets| && FactsUpTo(facts, buckets, i, totals, currencies, seen)
    requires MonthNumber(facts.asOfMonth).Some?
    ensures RowFits(facts, buckets, i, totals, currencies, seen) <==> FactsSoundTo(facts, buckets, i + 1)
  {
    hide MonthNumber, Blank, FactSound, PairSound, Available, Denominated;
    if RowFits(facts, buckets, i, totals, currencies, seen) {
      forall j | 0 <= j < i
        ensures PairSound(facts, buckets, j, i)
      {
        PairFits(facts, buckets, i, totals, currencies, seen, j);
      }
    }
    if FactsSoundTo(facts, buckets, i + 1) {
      Unfit(facts, buckets, i, totals, currencies, seen);
    }
  }

  lemma {:induction false} FactsNext(facts: Facts, buckets: seq<string>, i: nat, totals: map<Slot, Totals>, currencies: map<string, string>, seen: set<string>)
    requires i < |facts.categories| && i < |buckets| && FactsUpTo(facts, buckets, i, totals, currencies, seen)
    requires MonthNumber(facts.asOfMonth).Some? && RowFits(facts, buckets, i, totals, currencies, seen)
    ensures var row := facts.categories[i];
            FactsUpTo(facts, buckets, i + 1, totals[row.key := Totals(row.money.units, 0, 0)], currencies[row.key.categoryId := row.money.currency], seen + {buckets[i]})
  {
    SoundNext(facts, buckets, i, totals, currencies, seen);
    hide FactsSoundTo, Available, Denominated, MonthNumber, FactSound, Blank;
    AvailableNext(facts, i, totals);
    DenominatedNext(facts, i, currencies);
    SeenNext(buckets, i);
  }

  lemma {:induction false} SeenNext(buckets: seq<string>, i: nat)
    requires i < |buckets|
    ensures (set j | 0 <= j < i + 1 :: buckets[j]) == (set j | 0 <= j < i :: buckets[j]) + {buckets[i]}
  {
  }

  lemma {:induction false} FactsRefused(facts: Facts, buckets: seq<string>, i: nat, totals: map<Slot, Totals>, currencies: map<string, string>, seen: set<string>)
    requires i < |facts.categories| && i < |buckets| && FactsUpTo(facts, buckets, i, totals, currencies, seen)
    requires MonthNumber(facts.asOfMonth).Some? && !RowFits(facts, buckets, i, totals, currencies, seen)
    ensures !FactsSound(facts, buckets)
  {
    SoundNext(facts, buckets, i, totals, currencies, seen);
    hide FactsUpTo, RowFits, MonthNumber, FactSound, Blank;
  }

  lemma {:induction false} NoFacts(facts: Facts, buckets: seq<string>)
    requires MonthNumber(facts.asOfMonth).Some?
    ensures FactsUpTo(facts, buckets, 0, map[], map[], {})
  {
    hide MonthNumber;
  }

  lemma {:induction false} AvailableMeans(facts: Facts, totals: map<Slot, Totals>, slot: Slot)
    requires Available(facts, |facts.categories|, totals) && slot in KeysOf(facts.categories)
    ensures slot in totals && TotalMeans(facts, map[], map[], slot, totals[slot])
  {
    var j := IndexOf(KeysOf(facts.categories), slot);
    assert facts.categories[j].key == slot;
    assert OwedIn(map[], slot.categoryId) == map[] && ReservedIn(map[], map[], slot.categoryId) == map[];
  }

  lemma {:induction false} FactsDone(facts: Facts, buckets: seq<string>, totals: map<Slot, Totals>, currencies: map<string, string>, seen: set<string>)
    requires |buckets| == |facts.categories| && FactsUpTo(facts, buckets, |buckets|, totals, currencies, seen)
    ensures FactsSound(facts, buckets) && TotalsMean(facts, map[], map[], totals)
  {
    hide FactsSoundTo, Denominated, TotalMeans;
    forall slot
      ensures slot in totals <==> slot in KeysOf(facts.categories)
    {
      if slot in totals {
        var j :| 0 <= j < |buckets| && facts.categories[j].key == slot;
        assert KeysOf(facts.categories)[j] == slot;
      }
      if slot in KeysOf(facts.categories) {
        AvailableMeans(facts, totals, slot);
      }
    }
    hide Available;
    forall slot | slot in totals
      ensures TotalMeans(facts, map[], map[], slot, totals[slot])
    {
      AvailableMeans(facts, totals, slot);
    }
  }

  /** Availability by slot, with every fact checked against those before it. */
  method CollectFacts(facts: Facts, buckets: seq<string>) returns (r: Result<map<Slot, Totals>>)
    requires |buckets| == |facts.categories|
    ensures r.Ok? <==> FactsSound(facts, buckets)
    ensures r.Ok? ==> TotalsMean(facts, map[], map[], r.value)
  {
    hide MonthNumber, Blank, FactSound, FactsSound, TotalsMean, FactsUpTo;
    if MonthNumber(facts.asOfMonth).None? {
      NoMonth(facts, buckets);
      return Err("invalid_as_of_month");
    }
    var totals: map<Slot, Totals>, currencies: map<string, string>, seen: set<string> := map[], map[], {};
    NoFacts(facts, buckets);
    for i := 0 to |buckets|
      invariant FactsUpTo(facts, buckets, i, totals, currencies, seen)
    {
      var row := facts.categories[i];
      if !RowFits(facts, buckets, i, totals, currencies, seen) {
        FactsRefused(facts, buckets, i, totals, currencies, seen);
        return Err("duplicate_or_invalid_category_identity");
      }
      FactsNext(facts, buckets, i, totals, currencies, seen);
      totals, currencies := totals[row.key := Totals(row.money.units, 0, 0)], currencies[row.key.categoryId := row.money.currency];
      seen := seen + {buckets[i]};
    }
    FactsDone(facts, buckets, totals, currencies, seen);
    r := Ok(totals);
  }

  lemma {:induction false} NoMonth(facts: Facts, buckets: seq<string>)
    requires MonthNumber(facts.asOfMonth).None?
    ensures !FactsSound(facts, buckets)
  {
    hide MonthNumber;
  }

  // The obligations.

  ghost predicate DuesUpTo(facts: Facts, dues: seq<Due>, end: string, i: nat, owed: map<string, Meta>, totals: map<Slot, Totals>)
    requires i <= |dues|
  {
    (forall d :: d in dues[..i] && Counts(d, end) ==> DueSound(facts, d)) && Owed(dues[..i], end, owed)
    && TotalsMean(facts, owed, map[], totals)
  }

  lemma {:induction false} OwedSkips(dues: seq<Due>, end: string, i: nat, owed: map<string, Meta>)
    requires i < |dues| && Owed(dues[..i], end, owed)
    requires Counts(dues[i], end) ==> dues[i].obligationId in owed && owed[dues[i].obligationId] == MetaOf(dues[i])
    ensures Owed(dues[..i + 1], end, owed)
  {
    hide Counts;
    assert dues[..i + 1] == dues[..i] + [dues[i]];
    forall id | id in owed
      ensures exists d :: d in dues[..i + 1] && Counts(d, end) && d.obligationId == id
    {
      var d :| d in dues[..i] && Counts(d, end) && d.obligationId == id;
      assert d in dues[..i + 1];
    }
  }

  lemma {:induction false} OwedNext(dues: seq<Due>, end: string, i: nat, owed: map<string, Meta>)
    requires i < |dues| && Owed(dues[..i], end, owed) && Counts(dues[i], end) && dues[i].obligationId !in owed
    ensures Owed(dues[..i + 1], end, owed[dues[i].obligationId := MetaOf(dues[i])])
  {
    hide Counts;
    var next := owed[dues[i].obligationId := MetaOf(dues[i])];
    assert dues[..i + 1] == dues[..i] + [dues[i]];
    forall id | id in next
      ensures exists d :: d in dues[..i + 1] && Counts(d, end) && d.obligationId == id
    {
      if id in owed {
        var d :| d in dues[..i] && Counts(d, end) && d.obligationId == id;
        assert d in dues[..i + 1];
      } else {
        assert dues[i] in dues[..i + 1];
      }
    }
  }

  /** One more obligation adds its amount to its own category and to no other. */
  lemma {:induction false} OwedAdds(owed: map<string, Meta>, id: string, meta: Meta, category: string)
    requires id !in owed
    ensures SumMap(OwedIn(owed[id := meta], category)) == SumMap(OwedIn(owed, category)) + if meta.categoryId == Some(category) then meta.amount.units else 0
  {
    if meta.categoryId == Some(category) {
      assert OwedIn(owed[id := meta], category) == OwedIn(owed, category)[id := meta.amount.units];
      SumMapUpdate(OwedIn(owed, category), id, meta.amount.units);
    } else {
      assert OwedIn(owed[id := meta], category) == OwedIn(owed, category);
    }
  }

  function Committed(facts: Facts, totals: map<Slot, Totals>, meta: Meta): Result<map<Slot, Totals>> {
    if meta.categoryId.None? then Ok(totals)
    else
      var slot := Slot(meta.categoryId.value, facts.asOfMonth);
      if slot !in totals then Err("category_missing")
      else
        var sum :- CheckedAdd(totals[slot].commitments, meta.amount.units);
        Ok(totals[slot := totals[slot].(commitments := sum)])
  }

  lemma {:induction false} CommittedMeans(facts: Facts, totals: map<Slot, Totals>, owed: map<string, Meta>, id: string, meta: Meta)
    requires TotalsMean(facts, owed, map[], totals) && id !in owed
    requires meta.categoryId.Some? ==> InCategory(facts, meta.categoryId.value, meta.amount.currency)
    ensures var next := owed[id := meta];
            (Committed(facts, totals, meta).Ok? ==> TotalsMean(facts, next, map[], Committed(facts, totals, meta).value))
            && (Committed(facts, totals, meta).Err? ==>
                  meta.categoryId.Some? && Slot(meta.categoryId.value, facts.asOfMonth) in KeysOf(facts.categories)
                  && !Fits(SumMap(OwedIn(next, meta.categoryId.value))))
  {
    hide SumMap, ReservedIn, OwedIn;
    var after := Committed(facts, totals, meta);
    if meta.categoryId.Some? {
      OwedAdds(owed, id, meta, meta.categoryId.value);
    }
    if after.Ok? {
      forall slot | slot in after.value
        ensures TotalMeans(facts, owed[id := meta], map[], slot, after.value[slot])
      {
        assert TotalMeans(facts, owed, map[], slot, totals[slot]);
        OwedAdds(owed, id, meta, slot.categoryId);
        NothingReserved(owed, slot.categoryId);
        NothingReserved(owed[id := meta], slot.categoryId);
      }
    }
  }

  lemma {:induction false} NothingReserved(owed: map<string, Meta>, category: string)
    ensures ReservedIn(map[], owed, category) == map[]
  {
  }

  lemma {:induction false} OwedWithin(dues: seq<Due>, end: string, i: nat, part: map<string, Meta>, whole: map<string, Meta>)
    requires i <= |dues| && Owed(dues[..i], end, part) && Owed(dues, end, whole)
    ensures forall id :: id in part ==> id in whole && whole[id] == part[id]
  {
    hide Counts;
    forall id | id in part
      ensures id in whole && whole[id] == part[id]
    {
      var d :| d in dues[..i] && Counts(d, end) && d.obligationId == id;
      assert d in dues;
    }
  }

  lemma {:induction false} OwedOverflows(facts: Facts, dues: seq<Due>, end: string, i: nat, part: map<string, Meta>, category: string, whole: map<string, Meta>)
    requires i <= |dues| && Owed(dues[..i], end, part) && !Fits(SumMap(OwedIn(part, category)))
    requires Slot(category, facts.asOfMonth) in KeysOf(facts.categories)
    ensures !DuesSound(facts, dues, end, whole)
  {
    if DuesSound(facts, dues, end, whole) {
      OwedWithin(dues, end, i, part, whole);
      forall id | id in whole
        ensures whole[id].amount.units >= 0
      {
        var d :| d in dues && Counts(d, end) && d.obligationId == id;
        assert DueSound(facts, d);
      }
      hide Counts, DueSound, Owed, SumMap;
      SumMapGrows(OwedIn(part, category), OwedIn(whole, category));
      SumMapSign(OwedIn(part, category));
    }
  }

  lemma {:induction false} DueRefused(facts: Facts, dues: seq<Due>, end: string, i: nat, part: map<string, Meta>, whole: map<string, Meta>)
    requires i < |dues| && Owed(dues[..i], end, part) && Counts(dues[i], end)
    requires !DueSound(facts, dues[i]) || (dues[i].obligationId in part && part[dues[i].obligationId] != MetaOf(dues[i]))
    ensures !DuesSound(facts, dues, end, whole)
  {
    hide Counts, DueSound, SumMap;
    if DuesSound(facts, dues, end, whole) {
      OwedWithin(dues, end, i, part, whole);
    }
  }

  /** Each counted obligation is committed the first time its identity is met; a later one must repeat it exactly. */
  method CollectDues(facts: Facts, dues: seq<Due>, end: string, before: map<Slot, Totals>)
    returns (r: Result<map<Slot, Totals>>, owed: map<string, Meta>)
    requires TotalsMean(facts, map[], map[], before)
    ensures r.Ok? ==> DuesSound(facts, dues, end, owed) && TotalsMean(facts, owed, map[], r.value)
    ensures r.Err? ==> forall m :: !DuesSound(facts, dues, end, m)
  {
    hide Counts, DueSound, TotalsMean, Owed, DuesSound, Committed;
    owed := map[];
    var totals := before;
    NoDues(facts, dues, end, totals);
    for i := 0 to |dues|
      invariant DuesUpTo(facts, dues, end, i, owed, totals)
    {
      var d := dues[i];
      assert dues[..i + 1] == dues[..i] + [d];
      if !Counts(d, end) {
        OwedSkips(dues, end, i, owed);
        continue;
      }
      if !DueSound(facts, d) || (d.obligationId in owed && owed[d.obligationId] != MetaOf(d)) {
        forall m ensures !DuesSound(facts, dues, end, m) {
          DueRefused(facts, dues, end, i, owed, m);
        }
        return Err("ambiguous_obligation_match"), owed;
      }
      if d.obligationId in owed {
        OwedSkips(dues, end, i, owed);
        continue;
      }
      var meta := MetaOf(d);
      MetaKnown(facts, d);
      CommittedMeans(facts, totals, owed, d.obligationId, meta);
      OwedNext(dues, end, i, owed);
      owed := owed[d.obligationId := meta];
      var after := Committed(facts, totals, meta);
      if after.Err? {
        forall m ensures !DuesSound(facts, dues, end, m) {
          OwedOverflows(facts, dues, end, i + 1, owed, meta.categoryId.value, m);
        }
        return Err(after.error), owed;
      }
      totals := after.value;
    }
    DuesDone(facts, dues, end, owed, totals);
    r := Ok(totals);
  }

  lemma {:induction false} MetaKnown(facts: Facts, d: Due)
    requires DueSound(facts, d)
    ensures MetaOf(d).categoryId.Some? ==> InCategory(facts, MetaOf(d).categoryId.value, MetaOf(d).amount.currency)
  {
  }

  lemma {:induction false} NoDues(facts: Facts, dues: seq<Due>, end: string, totals: map<Slot, Totals>)
    requires TotalsMean(facts, map[], map[], totals)
    ensures DuesUpTo(facts, dues, end, 0, map[], totals)
  {
    hide Counts, DueSound, TotalsMean;
  }

  lemma {:induction false} DuesDone(facts: Facts, dues: seq<Due>, end: string, owed: map<string, Meta>, totals: map<Slot, Totals>)
    requires DuesUpTo(facts, dues, end, |dues|, owed, totals)
    ensures DuesSound(facts, dues, end, owed) && TotalsMean(facts, owed, map[], totals)
  {
    hide Counts, DueSound, Owed, SumMap;
    assert dues[..|dues|] == dues;
    forall slot | slot in KeysOf(facts.categories)
      ensures Fits(SumMap(OwedIn(owed, slot.categoryId)))
    {
      SumFits(facts, dues, end, owed, totals, slot);
    }
  }

  lemma {:induction false} SumFits(facts: Facts, dues: seq<Due>, end: string, owed: map<string, Meta>, totals: map<Slot, Totals>, slot: Slot)
    requires DuesUpTo(facts, dues, end, |dues|, owed, totals) && slot in KeysOf(facts.categories)
    ensures Fits(SumMap(OwedIn(owed, slot.categoryId)))
  {
    var here := Slot(slot.categoryId, facts.asOfMonth);
    if here in totals {
      assert TotalMeans(facts, owed, map[], here, totals[here]);
    } else {
      assert dues[..|dues|] == dues;
      forall id | id in owed
        ensures owed[id].categoryId != Some(slot.categoryId)
      {
        var d :| d in dues && Counts(d, end) && d.obligationId == id;
        assert DueSound(facts, d) && owed[id] == MetaOf(d);
      }
      assert OwedIn(owed, slot.categoryId) == map[];
    }
  }

  // The claims.

  ghost predicate ClaimsUpTo(facts: Facts, effects: seq<ClaimEffect>, owed: map<string, Meta>, i: nat, claims: map<string, ClaimEffect>, totals: map<Slot, Totals>)
    requires i <= |effects|
  {
    (forall e :: e in effects[..i] ==> EffectSound(facts, e)) && Claimed(effects[..i], claims)
    && (forall id :: id in claims ==> MirrorSound(owed, claims[id])) && TotalsMean(facts, owed, claims, totals)
  }

  lemma {:induction false} FirstStays(effects: seq<ClaimEffect>, i: nat, id: string, e: ClaimEffect)
    requires i < |effects| && FirstAt(effects[..i], id, e)
    ensures FirstAt(effects[..i + 1], id, e)
  {
    var k :| 0 <= k < i && effects[..i][k] == e && forall j :: 0 <= j < k ==> effects[..i][j].obligationId != id;
    assert effects[..i + 1][k] == e;
    assert forall j :: 0 <= j < k ==> effects[..i + 1][j] == effects[..i][j];
  }

  lemma {:induction false} ClaimedSkips(effects: seq<ClaimEffect>, i: nat, claims: map<string, ClaimEffect>)
    requires i < |effects| && Claimed(effects[..i], claims)
    requires effects[i].obligationId in claims && SameClaim(claims[effects[i].obligationId], effects[i])
    ensures Claimed(effects[..i + 1], claims)
  {
    hide SameClaim, FirstAt;
    assert forall j :: 0 <= j < i ==> effects[..i + 1][j] == effects[..i][j];
    forall id | id in claims
      ensures FirstAt(effects[..i + 1], id, claims[id])
    {
      FirstStays(effects, i, id, claims[id]);
    }
  }

  lemma {:induction false} ClaimedNext(effects: seq<ClaimEffect>, i: nat, claims: map<string, ClaimEffect>)
    requires i < |effects| && Claimed(effects[..i], claims) && effects[i].obligationId !in claims
    ensures Claimed(effects[..i + 1], claims[effects[i].obligationId := effects[i]])
  {
    var e, next := effects[i], claims[effects[i].obligationId := effects[i]];
    assert forall j :: 0 <= j < i ==> effects[..i + 1][j] == effects[..i][j];
    assert effects[..i + 1][i] == e;
    assert FirstAt(effects[..i + 1], e.obligationId, e) by {
      assert forall j :: 0 <= j < i ==> effects[..i][j].obligationId in claims;
    }
    hide FirstAt;
    forall id | id in next
      ensures FirstAt(effects[..i + 1], id, next[id])
    {
      if id != e.obligationId {
        FirstStays(effects, i, id, claims[id]);
      }
    }
  }

  lemma {:induction false} ReservedAdds(claims: map<string, ClaimEffect>, owed: map<string, Meta>, e: ClaimEffect, category: string)
    requires e.obligationId !in claims
    ensures SumMap(ReservedIn(claims[e.obligationId := e], owed, category))
         == SumMap(ReservedIn(claims, owed, category)) + if CategoryOf(e) == category && !Mirrored(owed, e) then e.amount.units else 0
  {
    hide Mirrored, CategoryOf;
    var next := claims[e.obligationId := e];
    if CategoryOf(e) == category && !Mirrored(owed, e) {
      assert ReservedIn(next, owed, category) == ReservedIn(claims, owed, category)[e.obligationId := e.amount.units];
      SumMapUpdate(ReservedIn(claims, owed, category), e.obligationId, e.amount.units);
    } else {
      assert ReservedIn(next, owed, category) == ReservedIn(claims, owed, category);
    }
  }

  function Reserved(facts: Facts, totals: map<Slot, Totals>, owed: map<string, Meta>, e: ClaimEffect): Result<map<Slot, Totals>> {
    if Mirrored(owed, e) then Ok(totals)
    else
      var slot := Slot(CategoryOf(e), facts.asOfMonth);
      if slot !in totals then Err("category_missing")
      else
        var sum :- CheckedAdd(totals[slot].reservations, e.amount.units);
        Ok(totals[slot := totals[slot].(reservations := sum)])
  }

  lemma {:induction false} ReservedMeans(facts: Facts, totals: map<Slot, Totals>, owed: map<string, Meta>, claims: map<string, ClaimEffect>, e: ClaimEffect)
    requires TotalsMean(facts, owed, claims, totals) && e.obligationId !in claims && InCategory(facts, CategoryOf(e), e.amount.currency)
    ensures var next := claims[e.obligationId := e];
            (Reserved(facts, totals, owed, e).Ok? ==> TotalsMean(facts, owed, next, Reserved(facts, totals, owed, e).value))
            && (Reserved(facts, totals, owed, e).Err? ==>
                  Slot(CategoryOf(e), facts.asOfMonth) in KeysOf(facts.categories) && !Fits(SumMap(ReservedIn(next, owed, CategoryOf(e)))))
  {
    hide SumMap, ReservedIn, OwedIn, Mirrored;
    ReservedAdds(claims, owed, e, CategoryOf(e));
    var after := Reserved(facts, totals, owed, e);
    if after.Ok? {
      forall slot | slot in after.value
        ensures TotalMeans(facts, owed, claims[e.obligationId := e], slot, after.value[slot])
      {
        assert TotalMeans(facts, owed, claims, slot, totals[slot]);
        ReservedAdds(claims, owed, e, slot.categoryId);
      }
    }
  }

  lemma {:induction false} FirstSame(effects: seq<ClaimEffect>, i: nat, id: string, a: ClaimEffect, b: ClaimEffect)
    requires i <= |effects| && FirstAt(effects[..i], id, a) && FirstAt(effects, id, b)
    ensures a == b
  {
    var k :| 0 <= k < i && effects[..i][k] == a && forall j :: 0 <= j < k ==> effects[..i][j].obligationId != id;
    var n :| 0 <= n < |effects| && effects[n] == b && forall j :: 0 <= j < n ==> effects[j].obligationId != id;
    assert effects[k] == a;
  }

  lemma {:induction false} FirstClaimed(effects: seq<ClaimEffect>, i: nat, id: string, a: ClaimEffect, whole: map<string, ClaimEffect>)
    requires i <= |effects| && FirstAt(effects[..i], id, a) && Claimed(effects, whole)
    ensures id in whole
  {
    hide SameClaim;
    var k :| 0 <= k < i && effects[..i][k] == a && a.obligationId == id;
    assert effects[k] == a;
  }

  lemma {:induction false} ClaimedWithin(effects: seq<ClaimEffect>, i: nat, part: map<string, ClaimEffect>, whole: map<string, ClaimEffect>)
    requires i <= |effects| && Claimed(effects[..i], part) && Claimed(effects, whole)
    ensures forall id :: id in part ==> id in whole && whole[id] == part[id]
  {
    hide SameClaim, FirstAt;
    forall id | id in part
      ensures id in whole && whole[id] == part[id]
    {
      FirstClaimed(effects, i, id, part[id], whole);
      FirstSame(effects, i, id, part[id], whole[id]);
    }
  }

  lemma {:induction false} ClaimRefused(facts: Facts, effects: seq<ClaimEffect>, owed: map<string, Meta>, i: nat, part: map<string, ClaimEffect>, whole: map<string, ClaimEffect>)
    requires i < |effects| && Claimed(effects[..i], part)
    requires var e := effects[i];
             !EffectSound(facts, e) || (e.obligationId in part && !SameClaim(part[e.obligationId], e))
    ensures !ClaimsSound(facts, effects, owed, whole)
  {
    hide EffectSound, MirrorSound, SumMap, FirstAt, SameClaim;
    if ClaimsSound(facts, effects, owed, whole) {
      ClaimedWithin(effects, i, part, whole);
    }
  }

  lemma {:induction false} MirrorRefused(facts: Facts, effects: seq<ClaimEffect>, owed: map<string, Meta>, i: nat, part: map<string, ClaimEffect>, whole: map<string, ClaimEffect>, id: string)
    requires i <= |effects| && Claimed(effects[..i], part) && id in part && !MirrorSound(owed, part[id])
    ensures !ClaimsSound(facts, effects, owed, whole)
  {
    hide EffectSound, MirrorSound, SumMap, FirstAt, SameClaim;
    if ClaimsSound(facts, effects, owed, whole) {
      ClaimedWithin(effects, i, part, whole);
    }
  }

  lemma {:induction false} ClaimOverflows(facts: Facts, effects: seq<ClaimEffect>, owed: map<string, Meta>, i: nat, part: map<string, ClaimEffect>, category: string, whole: map<string, ClaimEffect>)
    requires i <= |effects| && Claimed(effects[..i], part) && !Fits(SumMap(ReservedIn(part, owed, category)))
    requires Slot(category, facts.asOfMonth) in KeysOf(facts.categories)
    ensures !ClaimsSound(facts, effects, owed, whole)
  {
    hide MirrorSound, SumMap, SameClaim, Mirrored, CategoryOf;
    if ClaimsSound(facts, effects, owed, whole) {
      ClaimedWithin(effects, i, part, whole);
      forall id | id in whole
        ensures whole[id].amount.units >= 0
      {
        assert FirstAt(effects, id, whole[id]);
        assert whole[id] in effects;
        assert EffectSound(facts, whole[id]);
      }
      hide EffectSound, Claimed, FirstAt;
      SumMapGrows(ReservedIn(part, owed, category), ReservedIn(whole, owed, category));
      SumMapSign(ReservedIn(part, owed, category));
    }
  }

  lemma {:induction false} EffectParts(facts: Facts, e: ClaimEffect)
    requires EffectSound(facts, e)
    ensures InCategory(facts, CategoryOf(e), e.amount.currency)
  {
  }

  lemma {:induction false} NoClaims(facts: Facts, effects: seq<ClaimEffect>, owed: map<string, Meta>, totals: map<Slot, Totals>)
    requires TotalsMean(facts, owed, map[], totals)
    ensures ClaimsUpTo(facts, effects, owed, 0, map[], totals)
  {
    hide TotalsMean, EffectSound;
  }

  lemma {:induction false} ClaimsDone(facts: Facts, effects: seq<ClaimEffect>, owed: map<string, Meta>, claims: map<string, ClaimEffect>, totals: map<Slot, Totals>)
    requires ClaimsUpTo(facts, effects, owed, |effects|, claims, totals)
    ensures ClaimsSound(facts, effects, owed, claims) && TotalsMean(facts, owed, claims, totals)
  {
    hide EffectSound, Claimed, SumMap, MirrorSound;
    assert effects[..|effects|] == effects;
    forall slot | slot in KeysOf(facts.categories)
      ensures Fits(SumMap(ReservedIn(claims, owed, slot.categoryId)))
    {
      ReservedFits(facts, effects, owed, claims, totals, slot);
    }
  }

  lemma {:induction false} ReservedFits(facts: Facts, effects: seq<ClaimEffect>, owed: map<string, Meta>, claims: map<string, ClaimEffect>, totals: map<Slot, Totals>, slot: Slot)
    requires ClaimsUpTo(facts, effects, owed, |effects|, claims, totals) && slot in KeysOf(facts.categories)
    ensures Fits(SumMap(ReservedIn(claims, owed, slot.categoryId)))
  {
    hide Mirrored, SameClaim, MirrorSound, OwedIn;
    var here := Slot(slot.categoryId, facts.asOfMonth);
    if here in totals {
      assert TotalMeans(facts, owed, claims, here, totals[here]);
    } else {
      assert effects[..|effects|] == effects;
      forall id | id in claims
        ensures CategoryOf(claims[id]) != slot.categoryId
      {
        assert FirstAt(effects, id, claims[id]);
        assert claims[id] in effects;
        EffectParts(facts, claims[id]);
      }
      assert ReservedIn(claims, owed, slot.categoryId) == map[];
    }
  }

  /** Each claim identity is reserved the first time it is met, unless that claim mirrors a counted obligation. */
  method CollectClaims(facts: Facts, effects: seq<ClaimEffect>, owed: map<string, Meta>, before: map<Slot, Totals>)
    returns (r: Result<map<Slot, Totals>>, claims: map<string, ClaimEffect>)
    requires TotalsMean(facts, owed, map[], before)
    ensures r.Ok? ==> ClaimsSound(facts, effects, owed, claims) && TotalsMean(facts, owed, claims, r.value)
    ensures r.Err? ==> forall m :: !ClaimsSound(facts, effects, owed, m)
  {
    hide EffectSound, TotalsMean, Claimed, ClaimsSound, Reserved, MirrorSound, SameClaim;
    claims := map[];
    var totals := before;
    NoClaims(facts, effects, owed, totals);
    for i := 0 to |effects|
      invariant ClaimsUpTo(facts, effects, owed, i, claims, totals)
    {
      var e := effects[i];
      assert effects[..i + 1] == effects[..i] + [e];
      if !EffectSound(facts, e) || (e.obligationId in claims && !SameClaim(claims[e.obligationId], e)) {
        forall m ensures !ClaimsSound(facts, effects, owed, m) {
          ClaimRefused(facts, effects, owed, i, claims, m);
        }
        return Err("ambiguous_claim_match"), claims;
      }
      if e.obligationId in claims {
        ClaimedSkips(effects, i, claims);
        continue;
      }
      EffectParts(facts, e);
      ReservedMeans(facts, totals, owed, claims, e);
      ClaimedNext(effects, i, claims);
      claims := claims[e.obligationId := e];
      if !MirrorSound(owed, e) {
        forall m ensures !ClaimsSound(facts, effects, owed, m) {
          MirrorRefused(facts, effects, owed, i + 1, claims, m, e.obligationId);
        }
        return Err("ambiguous_claim_match"), claims;
      }
      var after := Reserved(facts, totals, owed, e);
      if after.Err? {
        forall m ensures !ClaimsSound(facts, effects, owed, m) {
          ClaimOverflows(facts, effects, owed, i + 1, claims, CategoryOf(e), m);
        }
        return Err(after.error), claims;
      }
      totals := after.value;
    }
    ClaimsDone(facts, effects, owed, claims, totals);
    r := Ok(totals);
  }
}
