/** What each budget category has, owes and has reserved, every economic obligation counted once. */
module CategoryTotals {
  import opened CheckedMoney
  import opened Rows
  import opened Text
  import opened Action
  import opened Sums
  import opened Cart
  import opened Donors
  import Timestamps
  import Calendar

  /** An obligation of some account. */
  datatype Due = Due(
    obligationId: string, accountId: string, categoryId: Option<string>, amount: Money, paid: bool, included: bool, dueAt: string)

  datatype ClaimState = Active | Initiated | Cancelled | Expired | Settled

  datatype EffectKind = Category | AccountDebit | DestinationHold

  datatype ClaimEffect = ClaimEffect(
    kind: EffectKind, included: bool, resourceId: string, categoryId: Option<string>, obligationId: string,
    sourceId: Option<string>, amount: Money)

  datatype Bundle = Bundle(state: ClaimState, initiated: bool, expiresAt: string, effects: seq<ClaimEffect>)

  // Which obligations and claims count.

  predicate InHorizon(dueAt: string, end: string) {
    var last := Timestamps.CanonicalTimestamp(end);
    last.Some?
    && if |dueAt| == 10 then
         ValidDate(dueAt)
         && !Calendar.DateLt(last.value.year, last.value.month, last.value.day,
                             Decimal(dueAt[..4]), Decimal(dueAt[5..7]), Decimal(dueAt[8..]))
       else
         var due := Timestamps.CanonicalTimestamp(dueAt);
         due.Some? && Calendar.StampLt(due.value, last.value)
  }

  predicate Counts(d: Due, end: string) {
    !d.paid && !d.included && InHorizon(d.dueAt, end)
  }

  predicate Live(b: Bundle, now: string) {
    match b.state
    case Initiated => true
    case Active =>
      b.initiated
      || (var expiry, at := Timestamps.CanonicalTimestamp(b.expiresAt), Timestamps.CanonicalTimestamp(now);
          expiry.Some? && at.Some? && Calendar.StampLt(at.value, expiry.value))
    case _ => false
  }

  function EffectsOf(effects: seq<ClaimEffect>): seq<ClaimEffect> {
    if effects == [] then []
    else
      var last := effects[|effects| - 1];
      EffectsOf(effects[..|effects| - 1]) + if last.kind == Category && !last.included then [last] else []
  }

  /** The category effects of live claims, in order. */
  function LiveEffects(bundles: seq<Bundle>, now: string): seq<ClaimEffect> {
    if bundles == [] then []
    else
      var last := bundles[|bundles| - 1];
      LiveEffects(bundles[..|bundles| - 1], now) + if Live(last, now) then EffectsOf(last.effects) else []
  }

  // Facts.

  /** The months since the year zero of a canonical month, which allows no sign. */
  function MonthNumber(s: string): Option<int> {
    if |s| == 7 && s[4] == '-' && AllDigits(s[..4]) && AllDigits(s[5..]) && 1 <= Decimal(s[5..]) <= 12
    then Some(Decimal(s[..4]) * 12 + Decimal(s[5..]))
    else None
  }

  predicate FactSound(facts: Facts, row: NamedMoney<Slot, CategoryFactInfo>)
    requires MonthNumber(facts.asOfMonth).Some?
  {
    MonthNumber(row.key.month).Some? && !Blank(row.key.categoryId) && row.money.units >= 0
    && (row.rest.period == Current ==> MonthNumber(row.key.month) == MonthNumber(facts.asOfMonth))
    && (row.rest.period == Future ==> MonthNumber(row.key.month).value > MonthNumber(facts.asOfMonth).value)
  }

  predicate PairSound(facts: Facts, buckets: seq<string>, j: nat, k: nat)
    requires j < |facts.categories| && k < |facts.categories| && j < |buckets| && k < |buckets|
  {
    var a, b := facts.categories[j], facts.categories[k];
    a.key != b.key && buckets[j] != buckets[k] && (a.key.categoryId == b.key.categoryId ==> a.money.currency == b.money.currency)
  }

  /** The first rows: one a slot and one a bucket, none negative, one currency a category, each in its own period. */
  predicate FactsSoundTo(facts: Facts, buckets: seq<string>, i: nat)
    requires i <= |facts.categories| && i <= |buckets|
  {
    MonthNumber(facts.asOfMonth).Some?
    && (forall j :: 0 <= j < i ==> FactSound(facts, facts.categories[j]) && !Blank(buckets[j]))
    && forall j, k :: 0 <= j < k < i ==> PairSound(facts, buckets, j, k)
  }

  predicate FactsSound(facts: Facts, buckets: seq<string>) {
    |buckets| == |facts.categories| && FactsSoundTo(facts, buckets, |buckets|)
  }

  predicate InCategory(facts: Facts, category: string, currency: string) {
    var fact := FactAt(facts, Slot(category, facts.asOfMonth));
    fact.Some? && fact.value.money.currency == currency
  }

  // Obligations.

  datatype Meta = Meta(amount: Money, categoryId: Option<string>, accountId: string)

  function MetaOf(d: Due): Meta {
    Meta(d.amount, d.categoryId, d.accountId)
  }

  predicate DueSound(facts: Facts, d: Due) {
    d.obligationId != "" && d.amount.units >= 0
    && (d.categoryId.Some? ==> InCategory(facts, d.categoryId.value, d.amount.currency))
  }

  /** The counted obligations by identity: all of one identity say the same. */
  ghost predicate Owed(dues: seq<Due>, end: string, m: map<string, Meta>) {
    (forall d :: d in dues && Counts(d, end) ==> d.obligationId in m && m[d.obligationId] == MetaOf(d))
    && forall id :: id in m ==> exists d :: d in dues && Counts(d, end) && d.obligationId == id
  }

  function OwedIn(m: map<string, Meta>, category: string): map<string, i64> {
    map id | id in m && m[id].categoryId == Some(category) :: m[id].amount.units
  }

  // Claims.

  function CategoryOf(e: ClaimEffect): string {
    if e.categoryId.Some? then e.categoryId.value else e.resourceId
  }

  /** The obligation a claim says it mirrors; a derived identity must spell out its source and its resource. */
  function MatchedId(e: ClaimEffect): Result<string> {
    if e.sourceId.None? then Ok(e.obligationId)
    else if e.sourceId.value == "" || e.obligationId != e.sourceId.value + ":category:" + e.resourceId then Err("ambiguous_claim_match")
    else Ok(e.sourceId.value)
  }

  predicate EffectSound(facts: Facts, e: ClaimEffect) {
    (e.categoryId.Some? ==> e.categoryId.value == e.resourceId) && e.obligationId != "" && e.amount.units >= 0
    && InCategory(facts, CategoryOf(e), e.amount.currency) && MatchedId(e).Ok?
  }

  predicate SameClaim(a: ClaimEffect, b: ClaimEffect) {
    CategoryOf(a) == CategoryOf(b) && a.amount == b.amount
  }

  /** By identity, the first effect of each; the later ones say the same. */
  ghost predicate Claimed(effects: seq<ClaimEffect>, m: map<string, ClaimEffect>) {
    (forall i :: 0 <= i < |effects| ==> effects[i].obligationId in m && SameClaim(m[effects[i].obligationId], effects[i]))
    && forall id :: id in m ==> FirstAt(effects, id, m[id])
  }

  ghost predicate FirstAt(effects: seq<ClaimEffect>, id: string, e: ClaimEffect) {
    exists i :: 0 <= i < |effects| && effects[i] == e && e.obligationId == id && forall j :: 0 <= j < i ==> effects[j].obligationId != id
  }

  predicate Mirrored(owed: map<string, Meta>, e: ClaimEffect) {
    MatchedId(e).Ok? && MatchedId(e).value in owed
  }

  /** A claim that mirrors an obligation must agree with it. */
  predicate MirrorSound(owed: map<string, Meta>, e: ClaimEffect) {
    Mirrored(owed, e) ==>
      owed[MatchedId(e).value].amount == e.amount && owed[MatchedId(e).value].categoryId == Some(CategoryOf(e))
  }

  function ReservedIn(m: map<string, ClaimEffect>, owed: map<string, Meta>, category: string): map<string, i64> {
    map id | id in m && CategoryOf(m[id]) == category && !Mirrored(owed, m[id]) :: m[id].amount.units
  }

  // The totals.

  /** One entry a fact: its availability, what is owed and what is reserved in the snapshot's own month. */
  ghost predicate TotalsMean(facts: Facts, owed: map<string, Meta>, claims: map<string, ClaimEffect>, totals: map<Slot, Totals>) {
    (forall slot :: slot in totals <==> slot in KeysOf(facts.categories))
    && forall slot :: slot in totals ==> TotalMeans(facts, owed, claims, slot, totals[slot])
  }

  ghost predicate TotalMeans(facts: Facts, owed: map<string, Meta>, claims: map<string, ClaimEffect>, slot: Slot, t: Totals) {
    FactAt(facts, slot).Some? && t.availability == FactAt(facts, slot).value.money.units
    && t.commitments == (if slot.month == facts.asOfMonth then SumMap(OwedIn(owed, slot.categoryId)) else 0)
    && t.reservations == (if slot.month == facts.asOfMonth then SumMap(ReservedIn(claims, owed, slot.categoryId)) else 0)
  }

  /** What the sources must be for totals to exist. */
  ghost predicate Totalled(facts: Facts, buckets: seq<string>, dues: seq<Due>, effects: seq<ClaimEffect>, end: string,
                           owed: map<string, Meta>, claims: map<string, ClaimEffect>)
  {
    FactsSound(facts, buckets) && DuesSound(facts, dues, end, owed) && ClaimsSound(facts, effects, owed, claims)
  }

  ghost predicate DuesSound(facts: Facts, dues: seq<Due>, end: string, owed: map<string, Meta>) {
    (forall d :: d in dues && Counts(d, end) ==> DueSound(facts, d)) && Owed(dues, end, owed)
    && forall slot :: slot in KeysOf(facts.categories) ==> Fits(SumMap(OwedIn(owed, slot.categoryId)))
  }

  ghost predicate ClaimsSound(facts: Facts, effects: seq<ClaimEffect>, owed: map<string, Meta>, claims: map<string, ClaimEffect>) {
    (forall e :: e in effects ==> EffectSound(facts, e)) && Claimed(effects, claims)
    && (forall id :: id in claims ==> MirrorSound(owed, claims[id]))
    && forall slot :: slot in KeysOf(facts.categories) ==> Fits(SumMap(ReservedIn(claims, owed, slot.categoryId)))
  }
}
