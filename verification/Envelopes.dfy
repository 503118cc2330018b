/** Category envelopes while an action is planned: what each move and each purchase may still take. */
module Envelopes {
  import opened CheckedMoney
  import opened Rows
  import opened Text
  import opened Action
  import opened Sums
  import opened Outflow
  import opened Dispatch
  import opened Donors

  datatype CategoryState = CategoryState(
    availability: Money, uncommitted: Money, commitments: Money, reservations: Money, safeToRedirect: Money, policyKind: Option<string>)

  /** The category side of a planning request and of its decision card. */
  datatype Budget = Budget(
    categories: set<string>, facts: seq<NamedMoney<Slot, CategoryFactInfo>>, states: map<Slot, CategoryState>,
    policies: map<string, Policy>, charges: map<string, Money>)

  datatype Envelope = Envelope(baseline: Money, availability: i64, uncommitted: i64)

  // What earlier steps did to a slot.

  function MonthDeltas(tx: Transaction): seq<(Slot, i64)> {
    if MonthOf(tx.date).Some? then TransactionDeltas(tx, MonthOf(tx.date).value) else []
  }

  function EnvelopeDelta(step: Step, slot: Slot): int {
    match step
    case Move(m) => AssignmentDelta(step, slot)
    case Post(tx) => if Spends(step) then SumFor(MonthDeltas(tx), slot) else 0
    case _ => 0
  }

  function Flow(steps: seq<Step>, slot: Slot): int {
    if steps == [] then 0 else Flow(steps[..|steps| - 1], slot) + EnvelopeDelta(steps[|steps| - 1], slot)
  }

  function ByCategory(deltas: seq<(Slot, i64)>): (r: seq<(string, i64)>)
    ensures |r| == |deltas| && forall i :: 0 <= i < |r| ==> r[i] == (deltas[i].0.categoryId, deltas[i].1)
  {
    seq(|deltas|, i requires 0 <= i < |deltas| => (deltas[i].0.categoryId, deltas[i].1))
  }

  function CategorySpend(step: Step, id: string): int {
    if Spends(step) then -SumFor(ByCategory(MonthDeltas(step.transaction)), id) else 0
  }

  function CategorySpent(steps: seq<Step>, id: string): int {
    if steps == [] then 0 else CategorySpent(steps[..|steps| - 1], id) + CategorySpend(steps[|steps| - 1], id)
  }

  lemma {:induction false} FlowThen(before: seq<Step>, step: Step)
    ensures forall slot :: Flow(before + [step], slot) == Flow(before, slot) + EnvelopeDelta(step, slot)
    ensures forall id :: CategorySpent(before + [step], id) == CategorySpent(before, id) + CategorySpend(step, id)
  {
    assert (before + [step])[..|before|] == before;
  }

  // The running envelopes.

  ghost predicate EnvelopeAt(e: Envelope, state: CategoryState, flow: int) {
    e.baseline == state.availability
    && e.availability == state.availability.units + flow && e.uncommitted == state.uncommitted.units + flow
  }

  ghost predicate TracksEnvelopes(es: map<Slot, Envelope>, b: Budget, steps: seq<Step>) {
    es.Keys == b.states.Keys && forall slot :: slot in es ==> EnvelopeAt(es[slot], b.states[slot], Flow(steps, slot))
  }

  // Moving money between categories.

  function Lower(c: char): char {
    if 'A' <= c <= 'Z' then (c as int + 32) as char else c
  }

  predicate IsKind(kind: string, word: string) {
    |kind| == |word| && forall i :: 0 <= i < |kind| ==> Lower(kind[i]) == word[i]
  }

  predicate Locked(policy: Policy) {
    IsKind(policy.kind, "protected") || IsKind(policy.kind, "goal")
  }

  predicate FactAgrees(b: Budget, slot: Slot, currency: string) {
    Lookup(b.facts, slot).Some? && slot in b.states
    && Lookup(b.facts, slot).value.currency == currency && b.states[slot].availability == Lookup(b.facts, slot).value
  }

  /** Facts and card states on both ends that agree, and a policy for the source. */
  predicate MoveKnown(b: Budget, m: Movement) {
    FactAgrees(b, m.source, m.amount.currency) && FactAgrees(b, m.destination, m.amount.currency)
    && m.source.categoryId in b.policies
  }

  predicate DonorTerms(b: Budget, m: Movement)
    requires MoveKnown(b, m)
  {
    var s, p, c := b.states[m.source], b.policies[m.source.categoryId], m.amount.currency;
    !Locked(p) && p.donorEligible
    && s.uncommitted.currency == c && s.commitments.currency == c && s.reservations.currency == c && s.safeToRedirect.currency == c
    && p.minimumRetained.currency == c && p.projectedRemainingNeed.currency == c
    && b.facts[IndexOf(KeysOf(b.facts), m.source)].rest.kind != CreditPayment
  }

  /** What the running checks demand of one move, given the steps before it. */
  ghost predicate MoveFunded(b: Budget, before: seq<Step>, m: Movement) {
    MoveKnown(b, m) && DonorTerms(b, m)
    && SourceFunded(b.states[m.source], b.policies[m.source.categoryId], Flow(before, m.source), m.amount.units)
    && DestinationFits(b.states[m.destination], Flow(before, m.destination), m.amount.units)
  }

  ghost predicate SourceFunded(s: CategoryState, p: Policy, flow: int, amount: int) {
    Fits(-flow) && Fits(s.safeToRedirect.units + flow) && amount <= s.safeToRedirect.units + flow
    && Fits(s.availability.units + flow - amount) && Fits(s.uncommitted.units + flow - amount)
    && Fits(Floor(p)) && Floor(p) <= s.uncommitted.units + flow - amount
    && Fits(s.uncommitted.units + flow - amount - Floor(p))
  }

  ghost predicate DestinationFits(d: CategoryState, flow: int, amount: int) {
    Fits(d.availability.units + flow + amount) && Fits(d.uncommitted.units + flow + amount)
  }

  function CheckKnown(b: Budget, m: Movement): (r: Result<()>)
    ensures r.Ok? <==> MoveKnown(b, m)
  {
    if Lookup(b.facts, m.source).None? then Err("reallocation_source_fact_missing")
    else if Lookup(b.facts, m.destination).None? then Err("reallocation_destination_fact_missing")
    else if m.source !in b.states then Err("reallocation_card_source_missing")
    else if m.destination !in b.states then Err("reallocation_card_destination_missing")
    else if !FactAgrees(b, m.source, m.amount.currency) || !FactAgrees(b, m.destination, m.amount.currency)
    then Err("reallocation_source_state_mismatch")
    else if m.source.categoryId !in b.policies then Err("reallocation_policy_missing")
    else Ok(())
  }

  /** The donor's envelope after giving the amount. */
  function TakeFrom(b: Budget, e: Envelope, m: Movement): Result<Envelope>
    requires MoveKnown(b, m)
  {
    var state, policy := b.states[m.source], b.policies[m.source.categoryId];
    var redirected :- CheckedSub(state.availability.units, e.availability);
    var safe :- CheckedSub(state.safeToRedirect.units, redirected);
    if safe < m.amount.units || !DonorTerms(b, m) then Err("reallocation_donor_not_eligible") else
    var availability :- CheckedSub(e.availability, m.amount.units);
    var uncommitted :- CheckedSub(e.uncommitted, m.amount.units);
    var required :- CheckedAdd(policy.minimumRetained.units, policy.projectedRemainingNeed.units);
    if uncommitted < required then Err("reallocation_floor_or_claims_failed") else
    var safeAfter :- CheckedSub(uncommitted, required);
    Ok(Envelope(e.baseline, availability, uncommitted))
  }

  function GiveTo(e: Envelope, amount: i64): Result<Envelope> {
    var availability :- CheckedAdd(e.availability, amount);
    var uncommitted :- CheckedAdd(e.uncommitted, amount);
    Ok(Envelope(e.baseline, availability, uncommitted))
  }

  lemma {:induction false} TakeFromIs(b: Budget, e: Envelope, m: Movement, flow: int)
    requires MoveKnown(b, m) && EnvelopeAt(e, b.states[m.source], flow)
    ensures var r := TakeFrom(b, e, m);
            (r.Ok? <==> DonorTerms(b, m)
                        && SourceFunded(b.states[m.source], b.policies[m.source.categoryId], flow, m.amount.units))
            && (r.Ok? ==> EnvelopeAt(r.value, b.states[m.source], flow - m.amount.units))
  {
    hide DonorTerms;
  }

  lemma {:induction false} GiveToIs(e: Envelope, state: CategoryState, flow: int, amount: i64)
    requires EnvelopeAt(e, state, flow)
    ensures var r := GiveTo(e, amount);
            (r.Ok? <==> DestinationFits(state, flow, amount)) && (r.Ok? ==> EnvelopeAt(r.value, state, flow + amount))
  {
  }

  /** The envelope side of one move: known ends, donor terms, safe amount, floor, then both envelopes. */
  method MoveEnvelopes(b: Budget, es: map<Slot, Envelope>, m: Movement, ghost before: seq<Step>) returns (r: Result<map<Slot, Envelope>>)
    requires TracksEnvelopes(es, b, before) && m.source != m.destination
    ensures r.Ok? <==> MoveFunded(b, before, m)
    ensures r.Ok? ==> TracksEnvelopes(r.value, b, before + [Move(m)])
  {
    hide MoveKnown, DonorTerms, SourceFunded, DestinationFits, EnvelopeAt, TakeFrom, GiveTo, Flow;
    var known :- CheckKnown(b, m);
    KnownSlots(b, m);
    TakeFromIs(b, es[m.source], m, Flow(before, m.source));
    var source :- TakeFrom(b, es[m.source], m);
    GiveToIs(es[m.destination], b.states[m.destination], Flow(before, m.destination), m.amount.units);
    var destination :- GiveTo(es[m.destination], m.amount.units);
    FlowThen(before, Move(m));
    r := Ok(es[m.source := source][m.destination := destination]);
    assert forall slot :: EnvelopeDelta(Move(m), slot)
                          == if slot == m.destination then m.amount.units else if slot == m.source then -(m.amount.units as int) else 0;
  }

  lemma {:induction false} KnownSlots(b: Budget, m: Movement)
    requires MoveKnown(b, m)
    ensures m.source in b.states && m.destination in b.states
  {
  }

  // Spending from categories.

  predicate EffectKnown(b: Budget, slot: Slot, currency: string) {
    slot.categoryId in b.categories && slot.categoryId in b.charges && b.charges[slot.categoryId].currency == currency
    && FactAgrees(b, slot, currency)
  }

  /** One category effect of a purchase, after the earlier effects of the same purchase. */
  ghost predicate EffectFunded(b: Budget, before: seq<Step>, deltas: seq<(Slot, i64)>, j: nat, currency: string)
    requires j < |deltas|
  {
    var slot := deltas[j].0;
    EffectKnown(b, slot, currency)
    && CanNegate(deltas[j].1)
    && Fits(CategorySpent(before, slot.categoryId) - SumFor(ByCategory(deltas)[..j + 1], slot.categoryId))
    && CategorySpent(before, slot.categoryId) - SumFor(ByCategory(deltas)[..j + 1], slot.categoryId) <= b.charges[slot.categoryId].units
    && var flow := Flow(before, slot) + SumFor(deltas[..j + 1], slot);
       0 <= b.states[slot].uncommitted.units + flow && Fits(b.states[slot].uncommitted.units + flow)
       && Fits(b.states[slot].availability.units + flow)
  }

  ghost predicate Affordable(b: Budget, before: seq<Step>, deltas: seq<(Slot, i64)>, currency: string) {
    forall j :: 0 <= j < |deltas| ==> EffectFunded(b, before, deltas, j, currency)
  }

  datatype Purse = Purse(envelopes: map<Slot, Envelope>, spent: map<string, i64>)

  /** Where envelopes and category spending stand after the first j effects of a purchase. */
  ghost predicate PurseAt(p: Purse, b: Budget, before: seq<Step>, deltas: seq<(Slot, i64)>, j: nat)
    requires j <= |deltas|
  {
    p.envelopes.Keys == b.states.Keys
    && (forall slot :: slot in p.envelopes ==>
          EnvelopeAt(p.envelopes[slot], b.states[slot], Flow(before, slot) + SumFor(deltas[..j], slot)))
    && (forall id :: Left(p.spent, id) == CategorySpent(before, id) - SumFor(ByCategory(deltas)[..j], id))
    && forall id :: id in p.spent ==> p.spent[id] > 0
  }

  function SpendEffect(b: Budget, p: Purse, slot: Slot, delta: i64, currency: string): Result<Purse> {
    if slot.categoryId !in b.categories then Err("manual_category_missing")
    else if slot.categoryId !in b.charges then Err("manual_category_not_charged")
    else if b.charges[slot.categoryId].currency != currency then Err("manual_category_currency_mismatch")
    else if !CanNegate(delta) then Err("manual_amount_overflow")
    else
      var spent :- CheckedAdd(Left(p.spent, slot.categoryId), Neg(delta));
      if spent > b.charges[slot.categoryId].units then Err("manual_category_charge_exceeded")
      else if Lookup(b.facts, slot).None? then Err("manual_category_fact_missing")
      else if slot !in p.envelopes then Err("manual_category_card_state_missing")
      else if Lookup(b.facts, slot).value.currency != currency || Lookup(b.facts, slot).value != p.envelopes[slot].baseline
      then Err("manual_category_target_changed")
      else
        var e := p.envelopes[slot];
        var uncommitted :- CheckedAdd(e.uncommitted, delta);
        if uncommitted < 0 then Err("manual_category_insufficient") else
        var availability :- CheckedAdd(e.availability, delta);
        Ok(Purse(p.envelopes[slot := Envelope(e.baseline, availability, uncommitted)], p.spent[slot.categoryId := spent]))
  }

  lemma {:induction false} NextSum<K>(lines: seq<(K, i64)>, j: nat, k: K)
    requires j < |lines|
    ensures SumFor(lines[..j + 1], k) == SumFor(lines[..j], k) + if lines[j].0 == k then lines[j].1 else 0
  {
    assert lines[..j + 1] == lines[..j] + [lines[j]];
    SumForConcat(lines[..j], [lines[j]], k);
  }

  lemma {:induction false} EffectOk(b: Budget, p: Purse, before: seq<Step>, deltas: seq<(Slot, i64)>, j: nat, currency: string)
    requires j < |deltas| && PurseAt(p, b, before, deltas, j)
    ensures SpendEffect(b, p, deltas[j].0, deltas[j].1, currency).Ok? <==> EffectFunded(b, before, deltas, j, currency)
  {
    var slot := deltas[j].0;
    NextSum(deltas, j, slot);
    NextSum(ByCategory(deltas), j, slot.categoryId);
    assert Left(p.spent, slot.categoryId) == CategorySpent(before, slot.categoryId) - SumFor(ByCategory(deltas)[..j], slot.categoryId);
    hide SumFor, CategorySpent, Flow;
  }

  lemma {:induction false} EffectKeepsEnvelopes(b: Budget, p: Purse, before: seq<Step>, deltas: seq<(Slot, i64)>, j: nat, currency: string)
    requires j < |deltas| && PurseAt(p, b, before, deltas, j)
    requires SpendEffect(b, p, deltas[j].0, deltas[j].1, currency).Ok?
    ensures var q := SpendEffect(b, p, deltas[j].0, deltas[j].1, currency).value;
            q.envelopes.Keys == b.states.Keys
            && forall slot :: slot in q.envelopes ==>
                 EnvelopeAt(q.envelopes[slot], b.states[slot], Flow(before, slot) + SumFor(deltas[..j + 1], slot))
  {
    hide SumFor, CategorySpent, Flow;
    var q := SpendEffect(b, p, deltas[j].0, deltas[j].1, currency).value;
    forall slot | slot in q.envelopes
      ensures EnvelopeAt(q.envelopes[slot], b.states[slot], Flow(before, slot) + SumFor(deltas[..j + 1], slot))
    {
      NextSum(deltas, j, slot);
      assert EnvelopeAt(p.envelopes[slot], b.states[slot], Flow(before, slot) + SumFor(deltas[..j], slot));
    }
  }

  lemma {:induction false} EffectKeepsSpent(b: Budget, p: Purse, before: seq<Step>, deltas: seq<(Slot, i64)>, j: nat, currency: string)
    requires j < |deltas| && PurseAt(p, b, before, deltas, j) && deltas[j].1 < 0
    requires SpendEffect(b, p, deltas[j].0, deltas[j].1, currency).Ok?
    ensures var q := SpendEffect(b, p, deltas[j].0, deltas[j].1, currency).value;
            (forall id :: Left(q.spent, id) == CategorySpent(before, id) - SumFor(ByCategory(deltas)[..j + 1], id))
            && forall id :: id in q.spent ==> q.spent[id] > 0
  {
    hide SumFor, CategorySpent, Flow, EnvelopeAt;
    var q := SpendEffect(b, p, deltas[j].0, deltas[j].1, currency).value;
    forall id
      ensures Left(q.spent, id) == CategorySpent(before, id) - SumFor(ByCategory(deltas)[..j + 1], id)
    {
      NextSum(ByCategory(deltas), j, id);
      assert Left(p.spent, id) == CategorySpent(before, id) - SumFor(ByCategory(deltas)[..j], id);
    }
  }

  lemma {:induction false} EffectKeeps(b: Budget, p: Purse, before: seq<Step>, deltas: seq<(Slot, i64)>, j: nat, currency: string)
    requires j < |deltas| && PurseAt(p, b, before, deltas, j) && deltas[j].1 < 0
    requires SpendEffect(b, p, deltas[j].0, deltas[j].1, currency).Ok?
    ensures PurseAt(SpendEffect(b, p, deltas[j].0, deltas[j].1, currency).value, b, before, deltas, j + 1)
  {
    EffectKeepsEnvelopes(b, p, before, deltas, j, currency);
    EffectKeepsSpent(b, p, before, deltas, j, currency);
    hide SpendEffect, SumFor, CategorySpent, Flow, EnvelopeAt;
  }

  ghost predicate TracksPurse(p: Purse, b: Budget, steps: seq<Step>) {
    TracksEnvelopes(p.envelopes, b, steps) && (forall id :: Left(p.spent, id) == CategorySpent(steps, id))
    && forall id :: id in p.spent ==> p.spent[id] > 0
  }

  lemma {:induction false} PurseStart(p: Purse, b: Budget, before: seq<Step>, deltas: seq<(Slot, i64)>)
    requires TracksPurse(p, b, before)
    ensures PurseAt(p, b, before, deltas, 0)
  {
    assert deltas[..0] == [] && ByCategory(deltas)[..0] == [];
  }

  lemma {:induction false} PurseDone(p: Purse, b: Budget, before: seq<Step>, tx: Transaction)
    requires Spends(Post(tx)) && PurseAt(p, b, before, MonthDeltas(tx), |MonthDeltas(tx)|)
    ensures TracksPurse(p, b, before + [Post(tx)])
  {
    var deltas := MonthDeltas(tx);
    FlowThen(before, Post(tx));
    assert deltas[..|deltas|] == deltas && ByCategory(deltas)[..|deltas|] == ByCategory(deltas);
    hide SumFor, CategorySpent, Flow, EnvelopeAt;
    forall slot | slot in p.envelopes
      ensures EnvelopeAt(p.envelopes[slot], b.states[slot], Flow(before + [Post(tx)], slot))
    {
      assert EnvelopeAt(p.envelopes[slot], b.states[slot], Flow(before, slot) + SumFor(deltas[..|deltas|], slot));
    }
    forall id
      ensures Left(p.spent, id) == CategorySpent(before + [Post(tx)], id)
    {
      assert Left(p.spent, id) == CategorySpent(before, id) - SumFor(ByCategory(deltas)[..|deltas|], id);
    }
  }

  /** The category side of a purchase: every effect in turn, against charges and envelopes. */
  method SpendEnvelopes(b: Budget, p: Purse, tx: Transaction, ghost before: seq<Step>) returns (r: Result<Purse>)
    requires TracksPurse(p, b, before) && Spends(Post(tx))
    requires forall j :: 0 <= j < |MonthDeltas(tx)| ==> MonthDeltas(tx)[j].1 < 0
    ensures r.Ok? <==> Affordable(b, before, MonthDeltas(tx), tx.amount.currency)
    ensures r.Ok? ==> TracksPurse(r.value, b, before + [Post(tx)])
  {
    hide TracksPurse, PurseAt, SpendEffect, EffectFunded, MonthDeltas;
    var deltas := MonthDeltas(tx);
    var running := p;
    PurseStart(p, b, before, deltas);
    for j := 0 to |deltas|
      invariant PurseAt(running, b, before, deltas, j)
      invariant forall k :: 0 <= k < j ==> EffectFunded(b, before, deltas, k, tx.amount.currency)
    {
      EffectOk(b, running, before, deltas, j, tx.amount.currency);
      var next :- SpendEffect(b, running, deltas[j].0, deltas[j].1, tx.amount.currency);
      EffectKeeps(b, running, before, deltas, j, tx.amount.currency);
      running := next;
    }
    PurseDone(running, b, before, tx);
    r := Ok(running);
  }
}
