/** What a confirmed ledger says of the account facts the plan lists: never what was attested when it was planned. */
module ConfirmedFacts {
  import opened CheckedMoney
  import opened Rows
  import opened Text
  import opened Action
  import opened Sorting
  import opened Permutations
  import opened Undo
  import opened Ordered
  import opened Planner
  import opened PlanAction
  import opened PlanLaws
  import opened PlanOutcome
  import opened Dispatch
  import opened Envelopes
  import opened Postconditions
  import opened Performing
  import opened PerformedRuns
  import opened Supplemental
  import opened SupplementalLaws
  import opened SealedFacts
  import opened PlanVerify
  import opened PlanPerforming
  import opened Ledger
  import opened PlanConfirm

  // No step touches what is recorded of an account beside its balance.

  /** The first row with this key says the same. */
  ghost predicate RestKept<K, R>(before: seq<NamedMoney<K, R>>, after: seq<NamedMoney<K, R>>, k: K) {
    k in KeysOf(before) && k in KeysOf(after)
    && before[IndexOf(KeysOf(before), k)].rest == after[IndexOf(KeysOf(after), k)].rest
  }

  lemma {:induction false} ShiftKeepsRest<K, R>(before: seq<NamedMoney<K, R>>, after: seq<NamedMoney<K, R>>, deltas: seq<(K, i64)>, k: K)
    requires k in KeysOf(before) && Shifted(before, after, deltas)
    ensures RestKept(before, after, k)
  {
    assert KeysOf(before) == KeysOf(after);
    assert before[IndexOf(KeysOf(before), k)].key == k;
  }

  lemma {:induction false} InsertKeepsRest<K, R>(before: seq<NamedMoney<K, R>>, after: seq<NamedMoney<K, R>>, row: NamedMoney<K, R>, k: K)
    requires k in KeysOf(before) && row.key !in KeysOf(before) && Inserted(before, after, row)
    ensures RestKept(before, after, k)
  {
    var p :| 0 <= p <= |before| && after == InsertAt(before, p, row);
    var i := IndexOf(KeysOf(before), k);
    assert before[i].key == k && KeysOf(before)[i] == k;
    var at := if i < p then i else i + 1;
    forall j | 0 <= j < at
      ensures KeysOf(after)[j] != k
    {
      assert j != p ==> after[j] == before[if j < p then j else j - 1];
      assert j < p ==> KeysOf(before)[j] == after[j].key;
      assert j > p ==> KeysOf(before)[j - 1] == after[j].key;
    }
    FirstIndex(KeysOf(after), k, at);
  }

  lemma {:induction false} StepKeepsRest(s: Capture, step: Step, t: Capture, id: string)
    requires WellFormed(step) && Effect(s, step, t) && id in KeysOf(s.accountFacts)
    ensures RestKept(s.accountFacts, t.accountFacts, id)
  {
    hide Shifted, HoldsAll, Inserted;
    match step {
      case Move(_) => assert t.accountFacts == s.accountFacts;
      case Amend(_, _) => assert t.accountFacts == s.accountFacts;
      case Post(tx) => ShiftKeepsRest(s.accountFacts, t.accountFacts, [(tx.accountId, tx.amount.units)], id);
      case Send(tr) => ShiftKeepsRest(s.accountFacts, t.accountFacts, SendDeltas(tr), id);
      case Open(_, _, currency) =>
        var a: string, e: FactEvidence :|
          a !in KeysOf(s.accountFacts)
          && Inserted(s.accountFacts, t.accountFacts, NamedMoney(a, Money(0, currency), AccountFactInfo(true, false, currency, e)));
        InsertKeepsRest(s.accountFacts, t.accountFacts, NamedMoney(a, Money(0, currency), AccountFactInfo(true, false, currency, e)), id);
    }
  }

  /** What is recorded of an account's currency and its evidence is the same before and after an action. */
  lemma {:induction false} PerformedKeepsRest(s: Capture, steps: seq<Step>, t: Capture, id: string)
    requires AllWellFormed(steps) && Performed(s, steps, t) && id in KeysOf(s.accountFacts)
    ensures RestKept(s.accountFacts, t.accountFacts, id)
    decreases |steps|
  {
    if steps != [] {
      var last := steps[|steps| - 1];
      var mid :| Performed(s, Earlier(steps), mid) && Effect(mid, last, t);
      assert Earlier(steps) == steps[..|steps| - 1] && WellFormed(last);
      hide Performed, Effect, WellFormed;
      PerformedKeepsRest(s, Earlier(steps), mid, id);
      StepKeepsRest(mid, last, t, id);
    }
  }

  // What planning has listed was attested.

  const ATTESTED := "user_attested"

  /** The attested fields and the ledger's account facts are read from one snapshot. */
  ghost predicate OneSnapshot(s: Sources) {
    forall id :: id in s.accounts ==>
      id in KeysOf(s.ledger.accountFacts)
      && (Currency in s.accounts[id].attested ==>
            s.ledger.accountFacts[IndexOf(KeysOf(s.ledger.accountFacts), id)].rest.evidence.source == ATTESTED)
  }

  lemma {:induction false} CurrencyPaths(a: AccountFacts, fields: seq<Field>)
    ensures CurrencyValue in SortedPaths(a, fields) || CurrencyEvidence in SortedPaths(a, fields) ==> Currency in fields
    ensures Currency in fields ==> CurrencyEvidence in SortedPaths(a, fields)
  {
    PathsOwned(a, fields);
    SortPermutes(PathRank, IntLt, AllPaths(a, fields));
    SameMembers(AllPaths(a, fields), SortedPaths(a, fields));
    CurrencyListed(a, fields);
    hide AllPaths, SortBy;
  }

  lemma {:induction false} CurrencyListed(a: AccountFacts, fields: seq<Field>)
    ensures Currency in fields ==> CurrencyEvidence in AllPaths(a, fields)
  {
    if fields != [] {
      CurrencyListed(a, fields[..|fields| - 1]);
      assert fields == fields[..|fields| - 1] + [fields[|fields| - 1]];
      assert PathsOf(a, Currency)[1] == CurrencyEvidence;
    }
  }

  lemma {:induction false} ListedAttested(q: PlanRequest, k: nat)
    requires ValidObservations(q.sources.accounts, q.observations) && OneSnapshot(q.sources) && k < |ListedFacts(q)|
    requires CurrencyValue in ListedFacts(q)[k].paths || CurrencyEvidence in ListedFacts(q)[k].paths
    ensures var id, facts := ListedFacts(q)[k].accountId, q.sources.ledger.accountFacts;
            CurrencyEvidence in ListedFacts(q)[k].paths
            && id in KeysOf(facts) && facts[IndexOf(KeysOf(facts), id)].rest.evidence.source == ATTESTED
  {
    hide InvalidatedFacts, ValidObservations, SortedPaths, SortedFields, SortedIds, ListedAccounts;
    var o := EntryFrom(q.observations, ListedAccounts(q), q.sources.accounts, k);
    CurrencyPaths(q.sources.accounts[o.accountId], o.fields);
    assert FieldBacked(q.sources.accounts[o.accountId], Currency);
  }

  lemma {:induction false} PlannedObservations(e: Engine, q: PlanRequest, plan: ActionPlan)
    requires PlanOf(e, q, true, plan)
    ensures ValidObservations(q.sources.accounts, q.observations)
  {
    hide ValidObservations, Promises, ListedAccounts, ListedFacts;
  }

  lemma {:induction false} ConfirmedCleared(e: Engine, c: Check)
    requires Confirms(e, c)
    ensures FactsCleared(c.sources.ledger, c.plan.seal.facts)
  {
    hide Sealed, FactsCleared, Returns, Replans, ReverseSteps;
  }

  /** An attested fact cannot be the ledger's own again while it is still the attested one. */
  lemma {:induction false} AttestedNotCleared(s: Capture, t: Capture, i: Invalidation)
    requires RestKept(s.accountFacts, t.accountFacts, i.accountId) && CurrencyEvidence in i.paths
    requires s.accountFacts[IndexOf(KeysOf(s.accountFacts), i.accountId)].rest.evidence.source == ATTESTED
    ensures !FactCleared(t, i)
  {
  }

  lemma {:induction false} ListedNotCleared(q: PlanRequest, steps: seq<Step>, t: Capture, k: nat)
    requires ValidObservations(q.sources.accounts, q.observations) && OneSnapshot(q.sources) && k < |ListedFacts(q)|
    requires CurrencyValue in ListedFacts(q)[k].paths || CurrencyEvidence in ListedFacts(q)[k].paths
    requires AllWellFormed(steps) && Performed(q.sources.ledger, steps, t)
    ensures !FactCleared(t, ListedFacts(q)[k])
  {
    hide *;
    ListedAttested(q, k);
    PerformedKeepsRest(q.sources.ledger, steps, t, ListedFacts(q)[k].accountId);
    AttestedNotCleared(q.sources.ledger, t, ListedFacts(q)[k]);
  }

  lemma {:induction false} ClearedKeeps(q: PlanRequest, steps: seq<Step>, t: Capture)
    requires ValidObservations(q.sources.accounts, q.observations) && OneSnapshot(q.sources)
    requires AllWellFormed(steps) && Performed(q.sources.ledger, steps, t) && FactsCleared(t, ListedFacts(q))
    ensures KeepsCurrencies(ListedFacts(q))
  {
    hide ValidObservations, OneSnapshot, AllWellFormed, Performed, FactCleared, ListedFacts;
    if !KeepsCurrencies(ListedFacts(q)) {
      var k :| 0 <= k < |ListedFacts(q)| && (CurrencyValue in ListedFacts(q)[k].paths || CurrencyEvidence in ListedFacts(q)[k].paths);
      ListedNotCleared(q, steps, t, k);
    }
  }

  /**
   * A confirmed ledger is the planned one with the action performed on it exactly when the plan lists no currency.
   * When it lists one, every confirmed ledger differs from that: what was attested at planning is unknown in it.
   */
  lemma {:induction false} ConfirmedFromPlanned(e: Engine, q: PlanRequest, plan: ActionPlan, c: Check)
    requires HashesBlanked(e) && PlanOf(e, q, true, plan) && c.plan == plan && Confirms(e, c) && OneSnapshot(q.sources)
    ensures AllWellFormed(Steps(plan.atoms))
    ensures Performed(q.sources.ledger, Steps(plan.atoms), c.sources.ledger) <==> KeepsCurrencies(plan.seal.facts)
  {
    hide HashesBlanked, PlanOf, Confirms, OneSnapshot, KeepsCurrencies, Steps, SameBut, Performed, AllWellFormed;
    var start := ConfirmedIsPerformed(e, q, plan, c);
    if KeepsCurrencies(plan.seal.facts) {
      OnlyItself(start, q.sources.ledger, plan.seal.facts);
    }
    if Performed(q.sources.ledger, Steps(plan.atoms), c.sources.ledger) {
      PlannedObservations(e, q, plan);
      SealedOver(e, q, plan);
      ConfirmedCleared(e, c);
      hide ListedFacts, ValidObservations, FactsCleared;
      ClearedKeeps(q, Steps(plan.atoms), c.sources.ledger);
    }
  }

  // A ledger whose source has taken the listed facts back.

  lemma {:induction false} SameCells(a: seq<FactRow>, b: seq<FactRow>, deltas: seq<(string, i64)>, currency: string, moved: string -> int)
    requires |a| == |b| && forall i :: 0 <= i < |a| ==> a[i].key == b[i].key && a[i].money == b[i].money
    requires Ready(a, deltas, currency, moved)
    ensures Ready(b, deltas, currency, moved)
  {
    assert KeysOf(a) == KeysOf(b);
    hide SumFor;
    forall j | 0 <= j < |deltas|
      ensures CellReady(b, deltas[j].0, currency, moved(deltas[j].0), SumFor(deltas, deltas[j].0))
    {
      assert CellReady(a, deltas[j].0, currency, moved(deltas[j].0), SumFor(deltas, deltas[j].0));
      var i :| 0 <= i < |a| && OnlyAt(KeysOf(a), deltas[j].0, i) && a[i].money.currency == currency;
      assert b[i].money.currency == currency;
    }
  }

  ghost predicate SameMoney(a: Capture, b: Capture) {
    SameBooks(a, b) && |a.accountFacts| == |b.accountFacts|
    && forall i :: 0 <= i < |a.accountFacts| ==> a.accountFacts[i].key == b.accountFacts[i].key && a.accountFacts[i].money == b.accountFacts[i].money
  }

  lemma {:induction false} SameRun(a: Capture, b: Capture, steps: seq<Step>)
    requires SameMoney(a, b) && AllWellFormed(steps) && AllGrounded(a, steps) && Runs(a, steps)
    ensures AllGrounded(b, steps) && Runs(b, steps)
  {
    forall k | 0 <= k < |steps|
      ensures Grounded(b, steps[k]) && BookReady(b, steps[..k], steps[k]) && FactsReady(b, steps[..k], steps[k])
    {
      assert Grounded(a, steps[k]) && BookReady(a, steps[..k], steps[k]) && FactsReady(a, steps[..k], steps[k]);
      SameStep(a, b, steps[..k], steps[k]);
    }
  }

  lemma {:induction false} SameStep(a: Capture, b: Capture, before: seq<Step>, step: Step)
    requires SameMoney(a, b) && WellFormed(step) && Grounded(a, step) && BookReady(a, before, step) && FactsReady(a, before, step)
    ensures Grounded(b, step) && BookReady(b, before, step) && FactsReady(b, before, step)
  {
    hide Ready, SwapReady, BalanceMoved, FactMoved, AssignmentMoved, Posted, Mapped, SentOut, Amended, SoleRow, MonthDeltas, NormalizedPayee;
    if step.Post? {
      SameCells(a.accountFacts, b.accountFacts, [(step.transaction.accountId, step.transaction.amount.units)],
                step.transaction.amount.currency, x => BalanceMoved(before, x));
    } else if step.Send? {
      SameCells(a.accountFacts, b.accountFacts, SendDeltas(step.transfer), step.transfer.amount.currency, x => BalanceMoved(before, x));
    }
  }

  lemma {:induction false} StepKeepsAccount(s: Capture, step: Step, t: Capture, id: string)
    requires WellFormed(step) && Effect(s, step, t) && id in KeysOf(s.accounts)
    ensures RestKept(s.accounts, t.accounts, id)
  {
    hide Shifted, HoldsAll, Inserted;
    match step {
      case Move(_) => assert t.accounts == s.accounts;
      case Amend(_, _) => assert t.accounts == s.accounts;
      case Post(tx) => ShiftKeepsRest(s.accounts, t.accounts, [(tx.accountId, tx.amount.units)], id);
      case Send(tr) => ShiftKeepsRest(s.accounts, t.accounts, SendDeltas(tr), id);
      case Open(_, name, currency) =>
        var a: string :|
          a !in KeysOf(s.accounts)
          && Inserted(s.accounts, t.accounts, NamedMoney(a, Money(0, currency), AccountInfo(name, true, false, currency)));
        InsertKeepsRest(s.accounts, t.accounts, NamedMoney(a, Money(0, currency), AccountInfo(name, true, false, currency)), id);
    }
  }

  lemma {:induction false} PerformedKeepsAccount(s: Capture, steps: seq<Step>, t: Capture, id: string)
    requires AllWellFormed(steps) && Performed(s, steps, t) && id in KeysOf(s.accounts)
    ensures RestKept(s.accounts, t.accounts, id)
    decreases |steps|
  {
    if steps != [] {
      var last := steps[|steps| - 1];
      var mid :| Performed(s, Earlier(steps), mid) && Effect(mid, last, t);
      assert Earlier(steps) == steps[..|steps| - 1] && WellFormed(last);
      hide Performed, Effect, WellFormed;
      PerformedKeepsAccount(s, Earlier(steps), mid, id);
      StepKeepsAccount(mid, last, t, id);
    }
  }

  lemma {:induction false} StaysCleared(s: Capture, steps: seq<Step>, t: Capture, facts: seq<Invalidation>)
    requires AllWellFormed(steps) && Performed(s, steps, t) && FactsCleared(s, facts)
    ensures FactsCleared(t, facts)
  {
    hide AllWellFormed, Performed;
    forall k | 0 <= k < |facts|
      ensures FactCleared(t, facts[k])
    {
      assert FactCleared(s, facts[k]);
      PerformedKeepsRest(s, steps, t, facts[k].accountId);
      PerformedKeepsAccount(s, steps, t, facts[k].accountId);
    }
  }

  // Which the plan's own accounts are.

  lemma {:induction false} PaidKnown(ledger: Capture, steps: seq<Step>, a: string)
    requires AllAdmitted(ledger, steps) && a in PaidAccounts(steps)
    ensures a in KeysOf(ledger.accounts)
  {
    var front, last := steps[..|steps| - 1], steps[|steps| - 1];
    assert Admitted(ledger, last) && AllAdmitted(ledger, front);
    hide NormalizedPayee;
    if a !in AccountsOf(last) {
      PaidKnown(ledger, front, a);
    }
  }

  lemma {:induction false} ListedTouched(q: PlanRequest, k: nat)
    requires ValidObservations(q.sources.accounts, q.observations) && k < |ListedFacts(q)|
    ensures ListedFacts(q)[k].accountId in TouchedAccounts(q.atoms) && ListedFacts(q)[k].accountId in q.sources.accounts
  {
    AccountsListed(q.observations, TouchedAccounts(q.atoms));
    hide TouchedAccounts, InvalidatedFacts, InvalidatedAccounts, ValidObservation, SortedPaths, SortedFields, SortedIds, Blank;
    var o := EntryFrom(q.observations, ListedAccounts(q), q.sources.accounts, k);
  }

  lemma {:induction false} TouchedKnown(r: Request, atoms: seq<Atom>, a: string)
    requires Plannable(r, atoms) && a in TouchedAccounts(atoms)
    ensures a in KeysOf(r.ledger.accounts)
  {
    hide Plannable, AllAdmitted, PaidAccounts, Steps;
    PlanAdmitted(r, atoms);
    PaidKnown(r.ledger, Steps(atoms), a);
  }

  lemma {:induction false} ListedKnown(q: PlanRequest, r: Request)
    requires ValidObservations(q.sources.accounts, q.observations) && OneSnapshot(q.sources)
    requires r.ledger == q.sources.ledger && Plannable(r, q.atoms)
    ensures Known(q.sources.ledger, ListedFacts(q))
  {
    hide Plannable, ValidObservations, ListedFacts, TouchedAccounts;
    forall k | 0 <= k < |ListedFacts(q)|
      ensures ListedFacts(q)[k].accountId in KeysOf(q.sources.ledger.accounts)
      ensures ListedFacts(q)[k].accountId in KeysOf(q.sources.ledger.accountFacts)
    {
      ListedTouched(q, k);
      TouchedKnown(r, q.atoms, ListedFacts(q)[k].accountId);
    }
  }

  lemma {:induction false} ButIsMoney(a: Capture, b: Capture, facts: seq<Invalidation>)
    requires SameBut(a, b, facts)
    ensures SameMoney(b, a) && SameBooks(b, a)
  {
    hide ListedOf;
  }

  /** From a ledger with the listed facts taken back, the whole action leads to one in which they still are. */
  lemma {:induction false} RunCleared(ledger: Capture, steps: seq<Step>, facts: seq<Invalidation>) returns (t: Capture)
    requires AllWellFormed(steps) && AllGrounded(ledger, steps) && Runs(ledger, steps) && Known(ledger, facts)
    ensures Performed(ClearAll(ledger, facts), steps, t) && FactsCleared(t, facts) && SameBut(ClearAll(ledger, facts), ledger, facts)
  {
    var start := ClearAll(ledger, facts);
    hide Performed, AllGrounded, Runs, AllWellFormed, SameBut, FactsCleared, ClearAll, SameMoney, Known;
    AllCleared(ledger, facts);
    ButIsMoney(start, ledger, facts);
    SameRun(ledger, start, steps);
    RunPerformable(start, steps);
    t :| Performed(start, steps, t);
    StaysCleared(start, steps, t, facts);
  }

  lemma {:induction false} PlannedRuns(e: Engine, q: PlanRequest, plan: ActionPlan)
    requires PlanOf(e, q, true, plan) && AmendmentsNegatable(plan.atoms) && OneSnapshot(q.sources)
    ensures AllWellFormed(Steps(plan.atoms)) && AllGrounded(q.sources.ledger, Steps(plan.atoms))
    ensures Runs(q.sources.ledger, Steps(plan.atoms)) <==> FactsHold(q.sources.ledger, Steps(plan.atoms))
    ensures Known(q.sources.ledger, plan.seal.facts) && plan.seal.facts == ListedFacts(q)
  {
    SealedOver(e, q, plan);
    PlannedObservations(e, q, plan);
    var r := PlannedPlannable(e, q, plan);
    assert plan.atoms == q.atoms by {
      hide CanBuild, Promises, ListedAccounts, ListedFacts;
    }
    hide PlanOf, Plannable, Promises, LedgerValid, ValidObservations, ListedFacts, Steps, Runs, FactsHold, AllGrounded, AllWellFormed,
         AmendmentsNegatable, Known, OneSnapshot;
    PlannedSteps(r, plan.atoms);
    PlanBooked(r, q.sources.categories, plan.atoms);
    ListedKnown(q, r);
  }

  /**
   * For every plan that lists a currency and that can be performed, there is an observed ledger that is confirmed
   * with all else as sealed, and that is not the planned one with the action performed on it.
   */
  lemma {:induction false} ConfirmedElsewhere(e: Engine, q: PlanRequest, plan: ActionPlan) returns (t: Capture)
    requires HashesBlanked(e) && PlanOf(e, q, true, plan) && OneSnapshot(q.sources) && AmendmentsNegatable(plan.atoms)
    requires AllWellFormed(Steps(plan.atoms)) && FactsHold(q.sources.ledger, Steps(plan.atoms)) && !KeepsCurrencies(plan.seal.facts)
    ensures FactsCleared(t, plan.seal.facts) && !Performed(q.sources.ledger, Steps(plan.atoms), t)
    ensures forall c: Check :: c.plan == plan && c.sources.ledger == t && OtherwiseSame(e, q, plan, c) ==> Confirms(e, c)
  {
    hide HashesBlanked, PlanOf, OneSnapshot, AmendmentsNegatable, AllWellFormed, FactsHold, KeepsCurrencies, Performed, FactsCleared,
         OtherwiseSame, Confirms, Steps, Runs, AllGrounded, Known, ClearAll, SameBut, ListedFacts, ValidObservations;
    PlannedRuns(e, q, plan);
    t := RunCleared(q.sources.ledger, Steps(plan.atoms), plan.seal.facts);
    PlannedObservations(e, q, plan);
    if Performed(q.sources.ledger, Steps(plan.atoms), t) {
      ClearedKeeps(q, Steps(plan.atoms), t);
    }
    forall c: Check | c.plan == plan && c.sources.ledger == t && OtherwiseSame(e, q, plan, c)
      ensures Confirms(e, c)
    {
      PerformedConfirms(e, q, plan, c, ClearAll(q.sources.ledger, plan.seal.facts));
    }
  }
}
