/** Checking, after the writes, that exactly the planned action has happened to the ledger it was planned on. */
module PlanConfirm {
  import opened CheckedMoney
  import opened Rows
  import opened Text
  import opened Action
  import opened Undo
  import Restorer
  import opened Dispatch
  import opened Planner
  import opened PlanAction
  import opened PlanLaws
  import opened PlanOutcome
  import opened Postconditions
  import opened Ledger
  import opened LedgerLaws
  import opened LedgerRuns
  import opened Supplemental
  import opened SealedFacts
  import opened PlanVerify

  /** Checked before the ledger is looked at. Expiry is not: a plan may be confirmed after it has lapsed. */
  function Grounds(e: Engine, c: Check): Verdict {
    if !Sealed(e, c) then InvalidPlan
    else if c.plan.seal.policyVersion != c.sources.policyVersion || c.plan.seal.policyVersion != c.sources.contextPolicyVersion
    then PolicyChanged
    else if c.plan.seal.claimRevision != c.sources.claimRevision then ClaimsChanged
    else if c.financialPolicy != c.plan.seal.financialPolicy then PolicyChanged
    else if !e.timely(c.sources, c.evaluatedAt) then SourceChanged
    else if !LedgerValid(c.sources.categories, c.sources.ledger) || !Met(c.plan.atoms, c.plan.promised, c.sources.ledger) then PostconditionMismatch
    else if !FactsCleared(c.sources.ledger, c.plan.seal.facts) || !e.cleared(c.sources, c.plan.seal.accounts, c.plan.seal.facts)
    then SourceChanged
    else Valid
  }

  function Restored(c: Check, ledger: Capture): Sources {
    c.sources.(ledger := ledger)
  }

  function MaterialOf(plan: ActionPlan, s: Sources): Material {
    Material(s, plan.atoms, plan.seal.financialPolicy, plan.key, plan.seal.accounts, plan.seal.facts, plan.seal.bindings)
  }

  /** The request the plan came from, as the restored sources would have it. */
  function Reposed(plan: ActionPlan, s: Sources): PlanRequest {
    PlanRequest(s, plan.atoms, plan.seal.financialPolicy, s.contextAt, plan.key, Rebuilt(plan.seal.facts))
  }

  predicate Repeats(a: ActionPlan, b: ActionPlan) {
    a.seal.preconditionsHash == b.seal.preconditionsHash && a.seal.evidenceHash == b.seal.evidenceHash
    && a.seal.bindings == b.seal.bindings && a.promised == b.promised && a.evidence == b.evidence && a.expiresAt == b.expiresAt
  }

  /** The restored ledger gives the plan's own preconditions and the restored sources its invariants hash. */
  ghost predicate Returns(e: Engine, c: Check, ledger: Capture) {
    Dispatchable(ledger, Steps(c.plan.atoms)) && IsDispatch(ledger, c.plan.atoms, c.plan.promised.dispatch)
    && e.sourceHash(MaterialOf(c.plan, Restored(c, ledger)), true) == c.plan.seal.invariantsHash
  }

  /** Rebasing the capture clocks to the time of planning changes nothing that is hashed. */
  predicate HashedAlike(e: Engine, plan: ActionPlan, a: Sources, b: Sources) {
    (forall normalized :: e.sourceHash(MaterialOf(plan, a), normalized) == e.sourceHash(MaterialOf(plan, b), normalized))
    && e.evidenceHash(a) == e.evidenceHash(b)
  }

  /** Planned again from the restored and rebased sources, unless that would need a freshness the action used up. */
  ghost predicate Replans(e: Engine, c: Check, ledger: Capture) {
    c.plan.seal.accounts == [] ==>
      e.rebase(Restored(c, ledger)).Ok?
      && var rebased := e.rebase(Restored(c, ledger)).value;
         HashedAlike(e, c.plan, Restored(c, ledger), rebased)
         && exists again :: PlanOf(e, Reposed(c.plan, rebased), false, again) && Repeats(again, c.plan)
  }

  ghost predicate Confirms(e: Engine, c: Check) {
    Grounds(e, c) == Valid
    && var back := ReverseSteps(c.sources.ledger, Steps(c.plan.atoms));
       back.Ok? && Returns(e, c, back.value) && Replans(e, c, back.value)
  }

  method CheckReturn(e: Engine, c: Check, ledger: Capture) returns (v: Verdict)
    ensures v == Valid <==> Returns(e, c, ledger)
  {
    hide Dispatchable, IsDispatch, Steps;
    var dispatch := DispatchPreconditions(ledger, c.plan.atoms);
    if dispatch.Err? {
      return InvalidPlan;
    }
    if IsDispatch(ledger, c.plan.atoms, c.plan.promised.dispatch) {
      PreconditionsUnique(ledger, c.plan.atoms, dispatch.value, c.plan.promised.dispatch);
    }
    if dispatch.value != c.plan.promised.dispatch {
      return InvalidPlan;
    }
    v := if e.sourceHash(MaterialOf(c.plan, Restored(c, ledger)), true) != c.plan.seal.invariantsHash then SourceChanged else Valid;
  }

  method CheckReplan(e: Engine, c: Check, ledger: Capture) returns (v: Verdict)
    ensures v == Valid <==> Replans(e, c, ledger)
  {
    hide CanBuild, PlanOf, Repeats, Reposed;
    if c.plan.seal.accounts != [] {
      return Valid;
    }
    var rebased := e.rebase(Restored(c, ledger));
    if rebased.Err? || !HashedAlike(e, c.plan, Restored(c, ledger), rebased.value) {
      return SourceChanged;
    }
    var again := BuildPlan(e, Reposed(c.plan, rebased.value), false);
    if again.Err? {
      NothingBuilt(e, Reposed(c.plan, rebased.value), false);
      return Refused(again.error);
    }
    if !Repeats(again.value, c.plan) {
      forall other | PlanOf(e, Reposed(c.plan, rebased.value), false, other)
        ensures other == again.value
      {
        PlanUnique(e, Reposed(c.plan, rebased.value), false, other, again.value);
      }
      return InvalidPlan;
    }
    v := Valid;
  }

  lemma {:induction false} NothingBuilt(e: Engine, q: PlanRequest, enforce: bool)
    requires !CanBuild(e, q, enforce)
    ensures !exists plan :: PlanOf(e, q, enforce, plan)
  {
    hide CanBuild, Promises;
  }

  method VerifyPostconditions(e: Engine, c: Check) returns (v: Verdict)
    ensures v == Valid <==> Confirms(e, c)
    ensures Grounds(e, c) != Valid ==> v == Grounds(e, c)
  {
    hide Met, LedgerValid, Sealed, ReverseSteps, Returns, Replans, Steps;
    if !Sealed(e, c) {
      return InvalidPlan;
    }
    if c.plan.seal.policyVersion != c.sources.policyVersion || c.plan.seal.policyVersion != c.sources.contextPolicyVersion {
      return PolicyChanged;
    }
    if c.plan.seal.claimRevision != c.sources.claimRevision {
      return ClaimsChanged;
    }
    if c.financialPolicy != c.plan.seal.financialPolicy {
      return PolicyChanged;
    }
    if !e.timely(c.sources, c.evaluatedAt) {
      return SourceChanged;
    }
    var sound := ValidateLedger(c.sources.categories, c.sources.ledger);
    if sound.Err? || !Met(c.plan.atoms, c.plan.promised, c.sources.ledger) {
      return PostconditionMismatch;
    }
    if !FactsCleared(c.sources.ledger, c.plan.seal.facts) || !e.cleared(c.sources, c.plan.seal.accounts, c.plan.seal.facts) {
      return SourceChanged;
    }
    var copy := new Restorer.WorkingCopy(c.sources.ledger);
    var outcome := copy.Restore(c.plan.atoms);
    if outcome.Refused? {
      return if outcome.reason == Restorer.PostconditionMismatch then PostconditionMismatch else SourceChanged;
    }
    v := CheckReturn(e, c, copy.View());
    if v == Valid {
      v := CheckReplan(e, c, copy.View());
    }
  }

  // What confirmation proves.

  lemma {:induction false} PlannedPlannable(e: Engine, q: PlanRequest, plan: ActionPlan) returns (r: Request)
    requires PlanOf(e, q, true, plan)
    ensures r.ledger == q.sources.ledger && Plannable(r, plan.atoms) && Promises(r, plan.atoms, plan.promised)
    ensures LedgerCategories(r, q.sources.categories) && LedgerValid(q.sources.categories, r.ledger)
  {
    hide Plannable, Promises, LedgerValid, ValidObservations, Blank, Timestamps.ParseUtc, ListedAccounts, ListedFacts;
    r := Posed(e.judge(q.sources, q.evaluatedAt, q.atoms).value, q);
  }

  lemma {:induction false} SealedOver(e: Engine, q: PlanRequest, plan: ActionPlan)
    requires PlanOf(e, q, true, plan)
    ensures plan.seal.invariantsHash == e.sourceHash(MaterialOf(plan, q.sources), true)
    ensures plan.seal.preconditionsHash == e.sourceHash(MaterialOf(plan, q.sources), false)
    ensures plan.seal.facts == ListedFacts(q) && plan.seal.accounts == ListedAccounts(q)
    ensures plan.seal.evidenceHash == e.evidenceHash(q.sources)
  {
    hide CanBuild, Promises, ListedAccounts, ListedFacts;
  }

  function WithLedger(x: Material, ledger: Capture): Material {
    x.(sources := x.sources.(ledger := ledger))
  }

  /** The invariants hash covers a ledger's blanked form: it tells different ones apart, and it sees nothing else of the ledger. */
  ghost predicate HashesBlanked(e: Engine) {
    (forall x: Material, y: Material :: x.facts == y.facts && e.sourceHash(x, true) == e.sourceHash(y, true) ==>
       Blanked(x.sources.ledger, x.facts) == Blanked(y.sources.ledger, y.facts))
    && forall x: Material, ledger: Capture :: Blanked(ledger, x.facts) == Blanked(x.sources.ledger, x.facts) ==>
         e.sourceHash(WithLedger(x, ledger), true) == e.sourceHash(x, true)
  }

  /** The whole action has been performed on the planned ledger, or on one that differs from it in listed facts only. */
  ghost predicate PerformedFrom(q: PlanRequest, plan: ActionPlan, start: Capture, observed: Capture) {
    SameBut(start, q.sources.ledger, plan.seal.facts)
    && AllWellFormed(Steps(plan.atoms)) && Performed(start, Steps(plan.atoms), observed)
  }

  /**
   * A confirmed action has been performed: the observed ledger is the one it was planned on, but for the account
   * facts the plan lists as invalidated, with exactly the plan's effects and nothing else.
   */
  lemma {:induction false} ConfirmedIsPerformed(e: Engine, q: PlanRequest, plan: ActionPlan, c: Check) returns (start: Capture)
    requires HashesBlanked(e) && PlanOf(e, q, true, plan) && c.plan == plan && Confirms(e, c)
    ensures AmendmentsNegatable(plan.atoms) && PerformedFrom(q, plan, start, c.sources.ledger)
  {
    var r := PlannedPlannable(e, q, plan);
    start := ReverseSteps(c.sources.ledger, Steps(plan.atoms)).value;
    SealedOver(e, q, plan);
    hide PlanOf, Plannable, Promises, AmendmentsNegatable, AllWellFormed, Performed, ReverseSteps, Steps, Grounds, Replans, Dispatchable,
         IsDispatch, Blanked, SameBut, ListedFacts, ListedAccounts;
    PlanUndone(r, plan.atoms, start, c.sources.ledger);
    assert MaterialOf(plan, Restored(c, start)).sources.ledger == start;
    BlankedMeans(start, q.sources.ledger, plan.seal.facts);
  }

  // What may have changed in the sources besides the ledger.

  /**
   * The restored sources, rebased, lead to the plan again. They need not be the sources of planning: what the
   * hashes leave out, such as the capture time, may differ.
   */
  ghost predicate PlansAlike(e: Engine, q: PlanRequest, plan: ActionPlan, restored: Sources) {
    e.rebase(restored).Ok?
    && var s := e.rebase(restored).value;
       HashedAlike(e, plan, restored, s) && e.sourceHash(MaterialOf(plan, s), false) == plan.seal.preconditionsHash
       && e.evidenceHash(s) == plan.seal.evidenceHash
       && RequestValid(e, Reposed(plan, s), false)
       && s.ledger == q.sources.ledger && s.categories == q.sources.categories && s.validUntil == q.sources.validUntil
       && e.judge(s, s.contextAt, plan.atoms) == e.judge(q.sources, q.evaluatedAt, plan.atoms)
       && e.bind(s, plan.atoms) == e.bind(q.sources, plan.atoms)
  }

  /** What may have changed in the sources besides the ledger: nothing the sealed hashes cover. */
  ghost predicate OtherwiseSame(e: Engine, q: PlanRequest, plan: ActionPlan, c: Check) {
    Timestamps.ParseUtc(c.evaluatedAt).Some? && c.financialPolicy == q.financialPolicy
    && c.sources.policyVersion == q.sources.policyVersion && c.sources.contextPolicyVersion == q.sources.contextPolicyVersion
    && c.sources.claimRevision == q.sources.claimRevision
    && c.sources.categories == q.sources.categories && Named(c.sources.ledger) && e.timely(c.sources, c.evaluatedAt)
    && FactsCleared(c.sources.ledger, plan.seal.facts) && e.cleared(c.sources, plan.seal.accounts, plan.seal.facts)
    && e.sourceHash(MaterialOf(plan, Restored(c, q.sources.ledger)), true) == plan.seal.invariantsHash
    && (plan.seal.accounts == [] ==> PlansAlike(e, q, plan, Restored(c, q.sources.ledger)))
  }

  lemma {:induction false} GroundsHold(e: Engine, q: PlanRequest, plan: ActionPlan, c: Check)
    requires PlanOf(e, q, true, plan) && c.plan == plan && OtherwiseSame(e, q, plan, c)
    requires Met(plan.atoms, plan.promised, c.sources.ledger) && LedgerValid(c.sources.categories, c.sources.ledger)
    ensures Grounds(e, c) == Valid
  {
    hide Plannable, Promises, Met, LedgerValid, Named, ListedAccounts, ListedFacts, Timestamps.ParseUtc, ValidObservations, Blank, PlansAlike;
  }

  // Planning again.

  lemma {:induction false} NoneAmong(os: seq<Observation>, accounts: map<string, AccountFacts>)
    ensures Among(os, [], accounts) == []
  {
    hide InvalidationOf;
    if os != [] {
      NoneAmong(os[..|os| - 1], accounts);
    }
  }

  lemma {:induction false} NothingListed(q: PlanRequest)
    requires ListedAccounts(q) == []
    ensures ListedFacts(q) == []
  {
    hide InvalidatedAccounts, PaidAccounts, Steps;
    NoneAmong(q.observations, q.sources.accounts);
  }

  lemma {:induction false} ListedFromNothing(q: PlanRequest)
    requires q.observations == []
    ensures ListedAccounts(q) == [] && ListedFacts(q) == []
  {
    hide PaidAccounts, Steps;
  }

  /** The plan built from the rebased sources. */
  function Again(e: Engine, plan: ActionPlan, s: Sources): ActionPlan {
    var again := Unsealed(e, Reposed(plan, s), [], [], plan.seal.bindings, plan.evidence, plan.promised);
    again.(actionHash := e.planHash(again))
  }

  lemma {:induction false} AgainPosed(e: Engine, q: PlanRequest, plan: ActionPlan, s: Sources)
    requires PlanOf(e, q, true, plan) && plan.seal.accounts == [] && ListedFacts(q) == []
    requires s.ledger == q.sources.ledger && s.categories == q.sources.categories
    requires RequestValid(e, Reposed(plan, s), false)
    requires e.judge(s, s.contextAt, plan.atoms) == e.judge(q.sources, q.evaluatedAt, plan.atoms)
    requires e.bind(s, plan.atoms) == e.bind(q.sources, plan.atoms)
    ensures CanBuild(e, Reposed(plan, s), false) && e.bind(s, plan.atoms) == Ok(plan.seal.bindings)
    ensures e.judge(s, s.contextAt, plan.atoms).value.evidence == plan.evidence
    ensures Promises(Posed(e.judge(s, s.contextAt, plan.atoms).value, Reposed(plan, s)), plan.atoms, plan.promised)
    ensures Reposed(plan, s).observations == []
  {
    hide RequestValid, Plannable, Promises, ListedAccounts, ListedFacts;
    var j := e.judge(q.sources, q.evaluatedAt, q.atoms).value;
    assert Posed(j, Reposed(plan, s)) == Posed(j, q);
  }

  lemma {:induction false} AgainIsPlan(e: Engine, plan: ActionPlan, s: Sources)
    requires CanBuild(e, Reposed(plan, s), false) && e.bind(s, plan.atoms) == Ok(plan.seal.bindings)
    requires e.judge(s, s.contextAt, plan.atoms).value.evidence == plan.evidence
    requires Promises(Posed(e.judge(s, s.contextAt, plan.atoms).value, Reposed(plan, s)), plan.atoms, plan.promised)
    requires ListedAccounts(Reposed(plan, s)) == [] && ListedFacts(Reposed(plan, s)) == []
    ensures PlanOf(e, Reposed(plan, s), false, Again(e, plan, s))
  {
    hide RequestValid, Plannable, Promises, ListedAccounts, ListedFacts, SealOf;
  }

  lemma {:induction false} ReplansAlike(e: Engine, q: PlanRequest, plan: ActionPlan, restored: Sources)
    requires PlanOf(e, q, true, plan) && plan.seal.accounts == [] && PlansAlike(e, q, plan, restored)
    ensures PlanOf(e, Reposed(plan, e.rebase(restored).value), false, Again(e, plan, e.rebase(restored).value))
    ensures Repeats(Again(e, plan, e.rebase(restored).value), plan)
  {
    SealedOver(e, q, plan);
    NothingListed(q);
    var s := e.rebase(restored).value;
    assert plan.expiresAt == q.sources.validUntil by {
      hide CanBuild, Promises, ListedAccounts, ListedFacts;
    }
    hide PlanOf, CanBuild, RequestValid, Plannable, Promises, ListedAccounts, ListedFacts, HashedAlike, Posed;
    AgainPosed(e, q, plan, s);
    ListedFromNothing(Reposed(plan, s));
    AgainIsPlan(e, plan, s);
    assert MaterialOf(plan, s) == Material(s, plan.atoms, plan.seal.financialPolicy, plan.key, [], [], plan.seal.bindings);
  }

  // What confirmation asks for.

  lemma {:induction false} SameReady(a: Capture, b: Capture, before: seq<Step>, step: Step)
    requires SameBooks(a, b)
    ensures StepReady(a, before, step) <==> StepReady(b, before, step)
  {
    hide Lookup, AssignmentMoved, BalanceMoved;
  }

  lemma {:induction false} SameMeaning(a: Capture, b: Capture, atoms: seq<Atom>, p: Precondition)
    requires SameBooks(a, b) && Means(a, atoms, p)
    ensures Means(b, atoms, p)
  {
    hide Steps, Lookup, AssignmentMoved, BalanceMoved, Touched;
  }

  lemma {:induction false} SameDispatch(a: Capture, b: Capture, atoms: seq<Atom>, entries: seq<Precondition>)
    requires SameBooks(a, b) && Dispatchable(a, Steps(atoms)) && IsDispatch(a, atoms, entries)
    ensures Dispatchable(b, Steps(atoms)) && IsDispatch(b, atoms, entries)
  {
    hide Covers, Means, Steps, StepReady, SameBooks;
    var steps := Steps(atoms);
    forall k | 0 <= k < |steps|
      ensures StepReady(b, steps[..k], steps[k])
    {
      SameReady(a, b, steps[..k], steps[k]);
    }
    forall p | p in entries
      ensures Means(b, atoms, p)
    {
      SameMeaning(a, b, atoms, p);
    }
  }

  lemma {:induction false} ReturnsBlanked(e: Engine, q: PlanRequest, plan: ActionPlan, c: Check, start: Capture)
    requires HashesBlanked(e) && PlanOf(e, q, true, plan) && c.plan == plan && OtherwiseSame(e, q, plan, c)
    requires SameBut(start, q.sources.ledger, plan.seal.facts)
    ensures Returns(e, c, start)
  {
    var r := PlannedPlannable(e, q, plan);
    assert Dispatchable(r.ledger, Steps(plan.atoms)) && IsDispatch(r.ledger, plan.atoms, plan.promised.dispatch);
    assert SameBooks(r.ledger, start);
    SameDispatch(r.ledger, start, plan.atoms, plan.promised.dispatch);
    BlankedMeans(start, q.sources.ledger, plan.seal.facts);
    hide PlanOf, Plannable, Promises, Steps, Dispatchable, IsDispatch, Blanked, SameBut;
    assert WithLedger(MaterialOf(plan, Restored(c, q.sources.ledger)), start) == MaterialOf(plan, Restored(c, start));
  }

  /** With no account listed nothing is blanked. */
  lemma {:induction false} StartsOut(e: Engine, q: PlanRequest, plan: ActionPlan, start: Capture)
    requires PlanOf(e, q, true, plan) && plan.seal.accounts == [] && SameBut(start, q.sources.ledger, plan.seal.facts)
    ensures start == q.sources.ledger
  {
    hide PlanOf, SameBut, ListedAccounts, ListedFacts, KeepsCurrencies;
    SealedOver(e, q, plan);
    NothingListed(q);
    assert KeepsCurrencies([]) by {
      NothingKept();
    }
    OnlyItself(start, q.sources.ledger, []);
  }

  lemma {:induction false} NothingKept()
    ensures KeepsCurrencies([])
  {
  }

  lemma {:induction false} ReplansBlanked(e: Engine, q: PlanRequest, plan: ActionPlan, c: Check, start: Capture)
    requires PlanOf(e, q, true, plan) && c.plan == plan && OtherwiseSame(e, q, plan, c)
    requires SameBut(start, q.sources.ledger, plan.seal.facts)
    ensures Replans(e, c, start)
  {
    hide PlanOf, SameBut, Repeats, HashedAlike, PlansAlike, Again, Reposed, Restored, Timestamps.ParseUtc, Named;
    if plan.seal.accounts == [] {
      StartsOut(e, q, plan, start);
      ReplansAlike(e, q, plan, Restored(c, start));
      RebasedAlike(e, q, plan, Restored(c, start));
    }
  }

  lemma {:induction false} RebasedAlike(e: Engine, q: PlanRequest, plan: ActionPlan, restored: Sources)
    requires PlansAlike(e, q, plan, restored)
    ensures e.rebase(restored).Ok? && HashedAlike(e, plan, restored, e.rebase(restored).value)
  {
    hide HashedAlike, RequestValid;
  }

  /** A planned action that has been performed, with all else as sealed, is confirmed. */
  lemma {:induction false} PerformedConfirms(e: Engine, q: PlanRequest, plan: ActionPlan, c: Check, start: Capture)
    requires HashesBlanked(e) && PlanOf(e, q, true, plan) && c.plan == plan && OtherwiseSame(e, q, plan, c)
    requires AmendmentsNegatable(plan.atoms) && PerformedFrom(q, plan, start, c.sources.ledger)
    ensures Confirms(e, c)
  {
    var r := PlannedPlannable(e, q, plan);
    assert SameBooks(r.ledger, start);
    ReturnsBlanked(e, q, plan, c, start);
    ReplansBlanked(e, q, plan, c, start);
    assert c.sources.categories == q.sources.categories && Named(c.sources.ledger);
    hide PlanOf, Plannable, Promises, AmendmentsNegatable, AllWellFormed, Performed, ReverseSteps, Steps, Grounds, Returns, Replans,
         LedgerValid, LedgerCategories, Met, OtherwiseSame, SameBut, Named, HashesBlanked, SameBooks;
    PerformedMeets(r, plan.atoms, plan.promised, start, c.sources.ledger);
    PlanKeepsValid(r, q.sources.categories, plan.atoms, start, c.sources.ledger);
    GroundsHold(e, q, plan, c);
  }

  /**
   * Confirmation is exact: with all else as sealed, the observed ledger is confirmed exactly when it is the
   * planned ledger, but for the account facts listed as invalidated, with the whole action performed on it and
   * nothing more.
   */
  lemma {:induction false} ConfirmedExactly(e: Engine, q: PlanRequest, plan: ActionPlan, c: Check)
    requires HashesBlanked(e) && PlanOf(e, q, true, plan) && c.plan == plan && OtherwiseSame(e, q, plan, c)
    ensures Confirms(e, c)
            <==> AmendmentsNegatable(plan.atoms) && exists start :: PerformedFrom(q, plan, start, c.sources.ledger)
  {
    hide PlanOf, OtherwiseSame, AmendmentsNegatable, PerformedFrom, Confirms, HashesBlanked;
    if Confirms(e, c) {
      var start := ConfirmedIsPerformed(e, q, plan, c);
    }
    if AmendmentsNegatable(plan.atoms) {
      if start :| PerformedFrom(q, plan, start, c.sources.ledger) {
        PerformedConfirms(e, q, plan, c, start);
      }
    }
  }

  /** A plan that lists no currency is confirmed exactly when it has been performed on the very ledger it was planned on. */
  lemma {:induction false} ConfirmedOutright(e: Engine, q: PlanRequest, plan: ActionPlan, c: Check)
    requires HashesBlanked(e) && PlanOf(e, q, true, plan) && c.plan == plan && OtherwiseSame(e, q, plan, c)
    requires KeepsCurrencies(plan.seal.facts)
    ensures Confirms(e, c)
            <==> AmendmentsNegatable(plan.atoms) && AllWellFormed(Steps(plan.atoms))
                 && Performed(q.sources.ledger, Steps(plan.atoms), c.sources.ledger)
  {
    ConfirmedExactly(e, q, plan, c);
    hide PlanOf, OtherwiseSame, AmendmentsNegatable, AllWellFormed, Performed, Confirms, Steps, HashesBlanked, KeepsCurrencies;
    forall start
      ensures SameBut(start, q.sources.ledger, plan.seal.facts) <==> start == q.sources.ledger
    {
      OnlyItself(start, q.sources.ledger, plan.seal.facts);
    }
    hide SameBut;
    assert PerformedFrom(q, plan, q.sources.ledger, c.sources.ledger)
           <==> AllWellFormed(Steps(plan.atoms)) && Performed(q.sources.ledger, Steps(plan.atoms), c.sources.ledger);
  }
}
