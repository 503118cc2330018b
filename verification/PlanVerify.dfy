/** A sealed plan, and checking it against the current sources before it is dispatched. */
module PlanVerify {
  import opened CheckedMoney
  import opened Text
  import opened Action
  import opened Dispatch
  import opened Targets
  import opened Planner
  import opened PlanAction
  import opened PlanOutcome
  import opened Ledger
  import opened Supplemental
  import opened SupplementalLaws
  import Timestamps

  /** What is read anew for planning and again for verifying: the ledger, the snapshot's facts, policy, claims, evidence. */
  datatype Sources = Sources(
    ledger: Capture, categories: seq<string>, accounts: map<string, AccountFacts>, policyVersion: string, contextPolicyVersion: string,
    claimRevision: string, validUntil: string, contextAt: string, contextTimes: seq<string>, evidence: string, rest: string)

  datatype PlanRequest = PlanRequest(
    sources: Sources, atoms: seq<Atom>, financialPolicy: string, evaluatedAt: string, key: string, observations: seq<Observation>)

  /** The evaluated card and shared liquidity verdict, with the evidence the action refers to. */
  datatype Judgement = Judgement(request: Request, evidence: seq<string>)

  datatype Binding = Binding(payee: string, existing: Option<string>)

  /** What the two source hashes cover: neither the time of evaluation nor the raw observations. */
  datatype Material = Material(
    sources: Sources, atoms: seq<Atom>, financialPolicy: string, key: string,
    accounts: seq<string>, facts: seq<Invalidation>, bindings: seq<Binding>)

  datatype Seal = Seal(
    policyVersion: string, claimRevision: string, financialPolicy: string, evidenceHash: string,
    accounts: seq<string>, facts: seq<Invalidation>, bindings: seq<Binding>, preconditionsHash: string, invariantsHash: string)

  datatype ActionPlan = ActionPlan(
    version: string, atoms: seq<Atom>, seal: Seal, evidence: seq<string>, expiresAt: string, key: string,
    promised: Derived, actionHash: string)

  /** Parts whose code is not modelled: each is some function of what it is given. */
  datatype Engine = Engine(
    sound: (Sources, string, seq<Atom>) -> bool,
    timely: (Sources, string) -> bool, cleared: (Sources, seq<string>, seq<Invalidation>) -> bool,
    judge: (Sources, string, seq<Atom>) -> Result<Judgement>,
    bind: (Sources, seq<Atom>) -> Result<seq<Binding>>, rebase: Sources -> Result<Sources>,
    evidenceHash: Sources -> string, sourceHash: (Material, bool) -> string, planHash: ActionPlan -> string)

  function PlanHash(e: Engine, plan: ActionPlan): string {
    e.planHash(plan.(actionHash := ""))
  }

  // Which requests are built into plans.

  predicate Current(now: string, until: string) {
    Timestamps.ParseUtc(now).Some? && Timestamps.ParseUtc(until).Some?
    && Timestamps.ParseUtc(now).value < Timestamps.ParseUtc(until).value
  }

  ghost predicate RequestValid(e: Engine, q: PlanRequest, enforce: bool) {
    !Blank(q.financialPolicy) && !Blank(q.key) && Timestamps.ParseUtc(q.evaluatedAt).Some?
    && Timestamps.ParseUtc(q.sources.validUntil).Some? && (enforce ==> Current(q.evaluatedAt, q.sources.validUntil))
    && Timestamps.ParseUtc(q.sources.contextAt).Some? && (forall t :: t in q.sources.contextTimes ==> Timestamps.ParseUtc(t).Some?)
    && q.sources.policyVersion == q.sources.contextPolicyVersion && !Blank(q.sources.claimRevision)
    && ValidObservations(q.sources.accounts, q.observations)
    && e.sound(q.sources, q.evaluatedAt, q.atoms)
    && LedgerValid(q.sources.categories, q.sources.ledger)
  }

  /** The request to derive, on the ledger being planned on and its categories. */
  function Posed(j: Judgement, q: PlanRequest): Request {
    j.request.(ledger := q.sources.ledger, budget := j.request.budget.(categories := set x | x in q.sources.categories))
  }

  ghost predicate CanBuild(e: Engine, q: PlanRequest, enforce: bool) {
    RequestValid(e, q, enforce) && q.atoms != []
    && e.judge(q.sources, q.evaluatedAt, q.atoms).Ok?
    && Plannable(Posed(e.judge(q.sources, q.evaluatedAt, q.atoms).value, q), q.atoms)
    && e.bind(q.sources, q.atoms).Ok?
  }

  function TouchedAccounts(atoms: seq<Atom>): set<string> {
    PaidAccounts(Steps(atoms))
  }

  function ListedAccounts(q: PlanRequest): seq<string> {
    InvalidatedAccounts(q.observations, TouchedAccounts(q.atoms))
  }

  function ListedFacts(q: PlanRequest): seq<Invalidation> {
    InvalidatedFacts(q.observations, ListedAccounts(q), q.sources.accounts)
  }

  function SealOf(e: Engine, q: PlanRequest, accounts: seq<string>, facts: seq<Invalidation>, bindings: seq<Binding>): Seal {
    var m := Material(q.sources, q.atoms, q.financialPolicy, q.key, accounts, facts, bindings);
    Seal(q.sources.policyVersion, q.sources.claimRevision, q.financialPolicy, e.evidenceHash(q.sources),
         accounts, facts, bindings, e.sourceHash(m, false), e.sourceHash(m, true))
  }

  function Unsealed(e: Engine, q: PlanRequest, accounts: seq<string>, facts: seq<Invalidation>, bindings: seq<Binding>,
                    evidence: seq<string>, d: Derived): ActionPlan
  {
    ActionPlan("1", q.atoms, SealOf(e, q, accounts, facts, bindings), evidence, q.sources.validUntil, q.key, d, "")
  }

  /** The plan of a request: what it promises, sealed with its sources and its own hash. */
  ghost predicate PlanOf(e: Engine, q: PlanRequest, enforce: bool, plan: ActionPlan) {
    CanBuild(e, q, enforce)
    && var j := e.judge(q.sources, q.evaluatedAt, q.atoms).value;
       Promises(Posed(j, q), q.atoms, plan.promised)
       && plan == Unsealed(e, q, ListedAccounts(q), ListedFacts(q), e.bind(q.sources, q.atoms).value, j.evidence, plan.promised)
                    .(actionHash := PlanHash(e, plan))
  }

  method ValidateRequest(e: Engine, q: PlanRequest, enforce: bool) returns (r: Result<()>)
    ensures r.Ok? <==> RequestValid(e, q, enforce)
  {
    hide Blank, ValidObservations, LedgerValid, Timestamps.ParseUtc;
    if Blank(q.financialPolicy) || Blank(q.key) {
      return Err("missing_action_identity");
    }
    if Timestamps.ParseUtc(q.evaluatedAt).None? {
      return Err("invalid_evaluated_at");
    }
    if Timestamps.ParseUtc(q.sources.validUntil).None? {
      return Err("invalid_expiry");
    }
    if enforce && Timestamps.ParseUtc(q.evaluatedAt).value >= Timestamps.ParseUtc(q.sources.validUntil).value {
      return Err("expired");
    }
    if Timestamps.ParseUtc(q.sources.contextAt).None? {
      return Err("invalid_context_time");
    }
    for i := 0 to |q.sources.contextTimes|
      invariant forall k :: 0 <= k < i ==> Timestamps.ParseUtc(q.sources.contextTimes[k]).Some?
    {
      if Timestamps.ParseUtc(q.sources.contextTimes[i]).None? {
        return Err("invalid_horizon");
      }
    }
    if q.sources.policyVersion != q.sources.contextPolicyVersion || Blank(q.sources.claimRevision) {
      return Err("source_identity_mismatch");
    }
    var observed := ValidateObservations(q.sources.accounts, q.observations);
    if observed.Err? {
      return observed;
    }
    if !e.sound(q.sources, q.evaluatedAt, q.atoms) {
      return Err("source_coverage_incomplete");
    }
    r := ValidateLedger(q.sources.categories, q.sources.ledger);
  }

  /** A plan is built exactly for the requests that can be built, and it is that request's plan. */
  method BuildPlan(e: Engine, q: PlanRequest, enforce: bool) returns (r: Result<ActionPlan>)
    ensures r.Ok? <==> CanBuild(e, q, enforce)
    ensures r.Ok? ==> PlanOf(e, q, enforce, r.value)
  {
    hide RequestValid, Plannable, Promises, InvalidatedAccounts, InvalidatedFacts, PaidAccounts, Steps;
    var accounts := CollectAccounts(q.observations, TouchedAccounts(q.atoms));
    var facts := CollectFacts(q.observations, accounts, q.sources.accounts);
    var valid := ValidateRequest(e, q, enforce);
    if valid.Err? {
      return Err(valid.error);
    }
    if q.atoms == [] {
      return Err("composite_action_empty");
    }
    var judged := e.judge(q.sources, q.evaluatedAt, q.atoms);
    if judged.Err? {
      return Err(judged.error);
    }
    var derived := DeriveAction(Posed(judged.value, q), q.atoms);
    if derived.Err? {
      return Err(derived.error);
    }
    var bound := e.bind(q.sources, q.atoms);
    if bound.Err? {
      return Err(bound.error);
    }
    var plan := Unsealed(e, q, accounts, facts, bound.value, judged.value.evidence, derived.value);
    r := Ok(plan.(actionHash := e.planHash(plan)));
  }

  // Verification before dispatch.

  datatype Check = Check(plan: ActionPlan, sources: Sources, financialPolicy: string, evaluatedAt: string)

  datatype Verdict =
    | Valid | InvalidPlan | Expired | PolicyChanged | ClaimsChanged | EvidenceChanged | TargetChanged | SourceChanged
    | PostconditionMismatch
    | Refused(error: string)

  /** The request a plan would be rebuilt from: its own observations are only those it listed as invalidated. */
  function Replanned(c: Check): PlanRequest {
    PlanRequest(c.sources, c.plan.atoms, c.plan.seal.financialPolicy, c.evaluatedAt, c.plan.key, Rebuilt(c.plan.seal.facts))
  }

  predicate Agrees(a: ActionPlan, b: ActionPlan) {
    a.seal.preconditionsHash == b.seal.preconditionsHash && a.seal.invariantsHash == b.seal.invariantsHash
    && a.seal.accounts == b.seal.accounts && a.seal.facts == b.seal.facts && a.seal.bindings == b.seal.bindings
    && a.promised.dispatch == b.promised.dispatch
  }

  predicate Sealed(e: Engine, c: Check) {
    c.plan.actionHash == PlanHash(e, c.plan) && c.plan.version == "1" && Timestamps.ParseUtc(c.evaluatedAt).Some?
  }

  /** Checked one by one before anything is planned again. */
  function Standing(e: Engine, c: Check): Verdict {
    if !Sealed(e, c) then InvalidPlan
    else if !Current(c.evaluatedAt, c.plan.expiresAt) then Expired
    else if c.plan.seal.policyVersion != c.sources.policyVersion || c.plan.seal.policyVersion != c.sources.contextPolicyVersion
    then PolicyChanged
    else if c.plan.seal.claimRevision != c.sources.claimRevision then ClaimsChanged
    else if c.financialPolicy != c.plan.seal.financialPolicy then PolicyChanged
    else if e.evidenceHash(c.sources) != c.plan.seal.evidenceHash then EvidenceChanged
    else if Changed(c.plan.atoms, PlanConditions(c.plan.promised), c.sources.ledger) then TargetChanged
    else Valid
  }

  /** The plan stands, and planning it again from the sources now at hand gives the same seal and the same preconditions. */
  ghost predicate Verifies(e: Engine, c: Check) {
    Standing(e, c) == Valid && exists again :: PlanOf(e, Replanned(c), true, again) && Agrees(again, c.plan)
  }

  method VerifyPreconditions(e: Engine, c: Check) returns (v: Verdict)
    ensures v == Valid <==> Verifies(e, c)
    ensures Standing(e, c) != Valid ==> v == Standing(e, c)
    ensures v.Refused? <==> Standing(e, c) == Valid && !CanBuild(e, Replanned(c), true)
  {
    hide CanBuild, PlanOf, PlanConditions, Changed, Timestamps.ParseUtc, Agrees;
    if !Sealed(e, c) {
      return InvalidPlan;
    }
    if !Current(c.evaluatedAt, c.plan.expiresAt) {
      return Expired;
    }
    if c.plan.seal.policyVersion != c.sources.policyVersion || c.plan.seal.policyVersion != c.sources.contextPolicyVersion {
      return PolicyChanged;
    }
    if c.plan.seal.claimRevision != c.sources.claimRevision {
      return ClaimsChanged;
    }
    if c.financialPolicy != c.plan.seal.financialPolicy {
      return PolicyChanged;
    }
    if e.evidenceHash(c.sources) != c.plan.seal.evidenceHash {
      return EvidenceChanged;
    }
    var changed := TargetsChanged(c.plan.atoms, PlanConditions(c.plan.promised), c.sources.ledger);
    if changed {
      return TargetChanged;
    }
    var again := BuildPlan(e, Replanned(c), true);
    if again.Err? {
      NotBuilt(e, c);
      return Refused(again.error);
    }
    if Agrees(again.value, c.plan) {
      return Valid;
    }
    Disagrees(e, c, again.value);
    v := SourceChanged;
  }

  lemma {:induction false} NotBuilt(e: Engine, c: Check)
    requires !CanBuild(e, Replanned(c), true)
    ensures !Verifies(e, c)
  {
    hide CanBuild, Standing, Agrees, Promises;
  }

  lemma {:induction false} Disagrees(e: Engine, c: Check, again: ActionPlan)
    requires PlanOf(e, Replanned(c), true, again) && !Agrees(again, c.plan)
    ensures !Verifies(e, c)
  {
    hide PlanOf, Standing, Agrees, Replanned;
    forall other | PlanOf(e, Replanned(c), true, other)
      ensures other == again
    {
      PlanUnique(e, Replanned(c), true, other, again);
    }
  }

  // A request has one plan.

  lemma {:induction false} PromiseUnique(r: Request, atoms: seq<Atom>, a: Derived, b: Derived)
    requires Promises(r, atoms, a) && Promises(r, atoms, b)
    ensures a == b
  {
    hide IsDispatch, AssignedAfter, BalanceAfter, Steps;
    PreconditionsUnique(r.ledger, atoms, a.dispatch, b.dispatch);
    assert a.assignments == b.assignments;
    assert a.balances == b.balances;
  }

  lemma {:induction false} PlanUnique(e: Engine, q: PlanRequest, enforce: bool, a: ActionPlan, b: ActionPlan)
    requires PlanOf(e, q, enforce, a) && PlanOf(e, q, enforce, b)
    ensures a == b
  {
    hide RequestValid, Plannable, Promises, ListedAccounts, ListedFacts, SealOf;
    PromiseUnique(Posed(e.judge(q.sources, q.evaluatedAt, q.atoms).value, q), q.atoms, a.promised, b.promised);
  }

  // Planned, then verified.

  /** Checking a plan against the very sources and time it was planned from. */
  function SameMoment(q: PlanRequest, plan: ActionPlan): Check {
    Check(plan, q.sources, q.financialPolicy, q.evaluatedAt)
  }

  lemma {:induction false} GuardQuiet(r: Request, atoms: seq<Atom>, d: Derived)
    requires Plannable(r, atoms) && Promises(r, atoms, d)
    ensures !Changed(atoms, PlanConditions(d), r.ledger)
  {
    hide Plannable, Promises, Changed, PlanConditions, Moves, Touched, UnitsAt;
    PlanGuardExact(r, atoms, d, r.ledger);
  }

  lemma {:induction false} StillStanding(e: Engine, q: PlanRequest, plan: ActionPlan)
    requires PlanOf(e, q, true, plan)
    ensures Standing(e, SameMoment(q, plan)) == Valid
  {
    hide Plannable, Promises, Changed, PlanConditions, ListedAccounts, ListedFacts, Timestamps.ParseUtc, ValidObservations, Blank;
    GuardQuiet(Posed(e.judge(q.sources, q.evaluatedAt, q.atoms).value, q), q.atoms, plan.promised);
  }

  lemma {:induction false} ListsFixed(e: Engine, q: PlanRequest, enforce: bool)
    requires RequestValid(e, q, enforce)
    ensures var again := q.(observations := Rebuilt(ListedFacts(q)));
            RequestValid(e, again, enforce) && ListedAccounts(again) == ListedAccounts(q) && ListedFacts(again) == ListedFacts(q)
  {
    hide ValidObservations, InvalidatedAccounts, InvalidatedFacts, Blank, Current, PaidAccounts, Steps;
    RebuiltValid(q.observations, ListedAccounts(q), q.sources.accounts);
    AccountsFixed(q.observations, TouchedAccounts(q.atoms), q.sources.accounts);
    FactsFixed(q.observations, ListedAccounts(q), q.sources.accounts);
  }

  lemma {:induction false} RebuildsItself(e: Engine, q: PlanRequest, plan: ActionPlan)
    requires PlanOf(e, q, true, plan)
    ensures PlanOf(e, Replanned(SameMoment(q, plan)), true, plan)
  {
    hide RequestValid, Plannable, Promises, ListedAccounts, ListedFacts;
    ListsFixed(e, q, true);
    assert Replanned(SameMoment(q, plan)) == q.(observations := Rebuilt(ListedFacts(q)));
  }

  /**
   * Every plan verifies against the sources and time it was built from, although the observations it is
   * built from again are only the sorted remainder the plan kept of them.
   */
  lemma {:induction false} PlannedVerifies(e: Engine, q: PlanRequest, plan: ActionPlan)
    requires PlanOf(e, q, true, plan)
    ensures Verifies(e, SameMoment(q, plan))
  {
    StillStanding(e, q, plan);
    RebuildsItself(e, q, plan);
    hide PlanOf, Standing, Replanned;
    assert Agrees(plan, plan);
  }

  // What a verified plan guarantees, whatever sources it is checked against.

  /** The plan is unexpired, plans on the ledger now at hand, and carries exactly the preconditions that ledger gives. */
  lemma {:induction false} VerifiedMeans(e: Engine, c: Check)
    requires Verifies(e, c)
    ensures Current(c.evaluatedAt, c.plan.expiresAt) && Current(c.evaluatedAt, c.sources.validUntil)
    ensures CanBuild(e, Replanned(c), true)
    ensures IsDispatch(c.sources.ledger, c.plan.atoms, c.plan.promised.dispatch)
  {
    hide Plannable, Changed, PlanConditions, Timestamps.ParseUtc, ValidObservations, Blank, IsDispatch, Steps, ListedAccounts, ListedFacts,
         MovedSlots, PaidAccounts, AssignedAfter, BalanceAfter;
    var again :| PlanOf(e, Replanned(c), true, again) && Agrees(again, c.plan);
  }

  /** When the source hash tells ledgers apart, a verified plan is checked against the very ledger it was planned on. */
  lemma {:induction false} VerifiedLedger(e: Engine, q: PlanRequest, plan: ActionPlan, c: Check)
    requires forall x, y :: e.sourceHash(x, false) == e.sourceHash(y, false) ==> x.sources.ledger == y.sources.ledger
    requires PlanOf(e, q, true, plan) && c.plan == plan && Verifies(e, c)
    ensures c.sources.ledger == q.sources.ledger
  {
    hide CanBuild, Promises, ListedAccounts, ListedFacts, Standing;
    var again :| PlanOf(e, Replanned(c), true, again) && Agrees(again, c.plan);
  }
}
