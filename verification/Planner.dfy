/** Planning an action: every atom checked against the ledger as the earlier atoms will leave it. */
module Planner {
  import opened CheckedMoney
  import opened Rows
  import opened Text
  import opened Action
  import opened Ordered
  import opened Sorting
  import opened Sums
  import opened Outflow
  import opened Dispatch
  import opened Envelopes

  /** A reallocation path: where from, where to, and in which currency. */
  datatype PathKey = PathKey(source: Slot, destination: Slot, currency: string)

  datatype Request = Request(
    ledger: Capture, budget: Budget, hasCard: bool, outcome: string, cartTotal: Money,
    accountCharges: map<string, Money>, capacities: map<string, Money>, approved: seq<(PathKey, i64)>,
    today: string, evidenceSound: Atom -> bool, resolve: (string, Option<string>) -> Result<string>)

  function LimitsOf(r: Request): Limits {
    Limits(map a | a in KeysOf(r.ledger.accounts) :: CurrencyOf(r.ledger, a), r.accountCharges, r.capacities)
  }

  // Identities already taken.

  datatype Seen = Seen(
    moves: set<(Slot, Slot)>, rows: set<string>, correlations: set<string>, wallets: set<string>, transfers: set<string>)

  function SeenIn(ledger: Capture): Seen {
    Seen({}, set id | id in RowIds(ledger.transactions), set m | m in ledger.transfers :: m.correlationId,
         set id | id in WalletIds(ledger.wallets), set id | id in TransferIds(ledger.transfers))
  }

  function SeenStep(seen: Seen, step: Step): Seen {
    match step
    case Move(m) => seen.(moves := seen.moves + {(m.source, m.destination)})
    case Post(tx) => seen.(rows := seen.rows + {tx.parentId}, correlations := seen.correlations + {tx.correlationId})
    case Amend(_, _) => seen
    case Open(walletId, _, _) => seen.(wallets := seen.wallets + {walletId})
    case Send(t) => seen.(transfers := seen.transfers + {t.transferId}, correlations := seen.correlations + {t.correlationId})
  }

  function SeenAfter(ledger: Capture, steps: seq<Step>): Seen {
    if steps == [] then SeenIn(ledger) else SeenStep(SeenAfter(ledger, steps[..|steps| - 1]), steps[|steps| - 1])
  }

  predicate Fresh(seen: Seen, step: Step) {
    match step
    case Move(m) => (m.source, m.destination) !in seen.moves
    case Post(tx) => tx.parentId !in seen.rows && tx.correlationId !in seen.correlations
    case Amend(_, _) => true
    case Open(walletId, _, _) => walletId !in seen.wallets
    case Send(t) => t.transferId !in seen.transfers && t.correlationId !in seen.correlations
  }

  // What each kind of step must look like on its own.

  predicate MoveShape(m: Movement) {
    m.amount.units > 0 && m.source.categoryId != m.destination.categoryId
    && ValidMonth(m.source.month) && ValidMonth(m.destination.month)
  }

  predicate Identified(tx: Transaction) {
    !Blank(tx.parentId) && !Blank(tx.correlationId) && ValidDate(tx.date)
  }

  /** The first account row with this identity: open, on budget, and exactly as the facts record it. */
  predicate Live(ledger: Capture, id: string) {
    id in KeysOf(ledger.accounts) && id in KeysOf(ledger.accountFacts)
    && var account, fact := ledger.accounts[IndexOf(KeysOf(ledger.accounts), id)], ledger.accountFacts[IndexOf(KeysOf(ledger.accountFacts), id)];
       account.rest.onBudget && !account.rest.closed
       && fact.rest.currency == account.rest.currency && fact.money == account.money && !fact.rest.closed && fact.rest.onBudget
  }

  function CheckLive(ledger: Capture, id: string): (r: Result<string>)
    ensures r.Ok? <==> Live(ledger, id)
    ensures r.Ok? ==> r.value == CurrencyOf(ledger, id)
  {
    if id !in KeysOf(ledger.accounts) then Err("ledger_account_missing") else
    var account := ledger.accounts[IndexOf(KeysOf(ledger.accounts), id)];
    if !account.rest.onBudget || account.rest.closed then Err("ledger_account_not_live_on_budget")
    else if id !in KeysOf(ledger.accountFacts) then Err("account_liquidity_fact_missing")
    else if !Live(ledger, id) then Err("account_source_changed")
    else Ok(account.rest.currency)
  }

  predicate SameSign(a: int, b: int) {
    (a > 0 && b > 0) || (a < 0 && b < 0) || (a == 0 && b == 0)
  }

  function Amounts(splits: seq<Split>): (r: seq<(string, i64)>)
    ensures |r| == |splits| && forall i :: 0 <= i < |r| ==> r[i] == (splits[i].categoryId, splits[i].amount.units)
  {
    seq(|splits|, i requires 0 <= i < |splits| => (splits[i].categoryId, splits[i].amount.units))
  }

  /** Splits of the whole's own sign and currency that add up to it. */
  predicate SplitsAddUp(splits: seq<Split>, amount: Money) {
    (forall i :: 0 <= i < |splits| ==> splits[i].amount.currency == amount.currency && SameSign(splits[i].amount.units, amount.units))
    && Total(Amounts(splits)) == amount.units
  }

  /** A purchase names one category, or splits itself over named ones. */
  predicate PurchaseShape(tx: Transaction) {
    if tx.splits == [] then tx.categoryId.Some?
    else tx.categoryId.None? && (forall i :: 0 <= i < |tx.splits| ==> !Blank(tx.splits[i].categoryId)) && SplitsAddUp(tx.splits, tx.amount)
  }

  predicate ManualShape(r: Request, tx: Transaction) {
    Identified(tx) && tx.amount.units < 0 && Live(r.ledger, tx.accountId)
    && tx.accountId in r.accountCharges
    && tx.amount.currency == CurrencyOf(r.ledger, tx.accountId) == r.accountCharges[tx.accountId].currency
    && PurchaseShape(tx)
  }

  predicate CategoryKnown(r: Request, slot: Slot, currency: string) {
    !Blank(slot.categoryId) && slot.categoryId in r.budget.categories
    && Lookup(r.budget.facts, slot).Some? && Lookup(r.budget.facts, slot).value.currency == currency
  }

  /** What every evidence-backed write must look like, before and after. */
  predicate EvidenceShape(r: Request, tx: Transaction) {
    Identified(tx) && tx.amount.units != 0 && !StringLt(r.today, tx.date)
    && Live(r.ledger, tx.accountId) && tx.amount.currency == CurrencyOf(r.ledger, tx.accountId)
    && (tx.splits != [] ==> tx.categoryId.None? && SplitsAddUp(tx.splits, tx.amount))
    && forall i :: 0 <= i < |MonthDeltas(tx)| ==> CategoryKnown(r, MonthDeltas(tx)[i].0, tx.amount.currency)
  }

  function Original(expected: LedgerRow, correlationId: string): Transaction {
    Transaction(expected.parentId, correlationId, expected.accountId, expected.amount, expected.date,
                expected.categoryId, expected.payeeName, expected.notes, expected.splits)
  }

  predicate SameButCategories(expected: LedgerRow, tx: Transaction) {
    expected.transferAccountId.None?
    && tx == Original(expected, tx.correlationId).(categoryId := tx.categoryId, splits := tx.splits)
    && !(tx.categoryId == expected.categoryId && tx.splits == expected.splits)
  }

  predicate KeepsSplitAmounts(expected: LedgerRow, tx: Transaction) {
    expected.splits != [] ==> |expected.splits| == |tx.splits|
                               && forall i :: 0 <= i < |tx.splits| ==> expected.splits[i].amount == tx.splits[i].amount
  }

  /** An amendment changes only the categories of one row that is not half of a transfer. */
  predicate AmendShape(r: Request, expected: LedgerRow, tx: Transaction) {
    EvidenceShape(r, tx) && EvidenceShape(r, Original(expected, tx.correlationId))
    && SameButCategories(expected, tx) && KeepsSplitAmounts(expected, tx)
    && tx.parentId in RowIds(r.ledger.transactions)
    && r.ledger.transactions[IndexOf(RowIds(r.ledger.transactions), tx.parentId)] == expected
  }

  predicate CurrencyConfigured(ledger: Capture, currency: string) {
    exists i :: 0 <= i < |ledger.accounts| && ledger.accounts[i].rest.currency == currency
                && ledger.accounts[i].key in KeysOf(ledger.accountFacts)
                && var fact := ledger.accountFacts[IndexOf(KeysOf(ledger.accountFacts), ledger.accounts[i].key)];
                   fact.rest.currency == currency && fact.rest.evidence.state == "known"
  }

  predicate WalletShape(r: Request, walletId: string, name: string, currency: string) {
    !Blank(walletId) && !Blank(name) && ValidCurrency(currency) && CurrencyConfigured(r.ledger, currency)
  }

  predicate TransferNamed(t: TransferIntent) {
    !Blank(t.transferId) && !Blank(t.correlationId) && ':' !in t.transferId && t.amount.units > 0
    && t.sourceAccountId != t.destinationAccountId && ValidDate(t.date)
  }

  predicate TransferShape(r: Request, t: TransferIntent) {
    TransferNamed(t) && Live(r.ledger, t.sourceAccountId) && Live(r.ledger, t.destinationAccountId)
    && CurrencyOf(r.ledger, t.sourceAccountId) == CurrencyOf(r.ledger, t.destinationAccountId) == t.amount.currency
  }

  // Acceptance of one atom, given the steps before it.

  ghost predicate MoveAccepted(r: Request, before: seq<Step>, m: Movement) {
    MoveShape(m) && Fresh(SeenAfter(r.ledger, before), Move(m))
    && m.source.categoryId in r.budget.categories && m.destination.categoryId in r.budget.categories
    && MoveFunded(r.budget, before, m) && StepReady(r.ledger, before, Move(m))
  }

  ghost predicate ManualAccepted(r: Request, before: seq<Step>, tx: Transaction) {
    ManualShape(r, tx) && Fresh(SeenAfter(r.ledger, before), Post(tx))
    && OutflowReady(LimitsOf(r), before, Post(tx))
    && SpentInAll(before + [Post(tx)]) <= r.cartTotal.units
    && Affordable(r.budget, before, MonthDeltas(tx), tx.amount.currency)
    && StepReady(r.ledger, before, Post(tx))
  }

  function SpentInAll(steps: seq<Step>): (r: int)
    ensures r >= 0
  {
    if steps == [] then 0
    else SpentInAll(steps[..|steps| - 1])
         + if Spends(steps[|steps| - 1]) then -(steps[|steps| - 1].transaction.amount.units as int) else 0
  }

  ghost predicate CreditAccepted(r: Request, before: seq<Step>, tx: Transaction) {
    EvidenceShape(r, tx) && tx.amount.units > 0 && Fresh(SeenAfter(r.ledger, before), Post(tx)) && StepReady(r.ledger, before, Post(tx))
  }

  ghost predicate TransferAccepted(r: Request, before: seq<Step>, t: TransferIntent) {
    TransferShape(r, t) && Fresh(SeenAfter(r.ledger, before), Send(t))
    && OutflowReady(LimitsOf(r), before, Send(t)) && StepReady(r.ledger, before, Send(t))
  }

  ghost predicate MovesAccepted(r: Request, before: seq<Step>, moves: seq<Movement>) {
    forall i :: 0 <= i < |moves| ==> MoveAccepted(r, before + MoveSteps(moves)[..i], moves[i])
  }

  predicate PaymentReady(r: Request) {
    r.hasCard && (r.outcome == "funded_now" || r.outcome == "safe_with_reallocation")
  }

  predicate Projects(atom: Atom) {
    atom.EvidenceProjection? || atom.EvidenceCredit? || atom.EvidenceAmendment?
  }

  /** Named and distinct pieces of evidence, all of them resolved to one economic event. */
  predicate OneSubject(r: Request, b: Backing) {
    b.evidenceIds != [] && Distinct(b.evidenceIds)
    && forall i :: 0 <= i < |b.evidenceIds| ==>
         !Blank(b.evidenceIds[i]) && r.resolve(b.evidenceIds[i], b.subject).Ok?
         && r.resolve(b.evidenceIds[i], b.subject) == r.resolve(b.evidenceIds[0], b.subject)
  }

  function SubjectOf(r: Request, b: Backing): string
    requires OneSubject(r, b)
  {
    r.resolve(b.evidenceIds[0], b.subject).value
  }

  predicate Supported(r: Request, atom: Atom)
    requires Projects(atom)
  {
    OneSubject(r, atom.backing) && r.evidenceSound(atom)
  }

  /** The evidence of an amendment is about the very row it amends. */
  predicate OnTarget(r: Request, atom: Atom)
    requires atom.EvidenceAmendment?
  {
    Supported(r, atom) && SubjectOf(r, atom.backing) == atom.expected.parentId
  }

  ghost predicate AtomAccepted(r: Request, before: seq<Step>, atom: Atom) {
    match atom
    case Reallocation(moves) => r.hasCard && r.outcome == "safe_with_reallocation" && moves != [] && MovesAccepted(r, before, moves)
    case ManualTransaction(tx) => PaymentReady(r) && ManualAccepted(r, before, tx)
    case EvidenceProjection(tx, _) => PaymentReady(r) && ManualAccepted(r, before, tx) && Supported(r, atom)
    case EvidenceCredit(tx, _) => CreditAccepted(r, before, tx) && Supported(r, atom)
    case EvidenceAmendment(expected, tx, _) => AmendShape(r, expected, tx) && OnTarget(r, atom)
    case WalletMaterialization(walletId, name, currency) =>
      WalletShape(r, walletId, name, currency) && Fresh(SeenAfter(r.ledger, before), Open(walletId, name, currency))
    case Transfer(t) => TransferAccepted(r, before, t)
  }

  // The running state.

  datatype Progress = Progress(
    assignments: map<Slot, Money>, balances: map<string, Money>, purse: Purse, outflows: Outflows, manualTotal: i64, seen: Seen)

  /** The slots that movements name, and the accounts that postings and transfers name. */
  function MovedSlots(steps: seq<Step>): set<Slot> {
    if steps == [] then {} else MovedSlots(steps[..|steps| - 1]) + SlotsOf(steps[|steps| - 1])
  }

  function SlotsOf(step: Step): set<Slot> {
    if step.Move? then {step.movement.source, step.movement.destination} else {}
  }

  function PaidAccounts(steps: seq<Step>): set<string> {
    if steps == [] then {} else PaidAccounts(steps[..|steps| - 1]) + AccountsOf(steps[|steps| - 1])
  }

  function AccountsOf(step: Step): set<string> {
    if step.Post? then {step.transaction.accountId}
    else if step.Send? then {step.transfer.sourceAccountId, step.transfer.destinationAccountId}
    else {}
  }

  lemma {:induction false} KeysThen(ledger: Capture, before: seq<Step>, step: Step, balances: map<string, Money>, assignments: map<Slot, Money>)
    ensures MovedSlots(before + [step]) == MovedSlots(before) + SlotsOf(step)
    ensures PaidAccounts(before + [step]) == PaidAccounts(before) + AccountsOf(step)
    ensures step.Move? && MoveOverlay(ledger, assignments, step.movement).Ok? ==>
              MoveOverlay(ledger, assignments, step.movement).value.Keys == assignments.Keys + SlotsOf(step)
    ensures step.Post? && PostOverlay(ledger, balances, step.transaction).Ok? ==>
              PostOverlay(ledger, balances, step.transaction).value.Keys == balances.Keys + AccountsOf(step)
    ensures step.Send? && SendOverlay(ledger, balances, step.transfer).Ok? ==>
              SendOverlay(ledger, balances, step.transfer).value.Keys == balances.Keys + AccountsOf(step)
  {
    assert (before + [step])[..|before|] == before;
  }

  ghost predicate Progressed(p: Progress, r: Request, steps: seq<Step>) {
    TracksBoth(r.ledger, p.balances, p.assignments, steps) && TracksPurse(p.purse, r.budget, steps)
    && TracksOutflows(p.outflows, steps) && PositiveSends(steps)
    && p.manualTotal == SpentInAll(steps) && p.seen == SeenAfter(r.ledger, steps)
    && p.assignments.Keys == MovedSlots(steps) && p.balances.Keys == PaidAccounts(steps)
  }

  lemma {:induction false} CountersThen(ledger: Capture, before: seq<Step>, step: Step)
    ensures SpentInAll(before + [step]) == SpentInAll(before) + if Spends(step) then -(step.transaction.amount.units as int) else 0
    ensures SeenAfter(ledger, before + [step]) == SeenStep(SeenAfter(ledger, before), step)
    ensures PositiveSends(before) && (step.Send? ==> step.transfer.amount.units > 0) ==> PositiveSends(before + [step])
  {
    assert (before + [step])[..|before|] == before;
  }

  lemma {:induction false} OutflowsUntouched(o: Outflows, before: seq<Step>, step: Step)
    requires TracksOutflows(o, before) && !Spends(step) && !step.Send?
    ensures TracksOutflows(o, before + [step])
  {
    forall a
      ensures Running(o.sent, a) == Sent(before + [step], a) && Running(o.spent, a) == Spent(before + [step], a)
    {
      TotalsThen(before, step, a);
    }
  }

  lemma {:induction false} PurseUntouched(p: Purse, b: Budget, before: seq<Step>, step: Step)
    requires TracksPurse(p, b, before) && !step.Move? && !Spends(step)
    ensures TracksPurse(p, b, before + [step])
  {
    FlowThen(before, step);
    hide Flow, CategorySpent;
  }

  lemma {:induction false} BothThen(ledger: Capture, balances: map<string, Money>, assignments: map<Slot, Money>, before: seq<Step>, step: Step)
    requires TracksBoth(ledger, balances, assignments, before)
    ensures !step.Move? ==> TracksAssignments(assignments, ledger, before + [step])
    ensures !step.Post? && !step.Send? ==> TracksBalances(balances, ledger, before + [step])
  {
    hide TracksAssignments, TracksBalances;
    if !step.Move? {
      AssignmentsUntouched(ledger, assignments, before, [step]);
    }
    if !step.Post? && !step.Send? {
      BalancesUntouched(ledger, balances, before, [step]);
    }
  }

  /** A step that moves no money and spends nothing leaves every running value alone. */
  lemma {:induction false} Passed(p: Progress, r: Request, before: seq<Step>, step: Step)
    requires Progressed(p, r, before) && (step.Amend? || step.Open?)
    ensures Progressed(p.(seen := SeenStep(p.seen, step)), r, before + [step])
  {
    hide TracksAssignments, TracksBalances, TracksPurse, TracksOutflows, PositiveSends, SpentInAll, SeenAfter, SeenStep;
    CountersThen(r.ledger, before, step);
    OutflowsUntouched(p.outflows, before, step);
    PurseUntouched(p.purse, r.budget, before, step);
    BothThen(r.ledger, p.balances, p.assignments, before, step);
    KeysThen(r.ledger, before, step, p.balances, p.assignments);
  }
}
