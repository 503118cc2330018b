/** Consequential actions, the ledger they act on, and what each one moves. */
module Action {
  import opened CheckedMoney
  import opened Rows
  import opened Text

  /** One budget category in one month. */
  datatype Slot = Slot(categoryId: string, month: string)

  datatype Movement = Movement(source: Slot, destination: Slot, amount: Money)

  datatype Split = Split(categoryId: string, amount: Money)

  datatype Transaction = Transaction(
    parentId: string, correlationId: string, accountId: string, amount: Money, date: string,
    categoryId: Option<string>, payeeName: Option<string>, notes: Option<string>, splits: seq<Split>)

  datatype TransferIntent = TransferIntent(
    transferId: string, correlationId: string, sourceAccountId: string, destinationAccountId: string,
    amount: Money, date: string)

  datatype LedgerRow = LedgerRow(
    parentId: string, accountId: string, amount: Money, date: string, categoryId: Option<string>,
    payeeName: Option<string>, notes: Option<string>, splits: seq<Split>, transferAccountId: Option<string>)

  datatype WalletMapping = WalletMapping(walletId: string, accountId: string)

  datatype TransferMapping = TransferMapping(
    transferId: string, correlationId: string, marker: string, sourceRowId: string, destinationRowId: string,
    sourceAccountId: string, destinationAccountId: string, amount: Money, date: string)

  datatype AccountInfo = AccountInfo(name: string, onBudget: bool, closed: bool, currency: string)
  /** What is known of a fact and from where. The capture time of the ledger's own evidence is no part of it. */
  datatype FactEvidence = FactEvidence(
    state: string, source: string, observedAt: Option<string>, expiresAt: Option<string>, reasons: seq<string>)

  datatype AccountFactInfo = AccountFactInfo(onBudget: bool, closed: bool, currency: string, evidence: FactEvidence)
  datatype CategoryKind = Ordinary | CreditPayment
  datatype PeriodKind = Current | Future
  datatype CategoryFactInfo = CategoryFactInfo(kind: CategoryKind, period: PeriodKind)
  datatype NoInfo = NoInfo

  /** The evidence an atom rests on, and which of its resolutions is meant when there are several. */
  datatype Backing = Backing(evidenceIds: seq<string>, subject: Option<string>)

  /** The action atoms of an ordered, non-nested composite. */
  datatype Atom =
    | Reallocation(moves: seq<Movement>)
    | ManualTransaction(transaction: Transaction)
    | EvidenceProjection(transaction: Transaction, backing: Backing)
    | EvidenceCredit(transaction: Transaction, backing: Backing)
    | EvidenceAmendment(expected: LedgerRow, transaction: Transaction, backing: Backing)
    | WalletMaterialization(walletId: string, accountName: string, currency: string)
    | Transfer(transfer: TransferIntent)

  /** The synchronized ledger together with the liquidity facts read beside it. */
  datatype Capture = Capture(
    accounts: seq<NamedMoney<string, AccountInfo>>,
    assignments: seq<NamedMoney<Slot, NoInfo>>,
    wallets: seq<WalletMapping>,
    transactions: seq<LedgerRow>,
    transfers: seq<TransferMapping>,
    accountFacts: seq<NamedMoney<string, AccountFactInfo>>,
    categoryFacts: seq<NamedMoney<Slot, CategoryFactInfo>>)

  /** One indivisible ledger effect; a reallocation is one step per movement. */
  datatype Step =
    | Move(movement: Movement)
    | Post(transaction: Transaction)
    | Amend(expected: LedgerRow, transaction: Transaction)
    | Open(walletId: string, accountName: string, currency: string)
    | Send(transfer: TransferIntent)

  function MoveSteps(moves: seq<Movement>): (r: seq<Step>)
    ensures |r| == |moves| && forall i :: 0 <= i < |moves| ==> r[i] == Move(moves[i])
  {
    seq(|moves|, i requires 0 <= i < |moves| => Move(moves[i]))
  }

  function StepsOf(atom: Atom): seq<Step> {
    match atom
    case Reallocation(moves) => MoveSteps(moves)
    case ManualTransaction(tx) => [Post(tx)]
    case EvidenceProjection(tx, _) => [Post(tx)]
    case EvidenceCredit(tx, _) => [Post(tx)]
    case EvidenceAmendment(expected, tx, _) => [Amend(expected, tx)]
    case WalletMaterialization(walletId, name, currency) => [Open(walletId, name, currency)]
    case Transfer(transfer) => [Send(transfer)]
  }

  function Steps(atoms: seq<Atom>): seq<Step> {
    if atoms == [] then [] else Steps(atoms[..|atoms| - 1]) + StepsOf(atoms[|atoms| - 1])
  }

  // What a step moves.

  /** A movement between two slots. When both ends are one slot the later write wins and the amount is gained. */
  function MoveDeltas(m: Movement): seq<(Slot, i64)>
    requires CanNegate(m.amount.units)
  {
    if m.source == m.destination then [(m.destination, m.amount.units)]
    else [(m.source, Neg(m.amount.units)), (m.destination, m.amount.units)]
  }

  function SendDeltas(t: TransferIntent): seq<(string, i64)>
    requires CanNegate(t.amount.units)
  {
    if t.sourceAccountId == t.destinationAccountId then [(t.destinationAccountId, t.amount.units)]
    else [(t.sourceAccountId, Neg(t.amount.units)), (t.destinationAccountId, t.amount.units)]
  }

  function SplitDeltas(splits: seq<Split>, month: string): (r: seq<(Slot, i64)>)
    ensures |r| == |splits|
    ensures forall i :: 0 <= i < |r| ==> r[i] == (Slot(splits[i].categoryId, month), splits[i].amount.units)
  {
    seq(|splits|, i requires 0 <= i < |splits| => (Slot(splits[i].categoryId, month), splits[i].amount.units))
  }

  /** The category effects of a row: its splits, or its own category, or none. */
  function CategoryDeltas(amount: i64, categoryId: Option<string>, splits: seq<Split>, month: string): seq<(Slot, i64)> {
    if splits != [] then SplitDeltas(splits, month)
    else if categoryId.Some? then [(Slot(categoryId.value, month), amount)]
    else []
  }

  function TransactionDeltas(tx: Transaction, month: string): seq<(Slot, i64)> {
    CategoryDeltas(tx.amount.units, tx.categoryId, tx.splits, month)
  }

  function RowDeltas(row: LedgerRow, month: string): seq<(Slot, i64)> {
    CategoryDeltas(row.amount.units, row.categoryId, row.splits, month)
  }

  /** The currency of the first account with this identity. */
  function CurrencyOf(ledger: Capture, id: string): string
    requires id in KeysOf(ledger.accounts)
  {
    ledger.accounts[IndexOf(KeysOf(ledger.accounts), id)].rest.currency
  }

  // The row a posted transaction leaves behind.

  function NormalizedPayee(name: Option<string>): Option<string> {
    if name.Some? && Trim(name.value) != "" then Some(Trim(name.value)) else None
  }

  function RowOf(tx: Transaction): LedgerRow {
    LedgerRow(tx.parentId, tx.accountId, tx.amount, tx.date, tx.categoryId, NormalizedPayee(tx.payeeName),
              tx.notes, tx.splits, None)
  }

  function Marker(transferId: string, correlationId: string): string {
    "balanceframe:transfer:" + transferId + ":" + correlationId
  }

  function TransferRow(id: string, t: TransferIntent, sending: bool, payee: Option<string>): LedgerRow
    requires CanNegate(t.amount.units)
  {
    LedgerRow(
      id,
      if sending then t.sourceAccountId else t.destinationAccountId,
      if sending then Money(Neg(t.amount.units), t.amount.currency) else t.amount,
      t.date, None, payee, Some(Marker(t.transferId, t.correlationId)), [],
      Some(if sending then t.destinationAccountId else t.sourceAccountId))
  }

  function RowId(row: LedgerRow): string {
    row.parentId
  }

  function RowIds(rows: seq<LedgerRow>): seq<string> {
    IdsBy(RowId, rows)
  }

  function WalletId(row: WalletMapping): string {
    row.walletId
  }

  function WalletIds(rows: seq<WalletMapping>): seq<string> {
    IdsBy(WalletId, rows)
  }

  function TransferId(row: TransferMapping): string {
    row.transferId
  }

  function TransferIds(rows: seq<TransferMapping>): seq<string> {
    IdsBy(TransferId, rows)
  }
}
