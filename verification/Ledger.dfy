/** When a synchronized ledger is fit to plan on: known accounts, unique identities, mirrored transfer rows. */
module Ledger {
  import opened CheckedMoney
  import opened Rows
  import opened Text
  import opened Action
  import opened Sorting

  predicate AccountValid(a: NamedMoney<string, AccountInfo>) {
    !Blank(a.key) && !Blank(a.rest.name) && ValidCurrency(a.rest.currency) && a.money.currency == a.rest.currency
  }

  predicate AssignmentValid(categories: seq<string>, a: NamedMoney<Slot, NoInfo>) {
    a.key.categoryId in categories && ValidMonth(a.key.month) && ValidCurrency(a.money.currency)
  }

  predicate WalletValid(c: Capture, w: WalletMapping) {
    !Blank(w.walletId) && w.accountId in KeysOf(c.accounts)
  }

  predicate SplitsKnown(categories: seq<string>, splits: seq<Split>, currency: string) {
    forall i :: 0 <= i < |splits| ==> splits[i].categoryId in categories && splits[i].amount.currency == currency
  }

  predicate RowSound(c: Capture, categories: seq<string>, row: LedgerRow)
    requires row.accountId in KeysOf(c.accounts)
  {
    !Blank(row.parentId) && ValidDate(row.date) && row.amount.currency == CurrencyOf(c, row.accountId)
    && SplitsKnown(categories, row.splits, CurrencyOf(c, row.accountId))
  }

  predicate RowValid(c: Capture, categories: seq<string>, row: LedgerRow) {
    row.accountId in KeysOf(c.accounts) && RowSound(c, categories, row)
    && (row.transferAccountId.Some? ==> row.transferAccountId.value in KeysOf(c.accounts))
  }

  predicate HalfSound(row: LedgerRow, accountId: string, otherId: string, units: int, m: TransferMapping) {
    row.accountId == accountId && row.transferAccountId == Some(otherId) && row.notes == Some(m.marker)
    && row.amount.units == units && row.amount.currency == m.amount.currency && row.date == m.date
    && row.categoryId.None? && row.splits == []
  }

  /** A mapping between two distinct rows that mirror each other and carry its marker. */
  predicate MappingSound(ledger: Capture, m: TransferMapping) {
    var ids := RowIds(ledger.transactions);
    m.sourceRowId in ids && m.destinationRowId in ids && m.sourceRowId != m.destinationRowId
    && m.amount.units > 0 && m.marker == Marker(m.transferId, m.correlationId) && ValidDate(m.date)
    && m.sourceAccountId != m.destinationAccountId
    && HalfSound(ledger.transactions[IndexOf(ids, m.sourceRowId)], m.sourceAccountId, m.destinationAccountId, -(m.amount.units as int), m)
    && HalfSound(ledger.transactions[IndexOf(ids, m.destinationRowId)], m.destinationAccountId, m.sourceAccountId, m.amount.units, m)
  }

  predicate MappingValid(c: Capture, m: TransferMapping) {
    !Blank(m.transferId) && !Blank(m.correlationId) && MappingSound(c, m)
  }

  function WalletAccount(w: WalletMapping): string {
    w.accountId
  }

  function Correlation(m: TransferMapping): string {
    m.correlationId
  }

  /** No generated row serves two ends of transfers. */
  predicate EndsDistinct(transfers: seq<TransferMapping>) {
    (forall i :: 0 <= i < |transfers| ==> transfers[i].sourceRowId != transfers[i].destinationRowId)
    && forall i, j :: 0 <= i < |transfers| && 0 <= j < |transfers| && i != j ==>
         transfers[i].sourceRowId != transfers[j].sourceRowId && transfers[i].destinationRowId != transfers[j].destinationRowId
         && transfers[i].sourceRowId != transfers[j].destinationRowId
  }

  predicate AccountsValid(c: Capture) {
    (forall a :: a in c.accounts ==> AccountValid(a)) && DistinctBy(KeyOf, c.accounts)
  }

  predicate CategoriesValid(categories: seq<string>) {
    (forall x :: x in categories ==> !Blank(x)) && DistinctBy(Whole, categories)
  }

  predicate AssignmentsValid(categories: seq<string>, c: Capture) {
    (forall a :: a in c.assignments ==> AssignmentValid(categories, a)) && DistinctBy(KeyOf, c.assignments)
  }

  function Whole<T>(x: T): T {
    x
  }

  predicate WalletsValid(c: Capture) {
    (forall w :: w in c.wallets ==> WalletValid(c, w)) && DistinctBy(WalletId, c.wallets) && DistinctBy(WalletAccount, c.wallets)
  }

  predicate RowsValid(categories: seq<string>, c: Capture) {
    (forall row :: row in c.transactions ==> RowValid(c, categories, row)) && DistinctBy(RowId, c.transactions)
  }

  predicate TransfersValid(c: Capture) {
    (forall m :: m in c.transfers ==> MappingValid(c, m)) && DistinctBy(TransferId, c.transfers)
    && DistinctBy(Correlation, c.transfers) && EndsDistinct(c.transfers)
  }

  predicate LedgerValid(categories: seq<string>, c: Capture) {
    AccountsValid(c) && CategoriesValid(categories) && AssignmentsValid(categories, c) && WalletsValid(c) && RowsValid(categories, c) && TransfersValid(c)
  }

  /** One pass over a collection: every row acceptable, no identity seen twice. */
  method CheckRows<T(==), K(==)>(id: T -> K, acceptable: T -> bool, rows: seq<T>) returns (ok: bool)
    ensures ok <==> (forall row :: row in rows ==> acceptable(row)) && DistinctBy(id, rows)
  {
    var seen: set<K> := {};
    for i := 0 to |rows|
      invariant forall j :: 0 <= j < i ==> acceptable(rows[j])
      invariant seen == set j | 0 <= j < i :: id(rows[j])
      invariant forall j, k :: 0 <= j < k < i ==> id(rows[j]) != id(rows[k])
    {
      if !acceptable(rows[i]) || id(rows[i]) in seen {
        return false;
      }
      seen := seen + {id(rows[i])};
    }
    ok := true;
  }

  // Rows and transfers are refused with what is wrong with the first bad one.

  predicate RowNew(rows: seq<LedgerRow>, i: nat)
    requires i < |rows|
  {
    forall j :: 0 <= j < i ==> rows[j].parentId != rows[i].parentId
  }

  predicate RowGood(categories: seq<string>, c: Capture, i: nat)
    requires i < |c.transactions|
  {
    RowValid(c, categories, c.transactions[i]) && RowNew(c.transactions, i)
  }

  function RowCode(categories: seq<string>, c: Capture, i: nat): string
    requires i < |c.transactions|
  {
    var row := c.transactions[i];
    if row.accountId !in KeysOf(c.accounts) then "transaction_account_missing"
    else if !RowSound(c, categories, row) || !RowNew(c.transactions, i) then "invalid_or_duplicate_ledger_transaction"
    else "transaction_transfer_account_missing"
  }

  /** The first bad row, and what is wrong with it. */
  ghost predicate RowRefused(categories: seq<string>, c: Capture, code: string) {
    exists i :: 0 <= i < |c.transactions| && (forall j :: 0 <= j < i ==> RowGood(categories, c, j)) && !RowGood(categories, c, i)
                && code == RowCode(categories, c, i)
  }

  lemma {:induction false} AllRowsGood(categories: seq<string>, c: Capture)
    ensures (forall j :: 0 <= j < |c.transactions| ==> RowGood(categories, c, j)) <==> RowsValid(categories, c)
  {
    hide RowValid;
    var rows := c.transactions;
    if forall j :: 0 <= j < |rows| ==> RowGood(categories, c, j) {
      forall i, j | 0 <= i < j < |rows|
        ensures rows[i].parentId != rows[j].parentId
      {
        assert RowGood(categories, c, j);
      }
      forall row | row in rows
        ensures RowValid(c, categories, row)
      {
        var j :| 0 <= j < |rows| && rows[j] == row;
        assert RowGood(categories, c, j);
      }
    }
    if RowsValid(categories, c) {
      forall j | 0 <= j < |rows|
        ensures RowGood(categories, c, j)
      {
        assert rows[j] in rows;
        assert forall i :: 0 <= i < j ==> RowId(rows[i]) != RowId(rows[j]);
      }
    }
  }

  method CheckTransactions(categories: seq<string>, c: Capture) returns (r: Result<()>)
    ensures r.Ok? <==> RowsValid(categories, c)
    ensures r.Err? ==> RowRefused(categories, c, r.error)
  {
    AllRowsGood(categories, c);
    hide RowSound, RowValid, RowCode, RowsValid;
    var seen: set<string> := {};
    for i := 0 to |c.transactions|
      invariant forall j :: 0 <= j < i ==> RowGood(categories, c, j)
      invariant seen == set j | 0 <= j < i :: c.transactions[j].parentId
    {
      var row := c.transactions[i];
      if !RowValid(c, categories, row) || row.parentId in seen {
        assert !RowGood(categories, c, i);
        return Err(RowCode(categories, c, i));
      }
      seen := seen + {row.parentId};
    }
    r := Ok(());
  }

  predicate MappingNew(transfers: seq<TransferMapping>, i: nat)
    requires i < |transfers|
  {
    var m := transfers[i];
    m.sourceRowId != m.destinationRowId
    && forall j :: 0 <= j < i ==>
         transfers[j].transferId != m.transferId && transfers[j].correlationId != m.correlationId
         && transfers[j].sourceRowId != m.sourceRowId && transfers[j].sourceRowId != m.destinationRowId
         && transfers[j].destinationRowId != m.sourceRowId && transfers[j].destinationRowId != m.destinationRowId
  }

  predicate TransferGood(c: Capture, i: nat)
    requires i < |c.transfers|
  {
    MappingValid(c, c.transfers[i]) && MappingNew(c.transfers, i)
  }

  function TransferCode(c: Capture, i: nat): string
    requires i < |c.transfers|
  {
    var m := c.transfers[i];
    if Blank(m.transferId) || Blank(m.correlationId) || !MappingNew(c.transfers, i) then "invalid_or_duplicate_transfer_mapping"
    else if m.sourceRowId !in RowIds(c.transactions) then "transfer_source_row_missing"
    else if m.destinationRowId !in RowIds(c.transactions) then "transfer_destination_row_missing"
    else "transfer_mapping_mismatch"
  }

  /** The first bad transfer, and what is wrong with it. */
  ghost predicate TransferRefused(c: Capture, code: string) {
    exists i :: 0 <= i < |c.transfers| && (forall j :: 0 <= j < i ==> TransferGood(c, j)) && !TransferGood(c, i)
                && code == TransferCode(c, i)
  }

  lemma {:induction false} AllNew(transfers: seq<TransferMapping>)
    ensures (forall j :: 0 <= j < |transfers| ==> MappingNew(transfers, j))
            <==> DistinctBy(TransferId, transfers) && DistinctBy(Correlation, transfers) && EndsDistinct(transfers)
  {
    if forall j :: 0 <= j < |transfers| ==> MappingNew(transfers, j) {
      forall i, j | 0 <= i < j < |transfers|
        ensures transfers[i].transferId != transfers[j].transferId && transfers[i].correlationId != transfers[j].correlationId
        ensures transfers[i].sourceRowId != transfers[j].sourceRowId && transfers[i].destinationRowId != transfers[j].destinationRowId
        ensures transfers[i].sourceRowId != transfers[j].destinationRowId && transfers[j].sourceRowId != transfers[i].destinationRowId
      {
        assert MappingNew(transfers, j);
      }
      assert forall j :: 0 <= j < |transfers| ==> MappingNew(transfers, j) && transfers[j].sourceRowId != transfers[j].destinationRowId;
    }
  }

  lemma {:induction false} AllTransfersGood(c: Capture)
    ensures (forall j :: 0 <= j < |c.transfers| ==> TransferGood(c, j)) <==> TransfersValid(c)
  {
    AllNew(c.transfers);
    hide MappingValid, MappingNew, DistinctBy, EndsDistinct;
    var rows := c.transfers;
    if forall j :: 0 <= j < |rows| ==> TransferGood(c, j) {
      forall j | 0 <= j < |rows|
        ensures MappingNew(rows, j)
      {
        assert TransferGood(c, j);
      }
      forall m | m in rows
        ensures MappingValid(c, m)
      {
        var j :| 0 <= j < |rows| && rows[j] == m;
        assert TransferGood(c, j);
      }
    }
    if TransfersValid(c) {
      forall j | 0 <= j < |rows|
        ensures TransferGood(c, j)
      {
        assert rows[j] in rows && MappingNew(rows, j);
      }
    }
  }

  /** The identities and ends seen in earlier transfers decide whether the next one is new. */
  method CheckTransfers(c: Capture) returns (r: Result<()>)
    ensures r.Ok? <==> TransfersValid(c)
    ensures r.Err? ==> TransferRefused(c, r.error)
  {
    AllTransfersGood(c);
    hide MappingValid, TransferCode, TransfersValid;
    var ids: set<string>, correlations: set<string>, ends: set<string> := {}, {}, {};
    for i := 0 to |c.transfers|
      invariant forall j :: 0 <= j < i ==> TransferGood(c, j)
      invariant ids == set j | 0 <= j < i :: c.transfers[j].transferId
      invariant correlations == set j | 0 <= j < i :: c.transfers[j].correlationId
      invariant ends == (set j | 0 <= j < i :: c.transfers[j].sourceRowId) + set j | 0 <= j < i :: c.transfers[j].destinationRowId
    {
      var m := c.transfers[i];
      assert MappingNew(c.transfers, i)
        <==> m.transferId !in ids && m.correlationId !in correlations && m.sourceRowId !in ends && m.destinationRowId !in ends + {m.sourceRowId};
      if m.transferId in ids || m.correlationId in correlations || m.sourceRowId in ends || m.destinationRowId in ends + {m.sourceRowId}
         || !MappingValid(c, m) {
        assert !TransferGood(c, i);
        return Err(TransferCode(c, i));
      }
      ids, correlations, ends := ids + {m.transferId}, correlations + {m.correlationId}, ends + {m.sourceRowId, m.destinationRowId};
    }
    r := Ok(());
  }

  /** The first failing check names the code. */
  ghost predicate RefusedWith(categories: seq<string>, c: Capture, code: string) {
    if !AccountsValid(c) then code == "invalid_or_duplicate_ledger_account"
    else if !CategoriesValid(categories) then code == "invalid_or_duplicate_ledger_category"
    else if !AssignmentsValid(categories, c) then code == "invalid_or_duplicate_assignment"
    else if !WalletsValid(c) then code == "invalid_or_duplicate_wallet_mapping"
    else if !RowsValid(categories, c) then RowRefused(categories, c, code)
    else TransferRefused(c, code)
  }

  /** The ledger is accepted exactly when it is valid, and refused with the code of its first fault. */
  method ValidateLedger(categories: seq<string>, c: Capture) returns (r: Result<()>)
    ensures r.Ok? <==> LedgerValid(categories, c)
    ensures r.Err? ==> RefusedWith(categories, c, r.error)
  {
    hide AccountValid, AssignmentValid, WalletValid, RowsValid, TransfersValid, RowRefused, TransferRefused, DistinctBy, Blank;
    var accounts := CheckRows(KeyOf, AccountValid, c.accounts);
    if !accounts {
      return Err("invalid_or_duplicate_ledger_account");
    }
    var known := CheckRows(Whole, x => !Blank(x), categories);
    if !known {
      return Err("invalid_or_duplicate_ledger_category");
    }
    var assignments := CheckRows(KeyOf, a => AssignmentValid(categories, a), c.assignments);
    if !assignments {
      return Err("invalid_or_duplicate_assignment");
    }
    var wallets := CheckRows(WalletId, w => WalletValid(c, w), c.wallets);
    var mapped := CheckRows(WalletAccount, w => true, c.wallets);
    if !wallets || !mapped {
      return Err("invalid_or_duplicate_wallet_mapping");
    }
    var rows :- CheckTransactions(categories, c);
    r := CheckTransfers(c);
  }
}
