/** Performing a planned action keeps a valid ledger valid. */
module LedgerLaws {
  import opened CheckedMoney
  import opened Rows
  import opened Text
  import opened Action
  import opened Sorting
  import opened Undo
  import opened PlanEffects
  import opened Ledger

  // Collections that grow by one row, or change one row.

  lemma {:induction false} InsertedMembers<T>(s: seq<T>, t: seq<T>, row: T, x: T)
    requires Inserted(s, t, row)
    ensures x in t <==> x == row || x in s
  {
    var i :| 0 <= i <= |s| && t == InsertAt(s, i, row);
    if x in s {
      var j :| 0 <= j < |s| && s[j] == x;
      assert t[if j < i then j else j + 1] == x;
    }
    assert t[i] == row;
  }

  lemma {:induction false} DistinctInserted<T, K>(id: T -> K, s: seq<T>, t: seq<T>, row: T)
    requires DistinctBy(id, s) && Inserted(s, t, row) && id(row) !in IdsBy(id, s)
    ensures DistinctBy(id, t)
  {
    var p :| 0 <= p <= |s| && t == InsertAt(s, p, row);
    forall i, j | 0 <= i < j < |t|
      ensures id(t[i]) != id(t[j])
    {
      if i == p {
        assert IdsBy(id, s)[j - 1] == id(t[j]);
      } else if j == p {
        assert IdsBy(id, s)[i] == id(t[i]);
      } else {
        KeysDiffer(id, s, if i < p then i else i - 1, if j < p then j else j - 1);
      }
    }
  }

  lemma {:induction false} IdsInserted<T, K>(id: T -> K, s: seq<T>, t: seq<T>, row: T, k: K)
    requires Inserted(s, t, row)
    ensures k in IdsBy(id, t) <==> k == id(row) || k in IdsBy(id, s)
  {
    var p :| 0 <= p <= |s| && t == InsertAt(s, p, row);
    assert IdsBy(id, t)[p] == id(row);
    if k in IdsBy(id, s) {
      var j :| 0 <= j < |s| && IdsBy(id, s)[j] == k;
      assert IdsBy(id, t)[if j < p then j else j + 1] == k;
    }
    if k in IdsBy(id, t) {
      var j :| 0 <= j < |t| && IdsBy(id, t)[j] == k;
      assert j != p ==> IdsBy(id, s)[if j < p then j else j - 1] == k;
    }
  }

  /** With distinct identities every row is the only one of its own. */
  lemma {:induction false} SoleMember<T, K>(id: T -> K, s: seq<T>, row: T)
    requires DistinctBy(id, s) && row in s
    ensures Sole(id, s, row)
  {
    var i :| 0 <= i < |s| && s[i] == row;
    forall j | 0 <= j < |s| && IdsBy(id, s)[j] == id(row)
      ensures j == i
    {
      KeysDiffer(id, s, i, j);
    }
    assert OnlyAt(IdsBy(id, s), id(row), i);
  }

  // Accounts and assignments.

  /** Every account is still there in its own currency. */
  ghost predicate AccountsKept(s: Capture, t: Capture) {
    forall id :: id in KeysOf(s.accounts) ==> id in KeysOf(t.accounts) && CurrencyOf(t, id) == CurrencyOf(s, id)
  }

  lemma {:induction false} ShiftedAccounts(s: Capture, t: Capture, deltas: seq<(string, i64)>)
    requires AccountsValid(s) && Shifted(s.accounts, t.accounts, deltas)
    ensures AccountsValid(t) && AccountsKept(s, t)
  {
    assert KeysOf(s.accounts) == KeysOf(t.accounts);
    forall a | a in t.accounts
      ensures AccountValid(a)
    {
      var i :| 0 <= i < |t.accounts| && t.accounts[i] == a;
      assert AccountValid(s.accounts[i]);
    }
    assert forall i :: 0 <= i < |t.accounts| ==> KeyOf(t.accounts[i]) == KeyOf(s.accounts[i]);
  }

  lemma {:induction false} InsertedAccount(s: Capture, t: Capture, row: NamedMoney<string, AccountInfo>)
    requires AccountsValid(s) && Inserted(s.accounts, t.accounts, row) && row.key !in KeysOf(s.accounts) && AccountValid(row)
    ensures AccountsValid(t) && AccountsKept(s, t)
  {
    hide AccountValid;
    forall a | a in t.accounts
      ensures AccountValid(a)
    {
      InsertedMembers(s.accounts, t.accounts, row, a);
    }
    DistinctInserted(KeyOf, s.accounts, t.accounts, row);
    forall id | id in KeysOf(s.accounts)
      ensures id in KeysOf(t.accounts) && CurrencyOf(t, id) == CurrencyOf(s, id)
    {
      var a := s.accounts[IndexOf(KeysOf(s.accounts), id)];
      SoleMember(KeyOf, s.accounts, a);
      hide Inserted, Sole;
      SoleAmongInserted(KeyOf, s.accounts, t.accounts, row, a);
      SoleAt(t.accounts, a);
    }
  }

  lemma {:induction false} SoleAt<K, R>(rows: seq<NamedMoney<K, R>>, row: NamedMoney<K, R>)
    requires Sole(KeyOf, rows, row)
    ensures row.key in KeysOf(rows) && rows[IndexOf(KeysOf(rows), row.key)] == row
  {
  }

  lemma {:induction false} ShiftedAssignments(categories: seq<string>, s: Capture, t: Capture, deltas: seq<(Slot, i64)>)
    requires AssignmentsValid(categories, s) && Shifted(s.assignments, t.assignments, deltas)
    ensures AssignmentsValid(categories, t)
  {
    hide Blank, ValidMonth, ValidCurrency;
    forall a | a in t.assignments
      ensures AssignmentValid(categories, a)
    {
      var i :| 0 <= i < |t.assignments| && t.assignments[i] == a;
      assert AssignmentValid(categories, s.assignments[i]);
    }
    assert forall i :: 0 <= i < |t.assignments| ==> KeyOf(t.assignments[i]) == KeyOf(s.assignments[i]);
  }

  // What a step must bring with it.

  ghost predicate Proper(categories: seq<string>, step: Step) {
    match step
    case Move(_) => true
    case Post(tx) => !Blank(tx.parentId) && SplitsKnown(categories, tx.splits, tx.amount.currency)
    case Amend(expected, tx) =>
      tx.accountId == expected.accountId && tx.amount == expected.amount && tx.parentId == expected.parentId
      && expected.transferAccountId.None? && SplitsKnown(categories, tx.splits, tx.amount.currency)
    case Open(walletId, name, _) => !Blank(walletId) && !Blank(name)
    case Send(t) => !Blank(t.transferId) && !Blank(t.correlationId)
  }

  /** The ledger's own identities for accounts and rows are not blank. */
  ghost predicate Named(c: Capture) {
    (forall id :: id in KeysOf(c.accounts) ==> !Blank(id)) && forall id :: id in RowIds(c.transactions) ==> !Blank(id)
  }

  lemma {:induction false} AccountsAfter(categories: seq<string>, s: Capture, step: Step, t: Capture)
    requires AccountsValid(s) && WellFormed(step) && Effect(s, step, t) && Proper(categories, step) && Named(t)
    ensures AccountsValid(t) && AccountsKept(s, t)
  {
    hide AccountsValid, Inserted, Shifted, HoldsAll, Holds, SplitsKnown, Blank, ValidCurrency;
    match step {
      case Move(_) => SameAccounts(s, t);
      case Amend(_, _) => SameAccounts(s, t);
      case Post(tx) => ShiftedAccounts(s, t, [(tx.accountId, tx.amount.units)]);
      case Send(tr) => ShiftedAccounts(s, t, SendDeltas(tr));
      case Open(w, n, c) =>
        var a: string, e: FactEvidence :|
          a !in KeysOf(s.accounts) && Inserted(s.wallets, t.wallets, WalletMapping(w, a))
          && Inserted(s.accounts, t.accounts, NamedMoney(a, Money(0, c), AccountInfo(n, true, false, c)))
          && Inserted(s.accountFacts, t.accountFacts, NamedMoney(a, Money(0, c), AccountFactInfo(true, false, c, e)));
        IdsInserted(KeyOf, s.accounts, t.accounts, NamedMoney(a, Money(0, c), AccountInfo(n, true, false, c)), a);
        InsertedAccount(s, t, NamedMoney(a, Money(0, c), AccountInfo(n, true, false, c)));
    }
  }

  lemma {:induction false} SameAccounts(s: Capture, t: Capture)
    requires AccountsValid(s) && t.accounts == s.accounts
    ensures AccountsValid(t) && AccountsKept(s, t)
  {
  }

  lemma {:induction false} AssignmentsAfter(categories: seq<string>, s: Capture, step: Step, t: Capture)
    requires AssignmentsValid(categories, s) && WellFormed(step) && Effect(s, step, t)
    ensures AssignmentsValid(categories, t)
  {
    hide AssignmentValid, Inserted, HoldsAll, Holds, Blank;
    if step.Move? {
      hide Shifted;
      ShiftedAssignments(categories, s, t, MoveDeltas(step.movement));
    } else {
      assert t.assignments == s.assignments;
    }
  }

  lemma {:induction false} WalletsAfter(categories: seq<string>, s: Capture, step: Step, t: Capture)
    requires WalletsValid(s) && WellFormed(step) && Effect(s, step, t) && AccountsKept(s, t) && Proper(categories, step)
    ensures WalletsValid(t)
  {
    hide CurrencyOf, Blank, Inserted, SplitsKnown;
    if step.Open? {
      var a: string, e: FactEvidence :|
        a !in KeysOf(s.accounts) && Inserted(s.wallets, t.wallets, WalletMapping(step.walletId, a))
        && Inserted(s.accounts, t.accounts, NamedMoney(a, Money(0, step.currency), AccountInfo(step.accountName, true, false, step.currency)))
        && Inserted(s.accountFacts, t.accountFacts, NamedMoney(a, Money(0, step.currency), AccountFactInfo(true, false, step.currency, e)));
      IdsInserted(KeyOf, s.accounts, t.accounts, NamedMoney(a, Money(0, step.currency), AccountInfo(step.accountName, true, false, step.currency)), a);
      NewWallet(s, t, WalletMapping(step.walletId, a));
    } else {
      assert t.wallets == s.wallets;
    }
  }

  lemma {:induction false} NewWallet(s: Capture, t: Capture, w: WalletMapping)
    requires WalletsValid(s) && AccountsKept(s, t) && Inserted(s.wallets, t.wallets, w) && WalletValid(t, w)
    requires w.walletId !in WalletIds(s.wallets) && w.accountId !in KeysOf(s.accounts)
    ensures WalletsValid(t)
  {
    hide CurrencyOf, Blank;
    DistinctInserted(WalletId, s.wallets, t.wallets, w);
    forall i | 0 <= i < |s.wallets|
      ensures IdsBy(WalletAccount, s.wallets)[i] in KeysOf(s.accounts)
    {
      assert WalletValid(s, s.wallets[i]);
    }
    DistinctInserted(WalletAccount, s.wallets, t.wallets, w);
    hide Inserted;
    forall x | x in t.wallets
      ensures WalletValid(t, x)
    {
      InsertedMembers(s.wallets, t.wallets, w, x);
    }
  }

  // Rows.

  lemma {:induction false} RowStillValid(categories: seq<string>, s: Capture, t: Capture, row: LedgerRow)
    requires RowValid(s, categories, row) && AccountsKept(s, t)
    ensures RowValid(t, categories, row)
  {
    hide CurrencyOf, Blank, ValidDate;
  }

  lemma {:induction false} InsertedRow(categories: seq<string>, s: Capture, t: Capture, row: LedgerRow)
    requires RowsValid(categories, s) && AccountsKept(s, t) && Inserted(s.transactions, t.transactions, row)
    requires row.parentId !in RowIds(s.transactions) && RowValid(t, categories, row)
    ensures RowsValid(categories, t)
  {
    DistinctInserted(RowId, s.transactions, t.transactions, row);
    hide Inserted, RowValid, AccountsKept;
    forall x | x in t.transactions
      ensures RowValid(t, categories, x)
    {
      InsertedMembers(s.transactions, t.transactions, row, x);
      if x in s.transactions {
        RowStillValid(categories, s, t, x);
      }
    }
  }

  lemma {:induction false} UpdatedRow(categories: seq<string>, s: Capture, t: Capture, i: int, row: LedgerRow)
    requires RowsValid(categories, s) && AccountsKept(s, t) && 0 <= i < |s.transactions| && t.transactions == s.transactions[i := row]
    requires row.parentId == s.transactions[i].parentId && RowValid(t, categories, row)
    ensures RowsValid(categories, t)
  {
    hide RowValid, AccountsKept;
    forall x | x in t.transactions
      ensures RowValid(t, categories, x)
    {
      if x != row {
        var j :| 0 <= j < |t.transactions| && t.transactions[j] == x;
        assert s.transactions[j] == x;
        RowStillValid(categories, s, t, x);
      }
    }
    assert forall j :: 0 <= j < |t.transactions| ==> RowId(t.transactions[j]) == RowId(s.transactions[j]);
  }

  /** An account that holds money of a currency is an account of that currency. */
  lemma {:induction false} HoldsCurrency(s: Capture, id: string, currency: string)
    requires AccountsValid(s) && Holds(s.accounts, id, currency)
    ensures id in KeysOf(s.accounts) && CurrencyOf(s, id) == currency
  {
    hide Blank, ValidCurrency, DistinctBy;
    var i :| 0 <= i < |s.accounts| && OnlyAt(KeysOf(s.accounts), id, i) && s.accounts[i].money.currency == currency;
    assert AccountValid(s.accounts[i]);
    assert KeysOf(s.accounts)[i] == id;
  }

  lemma {:induction false} PostedRows(categories: seq<string>, s: Capture, tx: Transaction, t: Capture)
    requires AccountsValid(s) && RowsValid(categories, s) && AccountsKept(s, t)
    requires WellFormed(Post(tx)) && PostEffect(s, tx, t) && Proper(categories, Post(tx))
    ensures RowsValid(categories, t)
  {
    HoldsCurrency(s, tx.accountId, tx.amount.currency);
    hide AccountsValid, RowsValid, Inserted, Shifted, Holds, HoldsAll, Blank, ValidDate, CanNegateAll, OneWay, NormalizedPayee;
    assert RowValid(t, categories, RowOf(tx));
    InsertedRow(categories, s, t, RowOf(tx));
  }

  lemma {:induction false} AmendedRows(categories: seq<string>, s: Capture, expected: LedgerRow, tx: Transaction, t: Capture)
    requires RowsValid(categories, s) && AccountsKept(s, t)
    requires WellFormed(Amend(expected, tx)) && AmendEffect(s, expected, tx, t) && Proper(categories, Amend(expected, tx))
    ensures RowsValid(categories, t)
  {
    hide Shifted, HoldsAll, Blank, ValidDate, CanNegateAll, OneWay, NormalizedPayee, CurrencyOf, DistinctBy;
    var i :| OnlyAt(RowIds(s.transactions), tx.parentId, i) && s.transactions[i] == expected && t.transactions == s.transactions[i := RowOf(tx)];
    assert RowValid(s, categories, s.transactions[i]);
    assert RowValid(t, categories, RowOf(tx));
    UpdatedRow(categories, s, t, i, RowOf(tx));
  }

  lemma {:induction false} SentRow(s: Capture, t: Capture, tr: TransferIntent, categories: seq<string>, id: string, sending: bool, payee: Option<string>)
    requires AccountsValid(s) && AccountsKept(s, t) && WellFormed(Send(tr)) && HoldsAll(s.accounts, SendDeltas(tr), tr.amount.currency)
    requires !Blank(id)
    ensures RowValid(t, categories, TransferRow(id, tr, sending, payee))
  {
    var deltas := SendDeltas(tr);
    assert deltas[0].0 == tr.sourceAccountId && deltas[1].0 == tr.destinationAccountId;
    hide SendDeltas, AccountsValid, Holds, Blank, ValidDate, CurrencyOf;
    HoldsCurrency(s, deltas[0].0, tr.amount.currency);
    HoldsCurrency(s, deltas[1].0, tr.amount.currency);
  }

  lemma {:induction false} SentRows(categories: seq<string>, s: Capture, tr: TransferIntent, t: Capture)
    requires AccountsValid(s) && RowsValid(categories, s) && AccountsKept(s, t) && Named(t)
    requires WellFormed(Send(tr)) && SendEffect(s, tr, t)
    ensures RowsValid(categories, t)
  {
    hide AccountsValid, RowsValid, AccountsKept, RowValid, Inserted, Shifted, HoldsAll, Blank, ValidDate, TransferRow;
    var mapping :| MappingEffect(s.transfers, mapping, tr, t.transfers) && PairEffect(s.transactions, mapping, tr, t.transactions);
    var p, q :| PairInserted(s.transactions, TransferRow(mapping.sourceRowId, tr, true, p),
                             TransferRow(mapping.destinationRowId, tr, false, q), t.transactions);
    var a, b := TransferRow(mapping.sourceRowId, tr, true, p), TransferRow(mapping.destinationRowId, tr, false, q);
    assert a.parentId == mapping.sourceRowId && b.parentId == mapping.destinationRowId by {
      EndIds(tr, mapping.sourceRowId, mapping.destinationRowId, p, q);
    }
    var rows: seq<LedgerRow> :| Inserted(s.transactions, rows, a) && Inserted(rows, t.transactions, b);
    IdsInserted(RowId, s.transactions, rows, a, a.parentId);
    IdsInserted(RowId, s.transactions, rows, a, b.parentId);
    IdsInserted(RowId, rows, t.transactions, b, a.parentId);
    IdsInserted(RowId, rows, t.transactions, b, b.parentId);
    SentRow(s, t, tr, categories, a.parentId, true, p);
    SentRow(s, t, tr, categories, b.parentId, false, q);
    var mid := t.(transactions := rows);
    SameAccountsKept(s, t, mid, categories, a);
    InsertedRow(categories, s, mid, a);
    SameAccountsKept(mid, t, t, categories, b);
    InsertedRow(categories, mid, t, b);
  }

  lemma {:induction false} EndIds(tr: TransferIntent, x: string, y: string, p: Option<string>, q: Option<string>)
    requires CanNegate(tr.amount.units)
    ensures TransferRow(x, tr, true, p).parentId == x && TransferRow(y, tr, false, q).parentId == y
  {
  }

  lemma {:induction false} SameAccountsKept(s: Capture, t: Capture, u: Capture, categories: seq<string>, row: LedgerRow)
    requires (AccountsKept(s, t) || s.accounts == t.accounts) && u.accounts == t.accounts
    ensures AccountsKept(s, u) && (RowValid(t, categories, row) ==> RowValid(u, categories, row))
  {
    hide Blank, ValidDate;
  }

  lemma {:induction false} RowsAfter(categories: seq<string>, s: Capture, step: Step, t: Capture)
    requires AccountsValid(s) && RowsValid(categories, s) && AccountsKept(s, t) && Named(t)
    requires WellFormed(step) && Effect(s, step, t) && Proper(categories, step)
    ensures RowsValid(categories, t)
  {
    hide AccountsValid, AccountsKept, Named, WellFormed, Proper, RowValid;
    match step {
      case Move(_) => SameRowsValid(categories, s, t);
      case Open(_, _, _) => SameRowsValid(categories, s, t);
      case Post(tx) => PostedRows(categories, s, tx, t);
      case Amend(expected, tx) => AmendedRows(categories, s, expected, tx, t);
      case Send(tr) => SentRows(categories, s, tr, t);
    }
  }

  lemma {:induction false} SameRowsValid(categories: seq<string>, s: Capture, t: Capture)
    requires RowsValid(categories, s) && AccountsKept(s, t) && t.transactions == s.transactions
    ensures RowsValid(categories, t)
  {
    hide RowValid, AccountsKept;
    forall row | row in t.transactions
      ensures RowValid(t, categories, row)
    {
      RowStillValid(categories, s, t, row);
    }
  }

  // Transfers.

  lemma {:induction false} MappingStillValid(categories: seq<string>, s: Capture, step: Step, t: Capture, m: TransferMapping)
    requires RowsValid(categories, s) && MappingValid(s, m) && WellFormed(step) && Effect(s, step, t) && SparesTransfers(step)
    ensures MappingValid(t, m)
  {
    hide RowValid, WellFormed, Effect, Blank, ValidDate;
    var ids := RowIds(s.transactions);
    var a, b := s.transactions[IndexOf(ids, m.sourceRowId)], s.transactions[IndexOf(ids, m.destinationRowId)];
    assert a.parentId == ids[IndexOf(ids, m.sourceRowId)] && b.parentId == ids[IndexOf(ids, m.destinationRowId)];
    SoleMember(RowId, s.transactions, a);
    SoleMember(RowId, s.transactions, b);
    hide Sole, DistinctBy;
    RowStays(s, step, t, a);
    RowStays(s, step, t, b);
    FirstSole(t, a);
    FirstSole(t, b);
  }

  lemma {:induction false} FirstSole(t: Capture, row: LedgerRow)
    requires Sole(RowId, t.transactions, row)
    ensures row.parentId in RowIds(t.transactions) && t.transactions[IndexOf(RowIds(t.transactions), row.parentId)] == row
  {
  }

  lemma {:induction false} EndsInserted(s: seq<TransferMapping>, t: seq<TransferMapping>, m: TransferMapping)
    requires EndsDistinct(s) && Inserted(s, t, m) && m.sourceRowId != m.destinationRowId
    requires forall x :: x in s ==>
               x.sourceRowId != m.sourceRowId && x.destinationRowId != m.destinationRowId
               && x.sourceRowId != m.destinationRowId && x.destinationRowId != m.sourceRowId
    ensures EndsDistinct(t)
  {
    var p :| 0 <= p <= |s| && t == InsertAt(s, p, m);
    forall i, j | 0 <= i < |t| && 0 <= j < |t| && i != j
      ensures t[i].sourceRowId != t[j].sourceRowId && t[i].destinationRowId != t[j].destinationRowId
              && t[i].sourceRowId != t[j].destinationRowId
    {
      var x, y := if i < p then i else i - 1, if j < p then j else j - 1;
      if i == p {
        assert t[j] == s[y];
      } else if j == p {
        assert t[i] == s[x];
      } else {
        assert t[i] == s[x] && t[j] == s[y] && x != y;
      }
    }
    forall i | 0 <= i < |t|
      ensures t[i].sourceRowId != t[i].destinationRowId
    {
      assert i != p ==> t[i] == s[if i < p then i else i - 1];
    }
  }

  lemma {:induction false} EndsElsewhere(s: Capture, m: TransferMapping)
    requires TransfersValid(s) && m.sourceRowId !in RowIds(s.transactions) && m.destinationRowId !in RowIds(s.transactions)
    ensures forall x :: x in s.transfers ==>
              x.sourceRowId != m.sourceRowId && x.destinationRowId != m.destinationRowId
              && x.sourceRowId != m.destinationRowId && x.destinationRowId != m.sourceRowId
  {
    hide HalfSound, Blank, ValidDate, DistinctBy, EndsDistinct;
    forall x | x in s.transfers
      ensures x.sourceRowId in RowIds(s.transactions) && x.destinationRowId in RowIds(s.transactions)
    {
      assert MappingValid(s, x);
    }
  }

  lemma {:induction false} NewMappingValid(s: Capture, tr: TransferIntent, t: Capture, mapping: TransferMapping)
    requires WellFormed(Send(tr)) && !Blank(tr.transferId) && !Blank(tr.correlationId)
    requires MappingEffect(s.transfers, mapping, tr, t.transfers) && PairEffect(s.transactions, mapping, tr, t.transactions)
    ensures MappingValid(t, mapping)
  {
    hide Sole, PairInserted, Inserted, Blank, ValidDate;
    var p, q :| PairInserted(s.transactions, TransferRow(mapping.sourceRowId, tr, true, p),
                             TransferRow(mapping.destinationRowId, tr, false, q), t.transactions);
    SolePair(s.transactions, TransferRow(mapping.sourceRowId, tr, true, p), TransferRow(mapping.destinationRowId, tr, false, q), t.transactions);
    FirstSole(t, TransferRow(mapping.sourceRowId, tr, true, p));
    FirstSole(t, TransferRow(mapping.destinationRowId, tr, false, q));
  }

  lemma {:induction false} OldMappingsValid(categories: seq<string>, s: Capture, step: Step, t: Capture)
    requires RowsValid(categories, s) && TransfersValid(s) && WellFormed(step) && Effect(s, step, t) && SparesTransfers(step)
    ensures forall m :: m in s.transfers ==> MappingValid(t, m)
  {
    hide RowsValid, WellFormed, Effect, MappingValid, DistinctBy, EndsDistinct;
    forall m | m in s.transfers
      ensures MappingValid(t, m)
    {
      MappingStillValid(categories, s, step, t, m);
    }
  }

  ghost predicate FreshlyCorrelated(s: Capture, step: Step) {
    step.Send? ==> step.transfer.correlationId !in IdsBy(Correlation, s.transfers)
  }

  lemma {:induction false} SentTransfers(s: Capture, tr: TransferIntent, t: Capture, mapping: TransferMapping)
    requires TransfersValid(s) && (forall m :: m in s.transfers ==> MappingValid(t, m)) && MappingValid(t, mapping)
    requires MappingEffect(s.transfers, mapping, tr, t.transfers) && mapping.sourceRowId != mapping.destinationRowId
    requires mapping.sourceRowId !in RowIds(s.transactions) && mapping.destinationRowId !in RowIds(s.transactions)
    requires tr.correlationId !in IdsBy(Correlation, s.transfers)
    ensures TransfersValid(t)
  {
    EndsElsewhere(s, mapping);
    hide MappingValid, Inserted, EndsDistinct;
    EndsInserted(s.transfers, t.transfers, mapping);
    DistinctInserted(TransferId, s.transfers, t.transfers, mapping);
    DistinctInserted(Correlation, s.transfers, t.transfers, mapping);
    hide DistinctBy;
    forall m | m in t.transfers
      ensures MappingValid(t, m)
    {
      InsertedMembers(s.transfers, t.transfers, mapping, m);
    }
  }

  lemma {:induction false} TransfersAfter(categories: seq<string>, s: Capture, step: Step, t: Capture)
    requires RowsValid(categories, s) && TransfersValid(s) && WellFormed(step) && Effect(s, step, t) && Proper(categories, step)
    requires FreshlyCorrelated(s, step)
    ensures TransfersValid(t)
  {
    OldMappingsValid(categories, s, step, t);
    hide RowsValid, MappingValid, DistinctBy, EndsDistinct, Inserted, PairInserted, Shifted, HoldsAll, SplitsKnown, Blank;
    if step.Send? {
      var mapping :| MappingEffect(s.transfers, mapping, step.transfer, t.transfers)
                     && PairEffect(s.transactions, mapping, step.transfer, t.transactions);
      NewMappingValid(s, step.transfer, t, mapping);
      SentTransfers(s, step.transfer, t, mapping);
    } else {
      assert t.transfers == s.transfers;
    }
  }

  /** One step on a valid ledger leaves a valid ledger. */
  lemma {:induction false} StepKeepsValid(categories: seq<string>, s: Capture, step: Step, t: Capture)
    requires LedgerValid(categories, s) && WellFormed(step) && Effect(s, step, t) && Proper(categories, step)
    requires FreshlyCorrelated(s, step) && Named(t)
    ensures LedgerValid(categories, t)
  {
    hide AccountsValid, AssignmentsValid, WalletsValid, RowsValid, TransfersValid, AccountsKept, WellFormed, Effect, Proper, Named, FreshlyCorrelated;
    AccountsAfter(categories, s, step, t);
    AssignmentsAfter(categories, s, step, t);
    WalletsAfter(categories, s, step, t);
    RowsAfter(categories, s, step, t);
    TransfersAfter(categories, s, step, t);
  }
}
