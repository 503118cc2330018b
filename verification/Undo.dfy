/** Reversing an authorized action out of an observed ledger, and what that proves about the ledger. */
module Undo {
  import opened CheckedMoney
  import opened Rows
  import opened Text
  import opened Action

  function RemoveAt<T>(rows: seq<T>, i: nat): (r: seq<T>)
    requires i < |rows|
    ensures |r| == |rows| - 1 && forall j :: 0 <= j < |r| ==> r[j] == rows[if j < i then j else j + 1]
  {
    seq(|rows| - 1, j requires 0 <= j < |rows| - 1 => rows[if j < i then j else j + 1])
  }

  function InsertAt<T>(rows: seq<T>, i: nat, row: T): (r: seq<T>)
    requires i <= |rows|
    ensures |r| == |rows| + 1 && r[i] == row
    ensures forall j :: 0 <= j < |r| && j != i ==> r[j] == rows[if j < i then j else j - 1]
  {
    seq(|rows| + 1, j requires 0 <= j < |rows| + 1 =>
      if j == i then row else rows[if j < i then j else j - 1])
  }

  // The reversal, step by step, in the order the collections are edited.

  function ReverseMove(c: Capture, m: Movement): Result<Capture> {
    if m.amount.units <= 0 then Err("invalid_reallocation_amount") else
    var inverse :- CheckedNeg(m.amount.units);
    var deltas := [(m.source, m.amount.units), (m.destination, inverse)];
    var assignments :- AdjustAll(c.assignments, deltas, m.amount.currency);
    var categoryFacts :- AdjustAll(c.categoryFacts, deltas, m.amount.currency);
    Ok(c.(assignments := assignments, categoryFacts := categoryFacts))
  }

  function ReverseDeltas(deltas: seq<(Slot, i64)>): Result<seq<(Slot, i64)>> {
    if CanNegateAll(deltas) then Ok(Negated(deltas)) else Err(OVERFLOW)
  }

  /** The one row of an action, checked field by field and taken out. */
  function TakeRow(rows: seq<LedgerRow>, row: LedgerRow): Result<seq<LedgerRow>> {
    var index :- OnlyIndex(RowIds(rows), row.parentId, "postcondition_row_missing", "postcondition_row_duplicate");
    if rows[index] != row then Err("manual_postcondition_mismatch") else Ok(RemoveAt(rows, index))
  }

  function ReversePost(c: Capture, tx: Transaction): Result<Capture> {
    var transactions :- TakeRow(c.transactions, RowOf(tx));
    var inverse :- CheckedNeg(tx.amount.units);
    var accounts :- AdjustNamedMoney(c.accounts, tx.accountId, inverse, tx.amount.currency);
    var accountFacts :- AdjustNamedMoney(c.accountFacts, tx.accountId, inverse, tx.amount.currency);
    if MonthOf(tx.date).None? then Err("invalid_transaction_date") else
    var deltas :- ReverseDeltas(TransactionDeltas(tx, MonthOf(tx.date).value));
    var categoryFacts :- AdjustAll(c.categoryFacts, deltas, tx.amount.currency);
    Ok(c.(transactions := transactions, accounts := accounts,
          accountFacts := accountFacts, categoryFacts := categoryFacts))
  }

  function ReverseAmend(c: Capture, expected: LedgerRow, tx: Transaction): Result<Capture> {
    var index :- OnlyIndex(RowIds(c.transactions), tx.parentId, "postcondition_row_missing", "postcondition_row_duplicate");
    if c.transactions[index] != RowOf(tx) then Err("amendment_postcondition_mismatch") else
    if MonthOf(tx.date).None? then Err("invalid_transaction_date") else
    var deltas :- ReverseDeltas(TransactionDeltas(tx, MonthOf(tx.date).value));
    var without :- AdjustAll(c.categoryFacts, deltas, tx.amount.currency);
    var categoryFacts :- AdjustAll(without, RowDeltas(expected, MonthOf(tx.date).value), tx.amount.currency);
    Ok(c.(transactions := c.transactions[index := expected], categoryFacts := categoryFacts))
  }

  function ReverseOpen(c: Capture, walletId: string, accountName: string, currency: string): Result<Capture> {
    var mapping :- OnlyIndex(WalletIds(c.wallets), walletId, "postcondition_row_missing", "postcondition_row_duplicate");
    var accountId := c.wallets[mapping].accountId;
    var account :- OnlyIndex(KeysOf(c.accounts), accountId, "postcondition_row_missing", "postcondition_row_duplicate");
    if !ValidCurrency(c.accounts[account].money.currency) then Err("invalid_currency") else
    if c.accounts[account].rest != AccountInfo(accountName, true, false, currency)
       || c.accounts[account].money != Money(0, currency)
    then Err("wallet_postcondition_mismatch") else
    var fact :- OnlyIndex(KeysOf(c.accountFacts), accountId, "postcondition_row_missing", "postcondition_row_duplicate");
    var info := c.accountFacts[fact].rest;
    if info.currency != currency || !info.onBudget || info.closed || c.accountFacts[fact].money != Money(0, currency)
    then Err("wallet_source_postcondition_mismatch") else
    Ok(c.(accounts := RemoveAt(c.accounts, account), wallets := RemoveAt(c.wallets, mapping),
          accountFacts := RemoveAt(c.accountFacts, fact)))
  }

  /** Both rows of a pair removed, the later one first. */
  function RemovePair<T>(rows: seq<T>, i: nat, j: nat): seq<T>
    requires i < |rows| && j < |rows| && i != j
  {
    if i < j then RemoveAt(RemoveAt(rows, j), i) else RemoveAt(RemoveAt(rows, i), j)
  }

  predicate MappingMatches(mapping: TransferMapping, t: TransferIntent) {
    mapping == TransferMapping(t.transferId, t.correlationId, Marker(t.transferId, t.correlationId),
                               mapping.sourceRowId, mapping.destinationRowId,
                               t.sourceAccountId, t.destinationAccountId, t.amount, t.date)
  }

  function TakeMapping(transfers: seq<TransferMapping>, t: TransferIntent)
    : Result<(TransferMapping, seq<TransferMapping>)>
  {
    var index :- OnlyIndex(TransferIds(transfers), t.transferId, "postcondition_row_missing", "postcondition_row_duplicate");
    if !MappingMatches(transfers[index], t) then Err("transfer_postcondition_mismatch")
    else Ok((transfers[index], RemoveAt(transfers, index)))
  }

  function TakePair(rows: seq<LedgerRow>, mapping: TransferMapping, t: TransferIntent): Result<seq<LedgerRow>>
    requires CanNegate(t.amount.units)
  {
    var source :- OnlyIndex(RowIds(rows), mapping.sourceRowId, "postcondition_row_missing", "postcondition_row_duplicate");
    var destination :- OnlyIndex(RowIds(rows), mapping.destinationRowId, "postcondition_row_missing", "postcondition_row_duplicate");
    if source == destination
       || rows[source] != TransferRow(mapping.sourceRowId, t, true, rows[source].payeeName)
       || rows[destination] != TransferRow(mapping.destinationRowId, t, false, rows[destination].payeeName)
    then Err("transfer_postcondition_mismatch")
    else Ok(RemovePair(rows, source, destination))
  }

  function ReverseSend(c: Capture, t: TransferIntent): Result<Capture> {
    if t.amount.units <= 0 || !ValidDate(t.date) then Err("transfer_postcondition_mismatch") else
    var taken :- TakeMapping(c.transfers, t);
    var transactions :- TakePair(c.transactions, taken.0, t);
    var deltas := [(t.sourceAccountId, t.amount.units), (t.destinationAccountId, Neg(t.amount.units))];
    var accounts :- AdjustAll(c.accounts, deltas, t.amount.currency);
    var accountFacts :- AdjustAll(c.accountFacts, deltas, t.amount.currency);
    Ok(c.(transactions := transactions, transfers := taken.1, accounts := accounts, accountFacts := accountFacts))
  }

  function ReverseStep(c: Capture, step: Step): Result<Capture> {
    match step
    case Move(m) => ReverseMove(c, m)
    case Post(tx) => ReversePost(c, tx)
    case Amend(expected, tx) => ReverseAmend(c, expected, tx)
    case Open(walletId, name, currency) => ReverseOpen(c, walletId, name, currency)
    case Send(t) => ReverseSend(c, t)
  }

  /** Every step undone, the last one first. */
  function ReverseSteps(c: Capture, steps: seq<Step>): Result<Capture>
    decreases |steps|
  {
    if steps == [] then Ok(c)
    else
      var earlier :- ReverseStep(c, steps[|steps| - 1]);
      ReverseSteps(earlier, steps[..|steps| - 1])
  }

  // What a step does to a ledger, stated without an order of edits.

  ghost predicate Inserted<T>(before: seq<T>, after: seq<T>, row: T) {
    exists i :: 0 <= i <= |before| && after == InsertAt(before, i, row)
  }

  ghost predicate MoveEffect(s: Capture, m: Movement, t: Capture)
    requires CanNegate(m.amount.units)
  {
    HoldsAll(s.assignments, MoveDeltas(m), m.amount.currency)
    && HoldsAll(s.categoryFacts, MoveDeltas(m), m.amount.currency)
    && Shifted(s.assignments, t.assignments, MoveDeltas(m))
    && Shifted(s.categoryFacts, t.categoryFacts, MoveDeltas(m))
    && t == s.(assignments := t.assignments, categoryFacts := t.categoryFacts)
  }

  ghost predicate PostEffect(s: Capture, tx: Transaction, t: Capture)
    requires MonthOf(tx.date).Some?
  {
    var deltas := TransactionDeltas(tx, MonthOf(tx.date).value);
    tx.parentId !in RowIds(s.transactions)
    && Inserted(s.transactions, t.transactions, RowOf(tx))
    && Holds(s.accounts, tx.accountId, tx.amount.currency)
    && Holds(s.accountFacts, tx.accountId, tx.amount.currency)
    && HoldsAll(s.categoryFacts, deltas, tx.amount.currency)
    && Shifted(s.accounts, t.accounts, [(tx.accountId, tx.amount.units)])
    && Shifted(s.accountFacts, t.accountFacts, [(tx.accountId, tx.amount.units)])
    && Shifted(s.categoryFacts, t.categoryFacts, deltas)
    && t == s.(transactions := t.transactions, accounts := t.accounts, accountFacts := t.accountFacts,
               categoryFacts := t.categoryFacts)
  }

  /** The row changes in place; taking either version of it out leaves the same availabilities. */
  ghost predicate AmendEffect(s: Capture, expected: LedgerRow, tx: Transaction, t: Capture)
    requires MonthOf(tx.date).Some?
  {
    var month := MonthOf(tx.date).value;
    (exists i :: OnlyAt(RowIds(s.transactions), tx.parentId, i) && s.transactions[i] == expected
                 && t.transactions == s.transactions[i := RowOf(tx)])
    && HoldsAll(s.categoryFacts, RowDeltas(expected, month) + TransactionDeltas(tx, month), tx.amount.currency)
    && (exists without :: Shifted(without, s.categoryFacts, RowDeltas(expected, month))
                          && Shifted(without, t.categoryFacts, TransactionDeltas(tx, month)))
    && t == s.(transactions := t.transactions, categoryFacts := t.categoryFacts)
  }

  /** A new on-budget account of zero balance, its fact, and the mapping of the wallet to it. */
  ghost predicate OpenEffect(s: Capture, walletId: string, accountName: string, currency: string, t: Capture) {
    walletId !in WalletIds(s.wallets)
    && (exists id: string, evidence: FactEvidence ::
          id !in KeysOf(s.accounts) && id !in KeysOf(s.accountFacts)
          && Inserted(s.wallets, t.wallets, WalletMapping(walletId, id))
          && Inserted(s.accounts, t.accounts,
                      NamedMoney(id, Money(0, currency), AccountInfo(accountName, true, false, currency)))
          && Inserted(s.accountFacts, t.accountFacts,
                      NamedMoney(id, Money(0, currency), AccountFactInfo(true, false, currency, evidence))))
    && t == s.(wallets := t.wallets, accounts := t.accounts, accountFacts := t.accountFacts)
  }

  ghost predicate PairInserted(s: seq<LedgerRow>, a: LedgerRow, b: LedgerRow, t: seq<LedgerRow>) {
    exists mid :: Inserted(s, mid, a) && Inserted(mid, t, b)
  }

  /** The two generated rows of a transfer; their payees are the ledger's own choice. */
  ghost predicate PairEffect(s: seq<LedgerRow>, mapping: TransferMapping, tr: TransferIntent, t: seq<LedgerRow>)
    requires CanNegate(tr.amount.units)
  {
    mapping.sourceRowId != mapping.destinationRowId
    && mapping.sourceRowId !in RowIds(s) && mapping.destinationRowId !in RowIds(s)
    && exists p, q :: PairInserted(s, TransferRow(mapping.sourceRowId, tr, true, p),
                                   TransferRow(mapping.destinationRowId, tr, false, q), t)
  }

  ghost predicate MappingEffect(s: seq<TransferMapping>, mapping: TransferMapping, tr: TransferIntent, t: seq<TransferMapping>) {
    tr.transferId !in TransferIds(s) && MappingMatches(mapping, tr) && Inserted(s, t, mapping)
  }

  ghost predicate SendEffect(s: Capture, tr: TransferIntent, t: Capture)
    requires CanNegate(tr.amount.units)
  {
    (exists mapping :: MappingEffect(s.transfers, mapping, tr, t.transfers)
                       && PairEffect(s.transactions, mapping, tr, t.transactions))
    && HoldsAll(s.accounts, SendDeltas(tr), tr.amount.currency)
    && HoldsAll(s.accountFacts, SendDeltas(tr), tr.amount.currency)
    && Shifted(s.accounts, t.accounts, SendDeltas(tr))
    && Shifted(s.accountFacts, t.accountFacts, SendDeltas(tr))
    && t == s.(transactions := t.transactions, transfers := t.transfers, accounts := t.accounts,
               accountFacts := t.accountFacts)
  }

  /** What planning guarantees of a step, and what reversing it relies on. */
  ghost predicate WellFormed(step: Step) {
    match step
    case Move(m) => m.amount.units > 0 && m.source != m.destination
    case Post(tx) =>
      ValidDate(tx.date) && CanNegate(tx.amount.units)
      && CanNegateAll(TransactionDeltas(tx, tx.date[..7])) && OneWay(TransactionDeltas(tx, tx.date[..7]))
    case Amend(expected, tx) =>
      ValidDate(tx.date) && expected.parentId == tx.parentId
      && CanNegateAll(TransactionDeltas(tx, tx.date[..7])) && OneWay(TransactionDeltas(tx, tx.date[..7]))
      && OneWay(RowDeltas(expected, tx.date[..7]))
    case Open(_, _, currency) => ValidCurrency(currency)
    case Send(t) => t.amount.units > 0 && ValidDate(t.date) && t.sourceAccountId != t.destinationAccountId
  }

  ghost predicate Effect(s: Capture, step: Step, t: Capture)
    requires WellFormed(step)
  {
    match step
    case Move(m) => MoveEffect(s, m, t)
    case Post(tx) => PostEffect(s, tx, t)
    case Amend(expected, tx) => AmendEffect(s, expected, tx, t)
    case Open(walletId, name, currency) => OpenEffect(s, walletId, name, currency, t)
    case Send(tr) => SendEffect(s, tr, t)
  }

  // Rows leave where they stood.

  ghost predicate Removed<T, K>(id: T -> K, t: seq<T>, s: seq<T>, row: T) {
    exists i :: OnlyAt(IdsBy(id, t), id(row), i) && t[i] == row && s == RemoveAt(t, i)
  }

  lemma {:induction false} InsertedOnce<T, K>(id: T -> K, s: seq<T>, i: nat, row: T)
    requires i <= |s| && id(row) !in IdsBy(id, s)
    ensures OnlyAt(IdsBy(id, InsertAt(s, i, row)), id(row), i)
    ensures InsertAt(s, i, row)[i] == row && RemoveAt(InsertAt(s, i, row), i) == s
  {
    var t := InsertAt(s, i, row);
    forall j | 0 <= j < |t| && j != i
      ensures id(t[j]) in IdsBy(id, s)
    {
      assert t[j] == s[if j < i then j else j - 1];
      assert IdsBy(id, s)[if j < i then j else j - 1] == id(t[j]);
    }
  }

  lemma {:induction false} RemovedOnce<T, K>(id: T -> K, t: seq<T>, i: nat)
    requires i < |t| && OnlyAt(IdsBy(id, t), id(t[i]), i)
    ensures id(t[i]) !in IdsBy(id, RemoveAt(t, i))
    ensures InsertAt(RemoveAt(t, i), i, t[i]) == t
  {
    var s := RemoveAt(t, i);
    forall j | 0 <= j < |s|
      ensures IdsBy(id, s)[j] != id(t[i])
    {
      assert s[j] == t[if j < i then j else j + 1];
      assert IdsBy(id, t)[if j < i then j else j + 1] == id(s[j]);
    }
  }

  /** A removed row is exactly an inserted one whose identity was free. */
  lemma {:induction false} RemovedIsInserted<T, K>(id: T -> K, t: seq<T>, s: seq<T>, row: T)
    ensures Removed(id, t, s, row) <==> id(row) !in IdsBy(id, s) && Inserted(s, t, row)
  {
    if Removed(id, t, s, row) {
      var i :| OnlyAt(IdsBy(id, t), id(row), i) && t[i] == row && s == RemoveAt(t, i);
      RemovedOnce(id, t, i);
    }
    if id(row) !in IdsBy(id, s) && Inserted(s, t, row) {
      var i :| 0 <= i <= |s| && t == InsertAt(s, i, row);
      InsertedOnce(id, s, i, row);
    }
  }

  // Each reversal returns exactly the ledger its effect started from.

  lemma {:induction false} MoveUndone(s: Capture, m: Movement, t: Capture)
    requires WellFormed(Move(m))
    ensures ReverseMove(t, m) == Ok(s) <==> MoveEffect(s, m, t)
  {
    var back := [(m.source, m.amount.units), (m.destination, Neg(m.amount.units))];
    assert back == Negated(MoveDeltas(m));
    SameRows(s.assignments, t.assignments, MoveDeltas(m), m.amount.currency);
    SameRows(s.categoryFacts, t.categoryFacts, MoveDeltas(m), m.amount.currency);
  }

  /** Editing the negated deltas out of the later rows is the shift of the earlier ones. */
  lemma {:induction false} SameRows<K, R>(s: seq<NamedMoney<K, R>>, t: seq<NamedMoney<K, R>>, deltas: seq<(K, i64)>, currency: string)
    requires OneWay(deltas) && CanNegateAll(deltas)
    ensures AdjustAll(t, Negated(deltas), currency) == Ok(s)
            <==> HoldsAll(s, deltas, currency) && Shifted(s, t, deltas)
  {
    var back := Negated(deltas);
    AdjustAllIsShift(t, back, currency, s);
    ShiftedBack(s, t, deltas);
    if Shifted(s, t, deltas) {
      HoldsAllCarries(s, t, deltas, deltas, currency);
      assert HoldsAll(t, deltas, currency) <==> HoldsAll(t, back, currency) by {
        assert forall j :: 0 <= j < |deltas| ==> back[j].0 == deltas[j].0;
      }
    }
  }

  lemma {:induction false} SameRow<K, R>(s: seq<NamedMoney<K, R>>, t: seq<NamedMoney<K, R>>, k: K, delta: i64, currency: string)
    requires CanNegate(delta)
    ensures AdjustNamedMoney(t, k, Neg(delta), currency) == Ok(s)
            <==> Holds(s, k, currency) && Shifted(s, t, [(k, delta)])
  {
    var deltas := [(k, delta)];
    assert Negated(deltas) == [(k, Neg(delta))];
    AdjustIsShift(t, k, Neg(delta), currency, s);
    ShiftedBack(s, t, deltas);
    if Shifted(s, t, deltas) {
      HoldsCarries(s, t, deltas, k, currency);
    }
  }

  lemma {:induction false} RowTaken(s: seq<LedgerRow>, t: seq<LedgerRow>, row: LedgerRow)
    ensures TakeRow(t, row) == Ok(s) <==> row.parentId !in RowIds(s) && Inserted(s, t, row)
  {
    RemovedIsInserted(RowId, t, s, row);
    if TakeRow(t, row) == Ok(s) {
      assert Removed(RowId, t, s, row);
    }
    if Removed(RowId, t, s, row) {
      RemovedIndex(RowId, t, s, row);
    }
  }

  lemma {:induction false} PostUndone(s: Capture, tx: Transaction, t: Capture)
    requires WellFormed(Post(tx))
    ensures ReversePost(t, tx) == Ok(s) <==> PostEffect(s, tx, t)
  {
    RowTaken(s.transactions, t.transactions, RowOf(tx));
    SameRow(s.accounts, t.accounts, tx.accountId, tx.amount.units, tx.amount.currency);
    SameRow(s.accountFacts, t.accountFacts, tx.accountId, tx.amount.units, tx.amount.currency);
    SameRows(s.categoryFacts, t.categoryFacts, TransactionDeltas(tx, tx.date[..7]), tx.amount.currency);
  }

  lemma {:induction false} AmendedRow(s: seq<LedgerRow>, t: seq<LedgerRow>, expected: LedgerRow, row: LedgerRow, i: int)
    requires expected.parentId == row.parentId
    ensures OnlyAt(RowIds(t), row.parentId, i) && t[i] == row && s == t[i := expected]
            <==> OnlyAt(RowIds(s), row.parentId, i) && s[i] == expected && t == s[i := row]
  {
    if 0 <= i < |t| && t[i] == row && s == t[i := expected] {
      assert RowIds(s) == RowIds(t);
    }
    if 0 <= i < |s| && s[i] == expected && t == s[i := row] {
      assert RowIds(s) == RowIds(t);
    }
  }

  lemma {:induction false} AmendUndone(s: Capture, expected: LedgerRow, tx: Transaction, t: Capture)
    requires WellFormed(Amend(expected, tx))
    ensures ReverseAmend(t, expected, tx) == Ok(s) <==> AmendEffect(s, expected, tx, t)
  {
    hide AdjustAll, HoldsAll, Shifted, TransactionDeltas, RowDeltas;
    var month := tx.date[..7];
    var added, taken, currency := TransactionDeltas(tx, month), RowDeltas(expected, month), tx.amount.currency;
    var index := OnlyIndex(RowIds(t.transactions), tx.parentId, "postcondition_row_missing", "postcondition_row_duplicate");
    if ReverseAmend(t, expected, tx) == Ok(s) {
      AmendedRow(s.transactions, t.transactions, expected, RowOf(tx), index.value);
      var without := AdjustAll(t.categoryFacts, Negated(added), currency).value;
      SameRows(without, t.categoryFacts, added, currency);
      AdjustAllIsShift(without, taken, currency, s.categoryFacts);
      HoldsAllCarries(without, s.categoryFacts, taken, taken, currency);
      HoldsAllCarries(without, s.categoryFacts, taken, added, currency);
      HoldsAllConcat(s.categoryFacts, taken, added, currency);
    }
    if AmendEffect(s, expected, tx, t) {
      var i :| OnlyAt(RowIds(s.transactions), tx.parentId, i) && s.transactions[i] == expected
               && t.transactions == s.transactions[i := RowOf(tx)];
      AmendedRow(s.transactions, t.transactions, expected, RowOf(tx), i);
      assert index.Ok? && index.value == i;
      var without :| Shifted(without, s.categoryFacts, taken) && Shifted(without, t.categoryFacts, added);
      HoldsAllConcat(s.categoryFacts, taken, added, currency);
      HoldsAllCarries(without, s.categoryFacts, taken, taken, currency);
      HoldsAllCarries(without, s.categoryFacts, taken, added, currency);
      SameRows(without, t.categoryFacts, added, currency);
      AdjustAllIsShift(without, taken, currency, s.categoryFacts);
    }
  }

  lemma {:induction false} HoldsAllConcat<K, R>(rows: seq<NamedMoney<K, R>>, a: seq<(K, i64)>, b: seq<(K, i64)>, currency: string)
    ensures HoldsAll(rows, a + b, currency) <==> HoldsAll(rows, a, currency) && HoldsAll(rows, b, currency)
  {
    assert forall j :: 0 <= j < |a| ==> (a + b)[j] == a[j];
    assert forall j :: 0 <= j < |b| ==> (a + b)[|a| + j] == b[j];
    if HoldsAll(rows, a, currency) && HoldsAll(rows, b, currency) {
      forall j | 0 <= j < |a + b|
        ensures Holds(rows, (a + b)[j].0, currency)
      {
        if j >= |a| {
          assert (a + b)[j] == b[j - |a|];
        }
      }
    }
    if HoldsAll(rows, a + b, currency) {
      forall j | 0 <= j < |b|
        ensures Holds(rows, b[j].0, currency)
      {
        assert (a + b)[|a| + j] == b[j];
      }
    }
  }

  lemma {:induction false} OpenUndone(s: Capture, walletId: string, name: string, currency: string, t: Capture)
    requires ValidCurrency(currency)
    ensures ReverseOpen(t, walletId, name, currency) == Ok(s) <==> OpenEffect(s, walletId, name, currency, t)
  {
    var info := AccountInfo(name, true, false, currency);
    var missing, duplicate := "postcondition_row_missing", "postcondition_row_duplicate";
    var mapping := OnlyIndex(WalletIds(t.wallets), walletId, missing, duplicate);
    if ReverseOpen(t, walletId, name, currency) == Ok(s) {
      var id := t.wallets[mapping.value].accountId;
      var fact := t.accountFacts[OnlyIndex(KeysOf(t.accountFacts), id, missing, duplicate).value];
      RemovedIsInserted(WalletId, t.wallets, s.wallets, WalletMapping(walletId, id));
      RemovedIsInserted(KeyOf, t.accounts, s.accounts, NamedMoney(id, Money(0, currency), info));
      RemovedIsInserted(KeyOf, t.accountFacts, s.accountFacts,
                        NamedMoney(id, Money(0, currency), AccountFactInfo(true, false, currency, fact.rest.evidence)));
      assert Removed(WalletId, t.wallets, s.wallets, WalletMapping(walletId, id));
      assert Removed(KeyOf, t.accounts, s.accounts, NamedMoney(id, Money(0, currency), info));
      assert Removed(KeyOf, t.accountFacts, s.accountFacts,
                     NamedMoney(id, Money(0, currency), AccountFactInfo(true, false, currency, fact.rest.evidence)));
    }
    if OpenEffect(s, walletId, name, currency, t) {
      OpenReversed(s, walletId, name, currency, t);
    }
  }

  lemma {:induction false} OpenReversed(s: Capture, walletId: string, name: string, currency: string, t: Capture)
    requires ValidCurrency(currency) && OpenEffect(s, walletId, name, currency, t)
    ensures ReverseOpen(t, walletId, name, currency) == Ok(s)
  {
    var id: string, evidence: FactEvidence :|
      id !in KeysOf(s.accounts) && id !in KeysOf(s.accountFacts)
      && Inserted(s.wallets, t.wallets, WalletMapping(walletId, id))
      && Inserted(s.accounts, t.accounts, NamedMoney(id, Money(0, currency), AccountInfo(name, true, false, currency)))
      && Inserted(s.accountFacts, t.accountFacts,
                  NamedMoney(id, Money(0, currency), AccountFactInfo(true, false, currency, evidence)));
    var wallet := WalletMapping(walletId, id);
    var account := NamedMoney(id, Money(0, currency), AccountInfo(name, true, false, currency));
    var fact := NamedMoney(id, Money(0, currency), AccountFactInfo(true, false, currency, evidence));
    RemovedIsInserted(WalletId, t.wallets, s.wallets, wallet);
    RemovedIsInserted(KeyOf, t.accounts, s.accounts, account);
    RemovedIsInserted(KeyOf, t.accountFacts, s.accountFacts, fact);
    RemovedIndex(WalletId, t.wallets, s.wallets, wallet);
    RemovedIndex(KeyOf, t.accounts, s.accounts, account);
    RemovedIndex(KeyOf, t.accountFacts, s.accountFacts, fact);
  }

  /** The position a reversal looks up is the one the removed row stood at. */
  lemma {:induction false} RemovedIndex<T, K>(id: T -> K, t: seq<T>, s: seq<T>, row: T)
    requires Removed(id, t, s, row)
    ensures var r := OnlyIndex(IdsBy(id, t), id(row), "postcondition_row_missing", "postcondition_row_duplicate");
            r.Ok? && t[r.value] == row && s == RemoveAt(t, r.value)
  {
  }

  /** Removing a pair does not depend on which row goes first. */
  lemma {:induction false} PairOrder<T>(t: seq<T>, i: nat, j: nat)
    requires i < |t| && j < |t| && i != j
    ensures RemovePair(t, i, j) == RemoveAt(RemoveAt(t, j), if i < j then i else i - 1)
  {
  }

  lemma {:induction false} IdsMoveWithRows<T, K>(id: T -> K, rows: seq<T>, i: nat, row: T)
    ensures i < |rows| ==> IdsBy(id, RemoveAt(rows, i)) == RemoveAt(IdsBy(id, rows), i)
    ensures i <= |rows| ==> IdsBy(id, InsertAt(rows, i, row)) == InsertAt(IdsBy(id, rows), i, id(row))
  {
  }

  lemma {:induction false} OnlyAfterRemove<K>(keys: seq<K>, k: K, i: nat, j: nat)
    requires OnlyAt(keys, k, i) && j < |keys| && j != i
    ensures OnlyAt(RemoveAt(keys, j), k, if i < j then i else i - 1)
  {
    var rest := RemoveAt(keys, j);
    assert forall x :: 0 <= x < |rest| ==> rest[x] == keys[if x < j then x else x + 1];
  }

  lemma {:induction false} PairTakenOut(s: seq<LedgerRow>, t: seq<LedgerRow>, a: LedgerRow, b: LedgerRow, i: nat, j: nat)
    requires OnlyAt(RowIds(t), a.parentId, i) && OnlyAt(RowIds(t), b.parentId, j) && a.parentId != b.parentId
    requires t[i] == a && t[j] == b && s == RemovePair(t, i, j)
    ensures a.parentId !in RowIds(s) && b.parentId !in RowIds(s) && PairInserted(s, a, b, t)
  {
    var mid := RemoveAt(t, j);
    var k := if i < j then i else i - 1;
    assert b.parentId !in RowIds(mid) && Inserted(mid, t, b) by {
      assert Removed(RowId, t, mid, b);
      RemovedIsInserted(RowId, t, mid, b);
    }
    assert OnlyAt(RowIds(mid), a.parentId, k) && mid[k] == a by {
      IdsMoveWithRows(RowId, t, j, b);
      OnlyAfterRemove(RowIds(t), a.parentId, i, j);
    }
    assert s == RemoveAt(mid, k) by {
      PairOrder(t, i, j);
    }
    assert a.parentId !in RowIds(s) && Inserted(s, mid, a) by {
      assert Removed(RowId, mid, s, a);
      RemovedIsInserted(RowId, mid, s, a);
    }
    IdsMoveWithRows(RowId, mid, k, a);
  }

  /** Where an inserted row stands, and that it alone is new. */
  lemma {:induction false} Located(s: seq<LedgerRow>, t: seq<LedgerRow>, row: LedgerRow) returns (k: nat)
    requires row.parentId !in RowIds(s) && Inserted(s, t, row)
    ensures k < |t| && OnlyAt(RowIds(t), row.parentId, k) && t[k] == row && s == RemoveAt(t, k)
    ensures forall other :: other !in RowIds(s) && other != row.parentId ==> other !in RowIds(t)
  {
    var i :| 0 <= i <= |s| && t == InsertAt(s, i, row);
    k := i;
    InsertedOnce(RowId, s, k, row);
    assert RowIds(t) == InsertAt(RowIds(s), k, row.parentId);
  }

  lemma {:induction false} PairPutIn(s: seq<LedgerRow>, t: seq<LedgerRow>, a: LedgerRow, b: LedgerRow) returns (i: nat, j: nat)
    requires a.parentId != b.parentId
    requires a.parentId !in RowIds(s) && b.parentId !in RowIds(s) && PairInserted(s, a, b, t)
    ensures i < |t| && j < |t| && OnlyAt(RowIds(t), a.parentId, i) && OnlyAt(RowIds(t), b.parentId, j)
    ensures t[i] == a && t[j] == b && i != j && s == RemovePair(t, i, j)
  {
    var mid :| Inserted(s, mid, a) && Inserted(mid, t, b);
    var k := Located(s, mid, a);
    j := Located(mid, t, b);
    i := OnlyBefore(t, j, a.parentId, k);
    PairOrder(t, i, j);
  }

  /** A row found after another was taken out was there before, one place later at most. */
  lemma {:induction false} OnlyBefore(t: seq<LedgerRow>, j: nat, id: string, k: nat) returns (i: nat)
    requires j < |t| && t[j].parentId != id && OnlyAt(RowIds(RemoveAt(t, j)), id, k)
    ensures i == if k < j then k else k + 1
    ensures OnlyAt(RowIds(t), id, i) && t[i] == RemoveAt(t, j)[k]
  {
    i := if k < j then k else k + 1;
    assert forall x :: 0 <= x < |t| && x != j ==> RowIds(t)[x] == RowIds(RemoveAt(t, j))[if x < j then x else x - 1];
  }

  lemma {:induction false} MappingTaken(s: seq<TransferMapping>, mapping: TransferMapping, tr: TransferIntent, t: seq<TransferMapping>)
    ensures TakeMapping(t, tr) == Ok((mapping, s)) <==> MappingEffect(s, mapping, tr, t)
  {
    if TakeMapping(t, tr) == Ok((mapping, s)) {
      assert Removed(TransferId, t, s, mapping);
      RemovedIsInserted(TransferId, t, s, mapping);
    }
    if MappingEffect(s, mapping, tr, t) {
      RemovedIsInserted(TransferId, t, s, mapping);
      RemovedIndex(TransferId, t, s, mapping);
    }
  }

  lemma {:induction false} PairTaken(s: seq<LedgerRow>, mapping: TransferMapping, tr: TransferIntent, t: seq<LedgerRow>)
    requires CanNegate(tr.amount.units)
    ensures TakePair(t, mapping, tr) == Ok(s) <==> PairEffect(s, mapping, tr, t)
  {
    var missing, duplicate := "postcondition_row_missing", "postcondition_row_duplicate";
    var source := OnlyIndex(RowIds(t), mapping.sourceRowId, missing, duplicate);
    var destination := OnlyIndex(RowIds(t), mapping.destinationRowId, missing, duplicate);
    if TakePair(t, mapping, tr) == Ok(s) {
      PairTakenOut(s, t, t[source.value], t[destination.value], source.value, destination.value);
    }
    if PairEffect(s, mapping, tr, t) {
      var p, q :| PairInserted(s, TransferRow(mapping.sourceRowId, tr, true, p),
                               TransferRow(mapping.destinationRowId, tr, false, q), t);
      var i, j := PairPutIn(s, t, TransferRow(mapping.sourceRowId, tr, true, p),
                            TransferRow(mapping.destinationRowId, tr, false, q));
      assert source == Ok(i) && destination == Ok(j);
    }
  }

  lemma {:induction false} SendUndone(s: Capture, tr: TransferIntent, t: Capture)
    requires WellFormed(Send(tr))
    ensures ReverseSend(t, tr) == Ok(s) <==> SendEffect(s, tr, t)
  {
    hide TakeMapping, TakePair, MappingEffect, PairEffect, AdjustAll, HoldsAll, Shifted;
    assert [(tr.sourceAccountId, tr.amount.units), (tr.destinationAccountId, Neg(tr.amount.units))]
        == Negated(SendDeltas(tr));
    SameRows(s.accounts, t.accounts, SendDeltas(tr), tr.amount.currency);
    SameRows(s.accountFacts, t.accountFacts, SendDeltas(tr), tr.amount.currency);
    var taken := TakeMapping(t.transfers, tr);
    if ReverseSend(t, tr) == Ok(s) {
      MappingTaken(s.transfers, taken.value.0, tr, t.transfers);
      PairTaken(s.transactions, taken.value.0, tr, t.transactions);
    }
    if SendEffect(s, tr, t) {
      var mapping :| MappingEffect(s.transfers, mapping, tr, t.transfers)
                     && PairEffect(s.transactions, mapping, tr, t.transactions);
      MappingTaken(s.transfers, mapping, tr, t.transfers);
      PairTaken(s.transactions, mapping, tr, t.transactions);
    }
  }

  /** One step is undone into exactly the ledgers it could have been performed on. */
  lemma {:induction false} StepUndone(s: Capture, step: Step, t: Capture)
    requires WellFormed(step)
    ensures ReverseStep(t, step) == Ok(s) <==> Effect(s, step, t)
  {
    match step
    case Move(m) => MoveUndone(s, m, t);
    case Post(tx) => PostUndone(s, tx, t);
    case Amend(expected, tx) => AmendUndone(s, expected, tx, t);
    case Open(walletId, name, currency) => OpenUndone(s, walletId, name, currency, t);
    case Send(tr) => SendUndone(s, tr, t);
  }

  ghost predicate AllWellFormed(steps: seq<Step>) {
    forall i :: 0 <= i < |steps| ==> WellFormed(steps[i])
  }

  function Earlier(steps: seq<Step>): (r: seq<Step>)
    requires steps != []
    ensures |r| == |steps| - 1 && forall i :: 0 <= i < |r| ==> r[i] == steps[i]
  {
    steps[..|steps| - 1]
  }

  /** The observed ledger t is s with the steps performed on it in order. */
  ghost predicate Performed(s: Capture, steps: seq<Step>, t: Capture)
    requires AllWellFormed(steps)
    decreases |steps|
  {
    if steps == [] then s == t
    else exists mid :: Performed(s, Earlier(steps), mid) && Effect(mid, steps[|steps| - 1], t)
  }

  /**
   * The undo law, both ways. Performing any sequence of well-formed steps and reversing them restores
   * the very same ledger; and whenever a reversal succeeds, the observed ledger is the restored one plus
   * exactly the steps' effects, free only in row positions, generated ids and transfer payee names.
   */
  lemma {:induction false} UndoIsInverse(s: Capture, steps: seq<Step>, t: Capture)
    requires AllWellFormed(steps)
    ensures ReverseSteps(t, steps) == Ok(s) <==> Performed(s, steps, t)
    decreases |steps|
  {
    if steps != [] {
      var last, earlier := steps[|steps| - 1], Earlier(steps);
      var mid := ReverseStep(t, last);
      if ReverseSteps(t, steps) == Ok(s) {
        StepUndone(mid.value, last, t);
        UndoIsInverse(s, earlier, mid.value);
      }
      if Performed(s, steps, t) {
        var between :| Performed(s, earlier, between) && Effect(between, last, t);
        StepUndone(between, last, t);
        UndoIsInverse(s, earlier, between);
      }
    }
  }
}
