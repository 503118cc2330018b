/** The working copy that post-write verification edits until the approved source reappears. */
module Restorer {
  import opened CheckedMoney
  import opened Rows
  import opened Text
  import opened Action
  import opened Undo

  datatype Reason = PostconditionMismatch | SourceChanged

  /** Which failures say the effect is absent, and which say something else moved. */
  function ReasonOf(error: string): Reason {
    if error in {"manual_postcondition_mismatch", "wallet_postcondition_mismatch", "wallet_mapping_missing",
                 "postcondition_row_missing", "postcondition_row_duplicate", "transfer_postcondition_mismatch",
                 "transfer_mapping_missing", "transfer_pair_not_distinct"}
    then PostconditionMismatch
    else SourceChanged
  }

  datatype Outcome = Done | Refused(reason: Reason)

  function OutcomeOf<T>(r: Result<T>): Outcome {
    if r.Ok? then Done else Refused(ReasonOf(r.error))
  }

  /** Linear search for the one row with this key. */
  method UniqueRowIndex<K(==)>(keys: seq<K>, k: K, missing: string, duplicate: string) returns (r: Result<nat>)
    ensures r == OnlyIndex(keys, k, missing, duplicate)
  {
    r := Err(missing);
    for i := 0 to |keys|
      invariant r.Err? ==> r.error == missing && k !in keys[..i]
      invariant r.Ok? ==> r.value < i && keys[r.value] == k && forall j :: 0 <= j < i && keys[j] == k ==> j == r.value
    {
      if keys[i] == k {
        if r.Ok? {
          assert !OnlyAt(keys, k, i) && forall j :: OnlyAt(keys, k, j) ==> j == i;
          return Err(duplicate);
        }
        r := Ok(i);
      }
    }
    assert r.Ok? ==> OnlyAt(keys, k, r.value);
  }

  /** One money cell changed in place, with its key, currency and range checked. */
  method AdjustRow<K(==), R>(rows: seq<NamedMoney<K, R>>, k: K, delta: i64, currency: string)
    returns (r: Result<seq<NamedMoney<K, R>>>)
    ensures r == AdjustNamedMoney(rows, k, delta, currency)
  {
    var found := UniqueRowIndex(KeysOf(rows), k, "source_target_missing", "duplicate_source_target");
    if found.Err? {
      return Err(found.error);
    }
    var i := found.value;
    var current := rows[i].money;
    if !ValidCurrency(current.currency) {
      return Err("invalid_currency");
    }
    if current.currency != currency {
      return Err("money_currency_mismatch");
    }
    var units :- CheckedAdd(current.units, delta);
    r := Ok(rows[i := rows[i].(money := Money(units, currency))]);
  }

  method AdjustRows<K(==), R>(rows: seq<NamedMoney<K, R>>, deltas: seq<(K, i64)>, currency: string)
    returns (r: Result<seq<NamedMoney<K, R>>>)
    ensures r == AdjustAll(rows, deltas, currency)
  {
    var current := rows;
    for i := 0 to |deltas|
      invariant AdjustAll(rows, deltas, currency) == AdjustAll(current, deltas[i..], currency)
    {
      assert deltas[i..][1..] == deltas[i + 1..];
      current :- AdjustRow(current, deltas[i].0, deltas[i].1, currency);
    }
    r := Ok(current);
  }

  /**
   * The card and ledger values that reversal edits in place. A failed edit leaves them half edited;
   * the verification that owns them then gives up.
   */
  class WorkingCopy {
    var accounts: seq<NamedMoney<string, AccountInfo>>
    var assignments: seq<NamedMoney<Slot, NoInfo>>
    var wallets: seq<WalletMapping>
    var transactions: seq<LedgerRow>
    var transfers: seq<TransferMapping>
    var accountFacts: seq<NamedMoney<string, AccountFactInfo>>
    var categoryFacts: seq<NamedMoney<Slot, CategoryFactInfo>>

    function View(): Capture
      reads this
    {
      Capture(accounts, assignments, wallets, transactions, transfers, accountFacts, categoryFacts)
    }

    constructor (observed: Capture)
      ensures View() == observed
    {
      accounts, assignments, wallets := observed.accounts, observed.assignments, observed.wallets;
      transactions, transfers := observed.transactions, observed.transfers;
      accountFacts, categoryFacts := observed.accountFacts, observed.categoryFacts;
    }

    /** The edit finished with the specified capture, or stopped with the specified error. */
    ghost predicate Agrees(specified: Result<Capture>, failure: Option<string>)
      reads this
    {
      specified == if failure.None? then Ok(View()) else Err(failure.value)
    }

    method ReverseMovement(m: Movement) returns (failure: Option<string>)
      modifies this
      ensures Agrees(ReverseMove(old(View()), m), failure)
    {
      if m.amount.units <= 0 {
        return Some("invalid_reallocation_amount");
      }
      var deltas := [(m.source, m.amount.units), (m.destination, Neg(m.amount.units))];
      var newAssignments := AdjustRows(assignments, deltas, m.amount.currency);
      if newAssignments.Err? {
        return Some(newAssignments.error);
      }
      assignments := newAssignments.value;
      var newFacts := AdjustRows(categoryFacts, deltas, m.amount.currency);
      if newFacts.Err? {
        return Some(newFacts.error);
      }
      categoryFacts := newFacts.value;
      failure := None;
    }

    method ReverseReallocation(moves: seq<Movement>) returns (failure: Option<string>)
      modifies this
      ensures Agrees(ReverseSteps(old(View()), MoveSteps(moves)), failure)
    {
      var n := |moves|;
      assert MoveSteps(moves)[..n] == MoveSteps(moves);
      while n > 0
        invariant 0 <= n <= |moves|
        invariant ReverseSteps(old(View()), MoveSteps(moves)) == ReverseSteps(View(), MoveSteps(moves)[..n])
      {
        var last := MoveSteps(moves)[..n];
        assert last[..n - 1] == MoveSteps(moves)[..n - 1];
        failure := ReverseMovement(moves[n - 1]);
        if failure.Some? {
          return;
        }
        n := n - 1;
      }
      failure := None;
    }

    method ReversePosted(tx: Transaction) returns (failure: Option<string>)
      modifies this
      ensures Agrees(ReversePost(old(View()), tx), failure)
    {
      hide ReverseDeltas, AdjustAll, TransactionDeltas, AdjustNamedMoney, MonthOf;
      var index := UniqueRowIndex(RowIds(transactions), tx.parentId, "postcondition_row_missing", "postcondition_row_duplicate");
      if index.Err? {
        return Some(index.error);
      }
      if transactions[index.value] != RowOf(tx) {
        return Some("manual_postcondition_mismatch");
      }
      transactions := RemoveAt(transactions, index.value);
      var inverse := CheckedNeg(tx.amount.units);
      if inverse.Err? {
        return Some(inverse.error);
      }
      var newAccounts := AdjustRow(accounts, tx.accountId, inverse.value, tx.amount.currency);
      if newAccounts.Err? {
        return Some(newAccounts.error);
      }
      accounts := newAccounts.value;
      var newAccountFacts := AdjustRow(accountFacts, tx.accountId, inverse.value, tx.amount.currency);
      if newAccountFacts.Err? {
        return Some(newAccountFacts.error);
      }
      accountFacts := newAccountFacts.value;
      failure := ReverseCategories(tx);
    }

    method ReverseCategories(tx: Transaction) returns (failure: Option<string>)
      modifies this`categoryFacts
      ensures var month := MonthOf(tx.date);
              var deltas := if month.None? then Err("invalid_transaction_date")
                            else ReverseDeltas(TransactionDeltas(tx, month.value));
              var facts := if deltas.Err? then Err(deltas.error)
                           else AdjustAll(old(categoryFacts), deltas.value, tx.amount.currency);
              facts == if failure.None? then Ok(categoryFacts) else Err(failure.value)
    {
      if MonthOf(tx.date).None? {
        return Some("invalid_transaction_date");
      }
      var deltas := ReverseDeltas(TransactionDeltas(tx, MonthOf(tx.date).value));
      if deltas.Err? {
        return Some(deltas.error);
      }
      var newFacts := AdjustRows(categoryFacts, deltas.value, tx.amount.currency);
      if newFacts.Err? {
        return Some(newFacts.error);
      }
      categoryFacts := newFacts.value;
      failure := None;
    }

    method ReverseAmended(expected: LedgerRow, tx: Transaction) returns (failure: Option<string>)
      modifies this
      ensures Agrees(ReverseAmend(old(View()), expected, tx), failure)
    {
      var index := UniqueRowIndex(RowIds(transactions), tx.parentId, "postcondition_row_missing", "postcondition_row_duplicate");
      if index.Err? {
        return Some(index.error);
      }
      if transactions[index.value] != RowOf(tx) {
        return Some("amendment_postcondition_mismatch");
      }
      transactions := transactions[index.value := expected];
      failure := ReverseCategories(tx);
      if failure.Some? {
        return;
      }
      var newFacts := AdjustRows(categoryFacts, RowDeltas(expected, MonthOf(tx.date).value), tx.amount.currency);
      if newFacts.Err? {
        return Some(newFacts.error);
      }
      categoryFacts := newFacts.value;
    }

    method ReverseOpened(walletId: string, name: string, currency: string) returns (failure: Option<string>)
      modifies this
      ensures Agrees(ReverseOpen(old(View()), walletId, name, currency), failure)
    {
      var missing, duplicate := "postcondition_row_missing", "postcondition_row_duplicate";
      var mapping := UniqueRowIndex(WalletIds(wallets), walletId, missing, duplicate);
      if mapping.Err? {
        return Some(mapping.error);
      }
      var id := wallets[mapping.value].accountId;
      var account := UniqueRowIndex(KeysOf(accounts), id, missing, duplicate);
      if account.Err? {
        return Some(account.error);
      }
      var row := accounts[account.value];
      if !ValidCurrency(row.money.currency) {
        return Some("invalid_currency");
      }
      if row.rest != AccountInfo(name, true, false, currency) || row.money != Money(0, currency) {
        return Some("wallet_postcondition_mismatch");
      }
      var fact := UniqueRowIndex(KeysOf(accountFacts), id, missing, duplicate);
      if fact.Err? {
        return Some(fact.error);
      }
      var info := accountFacts[fact.value];
      if info.rest.currency != currency || !info.rest.onBudget || info.rest.closed || info.money != Money(0, currency) {
        return Some("wallet_source_postcondition_mismatch");
      }
      accounts := RemoveAt(accounts, account.value);
      wallets := RemoveAt(wallets, mapping.value);
      accountFacts := RemoveAt(accountFacts, fact.value);
      failure := None;
    }

    method ReverseTransfer(t: TransferIntent) returns (failure: Option<string>)
      modifies this
      ensures Agrees(ReverseSend(old(View()), t), failure)
    {
      hide TakeMapping, TakePair, ValidDate, AdjustAll;
      if t.amount.units <= 0 || !ValidDate(t.date) {
        return Some("transfer_postcondition_mismatch");
      }
      var taken := TakeMapping(transfers, t);
      if taken.Err? {
        return Some(taken.error);
      }
      var rows := TakePair(transactions, taken.value.0, t);
      if rows.Err? {
        return Some(rows.error);
      }
      transactions, transfers := rows.value, taken.value.1;
      var deltas := [(t.sourceAccountId, t.amount.units), (t.destinationAccountId, Neg(t.amount.units))];
      var newAccounts := AdjustRows(accounts, deltas, t.amount.currency);
      if newAccounts.Err? {
        return Some(newAccounts.error);
      }
      accounts := newAccounts.value;
      var newFacts := AdjustRows(accountFacts, deltas, t.amount.currency);
      if newFacts.Err? {
        return Some(newFacts.error);
      }
      accountFacts := newFacts.value;
      failure := None;
    }

    method ReverseAtom(atom: Atom) returns (failure: Option<string>)
      modifies this
      ensures Agrees(ReverseSteps(old(View()), StepsOf(atom)), failure)
    {
      match atom {
        case Reallocation(moves) => failure := ReverseReallocation(moves);
        case ManualTransaction(tx) => failure := ReversePosted(tx);
        case EvidenceProjection(tx, _) => failure := ReversePosted(tx);
        case EvidenceCredit(tx, _) => failure := ReversePosted(tx);
        case EvidenceAmendment(expected, tx, _) => failure := ReverseAmended(expected, tx);
        case WalletMaterialization(id, name, currency) => failure := ReverseOpened(id, name, currency);
        case Transfer(t) => failure := ReverseTransfer(t);
      }
    }

    /**
     * Undo every atom, the last first. Success leaves exactly the one ledger the plan can have been
     * performed on; there is success whenever there is such a ledger.
     */
    method Restore(atoms: seq<Atom>) returns (outcome: Outcome)
      modifies this
      ensures outcome == OutcomeOf(ReverseSteps(old(View()), Steps(atoms)))
      ensures outcome.Done? ==> ReverseSteps(old(View()), Steps(atoms)) == Ok(View())
      ensures AllWellFormed(Steps(atoms)) && outcome.Done? ==> Performed(View(), Steps(atoms), old(View()))
      ensures AllWellFormed(Steps(atoms)) && outcome.Refused? ==> !exists source :: Performed(source, Steps(atoms), old(View()))
    {
      hide AllWellFormed, Performed, ReverseSteps, Steps, StepsOf;
      var n := |atoms|;
      assert atoms[..n] == atoms;
      while n > 0
        invariant 0 <= n <= |atoms|
        invariant ReverseSteps(old(View()), Steps(atoms)) == ReverseSteps(View(), Steps(atoms[..n]))
      {
        LastAtom(atoms[..n]);
        assert atoms[..n][..n - 1] == atoms[..n - 1];
        ReverseAppended(View(), Steps(atoms[..n - 1]), StepsOf(atoms[n - 1]));
        var failure := ReverseAtom(atoms[n - 1]);
        if failure.Some? {
          outcome := Refused(ReasonOf(failure.value));
          ghost var was := old(View());
          if AllWellFormed(Steps(atoms)) {
            forall source ensures !Performed(source, Steps(atoms), was) {
              UndoIsInverse(source, Steps(atoms), was);
            }
          }
          return;
        }
        n := n - 1;
      }
      outcome := Done;
      NothingReversed(View());
      if AllWellFormed(Steps(atoms)) {
        UndoIsInverse(View(), Steps(atoms), old(View()));
      }
    }
  }

  lemma {:induction false} LastAtom(atoms: seq<Atom>)
    requires atoms != []
    ensures Steps(atoms) == Steps(atoms[..|atoms| - 1]) + StepsOf(atoms[|atoms| - 1])
  {
  }

  lemma {:induction false} NothingReversed(c: Capture)
    ensures ReverseSteps(c, Steps([])) == Ok(c)
  {
  }

  lemma {:induction false} ReverseAppended(c: Capture, first: seq<Step>, second: seq<Step>)
    ensures ReverseSteps(c, first + second)
         == var later := ReverseSteps(c, second); if later.Err? then later else ReverseSteps(later.value, first)
    decreases |second|
  {
    hide ReverseStep;
    if second == [] {
      assert first + second == first;
    } else {
      var all := first + second;
      assert all[..|all| - 1] == first + second[..|second| - 1];
      var next := ReverseStep(c, second[|second| - 1]);
      if next.Ok? {
        ReverseAppended(next.value, first, second[..|second| - 1]);
      }
    }
  }
}
