/** The postconditions a plan lists for its action, and their check against an observed ledger. */
module Postconditions {
  import opened CheckedMoney
  import opened Rows
  import opened Text
  import opened Action
  import opened Outflow
  import opened Dispatch
  import opened Envelopes
  import opened Planner
  import opened PlanAction
  import opened PlanLaws
  import opened PlanOutcome
  import opened Undo
  import opened PlanEffects
  import opened Ledger

  // The check of post-write verification: first matches, row by row.

  /** The transaction of the first atom that writes a row of this identity. */
  function FirstWriter(atoms: seq<Atom>, parentId: string): Option<Transaction> {
    if atoms == [] then None
    else if WritesRow(atoms[0]) && atoms[0].transaction.parentId == parentId then Some(atoms[0].transaction)
    else FirstWriter(atoms[1..], parentId)
  }

  predicate WritesRow(atom: Atom) {
    atom.ManualTransaction? || atom.EvidenceProjection? || atom.EvidenceCredit? || atom.EvidenceAmendment?
  }

  predicate RowMatches(ledger: Capture, tx: Transaction) {
    var index := OnlyIndex(RowIds(ledger.transactions), tx.parentId, "missing", "duplicate");
    index.Ok? && ledger.transactions[index.value] == RowOf(tx)
  }

  predicate WalletMatches(ledger: Capture, walletId: string, name: string, currency: string) {
    walletId in WalletIds(ledger.wallets)
    && var accountId := ledger.wallets[IndexOf(WalletIds(ledger.wallets), walletId)].accountId;
       accountId in KeysOf(ledger.accounts)
       && var account := ledger.accounts[IndexOf(KeysOf(ledger.accounts), accountId)];
          account.rest.name == name && account.rest.onBudget && !account.rest.closed
          && account.money == Money(0, currency) && account.rest.currency == currency
  }

  predicate TransferMatches(ledger: Capture, t: TransferIntent) {
    t.transferId in TransferIds(ledger.transfers)
    && var m := ledger.transfers[IndexOf(TransferIds(ledger.transfers), t.transferId)];
       m.correlationId == t.correlationId && m.sourceAccountId == t.sourceAccountId && m.destinationAccountId == t.destinationAccountId
       && m.amount == t.amount && m.date == t.date && MappingSound(ledger, m)
  }

  predicate AtomMet(atoms: seq<Atom>, atom: Atom, ledger: Capture) {
    match atom
    case Reallocation(_) => true
    case WalletMaterialization(walletId, name, currency) => WalletMatches(ledger, walletId, name, currency)
    case Transfer(t) => TransferMatches(ledger, t)
    case _ =>
      var first := FirstWriter(atoms, atom.transaction.parentId);
      first.Some? && RowMatches(ledger, first.value)
  }

  predicate CellMet<K(==), R>(rows: seq<NamedMoney<K, R>>, k: K, money: Money) {
    exists i :: 0 <= i < |rows| && rows[i].key == k && rows[i].money == money
  }

  /** Every promised assignment, balance, row, wallet and transfer is in the ledger. */
  predicate Met(atoms: seq<Atom>, d: Derived, ledger: Capture) {
    (forall slot :: slot in d.assignments ==> CellMet(ledger.assignments, slot, d.assignments[slot]))
    && (forall a :: a in d.balances ==> CellMet(ledger.accounts, a, d.balances[a]))
    && forall i :: 0 <= i < |atoms| ==> AtomMet(atoms, atoms[i], ledger)
  }

  // What planning has seen of each step in the ledger it planned on.

  ghost predicate Admitted(ledger: Capture, step: Step) {
    match step
    case Move(_) => true
    case Open(_, _, _) => true
    case Post(tx) => tx.parentId !in RowIds(ledger.transactions) && tx.accountId in KeysOf(ledger.accounts)
    case Amend(expected, tx) =>
      expected.parentId == tx.parentId && tx.parentId in RowIds(ledger.transactions)
      && ledger.transactions[IndexOf(RowIds(ledger.transactions), tx.parentId)] == expected
      && RowOf(tx) != expected && expected.transferAccountId.None?
    case Send(t) => t.sourceAccountId in KeysOf(ledger.accounts) && t.destinationAccountId in KeysOf(ledger.accounts)
  }

  ghost predicate AllAdmitted(ledger: Capture, steps: seq<Step>) {
    forall k :: 0 <= k < |steps| ==> Admitted(ledger, steps[k])
  }

  lemma {:induction false} RowsSeen(ledger: Capture, steps: seq<Step>)
    ensures forall id :: id in RowIds(ledger.transactions) ==> id in SeenAfter(ledger, steps).rows
  {
    if steps != [] {
      RowsSeen(ledger, steps[..|steps| - 1]);
    }
  }

  lemma {:induction false} ManualAdmitted(r: Request, before: seq<Step>, tx: Transaction)
    requires ManualAccepted(r, before, tx)
    ensures Admitted(r.ledger, Post(tx))
  {
    RowsSeen(r.ledger, before);
    hide SeenAfter, OutflowReady, SpentInAll, Affordable, StepReady, Identified, PurchaseShape;
  }

  lemma {:induction false} CreditAdmitted(r: Request, before: seq<Step>, tx: Transaction)
    requires CreditAccepted(r, before, tx)
    ensures Admitted(r.ledger, Post(tx))
  {
    RowsSeen(r.ledger, before);
    hide SeenAfter, StepReady, Identified;
  }

  lemma {:induction false} AmendAdmitted(r: Request, expected: LedgerRow, tx: Transaction)
    requires AmendShape(r, expected, tx)
    ensures Admitted(r.ledger, Amend(expected, tx))
  {
    hide EvidenceShape, NormalizedPayee;
  }

  lemma {:induction false} SendAdmitted(r: Request, before: seq<Step>, t: TransferIntent)
    requires TransferAccepted(r, before, t)
    ensures Admitted(r.ledger, Send(t))
  {
    hide SeenAfter, OutflowReady, StepReady, Fresh;
  }

  lemma {:induction false} AtomAdmitted(r: Request, before: seq<Step>, atom: Atom)
    requires AtomAccepted(r, before, atom)
    ensures AllAdmitted(r.ledger, StepsOf(atom))
  {
    hide MovesAccepted, ManualAccepted, CreditAccepted, AmendShape, TransferAccepted, WalletShape, Fresh;
    match atom
    case Reallocation(moves) =>
    case ManualTransaction(tx) => ManualAdmitted(r, before, tx);
    case EvidenceProjection(tx, _) => ManualAdmitted(r, before, tx);
    case EvidenceCredit(tx, _) => CreditAdmitted(r, before, tx);
    case EvidenceAmendment(expected, tx, _) => AmendAdmitted(r, expected, tx);
    case WalletMaterialization(_, _, _) =>
    case Transfer(t) => SendAdmitted(r, before, t);
  }

  lemma {:induction false} AdmittedConcat(ledger: Capture, a: seq<Step>, b: seq<Step>)
    requires AllAdmitted(ledger, a) && AllAdmitted(ledger, b)
    ensures AllAdmitted(ledger, a + b)
  {
    hide Admitted;
  }

  lemma {:induction false} PrefixAdmitted(r: Request, atoms: seq<Atom>, i: nat)
    requires i <= |atoms| && AtomsAccepted(r, atoms)
    ensures AllAdmitted(r.ledger, Steps(atoms[..i]))
  {
    if i > 0 {
      hide AtomAccepted, Steps, AtomsAccepted, AllAdmitted;
      AcceptedAt(r, atoms, i - 1);
      PrefixAdmitted(r, atoms, i - 1);
      NextAtom(atoms, i - 1);
      AtomAdmitted(r, Steps(atoms[..i - 1]), atoms[i - 1]);
      AdmittedConcat(r.ledger, Steps(atoms[..i - 1]), StepsOf(atoms[i - 1]));
    }
  }

  lemma {:induction false} PlanAdmitted(r: Request, atoms: seq<Atom>)
    requires Plannable(r, atoms)
    ensures AllAdmitted(r.ledger, Steps(atoms))
  {
    hide AtomsAccepted, AllAdmitted, Dispatchable, ChargesSound, CartBought, PathsCovered, Steps;
    PrefixAdmitted(r, atoms, |atoms|);
    assert atoms[..|atoms|] == atoms;
  }

  lemma {:induction false} SameAdmitted(a: Capture, b: Capture, steps: seq<Step>)
    requires SameBooks(a, b) && AllAdmitted(a, steps)
    ensures AllAdmitted(b, steps)
  {
    hide NormalizedPayee;
    forall k | 0 <= k < |steps|
      ensures Admitted(b, steps[k])
    {
      assert Admitted(a, steps[k]);
    }
  }

  // A performed plan meets its postconditions.

  /** No planned amendment expects a row that the plan itself writes. */
  lemma {:induction false} NeverRewritten(ledger: Capture, writer: Step, step: Step, row: LedgerRow)
    requires Admitted(ledger, writer) && Admitted(ledger, step) && Writes(writer, row)
    ensures Spares(step, row)
  {
    hide NormalizedPayee;
  }

  lemma {:induction false} StepAt(atoms: seq<Atom>, i: nat) returns (k: nat)
    requires i < |atoms| && !atoms[i].Reallocation?
    ensures k < |Steps(atoms)| && Steps(atoms)[k] == StepsOf(atoms[i])[0]
  {
    var rest := StepsSplit(atoms, i + 1);
    NextAtom(atoms, i);
    k := |Steps(atoms[..i])|;
  }

  lemma {:induction false} FirstWriterFound(atoms: seq<Atom>, i: nat) returns (j: nat)
    requires i < |atoms| && WritesRow(atoms[i])
    ensures j <= i && WritesRow(atoms[j])
    ensures FirstWriter(atoms, atoms[i].transaction.parentId) == Some(atoms[j].transaction)
  {
    if WritesRow(atoms[0]) && atoms[0].transaction.parentId == atoms[i].transaction.parentId {
      j := 0;
    } else {
      var n := FirstWriterFound(atoms[1..], i - 1);
      j := n + 1;
    }
  }

  lemma {:induction false} SoleMatches(ledger: Capture, tx: Transaction)
    requires Sole(RowId, ledger.transactions, RowOf(tx))
    ensures RowMatches(ledger, tx)
  {
    hide NormalizedPayee;
    var i :| OnlyAt(IdsBy(RowId, ledger.transactions), RowId(RowOf(tx)), i) && ledger.transactions[i] == RowOf(tx);
    assert OnlyAt(RowIds(ledger.transactions), tx.parentId, i);
  }

  lemma {:induction false} SoleFirst<T, K>(id: T -> K, rows: seq<T>, row: T)
    requires Sole(id, rows, row)
    ensures id(row) in IdsBy(id, rows) && rows[IndexOf(IdsBy(id, rows), id(row))] == row
  {
  }

  lemma {:induction false} RowMet(s: Capture, atoms: seq<Atom>, t: Capture, i: nat)
    requires AllWellFormed(Steps(atoms)) && Performed(s, Steps(atoms), t) && AllAdmitted(s, Steps(atoms))
    requires i < |atoms| && WritesRow(atoms[i])
    ensures AtomMet(atoms, atoms[i], t)
  {
    hide Performed, Steps, Admitted, RowMatches, Sole, RowOf, FirstWriter;
    var j := FirstWriterFound(atoms, i);
    var k := StepAt(atoms, j);
    var row := RowOf(atoms[j].transaction);
    assert Writes(Steps(atoms)[k], row);
    forall n | k < n < |Steps(atoms)|
      ensures Spares(Steps(atoms)[n], row)
    {
      NeverRewritten(s, Steps(atoms)[k], Steps(atoms)[n], row);
    }
    hide Writes, Spares;
    WrittenStays(s, Steps(atoms), t, k, row);
    SoleMatches(t, atoms[j].transaction);
  }

  lemma {:induction false} SentMatches(ledger: Capture, t: TransferIntent)
    requires t.amount.units > 0 && ValidDate(t.date) && t.sourceAccountId != t.destinationAccountId && TransferRecorded(ledger, t)
    ensures TransferMatches(ledger, t)
  {
    hide Sole, ValidDate;
    var mapping, p, q :| SentAs(ledger, t, mapping, p, q);
    SoleFirst(TransferId, ledger.transfers, mapping);
    SoleFirst(RowId, ledger.transactions, TransferRow(mapping.sourceRowId, t, true, p));
    SoleFirst(RowId, ledger.transactions, TransferRow(mapping.destinationRowId, t, false, q));
  }

  lemma {:induction false} TransferMet(s: Capture, atoms: seq<Atom>, t: Capture, i: nat)
    requires AllWellFormed(Steps(atoms)) && Performed(s, Steps(atoms), t) && AllAdmitted(s, Steps(atoms))
    requires i < |atoms| && atoms[i].Transfer?
    ensures AtomMet(atoms, atoms[i], t)
  {
    hide Performed, Steps, TransferMatches, TransferRecorded;
    var k := StepAt(atoms, i);
    SentStays(s, Steps(atoms), t, k);
    SentMatches(t, atoms[i].transfer);
  }

  lemma {:induction false} OpenedMatches(ledger: Capture, base: set<string>, walletId: string, name: string, currency: string)
    requires WalletOpened(ledger, base, walletId, name, currency)
    ensures WalletMatches(ledger, walletId, name, currency)
  {
    hide Sole;
    var id :| OpenedAs(ledger, base, walletId, name, currency, id);
    SoleFirst(WalletId, ledger.wallets, WalletMapping(walletId, id));
    SoleFirst(KeyOf, ledger.accounts, NamedMoney(id, Money(0, currency), AccountInfo(name, true, false, currency)));
  }

  lemma {:induction false} WalletMet(s: Capture, atoms: seq<Atom>, t: Capture, i: nat)
    requires AllWellFormed(Steps(atoms)) && Performed(s, Steps(atoms), t) && AllAdmitted(s, Steps(atoms))
    requires i < |atoms| && atoms[i].WalletMaterialization?
    ensures AtomMet(atoms, atoms[i], t)
  {
    hide Performed, Steps, WalletMatches, WalletOpened;
    var k := StepAt(atoms, i);
    var base := set a | a in KeysOf(s.accounts);
    OpenedStays(s, base, Steps(atoms), t, k);
    OpenedMatches(t, base, atoms[i].walletId, atoms[i].accountName, atoms[i].currency);
  }

  lemma {:induction false} KeptCell<K, R>(rows: seq<NamedMoney<K, R>>, k: K, money: Money)
    requires Lookup(rows, k) == Some(money)
    ensures CellMet(rows, k, money)
  {
    assert rows[IndexOf(KeysOf(rows), k)].key == k;
  }

  lemma {:induction false} KeptCells(d: Derived, t: Capture)
    requires Kept(d, t)
    ensures forall slot :: slot in d.assignments ==> CellMet(t.assignments, slot, d.assignments[slot])
    ensures forall a :: a in d.balances ==> CellMet(t.accounts, a, d.balances[a])
  {
    hide Lookup, CellMet;
    forall slot | slot in d.assignments
      ensures CellMet(t.assignments, slot, d.assignments[slot])
    {
      KeptCell(t.assignments, slot, d.assignments[slot]);
    }
    forall a | a in d.balances
      ensures CellMet(t.accounts, a, d.balances[a])
    {
      KeptCell(t.accounts, a, d.balances[a]);
    }
  }

  /** On every ledger a planned action leads to, all its postconditions are met, those of earlier atoms included. */
  lemma {:induction false} PerformedMeets(r: Request, atoms: seq<Atom>, d: Derived, s: Capture, t: Capture)
    requires Plannable(r, atoms) && Promises(r, atoms, d) && AmendmentsNegatable(atoms) && SameBooks(r.ledger, s)
    requires AllWellFormed(Steps(atoms)) && Performed(s, Steps(atoms), t)
    ensures Met(atoms, d, t) && ReverseSteps(t, Steps(atoms)) == Ok(s)
  {
    hide Plannable, Promises, AmendmentsNegatable, Performed, AllWellFormed, ReverseSteps, Steps, Kept, AtomMet, AllAdmitted, CellMet, SameBooks;
    PlanReached(r, atoms, d, s, t);
    PlanAdmitted(r, atoms);
    SameAdmitted(r.ledger, s, Steps(atoms));
    KeptCells(d, t);
    forall i | 0 <= i < |atoms|
      ensures AtomMet(atoms, atoms[i], t)
    {
      match atoms[i] {
        case Reallocation(_) => Unlisted(atoms, atoms[i], t);
        case WalletMaterialization(_, _, _) => WalletMet(s, atoms, t, i);
        case Transfer(_) => TransferMet(s, atoms, t, i);
        case _ => RowMet(s, atoms, t, i);
      }
    }
  }

  lemma {:induction false} Unlisted(atoms: seq<Atom>, atom: Atom, t: Capture)
    requires atom.Reallocation?
    ensures AtomMet(atoms, atom, t)
  {
  }
}
