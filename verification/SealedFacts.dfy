/** What the invariants hash leaves out of a ledger: the account facts whose paths the plan lists as invalidated. */
module SealedFacts {
  import opened CheckedMoney
  import opened Rows
  import opened Action
  import opened PlanOutcome
  import opened Supplemental

  const NO_EVIDENCE := FactEvidence("", "", None, None, [])

  type FactRow = NamedMoney<string, AccountFactInfo>

  function BlankFact(row: FactRow, paths: seq<FactPath>): FactRow {
    row.(rest := row.rest.(currency := if CurrencyValue in paths then "" else row.rest.currency,
                           evidence := if CurrencyEvidence in paths then NO_EVIDENCE else row.rest.evidence))
  }

  /** Only the first fact of the account is blanked. */
  function BlankFirst(rows: seq<FactRow>, i: Invalidation): (r: seq<FactRow>)
    ensures KeysOf(r) == KeysOf(rows)
  {
    if i.accountId in KeysOf(rows) then
      var at := IndexOf(KeysOf(rows), i.accountId);
      rows[at := BlankFact(rows[at], i.paths)]
    else rows
  }

  function BlankRows(rows: seq<FactRow>, facts: seq<Invalidation>): (r: seq<FactRow>)
    ensures KeysOf(r) == KeysOf(rows)
  {
    if facts == [] then rows else BlankFirst(BlankRows(rows, facts[..|facts| - 1]), facts[|facts| - 1])
  }

  function Blanked(c: Capture, facts: seq<Invalidation>): Capture {
    c.(accountFacts := BlankRows(c.accountFacts, facts))
  }

  // What the ledger itself says once a listed fact is no longer attested.

  const NOT_EXPOSED := FactEvidence("unknown", "actual_ledger", None, None, ["account_currency_not_exposed"])

  predicate FactCleared(c: Capture, i: Invalidation) {
    i.accountId in KeysOf(c.accountFacts) && i.accountId in KeysOf(c.accounts)
    && var fact := c.accountFacts[IndexOf(KeysOf(c.accountFacts), i.accountId)].rest;
       (CurrencyValue in i.paths ==> fact.currency == CurrencyOf(c, i.accountId))
       && (CurrencyEvidence in i.paths ==> fact.evidence == NOT_EXPOSED)
  }

  /** Every listed currency is the ledger's own again, and its evidence says that it is not known any more. */
  predicate FactsCleared(c: Capture, facts: seq<Invalidation>) {
    forall k :: 0 <= k < |facts| ==> FactCleared(c, facts[k])
  }

  // What two ledgers with the same blanked form have in common.

  /** The path is listed for the account, and this is the fact it is listed of. */
  ghost predicate ListedOf(rows: seq<FactRow>, k: nat, facts: seq<Invalidation>, path: FactPath)
    requires k < |rows|
  {
    IndexOf(KeysOf(rows), rows[k].key) == k
    && exists i :: 0 <= i < |facts| && facts[i].accountId == rows[k].key && path in facts[i].paths
  }

  ghost predicate SameFact(a: FactRow, b: FactRow, currencyListed: bool, evidenceListed: bool) {
    a.key == b.key && a.money == b.money && a.rest.onBudget == b.rest.onBudget && a.rest.closed == b.rest.closed
    && (currencyListed || a.rest.currency == b.rest.currency) && (evidenceListed || a.rest.evidence == b.rest.evidence)
  }

  /** The same ledger but for the listed currencies and their evidence. */
  ghost predicate SameBut(a: Capture, b: Capture, facts: seq<Invalidation>) {
    SameBooks(a, b) && |a.accountFacts| == |b.accountFacts|
    && forall k :: 0 <= k < |a.accountFacts| ==>
         SameFact(a.accountFacts[k], b.accountFacts[k], ListedOf(a.accountFacts, k, facts, CurrencyValue),
                    ListedOf(a.accountFacts, k, facts, CurrencyEvidence))
  }

  lemma {:induction false} BlankedAt(rows: seq<FactRow>, facts: seq<Invalidation>, k: nat)
    requires k < |rows|
    ensures var r := BlankRows(rows, facts);
            |r| == |rows|
            && r[k] == rows[k].(rest := rows[k].rest.(
                         currency := if ListedOf(rows, k, facts, CurrencyValue) then "" else rows[k].rest.currency,
                         evidence := if ListedOf(rows, k, facts, CurrencyEvidence) then NO_EVIDENCE else rows[k].rest.evidence))
  {
    assert KeysOf(rows)[k] == rows[k].key;
    if facts != [] {
      var front, last := facts[..|facts| - 1], facts[|facts| - 1];
      BlankedAt(rows, front, k);
      ListedThen(rows, k, front, last, CurrencyValue);
      ListedThen(rows, k, front, last, CurrencyEvidence);
      assert facts == front + [last];
      hide ListedOf;
      var before := BlankRows(rows, front);
      assert KeysOf(before)[k] == before[k].key;
    }
  }

  lemma {:induction false} ListedThen(rows: seq<FactRow>, k: nat, front: seq<Invalidation>, last: Invalidation, path: FactPath)
    requires k < |rows|
    ensures ListedOf(rows, k, front + [last], path)
            <==> ListedOf(rows, k, front, path)
                 || (IndexOf(KeysOf(rows), rows[k].key) == k && last.accountId == rows[k].key && path in last.paths)
  {
    var facts := front + [last];
    assert facts[|front|] == last;
    assert forall i :: 0 <= i < |front| ==> facts[i] == front[i];
  }

  lemma {:induction false} ListedAlike(a: seq<FactRow>, b: seq<FactRow>, facts: seq<Invalidation>)
    requires KeysOf(a) == KeysOf(b)
    ensures |a| == |b|
    ensures forall k, path :: 0 <= k < |a| ==> (ListedOf(a, k, facts, path) <==> ListedOf(b, k, facts, path))
  {
    assert |KeysOf(a)| == |a| && |KeysOf(b)| == |b|;
    assert forall k :: 0 <= k < |a| ==> KeysOf(a)[k] == a[k].key && KeysOf(b)[k] == b[k].key;
  }

  lemma {:induction false} SameKeys(a: seq<FactRow>, b: seq<FactRow>)
    requires |a| == |b| && forall k :: 0 <= k < |a| ==> a[k].key == b[k].key
    ensures KeysOf(a) == KeysOf(b)
  {
  }

  /** Two ledgers have the same blanked form exactly when they differ in nothing but the listed facts. */
  lemma {:induction false} BlankedMeans(a: Capture, b: Capture, facts: seq<Invalidation>)
    ensures Blanked(a, facts) == Blanked(b, facts) <==> SameBut(a, b, facts)
  {
    hide ListedOf, BlankRows;
    var x, y := a.accountFacts, b.accountFacts;
    if Blanked(a, facts) == Blanked(b, facts) {
      assert KeysOf(x) == KeysOf(BlankRows(x, facts)) == KeysOf(BlankRows(y, facts)) == KeysOf(y);
      ListedAlike(x, y, facts);
      forall k | 0 <= k < |x|
        ensures SameFact(x[k], y[k], ListedOf(x, k, facts, CurrencyValue), ListedOf(x, k, facts, CurrencyEvidence))
      {
        BlankedAt(x, facts, k);
        BlankedAt(y, facts, k);
      }
    }
    if SameBut(a, b, facts) {
      SameKeys(x, y);
      ListedAlike(x, y, facts);
      assert |BlankRows(x, facts)| == |KeysOf(BlankRows(x, facts))| == |x|;
      assert |BlankRows(y, facts)| == |KeysOf(BlankRows(y, facts))| == |y|;
      forall k | 0 <= k < |x|
        ensures BlankRows(x, facts)[k] == BlankRows(y, facts)[k]
      {
        BlankedAt(x, facts, k);
        BlankedAt(y, facts, k);
        assert SameFact(x[k], y[k], ListedOf(x, k, facts, CurrencyValue), ListedOf(x, k, facts, CurrencyEvidence));
      }
      assert BlankRows(x, facts) == BlankRows(y, facts);
    }
  }

  /** No currency, and no evidence of one, is listed. */
  ghost predicate KeepsCurrencies(facts: seq<Invalidation>) {
    forall i :: 0 <= i < |facts| ==> CurrencyValue !in facts[i].paths && CurrencyEvidence !in facts[i].paths
  }

  lemma {:induction false} NothingBlanked(c: Capture, facts: seq<Invalidation>)
    requires KeepsCurrencies(facts)
    ensures Blanked(c, facts) == c
  {
    var rows := c.accountFacts;
    assert |BlankRows(rows, facts)| == |KeysOf(BlankRows(rows, facts))| == |rows|;
    forall k | 0 <= k < |rows|
      ensures BlankRows(rows, facts)[k] == rows[k]
    {
      BlankedAt(rows, facts, k);
    }
  }

  lemma {:induction false} OnlyItself(a: Capture, b: Capture, facts: seq<Invalidation>)
    requires KeepsCurrencies(facts)
    ensures SameBut(a, b, facts) <==> a == b
  {
    hide SameBut, Blanked, KeepsCurrencies;
    BlankedMeans(a, b, facts);
    NothingBlanked(a, facts);
    NothingBlanked(b, facts);
  }

  // Clearing them.

  ghost predicate Known(c: Capture, facts: seq<Invalidation>) {
    forall k :: 0 <= k < |facts| ==> facts[k].accountId in KeysOf(c.accounts) && facts[k].accountId in KeysOf(c.accountFacts)
  }

  function ClearedFact(row: FactRow, currency: string, paths: seq<FactPath>): FactRow {
    row.(rest := row.rest.(currency := if CurrencyValue in paths then currency else row.rest.currency,
                           evidence := if CurrencyEvidence in paths then NOT_EXPOSED else row.rest.evidence))
  }

  function ClearOne(c: Capture, i: Invalidation): (r: Capture)
    requires i.accountId in KeysOf(c.accounts) && i.accountId in KeysOf(c.accountFacts)
    ensures SameBooks(c, r) && KeysOf(r.accountFacts) == KeysOf(c.accountFacts)
  {
    var at := IndexOf(KeysOf(c.accountFacts), i.accountId);
    c.(accountFacts := c.accountFacts[at := ClearedFact(c.accountFacts[at], CurrencyOf(c, i.accountId), i.paths)])
  }

  /** The ledger once its source has taken back every listed currency and what was attested of it. */
  ghost function ClearAll(c: Capture, facts: seq<Invalidation>): (r: Capture)
    requires Known(c, facts)
    ensures SameBooks(c, r) && KeysOf(r.accountFacts) == KeysOf(c.accountFacts)
  {
    if facts == [] then c else ClearOne(ClearAll(c, facts[..|facts| - 1]), facts[|facts| - 1])
  }

  lemma {:induction false} OneCleared(c: Capture, front: seq<Invalidation>, i: Invalidation)
    requires i.accountId in KeysOf(c.accounts) && i.accountId in KeysOf(c.accountFacts) && FactsCleared(c, front)
    ensures FactsCleared(ClearOne(c, i), front + [i])
  {
    var d, all := ClearOne(c, i), front + [i];
    var at := IndexOf(KeysOf(c.accountFacts), i.accountId);
    assert c.accountFacts[at].key == i.accountId;
    forall k | 0 <= k < |all|
      ensures FactCleared(d, all[k])
    {
      if k < |front| {
        assert FactCleared(c, front[k]);
        assert KeysOf(c.accountFacts)[at] == i.accountId;
      }
    }
  }

  lemma {:induction false} OneAgrees(c: Capture, d: Capture, front: seq<Invalidation>, i: Invalidation, k: nat)
    requires SameBut(d, c, front) && i.accountId in KeysOf(d.accounts) && i.accountId in KeysOf(d.accountFacts) && k < |c.accountFacts|
    requires KeysOf(d.accountFacts) == KeysOf(c.accountFacts)
    ensures SameFact(ClearOne(d, i).accountFacts[k], c.accountFacts[k],
                       ListedOf(ClearOne(d, i).accountFacts, k, front + [i], CurrencyValue),
                       ListedOf(ClearOne(d, i).accountFacts, k, front + [i], CurrencyEvidence))
  {
    var rows := ClearOne(d, i).accountFacts;
    ListedAlike(d.accountFacts, rows, front);
    ListedThen(rows, k, front, i, CurrencyValue);
    ListedThen(rows, k, front, i, CurrencyEvidence);
    assert SameFact(d.accountFacts[k], c.accountFacts[k], ListedOf(d.accountFacts, k, front, CurrencyValue),
                      ListedOf(d.accountFacts, k, front, CurrencyEvidence));
    hide ListedOf;
    assert KeysOf(d.accountFacts)[k] == d.accountFacts[k].key;
  }

  lemma {:induction false} AllCleared(c: Capture, facts: seq<Invalidation>)
    requires Known(c, facts)
    ensures SameBut(ClearAll(c, facts), c, facts) && FactsCleared(ClearAll(c, facts), facts)
  {
    if facts != [] {
      var front, last := facts[..|facts| - 1], facts[|facts| - 1];
      assert facts == front + [last];
      AllCleared(c, front);
      var d := ClearAll(c, front);
      assert last.accountId in KeysOf(d.accounts) && last.accountId in KeysOf(d.accountFacts);
      OneCleared(d, front, last);
      hide FactsCleared, SameFact, ListedOf;
      forall k | 0 <= k < |c.accountFacts|
        ensures SameFact(ClearOne(d, last).accountFacts[k], c.accountFacts[k],
                           ListedOf(ClearOne(d, last).accountFacts, k, facts, CurrencyValue),
                           ListedOf(ClearOne(d, last).accountFacts, k, facts, CurrencyEvidence))
      {
        OneAgrees(c, d, front, last, k);
      }
    }
  }

  // When the listing leaves something open.

  function OneFact(id: string, currency: string, evidence: FactEvidence): Capture {
    Capture([], [], [], [], [], [NamedMoney(id, Money(0, ""), AccountFactInfo(true, false, currency, evidence))], [])
  }

  lemma {:induction false} ListedOpen(facts: seq<Invalidation>, i: nat)
    requires i < |facts| && (CurrencyValue in facts[i].paths || CurrencyEvidence in facts[i].paths)
    ensures exists a, b :: SameBut(a, b, facts) && a != b
  {
    var id := facts[i].accountId;
    var a := OneFact(id, "USD", NO_EVIDENCE);
    var b := if CurrencyValue in facts[i].paths then OneFact(id, "EUR", NO_EVIDENCE) else OneFact(id, "USD", NOT_EXPOSED);
    assert KeysOf(a.accountFacts) == [id];
    assert SameBut(a, b, facts);
    assert a.accountFacts[0] != b.accountFacts[0];
  }

  /** The sealed hash fixes the whole ledger exactly when the plan lists no currency and no evidence of one. */
  lemma {:induction false} SealFixes(facts: seq<Invalidation>)
    ensures KeepsCurrencies(facts) <==> forall a, b :: SameBut(a, b, facts) ==> a == b
  {
    hide SameBut, Blanked;
    if KeepsCurrencies(facts) {
      forall a, b | SameBut(a, b, facts)
        ensures a == b
      {
        OnlyItself(a, b, facts);
      }
    } else {
      var i :| 0 <= i < |facts| && (CurrencyValue in facts[i].paths || CurrencyEvidence in facts[i].paths);
      ListedOpen(facts, i);
    }
  }
}
