/** Outflow limits of one action: card charges bound spending, transfer capacity bounds spending plus sending. */
module Outflow {
  import opened CheckedMoney
  import opened Action
  import opened Permutations

  datatype Limits = Limits(currencies: map<string, string>, charges: map<string, Money>, capacities: map<string, Money>)

  /** Only manual transactions and projections carry negative amounts; credits are positive. */
  predicate Spends(step: Step) {
    step.Post? && step.transaction.amount.units < 0
  }

  predicate SpendsFrom(step: Step, account: string) {
    Spends(step) && step.transaction.accountId == account
  }

  predicate SendsFrom(step: Step, account: string) {
    step.Send? && step.transfer.sourceAccountId == account
  }

  function Spend(step: Step, account: string): (r: int)
    ensures r >= 0
  {
    if SpendsFrom(step, account) then -(step.transaction.amount.units as int) else 0
  }

  function Sending(step: Step, account: string): int {
    if SendsFrom(step, account) then step.transfer.amount.units else 0
  }

  function Spent(steps: seq<Step>, account: string): (r: int)
    ensures r >= 0
  {
    if steps == [] then 0 else Spent(steps[..|steps| - 1], account) + Spend(steps[|steps| - 1], account)
  }

  function Sent(steps: seq<Step>, account: string): int {
    if steps == [] then 0 else Sent(steps[..|steps| - 1], account) + Sending(steps[|steps| - 1], account)
  }

  /** The account has a transfer capacity in its own currency, and it covers the outflow. */
  predicate WithinCapacity(l: Limits, account: string, outflow: int) {
    account in l.capacities && account in l.currencies
    && l.capacities[account].currency == l.currencies[account] && outflow <= l.capacities[account].units
  }

  predicate WithinCharge(l: Limits, account: string, spent: int) {
    account in l.charges && spent <= l.charges[account].units
  }

  /** What the running checks demand of one step, given the steps before it. */
  ghost predicate OutflowReady(l: Limits, before: seq<Step>, step: Step) {
    match step
    case Post(tx) =>
      Spends(step) ==>
        var a := tx.accountId;
        (Sent(before, a) > 0 ==> WithinCapacity(l, a, Spent(before, a) + Spend(step, a) + Sent(before, a)))
        && WithinCharge(l, a, Spent(before, a) + Spend(step, a))
    case Send(t) =>
      var a := t.sourceAccountId;
      WithinCapacity(l, a, Spent(before, a) + Sent(before, a) + t.amount.units)
    case _ => true
  }

  ghost predicate OutflowsReady(l: Limits, steps: seq<Step>) {
    forall k :: 0 <= k < |steps| ==> OutflowReady(l, steps[..k], steps[k])
  }

  ghost predicate PositiveSends(steps: seq<Step>) {
    forall k :: 0 <= k < |steps| && steps[k].Send? ==> steps[k].transfer.amount.units > 0
  }

  ghost predicate AnySpend(steps: seq<Step>, account: string) {
    exists k :: 0 <= k < |steps| && SpendsFrom(steps[k], account)
  }

  ghost predicate AnySend(steps: seq<Step>, account: string) {
    exists k :: 0 <= k < |steps| && SendsFrom(steps[k], account)
  }

  /** The same limits on the totals alone, with no order. */
  ghost predicate AccountBounded(l: Limits, steps: seq<Step>, account: string) {
    (AnySend(steps, account) ==> WithinCapacity(l, account, Spent(steps, account) + Sent(steps, account)))
    && (AnySpend(steps, account) ==> WithinCharge(l, account, Spent(steps, account)))
  }

  ghost predicate Bounded(l: Limits, steps: seq<Step>) {
    forall account :: AccountBounded(l, steps, account)
  }

  lemma {:induction false} TotalsThen(before: seq<Step>, step: Step, account: string)
    ensures Spent(before + [step], account) == Spent(before, account) + Spend(step, account)
    ensures Sent(before + [step], account) == Sent(before, account) + Sending(step, account)
    ensures AnySpend(before + [step], account) <==> AnySpend(before, account) || SpendsFrom(step, account)
    ensures AnySend(before + [step], account) <==> AnySend(before, account) || SendsFrom(step, account)
  {
    var all := before + [step];
    assert all[..|before|] == before;
    if AnySpend(before, account) {
      var k :| 0 <= k < |before| && SpendsFrom(before[k], account);
      assert SpendsFrom(all[k], account);
    }
    if AnySend(before, account) {
      var k :| 0 <= k < |before| && SendsFrom(before[k], account);
      assert SendsFrom(all[k], account);
    }
    assert SpendsFrom(step, account) ==> SpendsFrom(all[|before|], account);
    assert SendsFrom(step, account) ==> SendsFrom(all[|before|], account);
  }

  lemma {:induction false} SentSign(steps: seq<Step>, account: string)
    requires PositiveSends(steps)
    ensures Sent(steps, account) >= 0 && (Sent(steps, account) > 0 <==> AnySend(steps, account))
  {
    if steps != [] {
      var front, last := steps[..|steps| - 1], steps[|steps| - 1];
      assert steps == front + [last];
      SentSign(front, account);
      TotalsThen(front, last, account);
    }
  }

  lemma {:induction false} BoundedThen(l: Limits, before: seq<Step>, step: Step, account: string)
    requires PositiveSends(before + [step])
    ensures AccountBounded(l, before + [step], account) ==> AccountBounded(l, before, account)
    ensures AccountBounded(l, before, account) && OutflowReady(l, before, step) ==> AccountBounded(l, before + [step], account)
    ensures !SpendsFrom(step, account) && !SendsFrom(step, account) ==>
              (AccountBounded(l, before + [step], account) <==> AccountBounded(l, before, account))
  {
    assert forall k :: 0 <= k < |before| ==> (before + [step])[k] == before[k];
    assert (before + [step])[|before|] == step;
    TotalsThen(before, step, account);
    SentSign(before, account);
    hide Spent, Sent, AnySpend, AnySend, PositiveSends;
  }

  lemma {:induction false} BoundedReady(l: Limits, before: seq<Step>, step: Step)
    requires PositiveSends(before + [step]) && Bounded(l, before + [step])
    ensures OutflowReady(l, before, step)
  {
    if Spends(step) || step.Send? {
      var a := if step.Send? then step.transfer.sourceAccountId else step.transaction.accountId;
      assert forall k :: 0 <= k < |before| ==> (before + [step])[k] == before[k];
      TotalsThen(before, step, a);
      SentSign(before, a);
      assert AccountBounded(l, before + [step], a);
      hide Spent, Sent, AnySpend, AnySend, PositiveSends, Bounded;
    }
  }

  /** The running checks pass exactly when the totals are within the limits, whatever the order. */
  lemma {:induction false} ReadyIsBounded(l: Limits, steps: seq<Step>)
    requires PositiveSends(steps)
    ensures OutflowsReady(l, steps) <==> Bounded(l, steps)
  {
    if steps != [] {
      var front, last := steps[..|steps| - 1], steps[|steps| - 1];
      assert steps == front + [last];
      ReadyIsBounded(l, front);
      assert OutflowsReady(l, steps) <==> OutflowsReady(l, front) && OutflowReady(l, front, last) by {
        assert forall k :: 0 <= k < |front| ==> steps[..k] == front[..k] && steps[k] == front[k];
      }
      forall account
        ensures AccountBounded(l, steps, account) ==> AccountBounded(l, front, account)
        ensures AccountBounded(l, front, account) && OutflowReady(l, front, last) ==> AccountBounded(l, steps, account)
      {
        BoundedThen(l, front, last, account);
      }
      hide OutflowReady, AccountBounded, OutflowsReady;
      if Bounded(l, steps) {
        BoundedReady(l, front, last);
      }
    }
  }

  lemma {:induction false} SumsTakenOut(s: seq<Step>, i: nat, account: string)
    requires i < |s|
    ensures Spent(s, account) == Spent(Without(s, i), account) + Spend(s[i], account)
    ensures Sent(s, account) == Sent(Without(s, i), account) + Sending(s[i], account)
  {
    assert s == s[..i] + [s[i]] + s[i + 1..] && [] + [s[i]] == [s[i]];
    TotalsThen([], s[i], account);
    SumsSplit(s[..i] + [s[i]], s[i + 1..], account);
    SumsSplit(s[..i], [s[i]], account);
    SumsSplit(s[..i], s[i + 1..], account);
  }

  lemma {:induction false} SumsPermute(a: seq<Step>, b: seq<Step>, account: string)
    requires multiset(a) == multiset(b)
    ensures Spent(a, account) == Spent(b, account) && Sent(a, account) == Sent(b, account)
    decreases |a|
  {
    SameMembers(a, b);
    if a != [] {
      var i := BothWithout(a, b, 0);
      SumsPermute(Without(a, 0), Without(b, i), account);
      SumsTakenOut(a, 0, account);
      SumsTakenOut(b, i, account);
    }
  }

  lemma {:induction false} SumsSplit(a: seq<Step>, b: seq<Step>, account: string)
    ensures Spent(a + b, account) == Spent(a, account) + Spent(b, account)
    ensures Sent(a + b, account) == Sent(a, account) + Sent(b, account)
    decreases |b|
  {
    if b == [] {
      assert a + b == a;
    } else {
      assert (a + b)[..|a + b| - 1] == a + b[..|b| - 1];
      SumsSplit(a, b[..|b| - 1], account);
    }
  }

  lemma {:induction false} AnyPermutes(a: seq<Step>, b: seq<Step>, account: string)
    requires multiset(a) == multiset(b)
    ensures AnySpend(a, account) ==> AnySpend(b, account)
    ensures AnySend(a, account) ==> AnySend(b, account)
  {
    SameMembers(a, b);
    if AnySpend(a, account) {
      var k :| 0 <= k < |a| && SpendsFrom(a[k], account);
      assert a[k] in b;
      var j :| 0 <= j < |b| && b[j] == a[k];
      assert SpendsFrom(b[j], account);
    }
    if AnySend(a, account) {
      var k :| 0 <= k < |a| && SendsFrom(a[k], account);
      assert a[k] in b;
      var j :| 0 <= j < |b| && b[j] == a[k];
      assert SendsFrom(b[j], account);
    }
  }

  /** Reordering an action's steps never changes whether its outflow checks pass. */
  lemma {:induction false} OrderIndependent(l: Limits, a: seq<Step>, b: seq<Step>)
    requires multiset(a) == multiset(b) && PositiveSends(a)
    ensures OutflowsReady(l, a) <==> OutflowsReady(l, b)
  {
    forall k | 0 <= k < |b| && b[k].Send?
      ensures b[k].transfer.amount.units > 0
    {
      SameMembers(a, b);
      assert b[k] in a;
      var j :| 0 <= j < |a| && a[j] == b[k];
    }
    ReadyIsBounded(l, a);
    ReadyIsBounded(l, b);
    forall account
      ensures AccountBounded(l, a, account) <==> AccountBounded(l, b, account)
    {
      SumsPermute(a, b, account);
      AnyPermutes(a, b, account);
      AnyPermutes(b, a, account);
    }
  }

  /** Once the checks pass, the limits hold at every prefix. */
  lemma {:induction false} EveryPrefixBounded(l: Limits, steps: seq<Step>, k: nat)
    requires PositiveSends(steps) && OutflowsReady(l, steps) && k <= |steps|
    ensures Bounded(l, steps[..k])
  {
    assert forall i :: 0 <= i < k ==> steps[..k][..i] == steps[..i];
    ReadyIsBounded(l, steps[..k]);
  }

  // The planner's form: two running maps.

  datatype Outflows = Outflows(sent: map<string, i64>, spent: map<string, i64>)

  function Running(m: map<string, i64>, account: string): i64 {
    if account in m then m[account] else 0
  }

  function CheckCapacity(l: Limits, account: string, outflow: Result<i64>): Result<i64> {
    if account !in l.capacities || account !in l.currencies || l.capacities[account].currency != l.currencies[account]
    then Err("transfer_capacity_unavailable")
    else if outflow.Err? then outflow
    else if outflow.value > l.capacities[account].units then Err("transfer_capacity_insufficient")
    else outflow
  }

  /** The outflow part of checking a manual transaction: the account's spending after it. */
  function SpendChecked(l: Limits, o: Outflows, tx: Transaction): Result<Outflows> {
    if tx.accountId !in l.charges then Err("manual_account_not_charged") else
    var spend :- CheckedNeg(tx.amount.units);
    var next :- CheckedAdd(Running(o.spent, tx.accountId), spend);
    var sent := Running(o.sent, tx.accountId);
    var within :- if sent > 0 then CheckCapacity(l, tx.accountId, CheckedAdd(next, sent)) else Ok(0);
    if next > l.charges[tx.accountId].units then Err("manual_account_charge_exceeded")
    else Ok(o.(spent := o.spent[tx.accountId := next]))
  }

  function SendChecked(l: Limits, o: Outflows, t: TransferIntent): Result<Outflows> {
    if CheckCapacity(l, t.sourceAccountId, Ok(I64_MIN)).Err? then Err("transfer_capacity_unavailable") else
    var next :- CheckedAdd(Running(o.sent, t.sourceAccountId), t.amount.units);
    var within :- CheckCapacity(l, t.sourceAccountId, CheckedAdd(Running(o.spent, t.sourceAccountId), next));
    Ok(o.(sent := o.sent[t.sourceAccountId := next]))
  }

  ghost predicate TracksOutflows(o: Outflows, steps: seq<Step>) {
    (forall a :: Running(o.sent, a) == Sent(steps, a) && Running(o.spent, a) == Spent(steps, a))
    && forall a :: a in o.spent ==> o.spent[a] > 0
  }

  lemma {:induction false} SpendAllowed(l: Limits, o: Outflows, before: seq<Step>, tx: Transaction)
    requires TracksOutflows(o, before) && PositiveSends(before) && tx.amount.units < 0
    ensures SpendChecked(l, o, tx).Ok? <==> OutflowReady(l, before, Post(tx))
  {
    var a := tx.accountId;
    assert Running(o.sent, a) == Sent(before, a) && Running(o.spent, a) == Spent(before, a);
    SentSign(before, a);
    hide Spent, Sent, PositiveSends, TracksOutflows;
  }

  lemma {:induction false} SpendTracked(l: Limits, o: Outflows, before: seq<Step>, tx: Transaction)
    requires TracksOutflows(o, before) && PositiveSends(before) && tx.amount.units < 0
    ensures SpendChecked(l, o, tx).Ok? <==> OutflowReady(l, before, Post(tx))
    ensures SpendChecked(l, o, tx).Ok? ==> TracksOutflows(SpendChecked(l, o, tx).value, before + [Post(tx)])
  {
    SpendAllowed(l, o, before, tx);
    hide Spent, Sent, PositiveSends, OutflowReady;
    if SpendChecked(l, o, tx).Ok? {
      forall b
        ensures Running(SpendChecked(l, o, tx).value.sent, b) == Sent(before + [Post(tx)], b)
        ensures Running(SpendChecked(l, o, tx).value.spent, b) == Spent(before + [Post(tx)], b)
      {
        TotalsThen(before, Post(tx), b);
        assert Running(o.sent, b) == Sent(before, b) && Running(o.spent, b) == Spent(before, b);
      }
    }
  }

  lemma {:induction false} SendTracked(l: Limits, o: Outflows, before: seq<Step>, t: TransferIntent)
    requires TracksOutflows(o, before) && PositiveSends(before) && t.amount.units > 0
    ensures SendChecked(l, o, t).Ok? <==> OutflowReady(l, before, Send(t))
    ensures SendChecked(l, o, t).Ok? ==> TracksOutflows(SendChecked(l, o, t).value, before + [Send(t)])
  {
    var a := t.sourceAccountId;
    assert Running(o.sent, a) == Sent(before, a) && Running(o.spent, a) == Spent(before, a);
    SentSign(before, a);
    hide Spent, Sent, PositiveSends;
    if SendChecked(l, o, t).Ok? {
      forall b
        ensures Running(SendChecked(l, o, t).value.sent, b) == Sent(before + [Send(t)], b)
        ensures Running(SendChecked(l, o, t).value.spent, b) == Spent(before + [Send(t)], b)
      {
        TotalsThen(before, Send(t), b);
        assert Running(o.sent, b) == Sent(before, b) && Running(o.spent, b) == Spent(before, b);
      }
    }
  }
}
