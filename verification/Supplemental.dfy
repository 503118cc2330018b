/** User-attested observations that an action invalidates, and rebuilding them from the plan's own list. */
module Supplemental {
  import opened CheckedMoney
  import opened Text
  import opened Ordered
  import opened Sorting

  datatype Field = Currency | Kind | Owned | CurrentLedgerConfirmed | Holds | UnsettledFlows | Obligations | Credit

  datatype FactPath =
    | CurrencyValue | CurrencyEvidence | KindValue | KindEvidence | OwnedValue | OwnershipEvidence | FreshnessEvidence
    | HoldsValue | HoldsEvidence | ActivityEvidence | ScheduleEvidence | CreditValue

  /** Declaration order, which is how fields and paths sort. */
  function FieldRank(f: Field): int {
    match f
    case Currency => 0
    case Kind => 1
    case Owned => 2
    case CurrentLedgerConfirmed => 3
    case Holds => 4
    case UnsettledFlows => 5
    case Obligations => 6
    case Credit => 7
  }

  function PathRank(p: FactPath): int {
    match p
    case CurrencyValue => 0
    case CurrencyEvidence => 1
    case KindValue => 2
    case KindEvidence => 3
    case OwnedValue => 4
    case OwnershipEvidence => 5
    case FreshnessEvidence => 6
    case HoldsValue => 7
    case HoldsEvidence => 8
    case ActivityEvidence => 9
    case ScheduleEvidence => 10
    case CreditValue => 11
  }

  datatype Observation = Observation(accountId: string, fields: seq<Field>, flowIds: seq<string>, obligationIds: seq<string>)

  datatype Invalidation = Invalidation(
    accountId: string, fields: seq<Field>, paths: seq<FactPath>, flowIds: seq<string>, obligationIds: seq<string>)

  datatype Flow = Flow(id: string, obligationId: string, manual: bool, matched: seq<string>)

  datatype Obligation = Obligation(id: string, economicId: string, matched: seq<string>)

  /** An account's facts: which fields a user attested, whether it has credit terms, and its bound flows. */
  datatype AccountFacts = AccountFacts(
    attested: set<Field>, hasCredit: bool, baseline: seq<string>, flows: seq<Flow>, obligations: seq<Obligation>)

  // Validity.

  predicate FlowBound(a: AccountFacts, id: string) {
    !Blank(id)
    && exists i :: 0 <= i < |a.flows| && a.flows[i].id == id && a.flows[i].manual
                   && (forall t :: t in a.flows[i].matched ==> t !in a.baseline)
                   && forall j :: 0 <= j < |a.flows| && j != i ==> a.flows[j].id != id && a.flows[j].obligationId != a.flows[i].obligationId
  }

  predicate ObligationBound(a: AccountFacts, id: string) {
    !Blank(id)
    && exists i :: 0 <= i < |a.obligations| && a.obligations[i].id == id
                   && (forall t :: t in a.obligations[i].matched ==> t !in a.baseline)
                   && forall j :: 0 <= j < |a.obligations| && j != i ==>
                        a.obligations[j].id != id && a.obligations[j].economicId != a.obligations[i].economicId
  }

  predicate FieldBacked(a: AccountFacts, f: Field) {
    match f
    case UnsettledFlows => true
    case Obligations => true
    case Credit => !a.hasCredit || Credit in a.attested
    case _ => f in a.attested
  }

  predicate ValidObservation(a: AccountFacts, o: Observation) {
    Distinct(o.fields) && Distinct(o.flowIds) && Distinct(o.obligationIds)
    && (forall f :: f in o.fields ==> FieldBacked(a, f))
    && (forall id :: id in o.flowIds ==> UnsettledFlows in o.fields && FlowBound(a, id))
    && forall id :: id in o.obligationIds ==> Obligations in o.fields && ObligationBound(a, id)
  }

  function AccountOf(o: Observation): string {
    o.accountId
  }

  ghost predicate ValidObservations(accounts: map<string, AccountFacts>, os: seq<Observation>) {
    DistinctBy(AccountOf, os)
    && forall o :: o in os ==> !Blank(o.accountId) && o.accountId in accounts && ValidObservation(accounts[o.accountId], o)
  }

  function CheckObservation(accounts: map<string, AccountFacts>, o: Observation, seen: set<string>): (r: Result<()>)
    ensures r.Ok? <==>
              !Blank(o.accountId) && o.accountId !in seen && o.accountId in accounts && ValidObservation(accounts[o.accountId], o)
  {
    if Blank(o.accountId) || o.accountId in seen then Err("invalid_or_duplicate_supplemental_account")
    else if o.accountId !in accounts then Err("supplemental_account_missing")
    else
      var a := accounts[o.accountId];
      if !Distinct(o.fields) then Err("duplicate_supplemental_field")
      else if !Distinct(o.flowIds) || exists id :: id in o.flowIds && !(UnsettledFlows in o.fields && FlowBound(a, id))
      then Err("invalid_supplemental_flow_binding")
      else if !Distinct(o.obligationIds) || exists id :: id in o.obligationIds && !(Obligations in o.fields && ObligationBound(a, id))
      then Err("invalid_supplemental_obligation_binding")
      else if exists f :: f in o.fields && !FieldBacked(a, f) then Err("supplemental_field_source_mismatch")
      else Ok(())
  }

  method ValidateObservations(accounts: map<string, AccountFacts>, os: seq<Observation>) returns (r: Result<()>)
    ensures r.Ok? <==> ValidObservations(accounts, os)
  {
    hide Blank, ValidObservation;
    var seen: set<string> := {};
    for i := 0 to |os|
      invariant ValidObservations(accounts, os[..i])
      invariant seen == set j | 0 <= j < i :: os[j].accountId
    {
      var checked := CheckObservation(accounts, os[i], seen);
      if checked.Err? {
        return checked;
      }
      seen := seen + {os[i].accountId};
      assert os[..i + 1] == os[..i] + [os[i]];
    }
    assert os[..|os|] == os;
    r := Ok(());
  }

  // What an action invalidates.

  function Plain(s: string): string {
    s
  }

  function SortedFields(fields: seq<Field>): seq<Field> {
    SortBy(FieldRank, IntLt, fields)
  }

  function SortedIds(ids: seq<string>): seq<string> {
    SortBy(Plain, StringLt, ids)
  }

  predicate Invalidated(o: Observation, touched: set<string>) {
    o.accountId in touched && CurrentLedgerConfirmed in o.fields
  }

  function AccountsAmong(os: seq<Observation>, touched: set<string>): seq<string> {
    if os == [] then []
    else
      AccountsAmong(os[..|os| - 1], touched) + if Invalidated(os[|os| - 1], touched) then [os[|os| - 1].accountId] else []
  }

  function InvalidatedAccounts(os: seq<Observation>, touched: set<string>): seq<string> {
    SortedIds(AccountsAmong(os, touched))
  }

  function PathsOf(a: AccountFacts, f: Field): seq<FactPath> {
    match f
    case Currency => [CurrencyValue, CurrencyEvidence]
    case Kind => [KindValue, KindEvidence]
    case Owned => [OwnedValue, OwnershipEvidence]
    case CurrentLedgerConfirmed => [FreshnessEvidence]
    case Holds => [HoldsValue, HoldsEvidence]
    case UnsettledFlows => if UnsettledFlows in a.attested then [ActivityEvidence] else []
    case Obligations => if Obligations in a.attested then [ScheduleEvidence] else []
    case Credit => if a.hasCredit && Credit in a.attested then [CreditValue] else []
  }

  function AllPaths(a: AccountFacts, fields: seq<Field>): seq<FactPath> {
    if fields == [] then [] else AllPaths(a, fields[..|fields| - 1]) + PathsOf(a, fields[|fields| - 1])
  }

  function SortedPaths(a: AccountFacts, fields: seq<Field>): seq<FactPath> {
    SortBy(PathRank, IntLt, AllPaths(a, fields))
  }

  function InvalidationOf(a: AccountFacts, o: Observation): Invalidation {
    Invalidation(o.accountId, SortedFields(o.fields), SortedPaths(a, o.fields), SortedIds(o.flowIds), SortedIds(o.obligationIds))
  }

  predicate Concerned(o: Observation, ids: seq<string>, accounts: map<string, AccountFacts>) {
    o.accountId in ids && o.accountId in accounts
  }

  function Among(os: seq<Observation>, ids: seq<string>, accounts: map<string, AccountFacts>): seq<Invalidation> {
    if os == [] then []
    else
      var last := os[|os| - 1];
      Among(os[..|os| - 1], ids, accounts) + if Concerned(last, ids, accounts) then [InvalidationOf(accounts[last.accountId], last)] else []
  }

  function InvalidatedAccount(i: Invalidation): string {
    i.accountId
  }

  function InvalidatedFacts(os: seq<Observation>, ids: seq<string>, accounts: map<string, AccountFacts>): seq<Invalidation> {
    SortBy(InvalidatedAccount, StringLt, Among(os, ids, accounts))
  }

  method CollectAccounts(os: seq<Observation>, touched: set<string>) returns (ids: seq<string>)
    ensures ids == InvalidatedAccounts(os, touched)
  {
    ids := [];
    for i := 0 to |os|
      invariant ids == AccountsAmong(os[..i], touched)
    {
      assert os[..i + 1][..i] == os[..i];
      if Invalidated(os[i], touched) {
        ids := ids + [os[i].accountId];
      }
    }
    assert os[..|os|] == os;
    ids := SortedIds(ids);
  }

  method CollectFacts(os: seq<Observation>, ids: seq<string>, accounts: map<string, AccountFacts>) returns (facts: seq<Invalidation>)
    ensures facts == InvalidatedFacts(os, ids, accounts)
  {
    hide InvalidationOf, SortBy;
    facts := [];
    for i := 0 to |os|
      invariant facts == Among(os[..i], ids, accounts)
    {
      assert os[..i + 1][..i] == os[..i];
      if os[i].accountId in ids && os[i].accountId in accounts {
        facts := facts + [InvalidationOf(accounts[os[i].accountId], os[i])];
      }
    }
    assert os[..|os|] == os;
    facts := SortBy(InvalidatedAccount, StringLt, facts);
  }

  /** The observations as the plan's own list remembers them. */
  function Rebuilt(facts: seq<Invalidation>): (r: seq<Observation>)
    ensures |r| == |facts|
    ensures forall i :: 0 <= i < |r| ==> r[i] == Observation(facts[i].accountId, facts[i].fields, facts[i].flowIds, facts[i].obligationIds)
  {
    seq(|facts|, i requires 0 <= i < |facts| => Observation(facts[i].accountId, facts[i].fields, facts[i].flowIds, facts[i].obligationIds))
  }
}
