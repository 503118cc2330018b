/** Rebuilding observations from a plan's invalidation list is a fixpoint of planning. */
module SupplementalLaws {
  import opened Text
  import opened Ordered
  import opened Permutations
  import opened Sorting
  import opened Supplemental

  // Sorting keeps what validity looks at.

  lemma {:induction false} DistinctBoth<T>(a: seq<T>, b: seq<T>)
    requires multiset(a) == multiset(b) && Distinct(a)
    ensures Distinct(b)
  {
    var key := (x: T) => x;
    assert DistinctBy(key, a);
    SameMembers(a, b);
    forall i, j | 0 <= i < j < |b|
      ensures b[i] != b[j]
    {
      var k := BothWithout(b, a, i);
      assert Without(b, i)[j - 1] == b[j];
      SameMembers(Without(b, i), Without(a, k));
      assert b[j] in Without(a, k);
      var l :| 0 <= l < |Without(a, k)| && Without(a, k)[l] == b[j];
      assert a[if l < k then l else l + 1] == b[j];
    }
  }

  lemma {:induction false} FieldsSort(fields: seq<Field>)
    ensures multiset(SortedFields(fields)) == multiset(fields) && SortedFields(SortedFields(fields)) == SortedFields(fields)
  {
    SortPermutes(FieldRank, IntLt, fields);
    IntsOrdered();
    SortSorts(FieldRank, IntLt, fields);
    SortedStays(FieldRank, IntLt, SortedFields(fields));
  }

  lemma {:induction false} IdsSort(ids: seq<string>)
    ensures multiset(SortedIds(ids)) == multiset(ids) && SortedIds(SortedIds(ids)) == SortedIds(ids)
  {
    SortPermutes(Plain, StringLt, ids);
    StringsOrdered();
    SortSorts(Plain, StringLt, ids);
    SortedStays(Plain, StringLt, SortedIds(ids));
  }

  function SortedObservation(o: Observation): Observation {
    Observation(o.accountId, SortedFields(o.fields), SortedIds(o.flowIds), SortedIds(o.obligationIds))
  }

  lemma {:induction false} SortedValid(a: AccountFacts, o: Observation)
    requires ValidObservation(a, o)
    ensures ValidObservation(a, SortedObservation(o))
  {
    FieldsSort(o.fields);
    IdsSort(o.flowIds);
    IdsSort(o.obligationIds);
    hide SortBy, FieldBacked, FlowBound, ObligationBound, Distinct;
    DistinctBoth(o.fields, SortedFields(o.fields));
    DistinctBoth(o.flowIds, SortedIds(o.flowIds));
    DistinctBoth(o.obligationIds, SortedIds(o.obligationIds));
    SameMembers(o.fields, SortedFields(o.fields));
    SameMembers(o.flowIds, SortedIds(o.flowIds));
    SameMembers(o.obligationIds, SortedIds(o.obligationIds));
  }

  // Paths depend on which fields, not on their order.

  function Owner(p: FactPath): Field {
    match p
    case CurrencyValue => Currency
    case CurrencyEvidence => Currency
    case KindValue => Kind
    case KindEvidence => Kind
    case OwnedValue => Owned
    case OwnershipEvidence => Owned
    case FreshnessEvidence => CurrentLedgerConfirmed
    case HoldsValue => Holds
    case HoldsEvidence => Holds
    case ActivityEvidence => UnsettledFlows
    case ScheduleEvidence => Obligations
    case CreditValue => Credit
  }

  lemma {:induction false} PathsOwned(a: AccountFacts, fields: seq<Field>)
    ensures forall p :: p in AllPaths(a, fields) ==> Owner(p) in fields
  {
    if fields != [] {
      PathsOwned(a, fields[..|fields| - 1]);
      assert forall p :: p in PathsOf(a, fields[|fields| - 1]) ==> Owner(p) == fields[|fields| - 1];
      hide PathsOf, Owner;
    }
  }

  lemma {:induction false} OwnPathsDistinct(a: AccountFacts, f: Field)
    ensures DistinctBy(PathRank, PathsOf(a, f))
  {
  }

  lemma {:induction false} RanksDiffer(p: FactPath, q: FactPath)
    ensures PathRank(p) == PathRank(q) <==> p == q
  {
  }

  lemma {:induction false} PathsDistinct(a: AccountFacts, fields: seq<Field>)
    requires Distinct(fields)
    ensures DistinctBy(PathRank, AllPaths(a, fields))
  {
    if fields != [] {
      var front, last := fields[..|fields| - 1], fields[|fields| - 1];
      PathsDistinct(a, front);
      PathsOwned(a, front);
      OwnPathsDistinct(a, last);
      assert forall p :: p in PathsOf(a, last) ==> Owner(p) == last;
      assert last !in front;
      hide PathsOf, Owner, AllPaths, PathRank;
      JoinDistinct(AllPaths(a, front), PathsOf(a, last), last, front);
      assert AllPaths(a, fields) == AllPaths(a, front) + PathsOf(a, last) by {
        PathsStep(a, fields);
      }
    }
  }

  lemma {:induction false} PathsStep(a: AccountFacts, fields: seq<Field>)
    requires fields != []
    ensures AllPaths(a, fields) == AllPaths(a, fields[..|fields| - 1]) + PathsOf(a, fields[|fields| - 1])
  {
  }

  lemma {:induction false} JoinDistinct(x: seq<FactPath>, y: seq<FactPath>, last: Field, front: seq<Field>)
    requires DistinctBy(PathRank, x) && DistinctBy(PathRank, y) && last !in front
    requires (forall p :: p in x ==> Owner(p) in front) && forall p :: p in y ==> Owner(p) == last
    ensures DistinctBy(PathRank, x + y)
  {
    hide Owner;
    var all := x + y;
    forall i, j | 0 <= i < j < |all|
      ensures PathRank(all[i]) != PathRank(all[j])
    {
      RanksDiffer(all[i], all[j]);
      if i < |x| <= j {
        assert all[i] in x && all[j] in y;
      }
    }
  }

  lemma {:induction false} PathsSnoc(a: AccountFacts, fields: seq<Field>, f: Field)
    ensures AllPaths(a, fields + [f]) == AllPaths(a, fields) + PathsOf(a, f)
  {
    assert (fields + [f])[..|fields|] == fields;
  }

  lemma {:induction false} PathsJoin(a: AccountFacts, x: seq<Field>, y: seq<Field>, f: Field)
    requires AllPaths(a, x + y) == AllPaths(a, x) + AllPaths(a, y)
    ensures AllPaths(a, x + (y + [f])) == AllPaths(a, x) + AllPaths(a, y + [f])
  {
    hide AllPaths, PathsOf;
    assert x + (y + [f]) == (x + y) + [f];
    PathsSnoc(a, x + y, f);
    PathsSnoc(a, y, f);
  }

  lemma {:induction false} PathsConcat(a: AccountFacts, x: seq<Field>, y: seq<Field>)
    ensures AllPaths(a, x + y) == AllPaths(a, x) + AllPaths(a, y)
    decreases |y|
  {
    hide PathsOf;
    if y == [] {
      assert x + y == x && AllPaths(a, y) == [];
    } else {
      assert y == y[..|y| - 1] + [y[|y| - 1]];
      PathsConcat(a, x, y[..|y| - 1]);
      PathsJoin(a, x, y[..|y| - 1], y[|y| - 1]);
    }
  }

  lemma {:induction false} PathsTakenOut(a: AccountFacts, fields: seq<Field>, i: nat)
    requires i < |fields|
    ensures multiset(AllPaths(a, fields)) == multiset(AllPaths(a, Without(fields, i))) + multiset(PathsOf(a, fields[i]))
  {
    assert fields == fields[..i] + ([fields[i]] + fields[i + 1..]);
    PathsConcat(a, fields[..i], [fields[i]] + fields[i + 1..]);
    PathsConcat(a, [fields[i]], fields[i + 1..]);
    PathsConcat(a, fields[..i], fields[i + 1..]);
    assert AllPaths(a, [fields[i]]) == PathsOf(a, fields[i]) by {
      assert [fields[i]][..0] == [] && AllPaths(a, []) == [];
    }
  }

  lemma {:induction false} PathsPermute(a: AccountFacts, x: seq<Field>, y: seq<Field>)
    requires multiset(x) == multiset(y)
    ensures multiset(AllPaths(a, x)) == multiset(AllPaths(a, y))
    decreases |x|
  {
    SameMembers(x, y);
    if x != [] {
      var i := BothWithout(x, y, 0);
      PathsPermute(a, Without(x, 0), Without(y, i));
      PathsTakenOut(a, x, 0);
      PathsTakenOut(a, y, i);
    }
  }

  lemma {:induction false} PathsOfSorted(a: AccountFacts, fields: seq<Field>)
    requires Distinct(fields)
    ensures SortedPaths(a, SortedFields(fields)) == SortedPaths(a, fields)
  {
    FieldsSort(fields);
    PathsPermute(a, fields, SortedFields(fields));
    PathsDistinct(a, fields);
    IntsOrdered();
    hide SortBy, AllPaths, StrictOrder, DistinctBy;
    SortCanonical(PathRank, IntLt, AllPaths(a, fields), AllPaths(a, SortedFields(fields)));
  }

  /** An invalidation is the same read from the observation or from what the plan kept of it. */
  lemma {:induction false} SameInvalidation(a: AccountFacts, o: Observation)
    requires Distinct(o.fields)
    ensures InvalidationOf(a, SortedObservation(o)) == InvalidationOf(a, o)
  {
    FieldsSort(o.fields);
    IdsSort(o.flowIds);
    IdsSort(o.obligationIds);
    PathsOfSorted(a, o.fields);
    hide SortedFields, SortedIds, SortedPaths;
  }

  // What is on the list.

  lemma {:induction false} Listed(os: seq<Observation>, ids: seq<string>, accounts: map<string, AccountFacts>, x: Invalidation)
    ensures x in Among(os, ids, accounts)
            <==> exists o :: o in os && Concerned(o, ids, accounts) && x == InvalidationOf(accounts[o.accountId], o)
  {
    hide InvalidationOf;
    if os != [] {
      var front, last := os[..|os| - 1], os[|os| - 1];
      Listed(front, ids, accounts, x);
      assert os == front + [last];
      if x in Among(os, ids, accounts) {
        if x in Among(front, ids, accounts) {
          var o :| o in front && Concerned(o, ids, accounts) && x == InvalidationOf(accounts[o.accountId], o);
          assert o in os;
        } else {
          assert last in os;
        }
      }
    }
  }

  lemma {:induction false} ListedDistinct(os: seq<Observation>, ids: seq<string>, accounts: map<string, AccountFacts>)
    requires DistinctBy(AccountOf, os)
    ensures DistinctBy(InvalidatedAccount, Among(os, ids, accounts))
  {
    if os != [] {
      var front, last := os[..|os| - 1], os[|os| - 1];
      ListedDistinct(front, ids, accounts);
      var before := Among(front, ids, accounts);
      forall i | 0 <= i < |before|
        ensures before[i].accountId != last.accountId
      {
        Listed(front, ids, accounts, before[i]);
        var o :| o in front && Concerned(o, ids, accounts) && before[i] == InvalidationOf(accounts[o.accountId], o);
        var j :| 0 <= j < |front| && front[j] == o;
        assert AccountOf(os[j]) != AccountOf(os[|os| - 1]);
      }
      hide SortBy, SortedFields, SortedIds, SortedPaths;
    }
  }

  /** The list: sorted, one entry an account, each from one of the observations. */
  lemma {:induction false} FactsListed(os: seq<Observation>, ids: seq<string>, accounts: map<string, AccountFacts>)
    requires DistinctBy(AccountOf, os)
    ensures var facts := InvalidatedFacts(os, ids, accounts);
            DistinctBy(InvalidatedAccount, facts) && SortedBy(InvalidatedAccount, StringLt, facts)
            && forall x :: x in facts <==> exists o :: o in os && Concerned(o, ids, accounts) && x == InvalidationOf(accounts[o.accountId], o)
  {
    var among := Among(os, ids, accounts);
    ListedDistinct(os, ids, accounts);
    SortPermutes(InvalidatedAccount, StringLt, among);
    StringsOrdered();
    SortSorts(InvalidatedAccount, StringLt, among);
    hide SortBy, Among, InvalidationOf, StrictOrder;
    DistinctPermutes(InvalidatedAccount, among, InvalidatedFacts(os, ids, accounts));
    SameMembers(among, InvalidatedFacts(os, ids, accounts));
    forall x
      ensures x in among <==> exists o :: o in os && Concerned(o, ids, accounts) && x == InvalidationOf(accounts[o.accountId], o)
    {
      Listed(os, ids, accounts, x);
    }
  }

  lemma {:induction false} EntryFrom(os: seq<Observation>, ids: seq<string>, accounts: map<string, AccountFacts>, i: nat) returns (o: Observation)
    requires ValidObservations(accounts, os) && i < |InvalidatedFacts(os, ids, accounts)|
    ensures o in os && Concerned(o, ids, accounts) && InvalidatedFacts(os, ids, accounts)[i] == InvalidationOf(accounts[o.accountId], o)
    ensures Rebuilt(InvalidatedFacts(os, ids, accounts))[i] == SortedObservation(o) && ValidObservation(accounts[o.accountId], o)
  {
    FactsListed(os, ids, accounts);
    var facts := InvalidatedFacts(os, ids, accounts);
    assert facts[i] in facts;
    hide SortBy, Among, ValidObservation, SortedPaths, SortedFields, SortedIds, InvalidatedFacts;
    o :| o in os && Concerned(o, ids, accounts) && facts[i] == InvalidationOf(accounts[o.accountId], o);
  }

  /** What is rebuilt is valid whenever what was planned from is. */
  lemma {:induction false} RebuiltValid(os: seq<Observation>, ids: seq<string>, accounts: map<string, AccountFacts>)
    requires ValidObservations(accounts, os)
    ensures ValidObservations(accounts, Rebuilt(InvalidatedFacts(os, ids, accounts)))
  {
    FactsListed(os, ids, accounts);
    var facts := InvalidatedFacts(os, ids, accounts);
    var back := Rebuilt(facts);
    forall i, j | 0 <= i < j < |back|
      ensures AccountOf(back[i]) != AccountOf(back[j])
    {
      assert InvalidatedAccount(facts[i]) != InvalidatedAccount(facts[j]);
    }
    hide InvalidatedFacts, ValidObservation, Blank;
    forall o | o in back
      ensures !Blank(o.accountId) && o.accountId in accounts && ValidObservation(accounts[o.accountId], o)
    {
      var i :| 0 <= i < |back| && back[i] == o;
      var original := EntryFrom(os, ids, accounts, i);
      SortedValid(accounts[original.accountId], original);
    }
  }

  lemma {:induction false} AmongAll(os: seq<Observation>, ids: seq<string>, accounts: map<string, AccountFacts>, facts: seq<Invalidation>)
    requires |os| == |facts|
    requires forall i :: 0 <= i < |os| ==> Concerned(os[i], ids, accounts) && facts[i] == InvalidationOf(accounts[os[i].accountId], os[i])
    ensures Among(os, ids, accounts) == facts
  {
    hide InvalidationOf;
    if os != [] {
      AmongAll(os[..|os| - 1], ids, accounts, facts[..|facts| - 1]);
      assert facts == facts[..|facts| - 1] + [facts[|facts| - 1]];
    }
  }

  /** Planning from the rebuilt observations lists the same invalidations. */
  lemma {:induction false} FactsFixed(os: seq<Observation>, ids: seq<string>, accounts: map<string, AccountFacts>)
    requires ValidObservations(accounts, os)
    ensures var facts := InvalidatedFacts(os, ids, accounts); InvalidatedFacts(Rebuilt(facts), ids, accounts) == facts
  {
    FactsListed(os, ids, accounts);
    var facts := InvalidatedFacts(os, ids, accounts);
    var back := Rebuilt(facts);
    forall i | 0 <= i < |back|
      ensures Concerned(back[i], ids, accounts) && facts[i] == InvalidationOf(accounts[back[i].accountId], back[i])
    {
      var o := EntryFrom(os, ids, accounts, i);
      SameInvalidation(accounts[o.accountId], o);
    }
    hide ValidObservations, InvalidationOf, Concerned, SortBy;
    AmongAll(back, ids, accounts, facts);
    SortedStays(InvalidatedAccount, StringLt, facts);
  }

  // The accounts.

  lemma {:induction false} AccountListed(os: seq<Observation>, touched: set<string>, id: string)
    ensures id in AccountsAmong(os, touched) <==> exists o :: o in os && Invalidated(o, touched) && o.accountId == id
  {
    if os != [] {
      var front, last := os[..|os| - 1], os[|os| - 1];
      AccountListed(front, touched, id);
      assert os == front + [last];
      if id in AccountsAmong(os, touched) {
        if id in AccountsAmong(front, touched) {
          var o :| o in front && Invalidated(o, touched) && o.accountId == id;
          assert o in os;
        } else {
          assert last in os;
        }
      }
    }
  }

  lemma {:induction false} AccountsDistinct(os: seq<Observation>, touched: set<string>)
    requires DistinctBy(AccountOf, os)
    ensures DistinctBy(Plain, AccountsAmong(os, touched))
  {
    if os != [] {
      var front, last := os[..|os| - 1], os[|os| - 1];
      AccountsDistinct(front, touched);
      var before := AccountsAmong(front, touched);
      forall i | 0 <= i < |before|
        ensures before[i] != last.accountId
      {
        AccountListed(front, touched, before[i]);
        var o :| o in front && Invalidated(o, touched) && o.accountId == before[i];
        var j :| 0 <= j < |front| && front[j] == o;
        assert AccountOf(os[j]) != AccountOf(os[|os| - 1]);
      }
    }
  }

  /** The list of accounts: ascending, each from an observation the action invalidates. */
  lemma {:induction false} AccountsListed(os: seq<Observation>, touched: set<string>)
    requires DistinctBy(AccountOf, os)
    ensures var ids := InvalidatedAccounts(os, touched);
            Ascending(StringLt, ids) && forall id :: id in ids <==> exists o :: o in os && Invalidated(o, touched) && o.accountId == id
  {
    var among := AccountsAmong(os, touched);
    AccountsDistinct(os, touched);
    SortPermutes(Plain, StringLt, among);
    StringsOrdered();
    SortSorts(Plain, StringLt, among);
    var ids := InvalidatedAccounts(os, touched);
    DistinctPermutes(Plain, among, ids);
    SameMembers(among, ids);
    assert Ascending(StringLt, ids) by {
      forall i, j | 0 <= i < j < |ids|
        ensures StringLt(ids[i], ids[j])
      {
        assert !StringLt(Plain(ids[j]), Plain(ids[i])) && Plain(ids[i]) != Plain(ids[j]);
      }
    }
    hide SortBy, AccountsAmong, StrictOrder, StringLt;
    forall id
      ensures id in among <==> exists o :: o in os && Invalidated(o, touched) && o.accountId == id
    {
      AccountListed(os, touched, id);
    }
  }

  lemma {:induction false} SameAccount(os: seq<Observation>, o: Observation, p: Observation)
    requires DistinctBy(AccountOf, os) && o in os && p in os && o.accountId == p.accountId
    ensures o == p
  {
    var i :| 0 <= i < |os| && os[i] == o;
    var j :| 0 <= j < |os| && os[j] == p;
    KeysDiffer(AccountOf, os, i, j);
  }

  /** Planning from the rebuilt observations names the same accounts. */
  lemma {:induction false} AccountsFixed(os: seq<Observation>, touched: set<string>, accounts: map<string, AccountFacts>)
    requires ValidObservations(accounts, os)
    ensures var ids := InvalidatedAccounts(os, touched);
            InvalidatedAccounts(Rebuilt(InvalidatedFacts(os, ids, accounts)), touched) == ids
  {
    var ids := InvalidatedAccounts(os, touched);
    var facts := InvalidatedFacts(os, ids, accounts);
    var back := Rebuilt(facts);
    RebuiltValid(os, ids, accounts);
    AccountsListed(os, touched);
    AccountsListed(back, touched);
    StringsOrdered();
    hide InvalidatedAccounts, InvalidatedFacts, StrictOrder, Ascending, StringLt, ValidObservation, Blank;
    forall id
      ensures id in ids <==> id in InvalidatedAccounts(back, touched)
    {
      SameInvalidated(os, touched, accounts, id);
    }
    AscendingUnique(StringLt, ids, InvalidatedAccounts(back, touched));
  }

  lemma {:induction false} RebuiltFrom(os: seq<Observation>, touched: set<string>, accounts: map<string, AccountFacts>, i: nat) returns (o: Observation)
    requires ValidObservations(accounts, os)
    requires i < |Rebuilt(InvalidatedFacts(os, InvalidatedAccounts(os, touched), accounts))|
    ensures var back := Rebuilt(InvalidatedFacts(os, InvalidatedAccounts(os, touched), accounts));
            o in os && Invalidated(o, touched) && back[i].accountId == o.accountId && Invalidated(back[i], touched)
  {
    var ids := InvalidatedAccounts(os, touched);
    o := EntryFrom(os, ids, accounts, i);
    AccountsListed(os, touched);
    hide InvalidatedAccounts, InvalidatedFacts, Ascending, ValidObservation, Blank, StringLt;
    var p :| p in os && Invalidated(p, touched) && p.accountId == o.accountId;
    SameAccount(os, o, p);
    FieldsSort(o.fields);
    SameMembers(o.fields, SortedFields(o.fields));
  }

  lemma {:induction false} InvalidatedStays(os: seq<Observation>, touched: set<string>, accounts: map<string, AccountFacts>, id: string)
    requires ValidObservations(accounts, os) && exists o :: o in os && Invalidated(o, touched) && o.accountId == id
    ensures exists o :: o in Rebuilt(InvalidatedFacts(os, InvalidatedAccounts(os, touched), accounts)) && Invalidated(o, touched) && o.accountId == id
  {
    var ids := InvalidatedAccounts(os, touched);
    var facts := InvalidatedFacts(os, ids, accounts);
    FactsListed(os, ids, accounts);
    AccountsListed(os, touched);
    hide InvalidatedAccounts, InvalidatedFacts, Ascending, ValidObservation, Blank, StringLt, SortBy, Among, Invalidated;
    var o :| o in os && Invalidated(o, touched) && o.accountId == id;
    assert o.accountId in ids && Concerned(o, ids, accounts);
    var x := InvalidationOf(accounts[o.accountId], o);
    assert x in facts;
    var i :| 0 <= i < |facts| && facts[i] == x;
    var p := RebuiltFrom(os, touched, accounts, i);
  }

  lemma {:induction false} InvalidatedBefore(os: seq<Observation>, touched: set<string>, accounts: map<string, AccountFacts>, id: string)
    requires ValidObservations(accounts, os)
    requires exists o :: o in Rebuilt(InvalidatedFacts(os, InvalidatedAccounts(os, touched), accounts)) && Invalidated(o, touched) && o.accountId == id
    ensures exists o :: o in os && Invalidated(o, touched) && o.accountId == id
  {
    hide InvalidatedAccounts, InvalidatedFacts, ValidObservations, Invalidated, Rebuilt;
    var back := Rebuilt(InvalidatedFacts(os, InvalidatedAccounts(os, touched), accounts));
    var o :| o in back && Invalidated(o, touched) && o.accountId == id;
    var i :| 0 <= i < |back| && back[i] == o;
    var p := RebuiltFrom(os, touched, accounts, i);
  }

  lemma {:induction false} SameInvalidated(os: seq<Observation>, touched: set<string>, accounts: map<string, AccountFacts>, id: string)
    requires ValidObservations(accounts, os)
    ensures var back := Rebuilt(InvalidatedFacts(os, InvalidatedAccounts(os, touched), accounts));
            (exists o :: o in os && Invalidated(o, touched) && o.accountId == id)
            <==> exists o :: o in back && Invalidated(o, touched) && o.accountId == id
  {
    hide *;
    var back := Rebuilt(InvalidatedFacts(os, InvalidatedAccounts(os, touched), accounts));
    if exists o :: o in os && Invalidated(o, touched) && o.accountId == id {
      InvalidatedStays(os, touched, accounts, id);
    }
    if exists o :: o in back && Invalidated(o, touched) && o.accountId == id {
      InvalidatedBefore(os, touched, accounts, id);
    }
  }
}
