/** Planning a native category rule: its plan is bound to the source, not to the order the source was captured in. */
module RulePlan {
  import opened CheckedMoney
  import opened Text
  import opened Ordered
  import opened Permutations
  import opened Sorting
  import opened Trees

  datatype Rule = Rule(id: string, order: int, inactive: bool, trigger: string)

  /** An account, payee or category of the snapshot. */
  datatype Row = Row(id: string, deleted: bool, facts: string)

  datatype Snapshot = Snapshot(
    schemaVersion: string, actualVersion: string, transactions: seq<Node>, rules: seq<Rule>, payees: seq<Row>, categories: seq<Row>, accounts: seq<Row>)

  /** Which triggers are understood, and which transactions an understood one matches. */
  datatype Conditions = Conditions(parses: string -> bool, matches: (string, Node) -> bool)

  datatype Scope = Scope(spaceId: string, budgetId: string, connectionId: string)

  /** The evidence a rule was reviewed with; the deadline is an admission check and no part of the plan's identity. */
  datatype ReviewContext = ReviewContext(
    scope: Scope, sourceFactsHash: string, evidenceKey: Option<string>, evidenceRevision: string, merchantPolicyVersion: string,
    visibilityHash: string, expiresAt: string)

  datatype RuleRequest = RuleRequest(name: string, payee: string, category: string, context: ReviewContext)

  datatype Example = Example(txId: string, payee: Option<string>, amount: Money, currentCategory: Option<string>, wouldChange: bool)

  datatype Simulation = Simulation(
    name: string, matched: nat, affected: seq<string>, distribution: map<string, nat>, examples: seq<Example>, conflicts: seq<string>)

  /** What the hash binds of the request: everything but the deadline. */
  datatype Binding = Binding(
    actualVersion: string, name: string, payee: string, category: string, scope: Scope, sourceFactsHash: string,
    evidenceKey: Option<string>, evidenceRevision: string, merchantPolicyVersion: string, visibilityHash: string)

  /** Everything the plan's hash binds. */
  datatype Material = Material(
    binding: Binding, accounts: seq<Row>, payees: seq<Row>, categories: seq<Row>, rules: seq<Rule>, population: map<string, Node>,
    simulation: Simulation)

  function RowId(row: Row): string {
    row.id
  }

  function RuleId(rule: Rule): string {
    rule.id
  }

  function RuleKey(rule: Rule): (int, string) {
    (rule.order, rule.id)
  }

  predicate RuleLt(a: (int, string), b: (int, string)) {
    a.0 < b.0 || (a.0 == b.0 && StringLt(a.1, b.1))
  }

  lemma {:induction false} RulesOrdered()
    ensures StrictOrder(RuleLt)
  {
    StringsOrdered();
  }

  // Rules in execution order.

  ghost predicate RulesSound(rules: seq<Rule>) {
    (forall i :: 0 <= i < |rules| ==> !Blank(rules[i].id)) && DistinctBy(RuleId, rules)
  }

  function Ranked(rules: seq<Rule>): seq<Rule> {
    SortBy(RuleKey, RuleLt, rules)
  }

  lemma {:induction false} RulesSoundPermute(a: seq<Rule>, b: seq<Rule>)
    requires multiset(a) == multiset(b) && RulesSound(a)
    ensures RulesSound(b)
  {
    SameMembers(a, b);
    DistinctPermutes(RuleId, a, b);
    forall i | 0 <= i < |b|
      ensures !Blank(b[i].id)
    {
      assert b[i] in a;
      var j :| 0 <= j < |a| && a[j] == b[i];
    }
  }

  method OrderedRules(rules: seq<Rule>) returns (r: Result<seq<Rule>>)
    ensures r.Ok? <==> RulesSound(rules)
    ensures r.Ok? ==> r.value == Ranked(rules)
  {
    hide Blank, SortBy;
    var ranked := Ranked(rules);
    SortPermutes(RuleKey, RuleLt, rules);
    var ids: set<string> := {};
    for i := 0 to |ranked|
      invariant ids == set j | 0 <= j < i :: ranked[j].id
      invariant RulesSound(ranked[..i])
    {
      if Blank(ranked[i].id) || ranked[i].id in ids {
        if RulesSound(rules) {
          RulesSoundPermute(rules, ranked);
          RepeatedRule(ranked, i, ids);
        }
        return Err(if Blank(ranked[i].id) then "invalid_source" else "conflicting_source_id");
      }
      ids := ids + {ranked[i].id};
      assert ranked[..i + 1] == ranked[..i] + [ranked[i]];
    }
    assert ranked[..|ranked|] == ranked;
    RulesSoundPermute(ranked, rules);
    r := Ok(ranked);
  }

  lemma {:induction false} RepeatedRule(rules: seq<Rule>, i: nat, ids: set<string>)
    requires i < |rules| && ids == (set j | 0 <= j < i :: rules[j].id) && RulesSound(rules)
    ensures !Blank(rules[i].id) && rules[i].id !in ids
  {
    hide Blank;
    assert forall j :: 0 <= j < i ==> RuleId(rules[j]) != RuleId(rules[i]);
  }

  // Rows without repeated identities.

  function SortedRows(rows: seq<Row>): seq<Row> {
    SortBy(RowId, StringLt, rows)
  }

  /** No two neighbours share an identity. */
  predicate NoNeighbours(rows: seq<Row>) {
    forall i :: 0 < i < |rows| ==> rows[i - 1].id != rows[i].id
  }

  lemma {:induction false} NeighboursSuffice(rows: seq<Row>)
    requires SortedBy(RowId, StringLt, rows) && NoNeighbours(rows)
    ensures DistinctBy(RowId, rows)
  {
    forall i, j | 0 <= i < j < |rows|
      ensures rows[i].id != rows[j].id
    {
      StringLtTotal(rows[i].id, rows[i + 1].id);
      assert !StringLt(RowId(rows[i + 1]), RowId(rows[i]));
      assert StringLt(rows[i].id, rows[i + 1].id);
      if i + 1 < j {
        assert !StringLt(RowId(rows[j]), RowId(rows[i + 1]));
      } else {
        StringLtIrreflexive(rows[i].id);
      }
    }
  }

  /** Comparing neighbours after sorting finds every repeated identity. */
  method CheckRows(rows: seq<Row>) returns (r: Result<seq<Row>>)
    ensures r.Ok? <==> DistinctBy(RowId, rows)
    ensures r.Ok? ==> r.value == SortedRows(rows)
  {
    var sorted := SortedRows(rows);
    SortPermutes(RowId, StringLt, rows);
    StringsOrdered();
    SortSorts(RowId, StringLt, rows);
    hide SortBy, StringLt, StrictOrder, SortedBy;
    if !NoNeighbours(sorted) {
      if DistinctBy(RowId, rows) {
        DistinctPermutes(RowId, rows, sorted);
      }
      return Err("conflicting_source_id");
    }
    NeighboursSuffice(sorted);
    DistinctPermutes(RowId, sorted, rows);
    r := Ok(sorted);
  }

  lemma {:induction false} RowsCanonical(a: seq<Row>, b: seq<Row>)
    requires multiset(a) == multiset(b) && DistinctBy(RowId, a)
    ensures DistinctBy(RowId, b) && SortedRows(a) == SortedRows(b)
  {
    StringsOrdered();
    DistinctPermutes(RowId, a, b);
    SortCanonical(RowId, StringLt, a, b);
  }

  // The simulation.

  predicate Reviewed(n: Node, payee: string) {
    n.payeeId == Some(payee)
  }

  function ExampleOf(id: string, n: Node, category: string): Example {
    Example(id, n.payeeName, n.amount, n.categoryId, n.categoryId != Some(category))
  }

  predicate Conflicting(rule: Rule, population: map<string, Node>, payee: string, c: Conditions) {
    !rule.inactive
    && (!c.parses(rule.trigger) || exists id :: id in population && Reviewed(population[id], payee) && c.matches(rule.trigger, population[id]))
  }

  function Conflicts(rules: seq<Rule>, population: map<string, Node>, payee: string, c: Conditions): seq<string> {
    if rules == [] then []
    else
      var last := rules[|rules| - 1];
      Conflicts(rules[..|rules| - 1], population, payee, c) + if Conflicting(last, population, payee, c) then [last.id] else []
  }

  /** The leaves of the payee, in identity order. */
  function Affected(population: map<string, Node>, payee: string): (r: seq<string>)
    ensures Ascending(StringLt, r)
    ensures forall id :: id in r <==> id in population && Reviewed(population[id], payee)
  {
    StringsOrdered();
    Listing(StringLt, set id | id in population && Reviewed(population[id], payee))
  }

  /** What the rule would do: the payee's leaves, the change to each of them, and the rules that may conflict if there is any. */
  ghost predicate Simulates(s: Simulation, q: RuleRequest, rules: seq<Rule>, population: map<string, Node>, c: Conditions) {
    s.name == q.name && s.affected == Affected(population, q.payee) && s.matched == |s.affected|
    && s.distribution == (if s.matched > 0 then map[q.category := s.matched] else map[])
    && |s.examples| == |s.affected|
    && (forall i :: 0 <= i < |s.affected| ==> s.affected[i] in population && s.examples[i] == ExampleOf(s.affected[i], population[s.affected[i]], q.category))
    && s.conflicts == if s.matched > 0 then Conflicts(rules, population, q.payee, c) else []
  }

  lemma {:induction false} SimulationUnique(s: Simulation, t: Simulation, q: RuleRequest, p: RuleRequest, rules: seq<Rule>, population: map<string, Node>,
                                            c: Conditions)
    requires Simulates(s, q, rules, population, c) && Simulates(t, p, rules, population, c)
    requires q.name == p.name && q.payee == p.payee && q.category == p.category
    ensures s == t
  {
    hide Affected, Conflicts;
    assert s.examples == t.examples;
  }

  /** The walk over the leaves in identity order keeps those of the payee. */
  ghost predicate AffectedUpTo(ids: seq<string>, i: nat, population: map<string, Node>, q: RuleRequest, affected: seq<string>, examples: seq<Example>)
    requires i <= |ids|
  {
    Ascending(StringLt, affected) && |examples| == |affected|
    && (forall id :: id in affected <==> id in ids[..i] && id in population && Reviewed(population[id], q.payee))
    && forall j :: 0 <= j < |affected| ==> affected[j] in population && examples[j] == ExampleOf(affected[j], population[affected[j]], q.category)
  }

  lemma {:induction false} AffectedNext(ids: seq<string>, i: nat, population: map<string, Node>, q: RuleRequest, affected: seq<string>,
                                        examples: seq<Example>)
    requires i < |ids| && Ascending(StringLt, ids) && ids[i] in population && AffectedUpTo(ids, i, population, q, affected, examples)
    ensures var id, n := ids[i], population[ids[i]];
            if Reviewed(n, q.payee) then AffectedUpTo(ids, i + 1, population, q, affected + [id], examples + [ExampleOf(id, n, q.category)])
            else AffectedUpTo(ids, i + 1, population, q, affected, examples)
  {
    hide StringLt, Reviewed, ExampleOf;
    assert ids[..i + 1] == ids[..i] + [ids[i]];
    forall j | 0 <= j < |affected|
      ensures StringLt(affected[j], ids[i])
    {
      assert affected[j] in affected && affected[j] in ids[..i];
      var k :| 0 <= k < i && ids[..i][k] == affected[j];
      assert ids[k] == affected[j];
    }
  }

  method CollectAffected(population: map<string, Node>, q: RuleRequest) returns (affected: seq<string>, examples: seq<Example>)
    ensures affected == Affected(population, q.payee) && |examples| == |affected|
    ensures forall j :: 0 <= j < |affected| ==> affected[j] in population && examples[j] == ExampleOf(affected[j], population[affected[j]], q.category)
  {
    StringsOrdered();
    var ids := Listing(StringLt, population.Keys);
    hide StringLt, StrictOrder, Reviewed, ExampleOf, Listing, Affected;
    affected, examples := [], [];
    for i := 0 to |ids|
      invariant AffectedUpTo(ids, i, population, q, affected, examples)
    {
      assert ids[i] in ids;
      AffectedNext(ids, i, population, q, affected, examples);
      if Reviewed(population[ids[i]], q.payee) {
        affected, examples := affected + [ids[i]], examples + [ExampleOf(ids[i], population[ids[i]], q.category)];
      }
    }
    assert ids[..|ids|] == ids;
    AscendingUnique(StringLt, affected, Affected(population, q.payee));
  }

  method CollectConflicts(rules: seq<Rule>, population: map<string, Node>, payee: string, c: Conditions) returns (conflicts: seq<string>)
    ensures conflicts == Conflicts(rules, population, payee, c)
  {
    hide Conflicting;
    conflicts := [];
    for i := 0 to |rules|
      invariant conflicts == Conflicts(rules[..i], population, payee, c)
    {
      assert rules[..i + 1][..i] == rules[..i];
      if Conflicting(rules[i], population, payee, c) {
        conflicts := conflicts + [rules[i].id];
      }
    }
    assert rules[..|rules|] == rules;
  }

  method SimulatePopulation(q: RuleRequest, rules: seq<Rule>, population: map<string, Node>, c: Conditions) returns (s: Simulation)
    ensures Simulates(s, q, rules, population, c)
  {
    hide Affected, Conflicts, ExampleOf;
    var affected, examples := CollectAffected(population, q);
    var distribution: map<string, nat>, conflicts: seq<string> := map[], [];
    if |affected| > 0 {
      distribution := map[q.category := |affected|];
      conflicts := CollectConflicts(rules, population, q.payee, c);
    }
    s := Simulation(q.name, |affected|, affected, distribution, examples, conflicts);
  }

  // The plan.

  predicate HasLive(rows: seq<Row>, id: string) {
    exists i :: 0 <= i < |rows| && rows[i].id == id && !rows[i].deleted
  }

  predicate HasRow(rows: seq<Row>, id: string) {
    exists i :: 0 <= i < |rows| && rows[i].id == id
  }

  predicate ContextNamed(c: ReviewContext) {
    !Blank(c.scope.spaceId) && !Blank(c.scope.budgetId) && !Blank(c.scope.connectionId) && !Blank(c.sourceFactsHash)
    && !Blank(c.evidenceRevision) && !Blank(c.merchantPolicyVersion) && !Blank(c.visibilityHash) && !Blank(c.expiresAt)
    && (c.evidenceKey.Some? ==> !Blank(c.evidenceKey.value))
  }

  predicate Versioned(s: Snapshot) {
    (s.schemaVersion == "1" || s.schemaVersion == "1.0") && !Blank(s.actualVersion)
  }

  /** A named rule, reviewed with named evidence, over a sound source that holds the payee and, undeleted, the category. */
  ghost predicate Plannable(s: Snapshot, q: RuleRequest) {
    !Blank(q.name) && ContextNamed(q.context) && Versioned(s)
    && !Blank(q.payee) && !Blank(q.category) && HasRow(s.payees, q.payee) && HasLive(s.categories, q.category)
    && Sound(s.transactions) && RulesSound(s.rules)
    && DistinctBy(RowId, s.payees) && DistinctBy(RowId, s.categories) && DistinctBy(RowId, s.accounts)
  }

  function BindingOf(s: Snapshot, q: RuleRequest): Binding {
    var c := q.context;
    Binding(s.actualVersion, q.name, q.payee, q.category, c.scope, c.sourceFactsHash, c.evidenceKey, c.evidenceRevision, c.merchantPolicyVersion,
            c.visibilityHash)
  }

  ghost predicate Binds(m: Material, s: Snapshot, q: RuleRequest, population: map<string, Node>, c: Conditions) {
    m.binding == BindingOf(s, q) && m.accounts == SortedRows(s.accounts) && m.payees == SortedRows(s.payees)
    && m.categories == SortedRows(s.categories) && m.rules == Ranked(s.rules) && m.population == population
    && Simulates(m.simulation, q, Ranked(s.rules), population, c)
  }

  method CheckTargets(s: Snapshot, q: RuleRequest) returns (r: Result<()>)
    ensures r.Ok? ==> Versioned(s) && !Blank(q.payee) && !Blank(q.category) && HasRow(s.payees, q.payee) && HasLive(s.categories, q.category)
    ensures r.Err? ==> !Plannable(s, q)
  {
    hide Blank, Sound, RulesSound, ContextNamed;
    if Blank(q.payee) || Blank(q.category) || !Versioned(s) {
      return Err("invalid_source");
    }
    if !HasRow(s.payees, q.payee) {
      return Err("payee_unavailable");
    }
    if exists i, j :: 0 <= i < j < |s.payees| && s.payees[i].id == q.payee && s.payees[j].id == q.payee {
      Repeated(s.payees, q.payee);
      return Err("conflicting_source_id");
    }
    if !HasLive(s.categories, q.category) {
      return Err("category_unavailable");
    }
    if exists i, j :: 0 <= i < j < |s.categories| && s.categories[i].id == q.category && s.categories[j].id == q.category {
      Repeated(s.categories, q.category);
      return Err("conflicting_source_id");
    }
    r := Ok(());
  }

  lemma {:induction false} Repeated(rows: seq<Row>, id: string)
    requires exists i, j :: 0 <= i < j < |rows| && rows[i].id == id && rows[j].id == id
    ensures !DistinctBy(RowId, rows)
  {
    var i, j :| 0 <= i < j < |rows| && rows[i].id == id && rows[j].id == id;
    assert RowId(rows[i]) == RowId(rows[j]);
  }

  /** Plan a rule; the hash binds the request but its deadline, the sorted source, the drained leaves and the simulated impact. */
  method PlanCreateRule(s: Snapshot, q: RuleRequest, c: Conditions, digest: Material -> string) returns (r: Result<string>)
    ensures r.Ok? <==> Plannable(s, q)
    ensures r.Ok? ==> exists population, m :: IsLeafMap(population, s.transactions) && Binds(m, s, q, population, c) && r.value == digest(m)
  {
    hide Blank, Sound, RulesSound, DistinctBy, HasRow, HasLive, IsLeafMap, Simulates, SortedRows, Ranked, ContextNamed, Versioned;
    if Blank(q.name) || !ContextNamed(q.context) {
      return Err("invalid_source");
    }
    var targets :- CheckTargets(s, q);
    var population :- Leaves(s.transactions);
    var rules :- OrderedRules(s.rules);
    var simulation := SimulatePopulation(q, rules, population, c);
    var payees :- CheckRows(s.payees);
    var categories :- CheckRows(s.categories);
    var accounts :- CheckRows(s.accounts);
    var material := Material(BindingOf(s, q), accounts, payees, categories, rules, population, simulation);
    assert Binds(material, s, q, population, c);
    r := Ok(digest(material));
  }

  /** Two captures of the same source, each collection in any order. */
  ghost predicate SameSource(a: Snapshot, b: Snapshot) {
    a.schemaVersion == b.schemaVersion && a.actualVersion == b.actualVersion
    && multiset(a.transactions) == multiset(b.transactions) && multiset(a.rules) == multiset(b.rules)
    && multiset(a.payees) == multiset(b.payees) && multiset(a.categories) == multiset(b.categories)
    && multiset(a.accounts) == multiset(b.accounts)
  }

  lemma {:induction false} HoldsPermute(a: seq<Row>, b: seq<Row>, id: string)
    requires multiset(a) == multiset(b)
    ensures HasRow(a, id) ==> HasRow(b, id)
    ensures HasLive(a, id) ==> HasLive(b, id)
  {
    SameMembers(a, b);
    if HasRow(a, id) {
      var i :| 0 <= i < |a| && a[i].id == id;
      assert a[i] in b;
    }
    if HasLive(a, id) {
      var i :| 0 <= i < |a| && a[i].id == id && !a[i].deleted;
      assert a[i] in b;
    }
  }

  lemma {:induction false} RankedCanonical(a: seq<Rule>, b: seq<Rule>)
    requires multiset(a) == multiset(b) && RulesSound(a)
    ensures Ranked(a) == Ranked(b)
  {
    RulesOrdered();
    hide Blank, StrictOrder, SortBy;
    forall i, j | 0 <= i < j < |a|
      ensures RuleKey(a[i]) != RuleKey(a[j])
    {
      assert RuleId(a[i]) != RuleId(a[j]);
    }
    SortCanonical(RuleKey, RuleLt, a, b);
  }

  /** The same rule reviewed with the same evidence, each time before its own deadline. */
  predicate SameRule(q: RuleRequest, p: RuleRequest) {
    p == q.(context := q.context.(expiresAt := p.context.expiresAt)) && (Blank(q.context.expiresAt) <==> Blank(p.context.expiresAt))
  }

  lemma {:induction false} PlannablePermutes(a: Snapshot, b: Snapshot, q: RuleRequest, p: RuleRequest)
    requires SameSource(a, b) && SameRule(q, p) && Plannable(a, q)
    ensures Plannable(b, p)
  {
    hide Blank, Sound, RulesSound, DistinctBy, HasRow, HasLive;
    HoldsPermute(a.payees, b.payees, q.payee);
    HoldsPermute(a.categories, b.categories, q.category);
    LeavesPermute(a.transactions, b.transactions, map[], map[]);
    RulesSoundPermute(a.rules, b.rules);
    RowsCanonical(a.payees, b.payees);
    RowsCanonical(a.categories, b.categories);
    RowsCanonical(a.accounts, b.accounts);
  }

  /** An accepted rule plan, hash and all, is the same for every order of the source's collections and for every deadline. */
  lemma {:induction false} RulePlanCanonical(a: Snapshot, b: Snapshot, q: RuleRequest, p: RuleRequest, c: Conditions,
                                             x: map<string, Node>, y: map<string, Node>, m: Material, n: Material)
    requires SameSource(a, b) && SameRule(q, p) && IsLeafMap(x, a.transactions) && IsLeafMap(y, b.transactions)
    ensures Plannable(a, q) <==> Plannable(b, p)
    ensures Plannable(a, q) && Binds(m, a, q, x, c) && Binds(n, b, p, y, c) ==> m == n
  {
    if Plannable(b, p) {
      PlannablePermutes(b, a, p, q);
    }
    if Plannable(a, q) {
      PlannablePermutes(a, b, q, p);
      hide Blank, Sound, RulesSound, DistinctBy, HasRow, HasLive, SortedRows, Ranked, Simulates, IsLeafMap, ContextNamed, Versioned;
      LeavesPermute(a.transactions, b.transactions, x, y);
      RankedCanonical(a.rules, b.rules);
      RowsCanonical(a.payees, b.payees);
      RowsCanonical(a.categories, b.categories);
      RowsCanonical(a.accounts, b.accounts);
      if Binds(m, a, q, x, c) && Binds(n, b, p, y, c) {
        SimulationUnique(m.simulation, n.simulation, q, p, Ranked(a.rules), x, c);
      }
    }
  }
}
