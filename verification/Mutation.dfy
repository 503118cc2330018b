/** Verifying a category change: one walk with a stack of sibling iterators, stopping at the second match. */
module Mutation {
  import opened CheckedMoney
  import opened Trees

  datatype Category = Category(id: string, deleted: bool)

  datatype MutationPlan = MutationPlan(
    planId: string, transactionId: string, currentCategoryId: Option<string>, proposedCategoryId: string, postconditions: seq<string>)

  datatype Found = Missing | Unique(node: Node) | Ambiguous

  datatype Verification = Verification(verified: bool, reasons: seq<string>)

  /** The nodes that claim an identity, in walk order. */
  function Matching(nodes: seq<Node>, id: string): seq<Node> {
    if nodes == [] then []
    else Matching(nodes[..|nodes| - 1], id) + if nodes[|nodes| - 1].id == id then [nodes[|nodes| - 1]] else []
  }

  function FoundAmong(claims: seq<Node>): Found {
    if claims == [] then Missing else if |claims| == 1 then Unique(claims[0]) else Ambiguous
  }

  /** What the iterators still have to yield: the innermost level first. */
  function Pending(levels: seq<seq<Node>>): seq<Node> {
    if levels == [] then [] else Nodes(levels[|levels| - 1]) + Pending(levels[..|levels| - 1])
  }

  function Pushed(levels: seq<seq<Node>>, level: seq<Node>): seq<seq<Node>> {
    if level == [] then levels else levels + [level]
  }

  lemma {:induction false} PendingPush(levels: seq<seq<Node>>, level: seq<Node>)
    ensures Pending(levels + [level]) == Nodes(level) + Pending(levels)
    ensures Pending(Pushed(levels, level)) == Nodes(level) + Pending(levels)
  {
    assert (levels + [level])[..|levels|] == levels;
    if level == [] {
      assert Nodes(level) == [];
      assert [] + Pending(levels) == Pending(levels);
    }
  }

  lemma {:induction false} PendingPop(levels: seq<seq<Node>>)
    requires levels != [] && levels[|levels| - 1] == []
    ensures Pending(levels[..|levels| - 1]) == Pending(levels)
  {
    assert Nodes([]) == [];
  }

  lemma {:induction false} FirstNode(level: seq<Node>)
    requires level != []
    ensures Nodes(level) == [level[0]] + Nodes(level[0].children) + Nodes(level[1..])
  {
  }

  lemma {:induction false} Associate<T>(a: seq<T>, b: seq<T>, c: seq<T>, d: seq<T>)
    ensures (a + b + c) + d == a + (b + (c + d))
  {
  }

  lemma {:induction false} PendingNext(front: seq<seq<Node>>, level: seq<Node>)
    requires level != []
    ensures Pending(front + [level]) == [level[0]] + Pending(Pushed(front + [level[1..]], level[0].children))
  {
    hide *;
    PendingPush(front, level);
    PendingPush(front, level[1..]);
    PendingPush(front + [level[1..]], level[0].children);
    FirstNode(level);
    Associate([level[0]], Nodes(level[0].children), Nodes(level[1..]), Pending(front));
  }

  lemma {:induction false} MatchingNext(nodes: seq<Node>, n: Node, id: string)
    ensures Matching(nodes + [n], id) == Matching(nodes, id) + if n.id == id then [n] else []
  {
    assert (nodes + [n])[..|nodes|] == nodes;
  }

  lemma {:induction false} MatchingGrows(nodes: seq<Node>, more: seq<Node>, id: string)
    ensures |Matching(nodes + more, id)| >= |Matching(nodes, id)|
    decreases |more|
  {
    if more == [] {
      assert nodes + more == nodes;
    } else {
      MatchingGrows(nodes, more[..|more| - 1], id);
      assert nodes + more == (nodes + more[..|more| - 1]) + [more[|more| - 1]];
      MatchingNext(nodes + more[..|more| - 1], more[|more| - 1], id);
    }
  }

  /** Visited nodes then pending ones are the whole forest, parents before children; found is the one match so far. */
  ghost predicate Walked(forest: seq<Node>, visited: seq<Node>, levels: seq<seq<Node>>, id: string, found: Option<Node>) {
    visited + Pending(levels) == Nodes(forest)
    && Matching(visited, id) == if found.Some? then [found.value] else []
  }

  lemma {:induction false} WalkStart(forest: seq<Node>, id: string)
    ensures Walked(forest, [], [forest], id, None)
  {
    PendingPush([], forest);
    assert [] + [forest] == [forest];
    assert Pending([]) == [];
    assert Nodes(forest) + [] == Nodes(forest);
  }

  lemma {:induction false} WalkPop(forest: seq<Node>, visited: seq<Node>, levels: seq<seq<Node>>, id: string, found: Option<Node>)
    requires Walked(forest, visited, levels, id, found) && levels != [] && levels[|levels| - 1] == []
    ensures Walked(forest, visited, levels[..|levels| - 1], id, found)
    ensures |Pending(levels[..|levels| - 1])| == |Pending(levels)|
  {
    PendingPop(levels);
  }

  lemma {:induction false} SecondMatch(visited: seq<Node>, node: Node, rest: seq<Node>, id: string)
    requires |Matching(visited, id)| == 1 && node.id == id
    ensures |Matching(visited + [node] + rest, id)| >= 2
  {
    MatchingNext(visited, node, id);
    MatchingGrows(visited + [node], rest, id);
    hide Matching;
  }

  lemma {:induction false} WalkNext(forest: seq<Node>, visited: seq<Node>, front: seq<seq<Node>>, level: seq<Node>, id: string, found: Option<Node>)
    requires level != [] && Walked(forest, visited, front + [level], id, found)
    ensures var next := Pushed(front + [level[1..]], level[0].children);
            |Pending(next)| < |Pending(front + [level])|
            && (level[0].id != id ==> Walked(forest, visited + [level[0]], next, id, found))
            && (level[0].id == id && found.None? ==> Walked(forest, visited + [level[0]], next, id, Some(level[0])))
            && (level[0].id == id && found.Some? ==> |Matching(Nodes(forest), id)| >= 2)
  {
    hide Nodes, Pending, Matching, Pushed;
    var next := Pushed(front + [level[1..]], level[0].children);
    PendingNext(front, level);
    MatchingNext(visited, level[0], id);
    assert Nodes(forest) == (visited + [level[0]]) + Pending(next);
    if level[0].id == id && found.Some? {
      SecondMatch(visited, level[0], Pending(next), id);
    }
  }

  /**
   * Walk the forest with a stack of iterators. The answer is the count of the identity over the whole
   * flattened forest: none, the one node, or ambiguity.
   */
  method FindUnique(forest: seq<Node>, id: string) returns (r: Found)
    ensures r == FoundAmong(Matching(Nodes(forest), id))
  {
    hide Nodes, Pending, Matching, Walked;
    var levels, found: Option<Node> := [forest], None;
    ghost var visited: seq<Node> := [];
    WalkStart(forest, id);
    while levels != []
      invariant Walked(forest, visited, levels, id, found)
      decreases |Pending(levels)|, |levels|
    {
      var level := levels[|levels| - 1];
      if level == [] {
        WalkPop(forest, visited, levels, id, found);
        levels := levels[..|levels| - 1];
      } else {
        assert levels == levels[..|levels| - 1] + [level];
        WalkNext(forest, visited, levels[..|levels| - 1], level, id, found);
        var node := level[0];
        if node.id == id {
          if found.Some? {
            return Ambiguous;
          }
          found := Some(node);
        }
        levels := Pushed(levels[..|levels| - 1] + [level[1..]], node.children);
        visited := visited + [node];
      }
    }
    WalkDone(forest, visited, id, found);
    r := if found.Some? then Unique(found.value) else Missing;
  }

  lemma {:induction false} WalkDone(forest: seq<Node>, visited: seq<Node>, id: string, found: Option<Node>)
    requires Walked(forest, visited, [], id, found)
    ensures Matching(Nodes(forest), id) == if found.Some? then [found.value] else []
  {
    assert Pending([]) == [];
    assert visited + [] == visited;
  }

  // The verification.

  predicate Lives(categories: seq<Category>, id: string) {
    exists i :: 0 <= i < |categories| && categories[i].id == id && !categories[i].deleted
  }

  predicate AllLive(categories: seq<Category>, ids: seq<string>) {
    forall i :: 0 <= i < |ids| ==> Lives(categories, ids[i])
  }

  /** One transaction has the identity, it shows the approved category, and every named category is alive. */
  ghost predicate Applied(plan: MutationPlan, forest: seq<Node>, categories: seq<Category>) {
    var claims := Matching(Nodes(forest), plan.transactionId);
    |claims| == 1 && claims[0].categoryId == Some(plan.proposedCategoryId)
    && Lives(categories, plan.proposedCategoryId) && AllLive(categories, plan.postconditions)
  }

  method VerifyMutation(plan: MutationPlan, forest: seq<Node>, categories: seq<Category>) returns (v: Verification)
    ensures v.verified <==> Applied(plan, forest, categories)
    ensures v.verified ==> v.reasons == ["category_already_matches", "postcondition_verified"]
    ensures |Matching(Nodes(forest), plan.transactionId)| == 0 ==> v.reasons == ["transaction_not_found"]
    ensures |Matching(Nodes(forest), plan.transactionId)| >= 2 ==> v.reasons == ["transaction_identity_conflict"]
  {
    hide Nodes, Matching;
    var found := FindUnique(forest, plan.transactionId);
    if found.Ambiguous? {
      return Verification(false, ["transaction_identity_conflict"]);
    }
    if found.Missing? {
      return Verification(false, ["transaction_not_found"]);
    }
    var observations: seq<string>, failures: seq<string> := [], [];
    if found.node.categoryId == Some(plan.proposedCategoryId) {
      observations := ["category_already_matches"];
    } else {
      failures := ["category_not_applied"];
    }
    if !Lives(categories, plan.proposedCategoryId) {
      failures := failures + ["proposed_category_not_found"];
    }
    ghost var shown := failures;
    for i := 0 to |plan.postconditions|
      invariant failures == [] <==> shown == [] && AllLive(categories, plan.postconditions[..i])
    {
      assert plan.postconditions[..i + 1] == plan.postconditions[..i] + [plan.postconditions[i]];
      if !Lives(categories, plan.postconditions[i]) {
        failures := failures + ["postcondition_not_met"];
      }
    }
    assert plan.postconditions[..|plan.postconditions|] == plan.postconditions;
    v := Verification(failures == [], observations + failures + if failures == [] then ["postcondition_verified"] else []);
  }

  // Planning, applying, verifying.

  function PlanSetCategory(tx: Node, category: Category, digest: (string, string) -> string): MutationPlan {
    MutationPlan("plan_" + digest(tx.id, category.id), tx.id, tx.categoryId, category.id, [category.id])
  }

  /** The forest after every node of an identity takes a category. */
  function Recategorize(forest: seq<Node>, id: string, category: string): seq<Node>
    decreases forest
  {
    if forest == [] then []
    else
      var n := forest[0];
      var children := Recategorize(n.children, id, category);
      [n.(children := children, categoryId := if n.id == id then Some(category) else n.categoryId)] + Recategorize(forest[1..], id, category)
  }

  lemma {:induction false} MatchingConcat(a: seq<Node>, b: seq<Node>, id: string)
    ensures Matching(a + b, id) == Matching(a, id) + Matching(b, id)
    decreases |b|
  {
    if b == [] {
      assert a + b == a;
    } else {
      MatchingConcat(a, b[..|b| - 1], id);
      assert a + b == (a + b[..|b| - 1]) + [b[|b| - 1]];
      MatchingNext(a + b[..|b| - 1], b[|b| - 1], id);
    }
  }

  ghost predicate AllShow(claims: seq<Node>, category: string) {
    forall i :: 0 <= i < |claims| ==> claims[i].categoryId == Some(category)
  }

  lemma {:induction false} MatchingSplit(forest: seq<Node>, id: string)
    requires forest != []
    ensures Matching(Nodes(forest), id)
         == (if forest[0].id == id then [forest[0]] else []) + Matching(Nodes(forest[0].children), id) + Matching(Nodes(forest[1..]), id)
  {
    FirstNode(forest);
    hide Nodes;
    MatchingConcat([forest[0]] + Nodes(forest[0].children), Nodes(forest[1..]), id);
    MatchingConcat([forest[0]], Nodes(forest[0].children), id);
    MatchingNext([], forest[0], id);
    assert [] + [forest[0]] == [forest[0]] && Matching([], id) == [];
  }

  /** Taking a category keeps who claims the identity, and all of them show it. */
  lemma {:induction false} RecategorizedClaims(forest: seq<Node>, id: string, category: string)
    ensures |Matching(Nodes(Recategorize(forest, id, category)), id)| == |Matching(Nodes(forest), id)|
    ensures AllShow(Matching(Nodes(Recategorize(forest, id, category)), id), category)
    decreases forest
  {
    if forest != [] {
      var after := Recategorize(forest, id, category);
      RecategorizedClaims(forest[0].children, id, category);
      RecategorizedClaims(forest[1..], id, category);
      MatchingSplit(forest, id);
      MatchingSplit(after, id);
      assert after[1..] == Recategorize(forest[1..], id, category);
      assert after[0].children == Recategorize(forest[0].children, id, category) && after[0].id == forest[0].id;
      hide Nodes, Matching, Recategorize;
    }
  }

  /** A planned change verifies once the one transaction it names takes an existing, undeleted category. */
  lemma {:induction false} PlannedChangeVerifies(forest: seq<Node>, tx: Node, category: Category, categories: seq<Category>, digest: (string, string) -> string)
    requires Matching(Nodes(forest), tx.id) == [tx] && category in categories && !category.deleted
    ensures Applied(PlanSetCategory(tx, category, digest), Recategorize(forest, tx.id, category.id), categories)
  {
    hide Nodes, Matching, Recategorize;
    RecategorizedClaims(forest, tx.id, category.id);
    var i :| 0 <= i < |categories| && categories[i] == category;
    assert Lives(categories, category.id);
  }
}
