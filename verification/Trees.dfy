/** Transactions with nested subtransactions, and the leaves an explicit stack drains them to. */
module Trees {
  import opened CheckedMoney
  import opened Text
  import opened Permutations

  datatype Node = Node(
    id: string, accountId: string, amount: Money, categoryId: Option<string>, payeeId: Option<string>, payeeName: Option<string>,
    children: seq<Node>)

  /** Every node of a forest, each before its own subtransactions. */
  function Nodes(forest: seq<Node>): seq<Node>
    decreases forest
  {
    if forest == [] then [] else [forest[0]] + Nodes(forest[0].children) + Nodes(forest[1..])
  }

  predicate Named(n: Node) {
    !Blank(n.id) && !Blank(n.accountId)
  }

  /** Nested nodes all carry identities, and equal identities mean equal nodes. */
  ghost predicate Sound(forest: seq<Node>) {
    (forall n :: n in Nodes(forest) ==> Named(n))
    && forall m, n :: m in Nodes(forest) && n in Nodes(forest) && m.id == n.id ==> m == n
  }

  /** Exactly the leaf nodes, each once under its identity. */
  ghost predicate IsLeafMap(leaves: map<string, Node>, forest: seq<Node>) {
    (forall id :: id in leaves ==> leaves[id] in Nodes(forest) && leaves[id].id == id && leaves[id].children == [])
    && forall n :: n in Nodes(forest) && n.children == [] ==> n.id in leaves
  }

  lemma {:induction false} NodesConcat(a: seq<Node>, b: seq<Node>)
    ensures Nodes(a + b) == Nodes(a) + Nodes(b)
    decreases |a|
  {
    if a == [] {
      assert a + b == b;
      assert Nodes(a) == [];
    } else {
      assert (a + b)[1..] == a[1..] + b && (a + b)[0] == a[0];
      NodesConcat(a[1..], b);
      var first, x, y := [a[0]] + Nodes(a[0].children), Nodes(a[1..]), Nodes(b);
      assert Nodes(a) == first + x && Nodes(a + b) == first + (x + y);
      hide Nodes;
      assert first + (x + y) == (first + x) + y;
    }
  }

  lemma {:induction false} OfTree(forest: seq<Node>, i: nat)
    requires i < |forest|
    ensures forest[i] in Nodes(forest) && forall n :: n in Nodes(forest[i].children) ==> n in Nodes(forest)
    decreases i
  {
    if i > 0 {
      OfTree(forest[1..], i - 1);
    }
  }

  lemma {:induction false} ChildrenOf(forest: seq<Node>, n: Node, c: Node)
    requires n in Nodes(forest) && c in n.children
    ensures c in Nodes(forest)
    decreases forest
  {
    if n == forest[0] {
      var i :| 0 <= i < |n.children| && n.children[i] == c;
      OfTree(n.children, i);
    } else if n in Nodes(forest[0].children) {
      ChildrenOf(forest[0].children, n, c);
    } else {
      ChildrenOf(forest[1..], n, c);
    }
  }

  /** A set of nodes that holds the roots and every child of its members holds every node. */
  lemma {:induction false} Closed(forest: seq<Node>, held: set<Node>, n: Node)
    requires forall i :: 0 <= i < |forest| ==> forest[i] in held
    requires forall m, c :: m in held && c in m.children ==> c in held
    requires n in Nodes(forest)
    ensures n in held
    decreases forest
  {
    if n != forest[0] {
      if n in Nodes(forest[0].children) {
        Closed(forest[0].children, held, n);
      } else {
        Closed(forest[1..], held, n);
      }
    }
  }

  // The drain.

  /** What an identity was first seen as. */
  predicate SeenAs(seen: map<string, Node>, n: Node) {
    n.id in seen && seen[n.id] == n
  }

  ghost predicate Drained(forest: seq<Node>, stack: seq<Node>, seen: map<string, Node>, leaves: map<string, Node>) {
    (forall n :: n in stack ==> n in Nodes(forest))
    && (forall id :: id in seen ==> seen[id].id == id && seen[id] in Nodes(forest) && Named(seen[id]))
    && (forall i :: 0 <= i < |forest| ==> SeenAs(seen, forest[i]) || forest[i] in stack)
    && (forall id, c :: id in seen && c in seen[id].children ==> SeenAs(seen, c) || c in stack)
    && forall id :: id in leaves <==> id in seen && seen[id].children == []
  }

  ghost predicate LeavesSeen(seen: map<string, Node>, leaves: map<string, Node>) {
    forall id :: id in leaves ==> id in seen && leaves[id] == seen[id]
  }

  lemma {:induction false} DrainStart(forest: seq<Node>)
    ensures Drained(forest, forest, map[], map[])
  {
    forall n | n in forest
      ensures n in Nodes(forest)
    {
      var i :| 0 <= i < |forest| && forest[i] == n;
      OfTree(forest, i);
    }
  }

  lemma {:induction false} PopMember(stack: seq<Node>, n: Node)
    requires stack != []
    ensures n in stack <==> n in stack[..|stack| - 1] || n == stack[|stack| - 1]
  {
    assert stack == stack[..|stack| - 1] + [stack[|stack| - 1]];
  }

  /** A node met before needs nothing more: its children are already seen or waiting. */
  lemma {:induction false} DrainAgain(forest: seq<Node>, stack: seq<Node>, seen: map<string, Node>, leaves: map<string, Node>)
    requires stack != [] && Drained(forest, stack, seen, leaves) && SeenAs(seen, stack[|stack| - 1])
    ensures Drained(forest, stack[..|stack| - 1], seen, leaves)
  {
    hide Nodes, Named;
    forall n
      ensures n in stack <==> n in stack[..|stack| - 1] || n == stack[|stack| - 1]
    {
      PopMember(stack, n);
    }
  }

  lemma {:induction false} DrainNext(forest: seq<Node>, stack: seq<Node>, seen: map<string, Node>, leaves: map<string, Node>)
    requires stack != [] && Drained(forest, stack, seen, leaves)
    requires Named(stack[|stack| - 1]) && stack[|stack| - 1].id !in seen
    ensures var n := stack[|stack| - 1];
            Drained(forest, stack[..|stack| - 1] + n.children, seen[n.id := n], if n.children == [] then leaves[n.id := n] else leaves)
  {
    hide Nodes, Named;
    var n := stack[|stack| - 1];
    forall m
      ensures m in stack <==> m in stack[..|stack| - 1] || m == n
    {
      PopMember(stack, m);
    }
    forall c | c in n.children
      ensures c in Nodes(forest)
    {
      ChildrenOf(forest, n, c);
    }
    var rest := stack[..|stack| - 1] + n.children;
    forall c | c in stack || SeenAs(seen, c)
      ensures c in rest || SeenAs(seen[n.id := n], c)
    {
      assert c in stack[..|stack| - 1] ==> c in rest;
    }
    assert forall c :: c in n.children ==> c in rest;
  }

  function Size(forest: seq<Node>): nat {
    |Nodes(forest)|
  }

  lemma {:induction false} SizePop(stack: seq<Node>)
    requires stack != []
    ensures Size(stack[..|stack| - 1]) < Size(stack)
    ensures Size(stack[..|stack| - 1] + stack[|stack| - 1].children) < Size(stack)
  {
    var front, last := stack[..|stack| - 1], stack[|stack| - 1];
    assert stack == front + [last];
    NodesConcat(front, [last]);
    NodesConcat(front, last.children);
    assert Nodes([last]) == [last] + Nodes(last.children) + Nodes([]);
  }

  lemma {:induction false} DrainDone(forest: seq<Node>, seen: map<string, Node>, leaves: map<string, Node>)
    requires Drained(forest, [], seen, leaves) && LeavesSeen(seen, leaves)
    ensures Sound(forest) && IsLeafMap(leaves, forest)
  {
    hide Nodes, Named;
    var held := set id | id in seen :: seen[id];
    forall n
      ensures SeenAs(seen, n) ==> n in held
      ensures n in held ==> SeenAs(seen, n)
    {
    }
    forall n | n in Nodes(forest)
      ensures SeenAs(seen, n)
    {
      Closed(forest, held, n);
    }
  }

  /**
   * Drain an explicit stack. It succeeds exactly when every nested node carries its identities and equal
   * identities mean equal nodes, and then returns exactly the leaf nodes.
   */
  method Leaves(forest: seq<Node>) returns (r: Result<map<string, Node>>)
    ensures r.Ok? <==> Sound(forest)
    ensures r.Ok? ==> IsLeafMap(r.value, forest)
    ensures r.Err? ==> r.error in {"invalid_source", "conflicting_source_id"}
  {
    hide Nodes, Named, Drained, Sound, IsLeafMap, Size;
    var stack: seq<Node>, seen: map<string, Node>, leaves: map<string, Node> := forest, map[], map[];
    DrainStart(forest);
    while stack != []
      invariant Drained(forest, stack, seen, leaves) && LeavesSeen(seen, leaves)
      decreases Size(stack)
    {
      var n := stack[|stack| - 1];
      SizePop(stack);
      Poppable(forest, stack, seen, leaves);
      if !Named(n) {
        return Err("invalid_source");
      }
      if n.id in seen {
        if seen[n.id] != n {
          return Err("conflicting_source_id");
        }
        DrainAgain(forest, stack, seen, leaves);
        stack := stack[..|stack| - 1];
      } else {
        DrainNext(forest, stack, seen, leaves);
        seen := seen[n.id := n];
        if n.children == [] {
          leaves := leaves[n.id := n];
          assert stack[..|stack| - 1] + n.children == stack[..|stack| - 1];
        }
        stack := stack[..|stack| - 1] + n.children;
      }
    }
    DrainDone(forest, seen, leaves);
    r := Ok(leaves);
  }

  /** A popped node is one of the forest's, so what is wrong with it is wrong with the forest. */
  lemma {:induction false} Poppable(forest: seq<Node>, stack: seq<Node>, seen: map<string, Node>, leaves: map<string, Node>)
    requires stack != [] && Drained(forest, stack, seen, leaves)
    ensures var n := stack[|stack| - 1];
            (!Named(n) ==> !Sound(forest)) && (n.id in seen && seen[n.id] != n ==> !Sound(forest))
  {
    hide Nodes, Named;
    PopMember(stack, stack[|stack| - 1]);
  }

  // Order at the top level does not matter.

  lemma {:induction false} NodesPermute(a: seq<Node>, b: seq<Node>, n: Node)
    requires multiset(a) == multiset(b) && n in Nodes(a)
    ensures n in Nodes(b)
  {
    SameMembers(a, b);
    var i := TreeWith(a, n);
    assert a[i] in b;
    var j :| 0 <= j < |b| && b[j] == a[i];
    OfTree(b, j);
  }

  lemma {:induction false} TreeWith(forest: seq<Node>, n: Node) returns (i: nat)
    requires n in Nodes(forest)
    ensures i < |forest| && (n == forest[i] || n in Nodes(forest[i].children))
    decreases |forest|
  {
    if n == forest[0] || n in Nodes(forest[0].children) {
      i := 0;
    } else {
      var k := TreeWith(forest[1..], n);
      i := k + 1;
    }
  }

  /** Top-level order changes neither whether a forest is sound nor what its leaves are. */
  lemma {:induction false} LeavesPermute(a: seq<Node>, b: seq<Node>, x: map<string, Node>, y: map<string, Node>)
    requires multiset(a) == multiset(b)
    ensures Sound(a) <==> Sound(b)
    ensures Sound(a) && IsLeafMap(x, a) && IsLeafMap(y, b) ==> x == y
  {
    hide Nodes, Named;
    forall n
      ensures n in Nodes(a) <==> n in Nodes(b)
    {
      if n in Nodes(a) {
        NodesPermute(a, b, n);
      }
      if n in Nodes(b) {
        NodesPermute(b, a, n);
      }
    }
    if Sound(a) && IsLeafMap(x, a) && IsLeafMap(y, b) {
      forall id
        ensures id in x <==> id in y
        ensures id in x && id in y ==> x[id] == y[id]
      {
        assert id in x ==> x[id].id == id && x[id].id in y;
        assert id in y ==> y[id].id == id && y[id].id in x;
      }
    }
  }
}
