/** The iterative depth-first numbering that every later phase relies on. */
module ReversePostorder {
  import opened Cir
  import opened Graphs

  /** `tree` records, for each visited node, the depth-first tree path that leads to it. */
  ghost predicate TreePaths(g: Graph, tree: map<Label, seq<Label>>) {
    forall v :: v in tree ==>
      && Connects(g, g.entry, tree[v], v)
      && forall i :: 0 <= i < |tree[v]| ==> tree[v][i] in tree && tree[tree[v][i]] == tree[v][..i + 1]
  }

  /** What a reverse postorder promises: it lists exactly the reachable nodes,
      once each, entry first; tree paths run forward in it; and an edge that
      does not run forward ends at a depth-first ancestor of its source. */
  ghost predicate IsReversePostorder(g: Graph, rpo: seq<Label>, tree: map<Label, seq<Label>>) {
    && rpo != [] && rpo[0] == g.entry
    && NoDuplicates(rpo)
    && (forall v :: v in rpo <==> Reachable(g, v))
    && (forall v :: v in rpo <==> v in tree)
    && TreePaths(g, tree)
    && (forall i, j :: TreeForward(rpo, tree, i, j))
    && (forall i, j :: RetreatsToAncestor(g, rpo, tree, i, j))
  }

  // The two clauses are predicates of their own so that they are used only where a proof names them.

  predicate TreeForward(rpo: seq<Label>, tree: map<Label, seq<Label>>, i: int, j: int) {
    0 <= i < |rpo| && 0 <= j < |rpo| && rpo[j] in tree && rpo[i] in tree[rpo[j]] ==> i <= j
  }

  predicate RetreatsToAncestor(g: Graph, rpo: seq<Label>, tree: map<Label, seq<Label>>, i: int, j: int) {
    0 <= i <= j < |rpo| && Edge(g, rpo[j], rpo[i]) ==> rpo[j] in tree && rpo[i] in tree[rpo[j]]
  }

  function Reverse(s: seq<Label>): (r: seq<Label>)
    ensures |r| == |s|
    ensures forall i :: 0 <= i < |s| ==> r[i] == s[|s| - 1 - i]
  {
    seq(|s|, i requires 0 <= i < |s| => s[|s| - 1 - i])
  }

  /** A frame of the search: a node and how far its successors have been scanned. */
  datatype Frame = Frame(node: Label, next: nat)

  ghost predicate OnStack(stack: seq<Frame>, v: Label) {
    exists i :: 0 <= i < |stack| && stack[i].node == v
  }

  ghost predicate MarksOk(g: Graph, seen: set<Label>, tree: map<Label, seq<Label>>) {
    g.entry in seen && seen <= g.succ.Keys && tree.Keys == seen && TreePaths(g, tree)
  }

  /** The stack spells the tree path of its top, and what it has scanned is seen. */
  ghost predicate StackOk(g: Graph, seen: set<Label>, stack: seq<Frame>, tree: map<Label, seq<Label>>) {
    && (forall i :: 0 <= i < |stack| ==> stack[i].node in seen && stack[i].node in g.succ && stack[i].node in tree)
    && (forall i :: 0 <= i < |stack| ==> |tree[stack[i].node]| == i + 1)
    && (forall i, j :: 0 <= j <= i < |stack| ==> tree[stack[i].node][j] == stack[j].node)
    && (forall i, k :: 0 <= i < |stack| && 0 <= k < stack[i].next && k < |g.succ[stack[i].node]| ==>
          g.succ[stack[i].node][k] in seen)
  }

  /** Seen nodes are finished or on the stack, never both. */
  ghost predicate SplitOk(seen: set<Label>, order: seq<Label>, stack: seq<Frame>) {
    && (forall v :: v in order ==> v in seen)
    && (forall i :: 0 <= i < |stack| ==> stack[i].node !in order)
    && (forall v :: v in seen ==> v in order || OnStack(stack, v))
  }

  /** Nodes finish after their tree descendants, and every successor of a
      finished node finished earlier or is a tree ancestor. */
  ghost predicate OrderOk(g: Graph, order: seq<Label>, tree: map<Label, seq<Label>>) {
    && NoDuplicates(order)
    && (forall i :: 0 <= i < |order| ==> order[i] in tree)
    && (forall i, j :: 0 <= i < |order| && 0 <= j < |order| && order[i] in tree[order[j]] ==> j <= i)
    && (forall i, v :: 0 <= i < |order| && Edge(g, order[i], v) ==> v in tree[order[i]] || v in order[..i])
  }

  ghost predicate SearchInvariant(g: Graph, seen: set<Label>, order: seq<Label>, stack: seq<Frame>,
                                  tree: map<Label, seq<Label>>)
  {
    MarksOk(g, seen, tree) && StackOk(g, seen, stack, tree) && SplitOk(seen, order, stack) && OrderOk(g, order, tree)
  }

  lemma FinishSplit(seen: set<Label>, order: seq<Label>, stack: seq<Frame>)
    requires SplitOk(seen, order, stack) && stack != [] && stack[|stack| - 1].node in seen
    requires forall i :: 0 <= i < |stack| - 1 ==> stack[i].node != stack[|stack| - 1].node
    ensures SplitOk(seen, order + [stack[|stack| - 1].node], stack[..|stack| - 1])
  {
    var order', stack' := order + [stack[|stack| - 1].node], stack[..|stack| - 1];
    forall v | v in seen
      ensures v in order' || OnStack(stack', v)
    {
      if v !in order' {
        var i :| 0 <= i < |stack| && stack[i].node == v;
        assert stack'[i].node == v;
      }
    }
  }

  lemma FinishOrder(g: Graph, order: seq<Label>, tree: map<Label, seq<Label>>, node: Label)
    requires OrderOk(g, order, tree) && node in tree && node !in order
    requires forall v :: v in tree[node] ==> v !in order
    requires forall v :: Edge(g, node, v) ==> v in tree[node] || v in order
    ensures OrderOk(g, order + [node], tree)
  {
    var order' := order + [node];
    forall i, j
      ensures DistinctAt(order', i, j)
    {
      assert DistinctAt(order, i, j);
    }
    forall i, v | 0 <= i < |order'| && Edge(g, order'[i], v)
      ensures v in tree[order'[i]] || v in order'[..i]
    {
      if i < |order| {
        assert Edge(g, order[i], v);
        assert order'[..i] == order[..i];
      } else {
        assert order'[..i] == order;
      }
    }
  }

  /** The tree path of the top is what is on the stack. */
  lemma TopPath(g: Graph, seen: set<Label>, stack: seq<Frame>, tree: map<Label, seq<Label>>)
    requires StackOk(g, seen, stack, tree) && stack != []
    ensures var node := stack[|stack| - 1].node;
            && node in tree && node in seen && node in g.succ
            && (forall v :: v in tree[node] <==> OnStack(stack, v))
            && (forall i :: 0 <= i < |stack| - 1 ==> stack[i].node != node)
    ensures StackOk(g, seen, stack[..|stack| - 1], tree)
  {
    var n := |stack| - 1;
    var node := stack[n].node;
    forall v
      ensures v in tree[node] <==> OnStack(stack, v)
    {
      if v in tree[node] {
        var k :| 0 <= k < |tree[node]| && tree[node][k] == v;
        assert stack[k].node == v;
      }
      if OnStack(stack, v) {
        var k :| 0 <= k < |stack| && stack[k].node == v;
        assert tree[node][k] == v;
      }
    }
    forall i | 0 <= i < n
      ensures stack[i].node != node
    {
      assert |tree[stack[i].node]| == i + 1;
    }
  }

  lemma FinishNode(g: Graph, seen: set<Label>, order: seq<Label>, stack: seq<Frame>,
                   tree: map<Label, seq<Label>>)
    requires SearchInvariant(g, seen, order, stack, tree) && stack != []
    requires stack[|stack| - 1].node in g.succ
    requires forall v :: v in g.succ[stack[|stack| - 1].node] ==> v in seen
    ensures SearchInvariant(g, seen, order + [stack[|stack| - 1].node], stack[..|stack| - 1], tree)
  {
    hide TreePaths, StackOk, OrderOk;
    TopPath(g, seen, stack, tree);
    FinishSplit(seen, order, stack);
    FinishOrder(g, order, tree, stack[|stack| - 1].node);
  }

  lemma DiscoverMarks(g: Graph, seen: set<Label>, tree: map<Label, seq<Label>>, node: Label, nxt: Label)
    requires MarksOk(g, seen, tree) && Closed(g) && node in seen && nxt !in seen && Edge(g, node, nxt)
    ensures MarksOk(g, seen + {nxt}, tree[nxt := tree[node] + [nxt]])
  {
    var tree' := tree[nxt := tree[node] + [nxt]];
    ExtendPath(g, g.entry, tree[node], node, nxt);
    forall v, i | v in tree' && 0 <= i < |tree'[v]|
      ensures tree'[v][i] in tree' && tree'[tree'[v][i]] == tree'[v][..i + 1]
    {
      if v == nxt {
        if i < |tree[node]| {
          assert tree'[v][i] == tree[node][i];
          assert tree'[v][..i + 1] == tree[node][..i + 1];
        } else {
          assert tree'[v][..i + 1] == tree'[v];
        }
      }
    }
  }

  /** The stack after discovering `nxt` as the `k`th successor of the top. */
  function Push(stack: seq<Frame>, k: nat, nxt: Label): (r: seq<Frame>)
    requires stack != []
  {
    stack[..|stack| - 1] + [Frame(stack[|stack| - 1].node, k + 1), Frame(nxt, 0)]
  }

  lemma DiscoverStack(g: Graph, seen: set<Label>, stack: seq<Frame>, tree: map<Label, seq<Label>>, k: nat, nxt: Label)
    requires StackOk(g, seen, stack, tree) && stack != []
    requires var succ := g.succ[stack[|stack| - 1].node];
             k < |succ| && succ[k] == nxt && nxt !in seen && forall j :: 0 <= j < k ==> succ[j] in seen
    requires nxt in g.succ
    ensures StackOk(g, seen + {nxt}, Push(stack, k, nxt),
                    tree[nxt := tree[stack[|stack| - 1].node] + [nxt]])
  {
    var n := |stack| - 1;
    var stack', tree' := Push(stack, k, nxt), tree[nxt := tree[stack[n].node] + [nxt]];
    assert forall i :: 0 <= i <= n ==> stack'[i].node == stack[i].node && stack[i].node != nxt;
    assert stack'[n + 1].node == nxt;
    forall i, j | 0 <= j <= i < |stack'|
      ensures |tree'[stack'[i].node]| == i + 1 && tree'[stack'[i].node][j] == stack'[j].node
    {
      if i <= n {
        assert tree'[stack'[i].node] == tree[stack[i].node];
      } else {
        assert tree'[nxt] == tree[stack[n].node] + [nxt];
      }
    }
  }

  lemma DiscoverSplit(seen: set<Label>, order: seq<Label>, stack: seq<Frame>, k: nat, nxt: Label)
    requires SplitOk(seen, order, stack) && stack != [] && nxt !in seen
    ensures SplitOk(seen + {nxt}, order, Push(stack, k, nxt))
  {
    var stack' := Push(stack, k, nxt);
    assert stack'[|stack|].node == nxt;
    forall i | 0 <= i < |stack'|
      ensures stack'[i].node !in order
    {
      assert i < |stack| ==> stack'[i].node == stack[i].node;
    }
    forall v | v in seen && v !in order
      ensures OnStack(stack', v)
    {
      var i :| 0 <= i < |stack| && stack[i].node == v;
      assert stack'[i].node == v;
    }
  }

  lemma DiscoverOrder(g: Graph, order: seq<Label>, tree: map<Label, seq<Label>>, nxt: Label, path: seq<Label>)
    requires OrderOk(g, order, tree) && nxt !in tree
    ensures OrderOk(g, order, tree[nxt := path])
  {}

  lemma DiscoverNode(g: Graph, seen: set<Label>, order: seq<Label>, stack: seq<Frame>,
                     tree: map<Label, seq<Label>>, k: nat)
    requires Closed(g) && SearchInvariant(g, seen, order, stack, tree) && stack != []
    requires stack[|stack| - 1].node in seen
    requires var succ := g.succ[stack[|stack| - 1].node];
             && k < |succ| && succ[k] !in seen
             && forall j :: 0 <= j < k ==> succ[j] in seen
    ensures var node := stack[|stack| - 1].node;
            var nxt := g.succ[node][k];
            SearchInvariant(g, seen + {nxt}, order, Push(stack, k, nxt), tree[nxt := tree[node] + [nxt]])
  {
    hide StackOk, SplitOk, OrderOk, TreePaths, Push;
    var node := stack[|stack| - 1].node;
    var nxt := g.succ[node][k];
    assert Edge(g, node, nxt);
    DiscoverMarks(g, seen, tree, node, nxt);
    DiscoverSplit(seen, order, stack, k, nxt);
    DiscoverStack(g, seen, stack, tree, k, nxt);
    DiscoverOrder(g, order, tree, nxt, tree[node] + [nxt]);
  }

  /** Once the search is over, everything reachable has been finished. */
  lemma AllReached(g: Graph, order: seq<Label>, tree: map<Label, seq<Label>>, p: seq<Label>)
    requires OrderOk(g, order, tree) && g.entry in order
    requires forall v :: v in tree ==> forall w :: w in tree[v] ==> w in order
    requires IsPath(g, p) && p[0] == g.entry
    ensures p[|p| - 1] in order
  {
    if |p| > 1 {
      AllReached(g, order, tree, p[..|p| - 1]);
      var i :| 0 <= i < |order| && order[i] == p[|p| - 2];
      assert Edge(g, order[i], p[|p| - 1]);
    }
  }

  /** What the loop needs to know about the top of the stack. */
  lemma TopFrame(g: Graph, seen: set<Label>, order: seq<Label>, stack: seq<Frame>, tree: map<Label, seq<Label>>)
    requires Closed(g) && SearchInvariant(g, seen, order, stack, tree) && stack != []
    ensures var top := stack[|stack| - 1];
            && top.node in seen && top.node in g.succ && top.node in tree
            && (forall v :: v in g.succ[top.node] ==> v in g.succ)
            && forall j :: 0 <= j < top.next && j < |g.succ[top.node]| ==> g.succ[top.node][j] in seen
  {
    var node := stack[|stack| - 1].node;
    forall v | v in g.succ[node]
      ensures v in g.succ
    {
      assert Edge(g, node, v);
    }
  }

  lemma InitialSearch(g: Graph)
    requires Closed(g)
    ensures SearchInvariant(g, {g.entry}, [], [Frame(g.entry, 0)], map[g.entry := [g.entry]])
  {
    var stack := [Frame(g.entry, 0)];
    assert stack[0].node == g.entry;
  }

  method Compute(g: Graph) returns (rpo: seq<Label>, ghost tree: map<Label, seq<Label>>)
    requires Closed(g)
    ensures rpo != [] && rpo[0] == g.entry && NoDuplicates(rpo)
    ensures forall v :: v in rpo <==> Reachable(g, v)
    ensures IsReversePostorder(g, rpo, tree)
  {
    hide SearchInvariant, IsReversePostorder, NoDuplicates;
    var seen := {g.entry};
    var order: seq<Label> := [];
    var stack := [Frame(g.entry, 0)];
    tree := map[g.entry := [g.entry]];
    InitialSearch(g);
    while stack != []
      invariant SearchInvariant(g, seen, order, stack, tree)
      decreases g.succ.Keys - seen, |stack|
    {
      TopFrame(g, seen, order, stack, tree);
      var top := stack[|stack| - 1];
      var succ := g.succ[top.node];
      var k := top.next;
      while k < |succ| && succ[k] in seen
        invariant forall j :: 0 <= j < k && j < |succ| ==> succ[j] in seen
      {
        k := k + 1;
      }
      if k >= |succ| {
        FinishNode(g, seen, order, stack, tree);
        order := order + [top.node];
        stack := stack[..|stack| - 1];
      } else {
        var nxt := succ[k];
        DiscoverNode(g, seen, order, stack, tree, k);
        assert nxt in g.succ.Keys - seen;
        tree := tree[nxt := tree[top.node] + [nxt]];
        seen := seen + {nxt};
        stack := Push(stack, k, nxt);
      }
    }
    rpo := Reverse(order);
    FinishedSearch(g, seen, order, tree);
    OrderListed(g, rpo, tree);
  }

  lemma OrderListed(g: Graph, rpo: seq<Label>, tree: map<Label, seq<Label>>)
    requires IsReversePostorder(g, rpo, tree)
    ensures rpo != [] && rpo[0] == g.entry && NoDuplicates(rpo)
    ensures forall v :: v in rpo <==> Reachable(g, v)
  {
    hide NoDuplicates, TreePaths, TreeForward, RetreatsToAncestor;
  }

  lemma SameMembers(order: seq<Label>)
    ensures forall v :: v in Reverse(order) <==> v in order
    ensures NoDuplicates(order) ==> NoDuplicates(Reverse(order))
  {
    forall v | v in order
      ensures v in Reverse(order)
    {
      var i :| 0 <= i < |order| && order[i] == v;
      assert Reverse(order)[|order| - 1 - i] == v;
    }
    forall i, j | NoDuplicates(order)
      ensures DistinctAt(Reverse(order), i, j)
    {
      assert DistinctAt(order, |order| - 1 - j, |order| - 1 - i);
    }
  }

  lemma OrderIsReachable(g: Graph, order: seq<Label>, tree: map<Label, seq<Label>>)
    requires Closed(g) && OrderOk(g, order, tree) && TreePaths(g, tree) && g.entry in order
    requires forall v :: v in order <==> v in tree
    ensures forall v :: v in order <==> Reachable(g, v)
  {
    forall v
      ensures v in order <==> Reachable(g, v)
    {
      if v in order {
        assert Connects(g, g.entry, tree[v], v);
      }
      if Reachable(g, v) {
        var p :| Connects(g, g.entry, p, v);
        AllReached(g, order, tree, p);
      }
    }
  }

  /** The entry is a tree ancestor of everything, so it finishes last. */
  lemma EntryFinishesLast(g: Graph, order: seq<Label>, tree: map<Label, seq<Label>>)
    requires OrderOk(g, order, tree) && TreePaths(g, tree) && g.entry in order
    ensures order[|order| - 1] == g.entry
  {
    var n := |order| - 1;
    var e :| 0 <= e <= n && order[e] == g.entry;
    assert tree[order[n]][0] == order[e];
  }

  lemma FinishedEdge(g: Graph, order: seq<Label>, tree: map<Label, seq<Label>>, u: nat, v: nat)
    requires OrderOk(g, order, tree)
    requires u <= v < |order| && Edge(g, order[u], order[v])
    ensures order[u] in tree && order[v] in tree[order[u]]
  {
    forall i | 0 <= i < u
      ensures order[..u][i] != order[v]
    {
      assert DistinctAt(order, i, v);
    }
  }

  lemma FinishedTree(g: Graph, order: seq<Label>, tree: map<Label, seq<Label>>, i: int, j: int)
    requires OrderOk(g, order, tree)
    ensures TreeForward(Reverse(order), tree, i, j)
  {
    hide Edge, OrderOk;
    var r, n := Reverse(order), |order|;
    if 0 <= i < n && 0 <= j < n && r[j] in tree && r[i] in tree[r[j]] {
      OrderForward(g, order, tree, n - 1 - i, n - 1 - j);
    }
  }

  lemma OrderForward(g: Graph, order: seq<Label>, tree: map<Label, seq<Label>>, i: nat, j: nat)
    requires OrderOk(g, order, tree) && i < |order| && j < |order| && order[j] in tree && order[i] in tree[order[j]]
    ensures j <= i
  {
    hide Edge, NoDuplicates;
  }

  lemma FinishedRetreat(g: Graph, order: seq<Label>, tree: map<Label, seq<Label>>, i: int, j: int)
    requires OrderOk(g, order, tree)
    ensures RetreatsToAncestor(g, Reverse(order), tree, i, j)
  {
    hide Edge, OrderOk;
    var rpo, n := Reverse(order), |order|;
    if 0 <= i <= j < n && Edge(g, rpo[j], rpo[i]) {
      FinishedEdge(g, order, tree, n - 1 - j, n - 1 - i);
      OrderInTree(g, order, tree, n - 1 - j);
    }
  }

  lemma OrderInTree(g: Graph, order: seq<Label>, tree: map<Label, seq<Label>>, i: nat)
    requires OrderOk(g, order, tree) && i < |order|
    ensures order[i] in tree
  {}

  lemma FinishedSearch(g: Graph, seen: set<Label>, order: seq<Label>, tree: map<Label, seq<Label>>)
    requires Closed(g) && SearchInvariant(g, seen, order, [], tree)
    ensures IsReversePostorder(g, Reverse(order), tree)
  {
    assert forall v :: v in order <==> v in tree by {
      assert forall v :: !OnStack([], v);
    }
    FinishedOrder(g, order, tree);
  }

  lemma FinishedOrder(g: Graph, order: seq<Label>, tree: map<Label, seq<Label>>)
    requires Closed(g) && OrderOk(g, order, tree) && TreePaths(g, tree) && g.entry in tree
    requires forall v :: v in order <==> v in tree
    ensures IsReversePostorder(g, Reverse(order), tree)
  {
    hide TreePaths, Closed, Edge, OrderOk, Reachable;
    var rpo := Reverse(order);
    SameMembers(order);
    OrderIsReachable(g, order, tree);
    EntryFinishesLast(g, order, tree);
    FinishedClauses(g, order, tree);
  }

  lemma FinishedClauses(g: Graph, order: seq<Label>, tree: map<Label, seq<Label>>)
    requires OrderOk(g, order, tree)
    ensures NoDuplicates(Reverse(order))
    ensures forall i, j :: TreeForward(Reverse(order), tree, i, j)
    ensures forall i, j :: RetreatsToAncestor(g, Reverse(order), tree, i, j)
  {
    hide Edge, OrderOk, TreeForward, RetreatsToAncestor;
    SameMembers(order);
    assert NoDuplicates(order) by { OrderDistinct(g, order, tree); }
    forall i, j
      ensures RetreatsToAncestor(g, Reverse(order), tree, i, j) && TreeForward(Reverse(order), tree, i, j)
    {
      FinishedRetreat(g, order, tree, i, j);
      FinishedTree(g, order, tree, i, j);
    }
  }

  lemma OrderDistinct(g: Graph, order: seq<Label>, tree: map<Label, seq<Label>>)
    requires OrderOk(g, order, tree)
    ensures NoDuplicates(order)
  {}
}
