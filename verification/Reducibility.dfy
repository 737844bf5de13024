/** A graph is reducible exactly when every edge that does not run forward in a
    reverse postorder ends at a dominator of its source, whatever order the
    depth-first search happened to take. */
module Reducibility {
  import opened Cir
  import opened Graphs
  import opened ReversePostorder
  import opened DomTree
  import opened Dominators
  import opened StructurerFacts

  ghost predicate BackEdge(n: Numbering, u: Label, v: Label) {
    RetreatingEdge(n, u, v) ==> Dominates(n.g, v, u)
  }

  // ----- a retreating edge whose target does not dominate its source -----

  lemma RetreatAncestor(n: Numbering, u: Label, v: Label)
    requires Valid(n) && RetreatingEdge(n, u, v)
    ensures u in n.tree && v in n.tree[u]
  {
    assert RetreatsToAncestor(n.g, n.rpo, n.tree, n.index[v], n.index[u]);
    hide TreePaths, Closed, NoDuplicates, PredsOf, Reachable;
  }

  lemma TreeDistinct(n: Numbering, w: Label, j: nat, k: nat)
    requires Valid(n) && w in n.tree && j < |n.tree[w]| && k < |n.tree[w]| && n.tree[w][j] == n.tree[w][k]
    ensures j == k
  {
    hide Valid;
    TreePrefix(n, w, j);
    TreePrefix(n, w, k);
  }

  /** The tree path from `v` down to `u`, closed by the edge back to `v`. */
  lemma RetreatCycle(n: Numbering, u: Label, v: Label) returns (j: nat, c: seq<Label>)
    requires Valid(n) && RetreatingEdge(n, u, v)
    ensures u in n.tree && j < |n.tree[u]| && n.tree[u][j] == v
    ensures IsCycle(n.g, c) && c == n.tree[u][j..] + [v] && v in c && u in c
  {
    hide Valid, Reachable;
    RetreatAncestor(n, u, v);
    TreePathOf(n, u);
    var t := n.tree[u];
    j :| 0 <= j < |t| && t[j] == v;
    SuffixPath(n.g, n.g.entry, t, u, j);
    ExtendPath(n.g, v, t[j..], u, v);
    c := t[j..] + [v];
    Numbered(n, v);
    assert c[0] == v && c[|c| - 1] == v;
    assert c[|c| - 2] == u;
  }

  lemma BadRetreat(n: Numbering, u: Label, v: Label)
    requires Valid(n) && RetreatingEdge(n, u, v) && !Dominates(n.g, v, u)
    ensures !Reducible(n.g)
  {
    hide Valid, IsCycle, Dominates, Reducible;
    var j, c := RetreatCycle(n, u, v);
    if Reducible(n.g) {
      var h := CycleHeader(n.g, c);
      OnlyTheTarget(n, u, v, j, c, h);
    }
  }

  lemma CycleHeader(g: Graph, c: seq<Label>) returns (h: Label)
    requires Reducible(g) && IsCycle(g, c)
    ensures h in c && forall w :: w in c ==> Dominates(g, h, w)
  {
    h :| h in c && forall w :: w in c ==> Dominates(g, h, w);
  }

  ghost predicate TreeCycle(n: Numbering, u: Label, v: Label, j: nat, c: seq<Label>) {
    u in n.tree && j < |n.tree[u]| && n.tree[u][j] == v && c == n.tree[u][j..] + [v]
  }

  /** A node dominating the cycle of a retreating edge is the edge's target. */
  lemma OnlyTheTarget(n: Numbering, u: Label, v: Label, j: nat, c: seq<Label>, h: Label)
    requires Valid(n) && RetreatingEdge(n, u, v) && TreeCycle(n, u, v, j, c) && h in c && Dominates(n.g, h, v)
    ensures h == v
  {
    hide Valid, Dominates;
    TreePathOf(n, u);
    TreePathOf(n, v);
    TreePrefix(n, u, j);
    DominatorOn(n, h, v, n.tree[v]);
    var i :| 0 <= i < |n.tree[v]| && n.tree[v][i] == h;
    assert n.tree[u][i] == h;
    var k :| 0 <= k < |c| && c[k] == h;
    if k < |c| - 1 {
      assert n.tree[u][j + k] == h;
      TreeDistinct(n, u, i, j + k);
    }
  }

  // ----- when every retreating edge is a back edge -----

  lemma {:induction false} LowestOn(n: Numbering, c: seq<Label>, i: nat) returns (k: nat)
    requires i > 0 && i <= |c| && forall x :: x in c ==> x in n.index
    ensures k < i && forall j :: 0 <= j < i ==> n.index[c[k]] <= n.index[c[j]]
  {
    if i == 1 {
      k := 0;
      assert c[0] in c;
    } else {
      k := LowestOn(n, c, i - 1);
      assert c[k] in c && c[i - 1] in c;
      if n.index[c[i - 1]] < n.index[c[k]] {
        k := i - 1;
      }
    }
  }

  /** The next place after `i` where `m` occurs. */
  lemma {:induction false} NextOccurrence(c: seq<Label>, m: Label, i: nat, k: nat) returns (j: nat)
    requires i < k < |c| && c[k] == m
    ensures i < j <= k && c[j] == m && forall r :: i < r < j ==> c[r] != m
  {
    j := i + 1;
    while c[j] != m
      invariant i < j <= k && forall r :: i < r < j ==> c[r] != m
      decreases k - j
    {
      j := j + 1;
    }
  }

  lemma CycleReachable(n: Numbering, c: seq<Label>, i: nat)
    requires Valid(n) && IsCycle(n.g, c) && i < |c|
    ensures c[i] in n.index
  {
    hide Valid, Reachable;
    PathReachable(n.g, c, i);
    Numbered(n, c[i]);
  }

  ghost predicate Lowest(n: Numbering, c: seq<Label>, m: Label) {
    m in c && m in n.index && forall x :: x in c ==> x in n.index && n.index[m] <= n.index[x]
  }

  /** The cycle walked twice. */
  lemma Twice(g: Graph, c: seq<Label>)
    requires IsCycle(g, c)
    ensures Connects(g, c[0], c + c[1..], c[0])
    ensures forall x :: x in c + c[1..] ==> x in c
    ensures forall k :: 0 <= k < |c| ==> (c + c[1..])[k] == c[k] && (c + c[1..])[k + |c| - 1] == c[k]
  {
    hide Reachable;
    JoinPaths(g, c[0], c, c[0], c, c[0]);
  }

  /** From place `i` to just before the next `m`, which is entered by a retreating edge. */
  lemma WalkToLowest(n: Numbering, s: seq<Label>, m: Label, i: nat, j: nat)
    requires Valid(n) && Lowest(n, s, m) && i < j < |s| && s[j] == m && IsPath(n.g, s)
    requires forall r :: i < r < j ==> s[r] != m
    requires BackEdge(n, s[j - 1], m)
    ensures Dominates(n.g, m, s[i])
  {
    hide Valid, Dominates;
    var u := s[j - 1];
    assert Edge(n.g, s[j - 1], s[j - 1 + 1]);
    assert u in s;
    var p := s[i..j];
    assert Connects(n.g, s[0], s, s[|s| - 1]);
    SuffixPath(n.g, s[0], s, s[|s| - 1], i);
    PrefixPath(n.g, s[i], s[i..], s[|s| - 1], j - 1 - i);
    assert s[i..][..j - 1 - i + 1] == p;
    forall r | 0 <= r < |p[1..]|
      ensures p[1..][r] != m
    {
      assert p[1..][r] == s[i + 1 + r];
    }
    DominatesBack(n.g, m, s[i], p, u);
  }

  /** The lowest-numbered node of a cycle dominates each node of it. */
  lemma LowestDominates(n: Numbering, c: seq<Label>, k: nat, i: nat)
    requires Valid(n) && IsCycle(n.g, c) && k < |c| && i < |c| && Lowest(n, c, c[k])
    requires forall u, v :: BackEdge(n, u, v)
    ensures Dominates(n.g, c[k], c[i])
  {
    hide Valid, IsCycle, Dominates, BackEdge, IsPath;
    var m, s := c[k], c + c[1..];
    CycleLong(n.g, c);
    Twice(n.g, c);
    assert s[k + |c| - 1] == m && s[i] == c[i];
    if i < k + |c| - 1 {
      var j := NextOccurrence(s, m, i, k + |c| - 1);
      assert BackEdge(n, s[j - 1], m);
      WalkToLowest(n, s, m, i, j);
    } else {
      SelfDominates(n.g, m);
    }
  }

  lemma AllBackEdges(n: Numbering)
    requires Valid(n) && forall u, v :: BackEdge(n, u, v)
    ensures Reducible(n.g)
  {
    hide Valid, IsCycle, Dominates, BackEdge;
    forall c | IsCycle(n.g, c)
      ensures exists h :: h in c && forall w :: w in c ==> Dominates(n.g, h, w)
    {
      CycleLong(n.g, c);
      forall i | 0 <= i < |c|
        ensures c[i] in n.index
      {
        CycleReachable(n, c, i);
      }
      var k := LowestOn(n, c, |c|);
      assert Lowest(n, c, c[k]);
      forall w | w in c
        ensures Dominates(n.g, c[k], w)
      {
        var i :| 0 <= i < |c| && c[i] == w;
        LowestDominates(n, c, k, i);
      }
      assert c[k] in c;
    }
  }

  lemma CycleLong(g: Graph, c: seq<Label>)
    requires IsCycle(g, c)
    ensures |c| >= 2
  {}

  /** The criterion, independent of the order the search took. */
  lemma ReducibleIff(n: Numbering)
    requires Valid(n)
    ensures Reducible(n.g) <==> forall u, v :: BackEdge(n, u, v)
  {
    hide Valid, Reducible, Dominates;
    if forall u, v :: BackEdge(n, u, v) {
      AllBackEdges(n);
    } else {
      var u, v :| !BackEdge(n, u, v);
      BadRetreat(n, u, v);
    }
  }

  /** So on a reducible graph the first pass finds the dominators and the second changes nothing. */
  lemma ReducibleBackEdges(n: Numbering)
    requires Valid(n) && Reducible(n.g)
    ensures BackEdges(n)
  {
    hide Valid, Reducible, Dominates;
    ReducibleIff(n);
    forall u, v | u in n.index && v in n.index && Edge(n.g, u, v) && n.index[v] <= n.index[u]
      ensures Dominates(n.g, v, u) {
      assert BackEdge(n, u, v);
    }
  }
}
