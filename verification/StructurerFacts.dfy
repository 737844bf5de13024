/** What the translation's bookkeeping means in terms of the graph. */
module StructurerFacts {
  import opened Cir
  import opened Cfg
  import opened Graphs
  import opened DomTree
  import opened Dominators
  import opened Structurer

  // Each quantified clause is a predicate of its own, used only where a proof names it.

  ghost predicate EdgesMatch(n: Numbering, pl: Plan) {
    pl.index == n.index && forall v :: BlockMatches(n, pl, v)
  }

  ghost predicate BlockMatches(n: Numbering, pl: Plan, v: Label) {
    v in n.index ==>
      v in n.g.succ && v in pl.blocks && pl.blocks[v].id == v && n.g.succ[v] == pl.blocks[v].Successors()
  }

  ghost predicate ForwardEdge(n: Numbering, u: Label, v: Label) {
    u in n.index && v in n.index && Edge(n.g, u, v) && n.index[u] < n.index[v]
  }

  ghost predicate RetreatingEdge(n: Numbering, u: Label, v: Label) {
    u in n.index && v in n.index && Edge(n.g, u, v) && n.index[v] <= n.index[u]
  }

  /** Each edge that does not run forward ends at a dominator of its source, a loop header. */
  ghost predicate RetreatsOk(n: Numbering, d: Idom, pl: Plan)
    requires Forest(n.index, d)
  {
    forall u, v :: RetreatOk(n, d, pl, u, v)
  }

  ghost predicate RetreatOk(n: Numbering, d: Idom, pl: Plan, u: Label, v: Label)
    requires Forest(n.index, d)
  {
    RetreatingEdge(n, u, v) ==> IsAnc(n.index, d, v, u) && v in pl.headers
  }

  /** A node that is not a merge has one forward in-edge at most, counted with multiplicity. */
  ghost predicate MergesOk(n: Numbering, pl: Plan) {
    && (forall v :: MergeNumbered(n, pl, v))
    && (forall u, w, v :: OneForward(n, pl, u, w, v))
    && (forall u, v :: NotTwice(n, pl, u, v))
  }

  ghost predicate MergeNumbered(n: Numbering, pl: Plan, v: Label) {
    v in pl.merges ==> v in n.index && n.index[v] > 0
  }

  ghost predicate OneForward(n: Numbering, pl: Plan, u: Label, w: Label, v: Label) {
    v !in pl.merges && ForwardEdge(n, u, v) && ForwardEdge(n, w, v) ==> u == w
  }

  ghost predicate NotTwice(n: Numbering, pl: Plan, u: Label, v: Label) {
    ForwardEdge(n, u, v) && n.g.succ[u] == [v, v] ==> v in pl.merges
  }

  ghost predicate ChildrenOk(n: Numbering, d: Idom, pl: Plan) {
    forall v, y :: ChildIff(n, d, pl, v, y)
  }

  ghost predicate ChildIff(n: Numbering, d: Idom, pl: Plan, v: Label, y: Label) {
    v in n.index ==>
      && v in pl.children && NoDuplicates(pl.children[v])
      && (y in pl.children[v] <==> y in n.index && n.index[y] > 0 && y in d && d[y] == v)
  }

  lemma {:induction false} OnceEach(s: seq<Label>)
    ensures NoDuplicates(s) <==> forall y :: multiset(s)[y] <= 1
  {
    hide NoDuplicates;
    if s == [] {
      NoneTwice();
    } else {
      var init, last := s[..|s| - 1], s[|s| - 1];
      OnceEach(init);
      assert s == init + [last];
      assert last in init <==> multiset(init)[last] > 0;
      assert multiset(s)[last] == multiset(init)[last] + 1;
      if NoDuplicates(s) { LastIsNew(s); }
      if forall y :: multiset(s)[y] <= 1 {
        forall y ensures multiset(init)[y] <= 1 { assert multiset(s)[y] <= 1; }
        OneMore(init, last);
      }
    }
  }

  lemma LastIsNew(s: seq<Label>)
    requires s != [] && NoDuplicates(s)
    ensures NoDuplicates(s[..|s| - 1]) && s[|s| - 1] !in s[..|s| - 1]
  {
    var init := s[..|s| - 1];
    forall i, j ensures DistinctAt(init, i, j) { assert DistinctAt(s, i, j); }
    forall i | 0 <= i < |init| ensures init[i] != s[|s| - 1] { assert DistinctAt(s, i, |s| - 1); }
  }

  ghost predicate Planned(n: Numbering, d: Idom, pl: Plan) {
    && Valid(n) && IsDominatorTree(n, d) && PlanOk(pl)
    && EdgesMatch(n, pl) && RetreatsOk(n, d, pl) && MergesOk(n, pl) && ChildrenOk(n, d, pl)
  }

  // ----- targets of a block's terminator -----

  lemma TargetIsEdge(n: Numbering, d: Idom, pl: Plan, x: Label, v: Label)
    requires Planned(n, d, pl) && x in pl.index
    requires x in pl.blocks && v in pl.blocks[x].Successors()
    ensures v in pl.index && n.index == pl.index && Edge(n.g, x, v)
    ensures Forest(n.index, d)
  {
    hide Valid, Forest, Total, RetreatsOk, MergesOk, ChildrenOk, Dominates;
    assert BlockOk(pl, x);
    assert BlockMatches(n, pl, x);
  }

  lemma RetreatFact(n: Numbering, d: Idom, pl: Plan, x: Label, v: Label)
    requires Planned(n, d, pl) && RetreatingEdge(n, x, v)
    ensures IsAnc(n.index, d, v, x) && v in pl.headers
  {
    hide Valid, Forest, Total, MergesOk, ChildrenOk, Dominates, PlanOk, EdgesMatch;
    assert RetreatOk(n, d, pl, x, v);
  }

  /** The immediate dominator of a forward target is an ancestor of the source. */
  lemma ForwardFact(n: Numbering, d: Idom, x: Label, v: Label)
    requires Valid(n) && IsDominatorTree(n, d)
    requires ForwardEdge(n, x, v)
    ensures v in d && d[v] in n.index && n.index[d[v]] < n.index[v] && IsAnc(n.index, d, d[v], x)
  {
    hide Valid, Forest, Total, Dominates;
    Numbered(n, v);
    ParentIsImmediate(n, d, v);
    FullHas(n, d, v);
    Up(n.index, d, v);
    EntryClosed(n);
    DominatesPred(n.g, d[v], x, v);
  }

  lemma AncIsDom(n: Numbering, d: Idom, a: Label, v: Label)
    requires IsDominatorTree(n, d) && v in n.index
    ensures Forest(n.index, d)
    ensures IsAnc(n.index, d, a, v) <==> Dominates(n.g, a, v)
  {
    hide Forest, Total, Dominates;
  }

  lemma SoleForward(n: Numbering, pl: Plan, u: Label, w: Label, v: Label)
    requires MergesOk(n, pl) && v !in pl.merges && ForwardEdge(n, u, v) && ForwardEdge(n, w, v)
    ensures u == w
  {
    assert OneForward(n, pl, u, w, v);
  }

  /** The source of the only forward edge into a node dominates it. */
  lemma InlineDominates(n: Numbering, d: Idom, pl: Plan, x: Label, v: Label, p: seq<Label>)
    requires Planned(n, d, pl) && v !in pl.merges && ForwardEdge(n, x, v)
    requires Connects(n.g, n.g.entry, p, v)
    ensures x in p
    decreases |p|
  {
    hide Valid, Forest, Total, PlanOk, EdgesMatch, ChildrenOk, MergesOk, RetreatsOk, Dominates;
    Numbered(n, v);
    assert v == p[|p| - 1];
    var u := p[|p| - 2];
    assert Edge(n.g, u, p[|p| - 2 + 1]);
    PrefixPath(n.g, n.g.entry, p, v, |p| - 2);
    var q := p[..|p| - 1];
    assert q == p[..|p| - 2 + 1];
    assert Reachable(n.g, u) by {
      assert Connects(n.g, n.g.entry, q, u);
    }
    Numbered(n, u);
    if n.index[u] < n.index[v] {
      SoleForward(n, pl, u, x, v);
    } else {
      RetreatFact(n, d, pl, u, v);
      AncIsDom(n, d, v, u);
      DominatorOn(n, v, u, q);
      var j :| 0 <= j < |q| && q[j] == v;
      PrefixPath(n.g, n.g.entry, q, u, j);
      InlineDominates(n, d, pl, x, v, q[..j + 1]);
    }
  }

  lemma DominatorOn(n: Numbering, a: Label, v: Label, p: seq<Label>)
    requires Dominates(n.g, a, v) && Connects(n.g, n.g.entry, p, v)
    ensures a in p
  {}

  /** A node that is inlined at a branch is a dominator-tree child of the branching block. */
  lemma InlineFact(n: Numbering, d: Idom, pl: Plan, x: Label, v: Label)
    requires Planned(n, d, pl) && v !in pl.merges && ForwardEdge(n, x, v)
    ensures v in d && d[v] == x
  {
    hide Valid, Forest, Total, PlanOk, EdgesMatch, ChildrenOk, MergesOk, RetreatsOk, Connects;
    forall p | Connects(n.g, n.g.entry, p, v)
      ensures x in p
    {
      InlineDominates(n, d, pl, x, v, p);
    }
    ForwardFact(n, d, x, v);
    AncIsDom(n, d, x, v);
    assert IsAnc(n.index, d, x, d[v]);
    AncLower(n.index, d, x, d[v]);
    AncLower(n.index, d, d[v], x);
  }
}
