/** Control-flow graphs with the path-based definitions of reachability,
    dominance and reducibility that the algorithms are proved against. */
module Graphs {
  import opened Cir

  /** Successors in terminator order; `br c ? j : j` lists `j` twice. */
  datatype Graph = Graph(entry: Label, succ: map<Label, seq<Label>>)

  ghost predicate Closed(g: Graph) {
    && g.entry in g.succ
    && forall u, v :: Edge(g, u, v) ==> v in g.succ
  }

  predicate Edge(g: Graph, u: Label, v: Label) {
    u in g.succ && v in g.succ[u]
  }

  ghost predicate IsPath(g: Graph, p: seq<Label>) {
    && p != []
    && (forall i :: 0 <= i < |p| ==> p[i] in g.succ)
    && forall i :: 0 <= i < |p| - 1 ==> Edge(g, p[i], p[i + 1])
  }

  ghost predicate Connects(g: Graph, u: Label, p: seq<Label>, v: Label) {
    IsPath(g, p) && p[0] == u && p[|p| - 1] == v
  }

  ghost predicate Reachable(g: Graph, v: Label) {
    exists p :: Connects(g, g.entry, p, v)
  }

  /** `a` lies on every path from the entry to `b`. */
  ghost predicate Dominates(g: Graph, a: Label, b: Label) {
    forall p :: Connects(g, g.entry, p, b) ==> a in p
  }

  ghost predicate StrictlyDominates(g: Graph, a: Label, b: Label) {
    a != b && Dominates(g, a, b)
  }

  ghost predicate IsCycle(g: Graph, c: seq<Label>) {
    IsPath(g, c) && |c| >= 2 && c[0] == c[|c| - 1] && Reachable(g, c[0])
  }

  /** Every reachable cycle has a single entry: one of its nodes dominates the
      others.  The definition mentions no traversal order. */
  ghost predicate Reducible(g: Graph) {
    forall c :: IsCycle(g, c) ==> exists h :: h in c && forall w :: w in c ==> Dominates(g, h, w)
  }

  // ----- paths -----

  lemma ExtendPath(g: Graph, u: Label, p: seq<Label>, v: Label, w: Label)
    requires Connects(g, u, p, v) && Edge(g, v, w) && w in g.succ
    ensures Connects(g, u, p + [w], w)
  {
    var q := p + [w];
    forall i | 0 <= i < |q| - 1
      ensures Edge(g, q[i], q[i + 1])
    {
      if i < |p| - 1 {
        assert q[i] == p[i] && q[i + 1] == p[i + 1];
      }
    }
  }

  lemma PrefixPath(g: Graph, u: Label, p: seq<Label>, v: Label, i: nat)
    requires Connects(g, u, p, v) && i < |p|
    ensures Connects(g, u, p[..i + 1], p[i])
  {}

  lemma SuffixPath(g: Graph, u: Label, p: seq<Label>, v: Label, i: nat)
    requires Connects(g, u, p, v) && i < |p|
    ensures Connects(g, p[i], p[i..], v)
  {}

  /** Glue two paths at their shared node. */
  lemma JoinPaths(g: Graph, u: Label, p: seq<Label>, v: Label, q: seq<Label>, w: Label)
    requires Connects(g, u, p, v) && Connects(g, v, q, w)
    ensures Connects(g, u, p + q[1..], w)
  {
    var r := p + q[1..];
    forall i | 0 <= i < |r| - 1
      ensures Edge(g, r[i], r[i + 1])
    {
      if i < |p| - 1 {
        assert r[i] == p[i] && r[i + 1] == p[i + 1];
      } else {
        assert r[i] == q[i - (|p| - 1)] && r[i + 1] == q[i - (|p| - 1) + 1];
      }
    }
  }

  lemma EntryReachable(g: Graph)
    requires Closed(g)
    ensures Reachable(g, g.entry)
  {
    assert Connects(g, g.entry, [g.entry], g.entry);
  }

  lemma EdgeReachable(g: Graph, u: Label, v: Label)
    requires Closed(g) && Reachable(g, u) && Edge(g, u, v)
    ensures Reachable(g, v)
  {
    var p :| Connects(g, g.entry, p, u);
    ExtendPath(g, g.entry, p, u, v);
  }

  lemma PathReachable(g: Graph, p: seq<Label>, i: nat)
    requires IsPath(g, p) && Reachable(g, p[0]) && i < |p|
    ensures Reachable(g, p[i])
  {
    var q :| Connects(g, g.entry, q, p[0]);
    PrefixPath(g, p[0], p, p[|p| - 1], i);
    JoinPaths(g, g.entry, q, p[0], p[..i + 1], p[i]);
  }

  // ----- dominance -----

  /** A strict dominator of a node dominates each of its predecessors. */
  lemma DominatesPred(g: Graph, a: Label, u: Label, v: Label)
    requires Closed(g) && Edge(g, u, v) && StrictlyDominates(g, a, v)
    ensures Dominates(g, a, u)
  {
    forall p | Connects(g, g.entry, p, u)
      ensures a in p
    {
      ExtendPath(g, g.entry, p, u, v);
      assert a in p + [v];
    }
  }

  /** A path from `b` that avoids `a` carries avoidance along: if it ends in a
      node `a` dominates, then `a` dominates `b` too. */
  lemma DominatesBack(g: Graph, a: Label, b: Label, p: seq<Label>, c: Label)
    requires Dominates(g, a, c) && Connects(g, b, p, c) && a !in p[1..]
    ensures Dominates(g, a, b)
  {
    forall q | Connects(g, g.entry, q, b)
      ensures a in q
    {
      JoinPaths(g, g.entry, q, b, p, c);
    }
  }
}
