/** Immediate dominators by Cooper, Harvey and Kennedy's iteration.  The passes
    are shown to stop on every graph, reducible or not: during a pass the
    implied ancestor sets only shrink, so no node's parent is ever numbered
    higher at the end of a pass than before it, and a pass that changed
    anything lowered one. */
module Dominators {
  import opened Cir
  import opened Graphs
  import opened ReversePostorder
  import opened DomTree

  /** A graph together with a reverse postorder of it. */
  datatype Numbering = Numbering(
    g: Graph, rpo: seq<Label>, tree: map<Label, seq<Label>>,
    index: Index, preds: map<Label, seq<Label>>)

  ghost predicate Indexed(rpo: seq<Label>, index: Index) {
    && (forall i :: 0 <= i < |rpo| ==> rpo[i] in index && index[rpo[i]] == i)
    && (forall v :: v in index ==> index[v] < |rpo| && rpo[index[v]] == v)
  }

  ghost predicate Injective(index: Index) {
    forall a, b :: a in index && b in index && index[a] == index[b] ==> a == b
  }

  ghost predicate PredsOf(g: Graph, index: Index, preds: map<Label, seq<Label>>) {
    && (forall v :: v in index ==> v in preds)
    && (forall v, u :: v in index && v in preds ==> (u in preds[v] <==> u in index && Edge(g, u, v)))
  }

  ghost predicate Valid(n: Numbering) {
    && Closed(n.g)
    && IsReversePostorder(n.g, n.rpo, n.tree)
    && Indexed(n.rpo, n.index)
    && PredsOf(n.g, n.index, n.preds)
  }

  // ----- facts about the numbering -----

  /** The depth-first tree parent. */
  ghost function Parent(n: Numbering, v: Label): Label {
    if v in n.tree && |n.tree[v]| >= 2 then n.tree[v][|n.tree[v]| - 2] else v
  }

  lemma Numbered(n: Numbering, v: Label)
    requires Valid(n)
    ensures v in n.index <==> Reachable(n.g, v)
    ensures v in n.index <==> v in n.tree
    ensures v in n.index ==> (n.index[v] == 0 <==> v == n.g.entry)
  {
    hide TreePaths, PredsOf, Closed;
    assert v in n.index <==> v in n.rpo;
  }

  lemma DistinctNumbers(n: Numbering, a: Label, b: Label)
    requires Valid(n) && a in n.index && b in n.index && n.index[a] == n.index[b]
    ensures a == b
  {
    hide IsReversePostorder, PredsOf, Closed;
  }

  lemma TreeAncestor(n: Numbering, a: Label, v: Label)
    requires Valid(n) && v in n.index && v in n.tree && a in n.tree[v]
    ensures a in n.index && (a == v || n.index[a] < n.index[v])
    ensures a in n.tree && n.tree[a] <= n.tree[v]
  {
    hide PredsOf, Closed;
    Numbered(n, v);
    var i :| 0 <= i < |n.tree[v]| && n.tree[v][i] == a;
    assert n.tree[a] == n.tree[v][..i + 1];
    Numbered(n, a);
    assert TreeForward(n.rpo, n.tree, n.index[a], n.index[v]);
    if n.index[a] == n.index[v] {
      DistinctNumbers(n, a, v);
    }
  }

  lemma ParentPath(n: Numbering, v: Label)
    requires Valid(n) && v in n.index && v != n.g.entry
    ensures v in n.tree && |n.tree[v]| >= 2
    ensures Parent(n, v) in n.tree && n.tree[v] == n.tree[Parent(n, v)] + [v]
    ensures Edge(n.g, Parent(n, v), v)
  {
    hide PredsOf, Indexed, Closed, NoDuplicates, Reachable;
    Numbered(n, v);
    var t := n.tree[v];
    assert Connects(n.g, n.g.entry, t, v);
    var k := |t| - 2;
    assert t[k] in n.tree && n.tree[t[k]] == t[..k + 1];
    assert t == n.tree[t[k]] + [v];
    assert Edge(n.g, t[k], t[k + 1]);
  }

  lemma ParentFacts(n: Numbering, v: Label)
    requires Valid(n) && v in n.index && v != n.g.entry
    ensures v in n.tree && |n.tree[v]| >= 2
    ensures Parent(n, v) in n.index && n.index[Parent(n, v)] < n.index[v]
    ensures Parent(n, v) in n.tree && n.tree[v] == n.tree[Parent(n, v)] + [v]
    ensures v in n.preds && Parent(n, v) in n.preds[v]
  {
    hide IsReversePostorder, Closed;
    ParentPath(n, v);
    var p := Parent(n, v);
    TreeAncestor(n, p, v);
    assert p != v by {
      assert |n.tree[p]| < |n.tree[v]|;
    }
  }

  // ----- meeting predecessors -----

  /** `a` is an ancestor of each of `ps`. */
  ghost predicate AboveAll(index: Index, d: Idom, a: Label, ps: seq<Label>)
    requires Forest(index, d)
  {
    forall p :: p in ps && p in d ==> IsAnc(index, d, a, p)
  }

  /** `a` is an ancestor of every predecessor of `v` processed so far. */
  ghost predicate CommonAncestor(n: Numbering, d: Idom, v: Label, a: Label)
    requires Forest(n.index, d) && v in n.preds
  {
    AboveAll(n.index, d, a, n.preds[v])
  }

  /** `x` is a common ancestor of `a` and `b`. */
  ghost predicate Above(index: Index, d: Idom, x: Label, a: Label, b: Label)
    requires Forest(index, d) && a in index && b in index
  {
    IsAnc(index, d, x, a) && IsAnc(index, d, x, b)
  }

  ghost predicate SameAbove(index: Index, d: Idom, a: Label, b: Label, a0: Label, b0: Label)
    requires Forest(index, d) && a in index && b in index && a0 in index && b0 in index
  {
    forall x :: Above(index, d, x, a, b) <==> Above(index, d, x, a0, b0)
  }

  /** Stepping up from the higher-numbered finger loses no common ancestor. */
  lemma StepUp(index: Index, d: Idom, a: Label, b: Label, a0: Label, b0: Label)
    requires Forest(index, d) && Total(d) && a in d && b in d && a0 in d && b0 in d
    requires SameAbove(index, d, a, b, a0, b0) && index[a] > index[b]
    ensures d[a] in d && index[d[a]] < index[a]
    ensures SameAbove(index, d, d[a], b, a0, b0)
  {
    Up(index, d, a);
    forall x
      ensures Above(index, d, x, d[a], b) <==> Above(index, d, x, a, b)
    {
      if x == a && IsAnc(index, d, x, b) {
        AncLower(index, d, x, b);
      }
    }
  }

  lemma SwapAbove(index: Index, d: Idom, a: Label, b: Label, a0: Label, b0: Label)
    requires Forest(index, d) && a in index && b in index && a0 in index && b0 in index
    requires SameAbove(index, d, a, b, a0, b0)
    ensures SameAbove(index, d, b, a, b0, a0)
  {
    forall x
      ensures Above(index, d, x, b, a) <==> Above(index, d, x, b0, a0)
    {
      assert Above(index, d, x, a, b) <==> Above(index, d, x, a0, b0);
    }
  }

  lemma Met(index: Index, d: Idom, r: Label, a0: Label, b0: Label)
    requires Forest(index, d) && r in index && a0 in index && b0 in index && SameAbove(index, d, r, r, a0, b0)
    ensures forall x :: IsAnc(index, d, x, r) <==> IsAnc(index, d, x, a0) && IsAnc(index, d, x, b0)
  {
    forall x
      ensures IsAnc(index, d, x, r) <==> IsAnc(index, d, x, a0) && IsAnc(index, d, x, b0)
    {
      assert Above(index, d, x, r, r) <==> Above(index, d, x, a0, b0);
    }
  }

  lemma Apart(index: Index, a: Label, b: Label)
    requires Injective(index) && a in index && b in index && a != b
    ensures index[a] != index[b]
  {}

  /** Walk the finger `a0` up until it is not below `b`. */
  method Climb(index: Index, idom: Idom, a0: Label, b: Label, ghost x: Label, ghost y: Label) returns (a: Label)
    requires Forest(index, idom) && Total(idom) && a0 in idom && b in idom && x in idom && y in idom
    requires SameAbove(index, idom, a0, b, x, y)
    ensures a in idom && SameAbove(index, idom, a, b, x, y)
    ensures index[a] <= index[b] && index[a] <= index[a0]
    ensures index[a0] > index[b] ==> index[a] < index[a0]
  {
    a := a0;
    while index[a] > index[b]
      invariant a in idom && SameAbove(index, idom, a, b, x, y)
      invariant index[a] <= index[a0] && (a != a0 ==> index[a] < index[a0])
      decreases index[a]
    {
      StepUp(index, idom, a, b, x, y);
      a := idom[a];
    }
  }

  /** Walking two fingers up the tree finds the nearest common ancestor. */
  method Intersect(index: Index, idom: Idom, a0: Label, b0: Label) returns (r: Label)
    requires Forest(index, idom) && Total(idom) && a0 in idom && b0 in idom
    requires Injective(index)
    ensures r in idom
    ensures forall x :: IsAnc(index, idom, x, r) <==> IsAnc(index, idom, x, a0) && IsAnc(index, idom, x, b0)
  {
    hide IsAnc, Total, Injective;
    var a, b := a0, b0;
    assert SameAbove(index, idom, a, b, a0, b0);
    hide SameAbove;
    while a != b
      invariant a in idom && b in idom && SameAbove(index, idom, a, b, a0, b0)
      decreases index[a] + index[b]
    {
      Apart(index, a, b);
      a := Climb(index, idom, a, b, a0, b0);
      SwapAbove(index, idom, a, b, a0, b0);
      b := Climb(index, idom, b, a, b0, a0);
      SwapAbove(index, idom, b, a, b0, a0);
    }
    r := a;
    Met(index, idom, r, a0, b0);
  }

  /** The predecessors processed so far. */
  method DonePreds(preds: seq<Label>, idom: Idom) returns (done: seq<Label>)
    ensures forall p :: p in done <==> p in preds && p in idom
  {
    done := [];
    for i := 0 to |preds|
      invariant forall p :: p in done <==> p in preds[..i] && p in idom
    {
      assert preds[..i + 1] == preds[..i] + [preds[i]];
      if preds[i] in idom {
        done := done + [preds[i]];
      }
    }
    assert preds[..|preds|] == preds;
  }

  method IntersectAll(index: Index, idom: Idom, done: seq<Label>) returns (meet: Label)
    requires Forest(index, idom) && Total(idom)
    requires Injective(index)
    requires done != [] && forall p :: p in done ==> p in idom
    ensures meet in idom
    ensures forall a :: IsAnc(index, idom, a, meet) <==> AboveAll(index, idom, a, done)
  {
    hide Injective, Total, IsAnc;
    meet := done[0];
    assert done[..1] == [done[0]];
    for i := 1 to |done|
      invariant meet in idom
      invariant forall a :: IsAnc(index, idom, a, meet) <==> AboveAll(index, idom, a, done[..i])
    {
      assert done[..i + 1] == done[..i] + [done[i]];
      assert done[i] in done;
      ghost var before := meet;
      meet := Intersect(index, idom, done[i], meet);
      forall a
        ensures IsAnc(index, idom, a, meet) <==> AboveAll(index, idom, a, done[..i + 1])
      {
        AboveAppend(index, idom, a, done[..i], done[i]);
      }
    }
    assert done[..|done|] == done;
  }

  lemma AboveAppend(index: Index, d: Idom, a: Label, ps: seq<Label>, p: Label)
    requires Forest(index, d) && p in d
    ensures AboveAll(index, d, a, ps + [p]) <==> AboveAll(index, d, a, ps) && IsAnc(index, d, a, p)
  {
    hide Forest, IsAnc;
    assert p in ps + [p];
    assert forall q :: q in ps + [p] <==> q in ps || q == p;
  }

  lemma MeetReady(n: Numbering, v: Label)
    requires Valid(n) && v in n.index && v != n.g.entry
    ensures Injective(n.index) && v in n.preds && Parent(n, v) in n.preds[v]
  {
    ParentFacts(n, v);
    hide Valid;
    forall a, b | a in n.index && b in n.index && n.index[a] == n.index[b]
      ensures a == b
    {
      DistinctNumbers(n, a, b);
    }
  }

  /** The common ancestor the pass computes for `v`: there is a processed
      predecessor because the tree parent comes earlier in the order. */
  method MeetPreds(ghost n: Numbering, index: Index, preds: map<Label, seq<Label>>, idom: Idom, v: Label)
    returns (meet: Label)
    requires Valid(n) && n.index == index && n.preds == preds && Forest(index, idom) && Total(idom)
    requires v in index && v != n.g.entry && Parent(n, v) in idom
    ensures v in preds && meet in idom
    ensures forall a :: IsAnc(index, idom, a, meet) <==> CommonAncestor(n, idom, v, a)
  {
    hide Valid, Total, Forest, IsAnc, Parent, Injective;
    MeetReady(n, v);
    var done := DonePreds(preds[v], idom);
    assert Parent(n, v) in done;
    meet := IntersectAll(index, idom, done);
  }

  // ----- what a pass keeps -----

  ghost predicate Ready(n: Numbering, d: Idom) {
    Forest(n.index, d) && Total(d) && n.g.entry in d
  }

  /** What all predecessors have as an ancestor, `v` has. */
  ghost predicate Over(n: Numbering, d: Idom, v: Label)
    requires Ready(n, d) && v in n.index && v in n.preds
  {
    forall a :: CommonAncestor(n, d, v, a) ==> IsAnc(n.index, d, a, v)
  }

  /** Proper ancestors of `v` are ancestors of its depth-first tree parent. */
  ghost predicate Low(n: Numbering, d: Idom, v: Label)
    requires Ready(n, d) && v in n.index && Parent(n, v) in n.index
  {
    forall a :: IsAnc(n.index, d, a, v) && a != v ==> IsAnc(n.index, d, a, Parent(n, v))
  }

  /** Ancestors of `v` lie on its depth-first tree path. */
  ghost predicate InTree(n: Numbering, d: Idom, v: Label)
    requires Ready(n, d) && v in n.index && v in n.tree
  {
    forall a :: IsAnc(n.index, d, a, v) ==> a in n.tree[v]
  }

  /** No dominator has been lost. */
  ghost predicate Safe(n: Numbering, d: Idom, v: Label)
    requires Ready(n, d) && v in n.index
  {
    forall a :: Dominates(n.g, a, v) ==> IsAnc(n.index, d, a, v)
  }

  ghost predicate Shrunk(index: Index, d: Idom, old': Idom)
    requires Forest(index, d) && Forest(index, old')
  {
    forall v, a :: v in index && IsAnc(index, d, a, v) ==> IsAnc(index, old', a, v)
  }

  /** The nodes this pass has already visited. */
  ghost predicate Settled(n: Numbering, d: Idom, i: nat)
    requires Ready(n, d)
  {
    forall v :: v in n.index && 0 < n.index[v] < i ==>
      v in d && v in n.preds && Parent(n, v) in n.index && Over(n, d, v) && Low(n, d, v)
  }

  ghost predicate Sound(n: Numbering, d: Idom)
    requires Ready(n, d)
  {
    forall v :: v in d ==> v in n.index && v in n.tree && InTree(n, d, v) && Safe(n, d, v)
  }

  /** `x` is what the pass computes for `v`. */
  ghost predicate IsMeet(n: Numbering, d: Idom, v: Label, x: Label)
    requires Ready(n, d)
  {
    && v in n.index && v != n.g.entry && n.index[v] > 0 && v in n.preds
    && x in d && x in n.index && n.index[x] < n.index[v]
    && forall a :: IsAnc(n.index, d, a, x) <==> CommonAncestor(n, d, v, a)
  }

  lemma MeetUpdates(n: Numbering, d: Idom, v: Label, x: Label)
    requires Ready(n, d) && IsMeet(n, d, v, x)
    ensures Ready(n, d[v := x])
  {
    hide Forest, Total, CommonAncestor;
    Redirect(n.index, d, v, x);
  }

  /** Low-numbered ancestors of a visited node are inherited down the tree. */
  lemma {:induction false} TreeMono(n: Numbering, d: Idom, i: nat, q: Label, y: Label, a: Label)
    requires Valid(n) && Ready(n, d) && Settled(n, d, i)
    requires y in n.index && n.index[y] < i && y in n.tree && q in n.tree[y]
    requires IsAnc(n.index, d, a, y) && a in n.index && q in n.index && n.index[a] <= n.index[q]
    ensures IsAnc(n.index, d, a, q)
    decreases n.index[y]
  {
    hide Valid, Ready, Low, Over;
    if q != y {
      ParentFactsBelow(n, q, y);
      LowUse(n, d, y, a);
      TreeMono(n, d, i, q, Parent(n, y), a);
    }
  }

  lemma LowUse(n: Numbering, d: Idom, v: Label, a: Label)
    requires Ready(n, d) && v in n.index && Parent(n, v) in n.index && Low(n, d, v)
    requires IsAnc(n.index, d, a, v) && a != v
    ensures IsAnc(n.index, d, a, Parent(n, v))
  {}

  lemma ParentFactsBelow(n: Numbering, q: Label, y: Label)
    requires Valid(n) && y in n.index && y in n.tree && q in n.tree[y] && q != y
    ensures y != n.g.entry && q in n.index && n.index[q] < n.index[y]
    ensures Parent(n, y) in n.index && n.index[Parent(n, y)] < n.index[y]
    ensures Parent(n, y) in n.tree && q in n.tree[Parent(n, y)]
  {
    TreeAncestor(n, q, y);
    Numbered(n, y);
    ParentFacts(n, y);
  }

  lemma InTreeUse(n: Numbering, d: Idom, v: Label, a: Label)
    requires Ready(n, d) && v in n.index && v in n.tree && InTree(n, d, v) && IsAnc(n.index, d, a, v)
    ensures a in n.tree[v]
  {}

  lemma ShrunkUse(index: Index, d: Idom, old': Idom, v: Label, a: Label)
    requires Forest(index, d) && Forest(index, old') && Shrunk(index, d, old') && v in index && IsAnc(index, d, a, v)
    ensures IsAnc(index, old', a, v)
  {
    hide Forest;
  }

  lemma CommonShrinks(n: Numbering, d: Idom, old': Idom, v: Label, a: Label)
    requires Forest(n.index, d) && Forest(n.index, old') && Shrunk(n.index, d, old') && d.Keys == old'.Keys
    requires v in n.preds && CommonAncestor(n, d, v, a)
    ensures CommonAncestor(n, old', v, a)
  {
    forall p | p in n.preds[v] && p in old'
      ensures IsAnc(n.index, old', a, p)
    {
      assert p in d.Keys;
      ShrunkUse(n.index, d, old', p, a);
    }
  }

  lemma MeetUse(n: Numbering, d: Idom, v: Label, x: Label, a: Label)
    requires Ready(n, d) && IsMeet(n, d, v, x)
    ensures IsAnc(n.index, d, a, x) <==> CommonAncestor(n, d, v, a)
  {
    hide Ready, CommonAncestor, IsAnc;
  }

  lemma OverUse(n: Numbering, d: Idom, v: Label, a: Label)
    requires Ready(n, d) && v in n.index && v in n.preds && Over(n, d, v) && CommonAncestor(n, d, v, a)
    ensures IsAnc(n.index, d, a, v)
  {
    hide Ready, CommonAncestor, IsAnc;
  }

  lemma CommonUse(n: Numbering, d: Idom, v: Label, a: Label, p: Label)
    requires Forest(n.index, d) && v in n.preds && CommonAncestor(n, d, v, a) && p in n.preds[v] && p in d
    ensures p in n.index && IsAnc(n.index, d, a, p)
  {}

  /** Redirecting `v` to the meet of its predecessors only removes ancestors. */
  lemma UpdateShrinksAt(n: Numbering, old': Idom, d: Idom, v: Label, x: Label, a: Label)
    requires Valid(n) && Ready(n, d) && Ready(n, old') && IsMeet(n, d, v, x)
    requires d.Keys == n.index.Keys && old'.Keys == n.index.Keys
    requires Shrunk(n.index, d, old') && d[v] == old'[v] && Over(n, old', v)
    requires Settled(n, d, n.index[v]) && v in n.tree && InTree(n, d, v)
    requires IsAnc(n.index, d, a, x)
    ensures IsAnc(n.index, d, a, v)
  {
    hide Valid, Settled, InTree, Over, Shrunk, CommonAncestor, Forest, Total;
    MeetUse(n, d, v, x, a);
    CommonShrinks(n, d, old', v, a);
    OverUse(n, old', v, a);
    AncLower(n.index, d, a, x);
    var q, p := old'[v], Parent(n, v);
    assert v in n.index.Keys;
    Up(n.index, old', v);
    assert a != v && IsAnc(n.index, old', a, q);
    AncLower(n.index, old', a, q);
    ParentFacts(n, v);
    assert p in n.index.Keys;
    CommonUse(n, d, v, a, p);
    assert IsAnc(n.index, d, q, v);
    InTreeUse(n, d, v, q);
    assert q in n.tree[p];
    TreeMono(n, d, n.index[v], q, p, a);
    AncTransitive(n.index, d, a, q, v);
  }

  lemma UpdateShrinks(n: Numbering, old': Idom, d: Idom, v: Label, x: Label)
    requires Valid(n) && Ready(n, d) && Ready(n, old') && IsMeet(n, d, v, x)
    requires d.Keys == n.index.Keys && old'.Keys == n.index.Keys
    requires Shrunk(n.index, d, old') && d[v] == old'[v] && Over(n, old', v)
    requires Settled(n, d, n.index[v]) && v in n.tree && InTree(n, d, v)
    ensures Ready(n, d[v := x]) && Shrunk(n.index, d[v := x], d)
  {
    hide Valid, Settled, InTree, Over, Shrunk, CommonAncestor, Forest, Total;
    MeetUpdates(n, d, v, x);
    var d' := d[v := x];
    forall w, a | w in n.index && IsAnc(n.index, d', a, w)
      ensures IsAnc(n.index, d, a, w)
    {
      if IsAnc(n.index, d, v, w) {
        AncUpdateBelow(n.index, d, v, x, w, a);
        if IsAnc(n.index, d', a, v) {
          if a != v {
            AncUpdateLower(n.index, d, v, x, x, a);
            UpdateShrinksAt(n, old', d, v, x, a);
          }
          AncTransitive(n.index, d, a, v, w);
        }
      } else {
        AncUpdateOther(n.index, d, v, x, w, a);
      }
    }
    ShrunkFrom(n.index, d', d);
  }

  lemma ShrunkFrom(index: Index, d: Idom, old': Idom)
    requires Forest(index, d) && Forest(index, old')
    requires forall v, a :: v in index && IsAnc(index, d, a, v) ==> IsAnc(index, old', a, v)
    ensures Shrunk(index, d, old')
  {
    hide Forest;
  }

  // ----- one step of a pass -----

  /** Every node of `d` keeps at most the ancestors it had. */
  ghost predicate NoNewAncestors(index: Index, d: Idom, d': Idom)
    requires Forest(index, d) && Forest(index, d')
  {
    forall w, a :: w in d && w in index && IsAnc(index, d', a, w) ==> IsAnc(index, d, a, w)
  }

  lemma NoNewUse(index: Index, d: Idom, d': Idom, w: Label, a: Label)
    requires Forest(index, d) && Forest(index, d') && NoNewAncestors(index, d, d')
    requires w in d && w in index && IsAnc(index, d', a, w)
    ensures IsAnc(index, d, a, w)
  {
    hide Forest;
  }

  /** Adding a node changes nothing for the nodes already there. */
  lemma AddsNoAncestors(n: Numbering, d: Idom, v: Label, x: Label)
    requires Ready(n, d) && IsMeet(n, d, v, x) && v !in d
    ensures Ready(n, d[v := x]) && NoNewAncestors(n.index, d, d[v := x])
  {
    hide Forest, Total, CommonAncestor;
    MeetUpdates(n, d, v, x);
    forall w, a | w in d && w in n.index && IsAnc(n.index, d[v := x], a, w)
      ensures IsAnc(n.index, d, a, w)
    {
      if IsAnc(n.index, d, v, w) {
        AncLower(n.index, d, v, w);
      }
      AncUpdateOther(n.index, d, v, x, w, a);
    }
  }

  lemma CommonGrows(n: Numbering, d: Idom, d': Idom, v: Label, a: Label)
    requires Forest(n.index, d) && Forest(n.index, d') && NoNewAncestors(n.index, d, d')
    requires d.Keys <= d'.Keys && v in n.preds && CommonAncestor(n, d', v, a)
    ensures CommonAncestor(n, d, v, a)
  {
    forall p | p in n.preds[v] && p in d
      ensures IsAnc(n.index, d, a, p)
    {
      assert p in d'.Keys;
      NoNewUse(n.index, d, d', p, a);
    }
  }

  /** The new ancestors of `v` are those the meet had, and itself. */
  lemma NewAncestors(n: Numbering, d: Idom, v: Label, x: Label, a: Label)
    requires Ready(n, d) && IsMeet(n, d, v, x) && Ready(n, d[v := x])
    ensures IsAnc(n.index, d[v := x], a, v) <==> a == v || CommonAncestor(n, d, v, a)
  {
    hide Forest, Total, CommonAncestor;
    AncUpdateLower(n.index, d, v, x, x, a);
    MeetUse(n, d, v, x, a);
  }

  lemma SettledUse(n: Numbering, d: Idom, i: nat, v: Label)
    requires Ready(n, d) && Settled(n, d, i) && v in n.index && 0 < n.index[v] < i
    ensures v in d && v in n.preds && Parent(n, v) in n.index && Over(n, d, v) && Low(n, d, v)
  {
    hide Ready, Over, Low, Parent;
  }

  lemma OverStep(n: Numbering, d: Idom, v: Label, x: Label, w: Label)
    requires Ready(n, d) && IsMeet(n, d, v, x) && Ready(n, d[v := x]) && NoNewAncestors(n.index, d, d[v := x])
    requires w in n.index && w in n.preds
    requires w == v || (n.index[w] < n.index[v] && Over(n, d, w))
    ensures Over(n, d[v := x], w)
  {
    hide Forest, Total, CommonAncestor, NoNewAncestors;
    var d' := d[v := x];
    forall a | CommonAncestor(n, d', w, a)
      ensures IsAnc(n.index, d', a, w)
    {
      CommonGrows(n, d, d', w, a);
      if w == v {
        NewAncestors(n, d, v, x, a);
      } else {
        AncUpdateLower(n.index, d, v, x, w, a);
      }
    }
  }

  lemma LowStep(n: Numbering, d: Idom, v: Label, x: Label, w: Label)
    requires Ready(n, d) && IsMeet(n, d, v, x) && Ready(n, d[v := x])
    requires w in n.index && n.index[w] > 0 && Parent(n, w) in n.index
    requires (w == v && Parent(n, v) in d) || (n.index[w] < n.index[v] && Low(n, d, w))
    requires Valid(n)
    ensures Low(n, d[v := x], w)
  {
    hide Valid, Forest, Total, CommonAncestor, Parent;
    Numbered(n, w);
    ParentFacts(n, w);
    var d' := d[v := x];
    forall a | IsAnc(n.index, d', a, w) && a != w
      ensures IsAnc(n.index, d', a, Parent(n, w))
    {
      AncUpdateLower(n.index, d, v, x, Parent(n, w), a);
      if w == v {
        NewAncestors(n, d, v, x, a);
        CommonUse(n, d, v, a, Parent(n, v));
      } else {
        AncUpdateLower(n.index, d, v, x, w, a);
      }
    }
  }

  lemma SettledStep(n: Numbering, d: Idom, v: Label, x: Label)
    requires Valid(n) && Ready(n, d) && IsMeet(n, d, v, x) && Settled(n, d, n.index[v])
    requires Parent(n, v) in d
    requires Ready(n, d[v := x]) && NoNewAncestors(n.index, d, d[v := x])
    ensures Settled(n, d[v := x], n.index[v] + 1)
  {
    hide Valid, Settled, Forest, Total, CommonAncestor, NoNewAncestors, Over, Low, Parent;
    var d', i := d[v := x], n.index[v];
    forall w | w in n.index && 0 < n.index[w] < i + 1
      ensures w in d' && w in n.preds && Parent(n, w) in n.index && Over(n, d', w) && Low(n, d', w)
    {
      if n.index[w] < i {
        SettledUse(n, d, i, w);
      } else {
        DistinctNumbers(n, v, w);
        ParentFacts(n, v);
      }
      OverStep(n, d, v, x, w);
      LowStep(n, d, v, x, w);
    }
    SettledFrom(n, d', i + 1);
  }

  lemma SettledFrom(n: Numbering, d: Idom, i: nat)
    requires Ready(n, d)
    requires forall w :: w in n.index && 0 < n.index[w] < i ==>
               w in d && w in n.preds && Parent(n, w) in n.index && Over(n, d, w) && Low(n, d, w)
    ensures Settled(n, d, i)
  {
    hide Ready, Over, Low, Parent;
  }

  // ----- dominators are never lost -----

  /** A dominator `a` of `w` numbered before the tree ancestor `v` of `w` dominates `v`. */
  lemma DominatesAbove(n: Numbering, a: Label, v: Label, w: Label)
    requires Valid(n) && w in n.index && w in n.tree && v in n.tree[w] && v in n.index && a in n.index
    requires Dominates(n.g, a, w) && n.index[a] < n.index[v]
    ensures Dominates(n.g, a, v)
  {
    hide Valid, Dominates;
    var t := n.tree[w];
    TreePathOf(n, w);
    var j :| 0 <= j < |t| && t[j] == v;
    SuffixPath(n.g, n.g.entry, t, w, j);
    var p := t[j..];
    forall k | 1 <= k < |p|
      ensures p[k] != a
    {
      assert p[k] == t[j + k];
      TreeAncestor(n, t[j + k], w);
      TreeOrder(n, w, j, j + k);
    }
    assert a !in p[1..];
    DominatesBack(n.g, a, v, p, w);
  }

  lemma TreePathOf(n: Numbering, w: Label)
    requires Valid(n) && w in n.index
    ensures w in n.tree && Connects(n.g, n.g.entry, n.tree[w], w)
  {
    Numbered(n, w);
    hide Indexed, PredsOf, Closed, NoDuplicates, Reachable, Connects;
  }

  lemma TreeOrder(n: Numbering, w: Label, j: nat, k: nat)
    requires Valid(n) && w in n.index && w in n.tree && j <= k < |n.tree[w]|
    ensures n.tree[w][j] in n.index && n.tree[w][k] in n.index
    ensures n.index[n.tree[w][j]] <= n.index[n.tree[w][k]]
  {
    hide Valid;
    var u := n.tree[w][k];
    TreeAncestor(n, u, w);
    TreePrefix(n, w, k);
    assert n.tree[w][..k + 1][j] == n.tree[w][j];
    TreeAncestor(n, n.tree[w][j], u);
  }

  lemma TreePrefix(n: Numbering, w: Label, k: nat)
    requires Valid(n) && w in n.tree && k < |n.tree[w]|
    ensures n.tree[w][k] in n.tree && n.tree[n.tree[w][k]] == n.tree[w][..k + 1]
  {
    hide Indexed, PredsOf, Closed, NoDuplicates, Reachable, Connects;
  }

  lemma SafeUse(n: Numbering, d: Idom, v: Label, a: Label)
    requires Ready(n, d) && v in n.index && Safe(n, d, v) && Dominates(n.g, a, v)
    ensures IsAnc(n.index, d, a, v)
  {
    hide Ready, Dominates;
  }

  lemma SoundUse(n: Numbering, d: Idom, v: Label)
    requires Ready(n, d) && Sound(n, d) && v in d
    ensures v in n.index && v in n.tree && InTree(n, d, v) && Safe(n, d, v)
  {
    hide Ready, InTree, Safe;
  }

  /** A dominator of `v` other than `v` is a common ancestor of its predecessors. */
  lemma SafeMeet(n: Numbering, d: Idom, v: Label, a: Label)
    requires Valid(n) && Ready(n, d) && Sound(n, d) && v in n.index && v in n.preds
    requires Dominates(n.g, a, v) && a != v
    ensures CommonAncestor(n, d, v, a)
  {
    hide Valid, Total, Sound, InTree, Safe, Dominates;
    forall p | p in n.preds[v] && p in d
      ensures IsAnc(n.index, d, a, p)
    {
      PredIsEdge(n, v, p);
      DominatesPred(n.g, a, p, v);
      SoundUse(n, d, p);
      SafeUse(n, d, p, a);
    }
  }

  lemma PredIsEdge(n: Numbering, v: Label, p: Label)
    requires Valid(n) && v in n.index && v in n.preds
    ensures p in n.preds[v] <==> p in n.index && Edge(n.g, p, v)
    ensures Closed(n.g)
  {
    hide IsReversePostorder, Indexed, Closed;
  }

  lemma SafeStepAt(n: Numbering, d: Idom, v: Label, x: Label, a: Label)
    requires Valid(n) && Ready(n, d) && IsMeet(n, d, v, x) && Ready(n, d[v := x]) && Sound(n, d)
    requires Dominates(n.g, a, v)
    ensures IsAnc(n.index, d[v := x], a, v)
  {
    hide Valid, Ready, Sound, Dominates, CommonAncestor;
    if a != v {
      SafeMeet(n, d, v, a);
    }
    NewAncestors(n, d, v, x, a);
  }

  lemma SafeStep(n: Numbering, d: Idom, v: Label, x: Label, w: Label)
    requires Valid(n) && Ready(n, d) && IsMeet(n, d, v, x) && Ready(n, d[v := x]) && Sound(n, d)
    requires w in d[v := x] && w in n.index
    ensures Safe(n, d[v := x], w)
  {
    hide Valid, Sound, Dominates, CommonAncestor, Forest, Total, InTree;
    var d' := d[v := x];
    forall a | Dominates(n.g, a, w)
      ensures IsAnc(n.index, d', a, w)
    {
      if w == v {
        SafeStepAt(n, d, v, x, a);
      } else {
        SoundUse(n, d, w);
        SafeUse(n, d, w, a);
        AncLower(n.index, d, a, w);
        if !IsAnc(n.index, d, v, w) {
          AncUpdateOther(n.index, d, v, x, w, a);
        } else {
          AncUpdateBelow(n.index, d, v, x, w, a);
          if n.index[a] < n.index[v] {
            InTreeUse(n, d, w, v);
            DominatesAbove(n, a, v, w);
            SafeStepAt(n, d, v, x, a);
          } else if n.index[a] == n.index[v] {
            DistinctNumbers(n, a, v);
          }
        }
      }
    }
  }

  lemma InTreeStep(n: Numbering, d: Idom, v: Label, x: Label, w: Label)
    requires Ready(n, d) && IsMeet(n, d, v, x) && Ready(n, d[v := x]) && Sound(n, d)
    requires NoNewAncestors(n.index, d, d[v := x]) && Parent(n, v) in d
    requires w in d[v := x] && w in n.index && w in n.tree
    requires Valid(n)
    ensures InTree(n, d[v := x], w)
  {
    hide Valid, Sound, Safe, CommonAncestor, Forest, Total, NoNewAncestors, Parent;
    var d' := d[v := x];
    forall a | IsAnc(n.index, d', a, w)
      ensures a in n.tree[w]
    {
      if w == v {
        ParentFacts(n, v);
        if a != v {
          NewAncestors(n, d, v, x, a);
          CommonUse(n, d, v, a, Parent(n, v));
          SoundUse(n, d, Parent(n, v));
          InTreeUse(n, d, Parent(n, v), a);
        }
      } else {
        NoNewUse(n.index, d, d', w, a);
        SoundUse(n, d, w);
        InTreeUse(n, d, w, a);
      }
    }
  }

  lemma SoundStep(n: Numbering, d: Idom, v: Label, x: Label)
    requires Ready(n, d) && IsMeet(n, d, v, x) && Ready(n, d[v := x]) && Sound(n, d)
    requires NoNewAncestors(n.index, d, d[v := x]) && Parent(n, v) in d
    requires Valid(n)
    ensures Sound(n, d[v := x])
  {
    hide Valid, Safe, InTree, CommonAncestor, Forest, Total, NoNewAncestors, Parent;
    var d' := d[v := x];
    forall w | w in d'
      ensures w in n.index && w in n.tree && InTree(n, d', w) && Safe(n, d', w)
    {
      ParentFacts(n, v);
      if w != v {
        SoundUse(n, d, w);
      }
      InTreeStep(n, d, v, x, w);
      SafeStep(n, d, v, x, w);
    }
  }

  // ----- a whole pass -----

  ghost predicate Full(n: Numbering, d: Idom) {
    Ready(n, d) && d.Keys == n.index.Keys
  }

  /** What holds of the map between passes. */
  ghost predicate Good(n: Numbering, d: Idom) {
    Full(n, d) && Sound(n, d) && Settled(n, d, |n.rpo|)
  }

  /** In the first pass the map covers exactly the nodes visited so far. */
  ghost predicate Covers(n: Numbering, d: Idom, i: nat) {
    forall w :: w in n.index ==> (w in d <==> n.index[w] < i)
  }

  /** In a later pass the nodes still to be visited have their old parents. */
  ghost predicate Later(n: Numbering, old': Idom, d: Idom, i: nat)
    requires Forest(n.index, d) && Forest(n.index, old')
  {
    && Shrunk(n.index, d, old')
    && forall w :: w in n.index && n.index[w] >= i && w in d && w in old' ==> d[w] == old'[w]
  }

  ghost predicate PassInvariant(n: Numbering, first: bool, old': Idom, d: Idom, i: nat) {
    && Ready(n, d) && Sound(n, d) && Settled(n, d, i)
    && if first then Covers(n, d, i) else Good(n, old') && Full(n, d) && Later(n, old', d, i)
  }

  lemma AtIndex(n: Numbering, i: nat)
    requires Valid(n) && 0 < i < |n.rpo|
    ensures n.rpo[i] in n.index && n.index[n.rpo[i]] == i && n.rpo[i] != n.g.entry
    ensures Parent(n, n.rpo[i]) in n.index && n.index[Parent(n, n.rpo[i])] < i
    ensures n.rpo[i] in n.tree && n.rpo[i] in n.preds
  {
    IndexAt(n, i);
    hide Valid;
    Numbered(n, n.rpo[i]);
    ParentFacts(n, n.rpo[i]);
  }

  lemma IndexAt(n: Numbering, i: nat)
    requires Valid(n) && i < |n.rpo|
    ensures n.rpo[i] in n.index && n.index[n.rpo[i]] == i
  {
    hide IsReversePostorder, PredsOf, Closed;
  }

  lemma IndexBelow(n: Numbering, w: Label)
    requires Valid(n) && w in n.index
    ensures n.index[w] < |n.rpo| && n.rpo[n.index[w]] == w
  {
    hide IsReversePostorder, PredsOf, Closed;
  }

  /** What the pass knows about the node `v` it is about to visit. */
  lemma PassNode(n: Numbering, first: bool, old': Idom, d: Idom, v: Label)
    requires Valid(n) && v in n.index && n.index[v] > 0
    requires PassInvariant(n, first, old', d, n.index[v])
    ensures v != n.g.entry && v in n.preds && Parent(n, v) in d
    ensures Ready(n, d) && (v in d <==> !first)
  {
    hide Valid, Sound, Settled, Forest, Total, Parent, Later, Good;
    Numbered(n, v);
    ParentFacts(n, v);
    if !first {
      FullHas(n, d, v);
      FullHas(n, d, Parent(n, v));
    }
  }

  lemma MeetBelow(n: Numbering, d: Idom, v: Label, x: Label)
    requires Valid(n) && Ready(n, d) && v in n.index && v in n.preds && v != n.g.entry && x in d
    requires forall a :: IsAnc(n.index, d, a, x) <==> CommonAncestor(n, d, v, a)
    requires Parent(n, v) in d
    ensures IsMeet(n, d, v, x)
  {
    hide Valid, Total, CommonAncestor, Parent;
    Numbered(n, v);
    ParentFacts(n, v);
    assert IsAnc(n.index, d, x, x);
    CommonUse(n, d, v, x, Parent(n, v));
    AncLower(n.index, d, x, Parent(n, v));
  }

  lemma PassStep(n: Numbering, first: bool, old': Idom, d: Idom, v: Label, x: Label, d': Idom)
    requires Valid(n) && v in n.index && n.index[v] > 0 && d' == d[v := x]
    requires PassInvariant(n, first, old', d, n.index[v])
    requires IsMeet(n, d, v, x)
    ensures PassInvariant(n, first, old', d', n.index[v] + 1)
  {
    hide Valid, IsMeet, Forest, Total, Sound, Settled, Parent, Shrunk, Covers, Good;
    PassNode(n, first, old', d, v);
    MeetUpdates(n, d, v, x);
    if first {
      AddsNoAncestors(n, d, v, x);
      CoversStep(n, d, v, x);
    } else {
      LaterShrinks(n, old', d, v, x, d');
    }
    SettledStep(n, d, v, x);
    SoundStep(n, d, v, x);
  }

  lemma CoversStep(n: Numbering, d: Idom, v: Label, x: Label)
    requires Valid(n) && v in n.index && Covers(n, d, n.index[v])
    ensures Covers(n, d[v := x], n.index[v] + 1)
  {
    hide Valid;
    forall w | w in n.index && n.index[w] == n.index[v]
      ensures w == v
    {
      DistinctNumbers(n, v, w);
    }
  }

  lemma LaterUse(n: Numbering, old': Idom, d: Idom, i: nat, w: Label)
    requires Forest(n.index, d) && Forest(n.index, old') && Later(n, old', d, i)
    requires w in n.index && n.index[w] >= i && w in d && w in old'
    ensures d[w] == old'[w] && Shrunk(n.index, d, old')
  {
    hide Forest, Shrunk;
  }

  lemma LaterStep(n: Numbering, old': Idom, d: Idom, i: nat, v: Label, x: Label)
    requires Forest(n.index, d) && Forest(n.index, old') && Later(n, old', d, i)
    requires v in n.index && n.index[v] == i && v in d
    requires Forest(n.index, d[v := x]) && Shrunk(n.index, d[v := x], old')
    ensures Later(n, old', d[v := x], i + 1)
  {
    hide Forest, Shrunk;
  }

  lemma FullHas(n: Numbering, d: Idom, v: Label)
    requires Full(n, d)
    ensures Ready(n, d)
    ensures v in n.index <==> v in d
  {
    hide Ready;
    assert v in d.Keys <==> v in d;
  }

  lemma LaterShrinks(n: Numbering, old': Idom, d: Idom, v: Label, x: Label, d': Idom)
    requires Valid(n) && Full(n, d) && Good(n, old') && v in n.index && d' == d[v := x]
    requires Later(n, old', d, n.index[v]) && Sound(n, d) && Settled(n, d, n.index[v])
    requires IsMeet(n, d, v, x) && Ready(n, d')
    ensures NoNewAncestors(n.index, d, d')
    ensures Full(n, d') && Later(n, old', d', n.index[v] + 1)
  {
    hide Valid, IsMeet, Total, Forest, Sound, Settled, Parent, Shrunk, NoNewAncestors, Later, Over, InTree;
    FullHas(n, d, v);
    FullHas(n, old', v);
    LaterUse(n, old', d, n.index[v], v);
    LaterNode(n, old', d, v, x);
    UpdateShrinks(n, old', d, v, x);
    ShrunkTransitive(n.index, d', d, old');
    ShrunkNoNew(n.index, d, d');
    LaterStep(n, old', d, n.index[v], v, x);
  }

  lemma LaterNode(n: Numbering, old': Idom, d: Idom, v: Label, x: Label)
    requires Valid(n) && Full(n, d) && Good(n, old') && Sound(n, d) && IsMeet(n, d, v, x)
    ensures Ready(n, old') && v in n.preds && Over(n, old', v)
    ensures v in n.tree && InTree(n, d, v)
  {
    hide Valid, Total, Forest, Sound, Settled, Parent, CommonAncestor, Over, InTree, Low, Safe;
    IndexBelow(n, v);
    FullHas(n, d, v);
    SoundUse(n, d, v);
    SettledUse(n, old', |n.rpo|, v);
  }

  lemma ShrunkTransitive(index: Index, d'': Idom, d': Idom, d: Idom)
    requires Forest(index, d'') && Forest(index, d') && Forest(index, d)
    requires Shrunk(index, d'', d') && Shrunk(index, d', d)
    ensures Shrunk(index, d'', d)
  {
    hide Forest, IsAnc;
    forall v, a | v in index && IsAnc(index, d'', a, v)
      ensures IsAnc(index, d, a, v)
    {
      assert IsAnc(index, d', a, v);
    }
  }

  lemma ShrunkNoNew(index: Index, d: Idom, d': Idom)
    requires Forest(index, d) && Forest(index, d') && Shrunk(index, d', d)
    ensures NoNewAncestors(index, d, d')
  {
    hide Forest, IsAnc;
  }

  // ----- the measure -----

  /** The number of the parent of the `i`th node. */
  ghost function ParentNumber(n: Numbering, d: Idom, i: nat): nat {
    if i < |n.rpo| && n.rpo[i] in d && d[n.rpo[i]] in n.index then n.index[d[n.rpo[i]]] else 0
  }

  ghost function Height(n: Numbering, d: Idom, i: nat): nat {
    if i == 0 then 0 else Height(n, d, i - 1) + ParentNumber(n, d, i - 1)
  }

  ghost predicate Differ(n: Numbering, d: Idom, old': Idom, i: nat) {
    i < |n.rpo| && n.rpo[i] in d && n.rpo[i] in old' && d[n.rpo[i]] != old'[n.rpo[i]]
  }

  /** Fewer ancestors means a parent numbered no higher, and lower if it changed. */
  lemma ParentLowers(n: Numbering, old': Idom, d: Idom, i: nat)
    requires Full(n, d) && Full(n, old') && Shrunk(n.index, d, old') && i < |n.rpo|
    requires Valid(n)
    ensures ParentNumber(n, d, i) <= ParentNumber(n, old', i)
    ensures Differ(n, d, old', i) ==> ParentNumber(n, d, i) < ParentNumber(n, old', i)
  {
    hide Valid, Shrunk, Forest, Total, Indexed;
    var v := n.rpo[i];
    IndexAt(n, i);
    FullHas(n, d, v);
    FullHas(n, old', v);
    Up(n.index, d, v);
    Up(n.index, old', v);
    if n.index[v] > 0 {
      assert IsAnc(n.index, d, d[v], v) by {
        assert IsAnc(n.index, d, d[v], d[v]);
      }
      ShrunkUse(n.index, d, old', v, d[v]);
      AncLower(n.index, old', d[v], old'[v]);
    }
  }

  lemma {:induction false} HeightLowers(n: Numbering, old': Idom, d: Idom, i: nat, k: nat)
    requires Full(n, d) && Full(n, old') && Shrunk(n.index, d, old') && i <= |n.rpo|
    requires Valid(n)
    ensures Height(n, d, i) <= Height(n, old', i)
    ensures k < i && Differ(n, d, old', k) ==> Height(n, d, i) < Height(n, old', i)
  {
    hide Valid, Full, Shrunk, Differ, ParentNumber;
    if i > 0 {
      HeightLowers(n, old', d, i - 1, k);
      ParentLowers(n, old', d, i - 1);
    }
  }

  // ----- what the fixed point is -----

  /** `d` gives exactly the immediate dominators: the ancestors of a node in the
      tree are the nodes on every entry path to it. */
  ghost predicate IsDominatorTree(n: Numbering, d: Idom) {
    && Full(n, d)
    && forall v, a :: v in n.index ==> (IsAnc(n.index, d, a, v) <==> Dominates(n.g, a, v))
  }

  /** The parent of `v` is an ancestor of every predecessor of `v`. */
  ghost predicate FixedAt(n: Numbering, d: Idom, v: Label)
    requires Ready(n, d)
  {
    && v in n.preds && v in d && d[v] in n.index
    && forall a :: IsAnc(n.index, d, a, d[v]) ==> CommonAncestor(n, d, v, a)
  }

  ghost predicate Fixed(n: Numbering, d: Idom, i: nat)
    requires Ready(n, d)
  {
    forall v :: v in n.index && 0 < n.index[v] < i ==> FixedAt(n, d, v)
  }

  lemma FixedUse(n: Numbering, d: Idom, i: nat, v: Label)
    requires Ready(n, d) && Fixed(n, d, i) && v in n.index && 0 < n.index[v] < i
    ensures FixedAt(n, d, v)
  {
    hide Ready, FixedAt;
  }

  lemma {:induction false} AncestorOnPath(n: Numbering, d: Idom, a: Label, p: seq<Label>, v: Label)
    requires Full(n, d) && Fixed(n, d, |n.rpo|) && v in n.index && IsAnc(n.index, d, a, v)
    requires Connects(n.g, n.g.entry, p, v)
    requires Valid(n)
    ensures a in p
    decreases |p|
  {
    hide Valid, Total, Forest, Fixed, CommonAncestor;
    Numbered(n, v);
    assert v == p[|p| - 1];
    if a != v {
      var u := p[|p| - 2];
      IndexBelow(n, v);
      FixedUse(n, d, |n.rpo|, v);
      if |p| == 1 {
        assert false;
      }
      assert Edge(n.g, u, p[|p| - 2 + 1]);
      PrefixPath(n.g, n.g.entry, p, v, |p| - 2);
      var q := p[..|p| - 1];
      assert q == p[..|p| - 2 + 1];
      assert Reachable(n.g, u) by {
        assert Connects(n.g, n.g.entry, q, u);
      }
      Numbered(n, u);
      PredIsEdge(n, v, u);
      FullHas(n, d, u);
      CommonUse(n, d, v, a, u);
      AncestorOnPath(n, d, a, q, u);
    }
  }

  lemma FixedIsExact(n: Numbering, d: Idom)
    requires Valid(n) && Full(n, d) && Sound(n, d) && Fixed(n, d, |n.rpo|)
    ensures IsDominatorTree(n, d)
  {
    hide Valid, Forest, Total, Fixed, Sound, Safe, Connects;
    forall v, a | v in n.index
      ensures IsAnc(n.index, d, a, v) <==> Dominates(n.g, a, v)
    {
      if IsAnc(n.index, d, a, v) {
        forall p | Connects(n.g, n.g.entry, p, v)
          ensures a in p
        {
          AncestorOnPath(n, d, a, p, v);
        }
      }
      if Dominates(n.g, a, v) {
        FullHas(n, d, v);
        SoundUse(n, d, v);
        SafeUse(n, d, v, a);
      }
    }
  }

  /** The parent of a node in a dominator tree is its immediate dominator: it
      strictly dominates the node, and every other strict dominator dominates it. */
  lemma ParentIsImmediate(n: Numbering, d: Idom, v: Label)
    requires Valid(n) && IsDominatorTree(n, d) && v in n.index && v != n.g.entry
    ensures v in d && d[v] in n.index && StrictlyDominates(n.g, d[v], v)
    ensures forall a :: StrictlyDominates(n.g, a, v) ==> Dominates(n.g, a, d[v])
  {
    hide Valid, Forest, Total, Dominates;
    Numbered(n, v);
    FullHas(n, d, v);
    Up(n.index, d, v);
    assert IsAnc(n.index, d, d[v], d[v]);
    forall a | StrictlyDominates(n.g, a, v)
      ensures Dominates(n.g, a, d[v])
    {
      assert IsAnc(n.index, d, a, v);
      assert IsAnc(n.index, d, a, d[v]);
    }
  }

  // ----- when one pass is enough -----

  /** Every edge that does not run forward ends at a dominator of its source. */
  ghost predicate BackEdges(n: Numbering) {
    forall u, v :: u in n.index && v in n.index && Edge(n.g, u, v) && n.index[v] <= n.index[u] ==> Dominates(n.g, v, u)
  }

  /** Below number `i` the ancestors are dominators. */
  ghost predicate Exact(n: Numbering, d: Idom, i: nat)
    requires Ready(n, d)
  {
    forall v, a :: v in n.index && n.index[v] < i && IsAnc(n.index, d, a, v) ==> Dominates(n.g, a, v)
  }

  lemma ExactStart(n: Numbering, d: Idom)
    requires Valid(n) && d == map[n.g.entry := n.g.entry] && Ready(n, d)
    ensures Exact(n, d, 1)
  {
    hide Valid, Dominates;
    forall v, a | v in n.index && n.index[v] < 1 && IsAnc(n.index, d, a, v) ensures Dominates(n.g, a, v) {
      Numbered(n, v);
      SelfDominates(n.g, v);
    }
  }

  /** The first place of `v` on a path that starts elsewhere. */
  lemma {:induction false} FirstIn(p: seq<Label>, v: Label) returns (j: nat)
    requires v in p
    ensures j < |p| && p[j] == v && v !in p[..j]
  {
    if p[0] == v {
      j := 0;
    } else {
      assert p == [p[0]] + p[1..];
      var k := FirstIn(p[1..], v);
      j := k + 1;
      assert p[..j] == [p[0]] + p[1..][..k];
    }
  }

  /** The stretch of a path to `v` before it first comes to `v`. */
  lemma BeforeFirst(n: Numbering, v: Label, p: seq<Label>) returns (u: Label, q: seq<Label>)
    requires Valid(n) && v in n.index && n.index[v] > 0 && Connects(n.g, n.g.entry, p, v)
    ensures Edge(n.g, u, v) && u in n.index && Connects(n.g, n.g.entry, q, u) && v !in q && forall a ::
        a in q ==> a in p
  {
    hide Valid;
    Numbered(n, v);
    var j := FirstIn(p, v);
    assert j > 0;
    u, q := p[j - 1], p[..j];
    assert Edge(n.g, p[j - 1], p[j - 1 + 1]);
    PrefixPath(n.g, n.g.entry, p, v, j - 1);
    assert q == p[..j - 1 + 1];
    assert Reachable(n.g, u);
    Numbered(n, u);
  }

  /** With back edges only, what is above every forward predecessor of `v` is on every path to `v`. */
  lemma MeetDominates(n: Numbering, d: Idom, v: Label, a: Label)
    requires Valid(n) && Ready(n, d) && v in n.index && n.index[v] > 0 && v in n.preds && BackEdges(n)
    requires Exact(n, d, n.index[v]) && Covers(n, d, n.index[v]) && CommonAncestor(n, d, v, a)
    ensures Dominates(n.g, a, v)
  {
    hide Valid, Forest, Total, CommonAncestor, Connects, Reachable;
    forall p | Connects(n.g, n.g.entry, p, v) ensures a in p {
      var u, q := BeforeFirst(n, v, p);
      assert !Dominates(n.g, v, u);
      assert n.index[u] < n.index[v];
      PredIsEdge(n, v, u);
      CommonUse(n, d, v, a, u);
      assert Dominates(n.g, a, u);
    }
  }

  lemma ExactStep(n: Numbering, d: Idom, v: Label, x: Label)
    requires Valid(n) && Ready(n, d) && IsMeet(n, d, v, x) && Ready(n, d[v := x]) && BackEdges(n)
    requires Exact(n, d, n.index[v]) && Covers(n, d, n.index[v])
    ensures Exact(n, d[v := x], n.index[v] + 1)
  {
    hide Valid, Forest, Total, CommonAncestor, Dominates, BackEdges, Covers;
    var d' := d[v := x];
    forall w, a | w in n.index && n.index[w] < n.index[v] + 1 && IsAnc(n.index, d', a, w) ensures Dominates(n.g, a, w) {
      if n.index[w] == n.index[v] {
        DistinctNumbers(n, v, w);
        NewAncestors(n, d, v, x, a);
        if a == v { SelfDominates(n.g, v); } else { MeetDominates(n, d, v, a); }
      } else {
        AncUpdateLower(n.index, d, v, x, w, a);
      }
    }
  }

  lemma SelfDominates(g: Graph, a: Label)
    ensures Dominates(g, a, a)
  {}

  lemma ExactIsTree(n: Numbering, d: Idom)
    requires Valid(n) && Full(n, d) && Sound(n, d) && Exact(n, d, |n.rpo|)
    ensures IsDominatorTree(n, d)
  {
    hide Valid, Forest, Total, Sound, Safe, InTree, Dominates;
    forall v, a | v in n.index ensures IsAnc(n.index, d, a, v) <==> Dominates(n.g, a, v) {
      IndexBelow(n, v);
      FullHas(n, d, v);
      SoundUse(n, d, v);
      if Dominates(n.g, a, v) { SafeUse(n, d, v, a); }
    }
  }

  /** A pass over the dominator tree finds nothing to change. */
  lemma TreeStays(n: Numbering, old': Idom, d: Idom, k: nat)
    requires Valid(n) && IsDominatorTree(n, old') && Full(n, d) && Sound(n, d) && Shrunk(n.index, d, old')
    ensures !Differ(n, d, old', k)
  {
    hide Valid, Forest, Total, Sound, Safe, InTree, Dominates, Shrunk;
    if k < |n.rpo| {
      var v := n.rpo[k];
      IndexAt(n, k);
      ParentLowers(n, old', d, k);
      FullHas(n, d, v);
      FullHas(n, old', v);
      Up(n.index, old', v);
      Up(n.index, d, v);
      if n.index[v] > 0 {
        assert IsAnc(n.index, old', old'[v], old'[v]);
        assert IsAnc(n.index, old', old'[v], v);
        SoundUse(n, d, v);
        SafeUse(n, d, v, old'[v]);
        AncLower(n.index, d, old'[v], d[v]);
      }
    }
  }

  // ----- the algorithm -----

  lemma FirstPass(n: Numbering, d: Idom)
    requires Valid(n) && d == map[n.g.entry := n.g.entry]
    ensures PassInvariant(n, true, d, d, 1)
  {
    hide Valid, Dominates;
    EntryReachable'(n);
    Numbered(n, n.g.entry);
    TreePathOf(n, n.g.entry);
    var e := n.g.entry;
    assert Forest(n.index, d) && Total(d) by {
      assert ParentIn(d, e);
    }
    forall w | w in n.index
      ensures w in d <==> n.index[w] < 1
    {
      Numbered(n, w);
    }
    assert Safe(n, d, e) by {
      forall a | Dominates(n.g, a, e)
        ensures IsAnc(n.index, d, a, e)
      {
        EntryDominator(n, a);
      }
    }
  }

  lemma EntryReachable'(n: Numbering)
    requires Valid(n)
    ensures n.g.entry in n.index
  {
    EntryClosed(n);
    hide Valid, Reachable;
    EntryReachable(n.g);
    Numbered(n, n.g.entry);
  }

  lemma EntryClosed(n: Numbering)
    requires Valid(n)
    ensures Closed(n.g)
  {
    hide IsReversePostorder, PredsOf, Indexed, Closed;
  }

  lemma EntryDominator(n: Numbering, a: Label)
    requires Valid(n) && Dominates(n.g, a, n.g.entry)
    ensures a == n.g.entry
  {
    hide IsReversePostorder, PredsOf, Indexed;
    assert Connects(n.g, n.g.entry, [n.g.entry], n.g.entry);
  }

  lemma NextPass(n: Numbering, d: Idom)
    requires Valid(n) && Good(n, d)
    ensures PassInvariant(n, false, d, d, 1)
  {
    hide Valid, Forest, Total, Sound, Over, Low, Parent;
  }

  lemma PassEnds(n: Numbering, first: bool, old': Idom, d: Idom)
    requires Valid(n) && PassInvariant(n, first, old', d, |n.rpo|)
    ensures Good(n, d)
    ensures !first ==> Full(n, old') && Shrunk(n.index, d, old')
  {
    hide Valid, Forest, Total, Sound, Settled, Shrunk;
    if first {
      forall w | w in n.index
        ensures w in d
      {
        IndexBelow(n, w);
      }
      assert forall w :: w in d ==> w in n.index by {
        forall w | w in d ensures w in n.index { ReadyKeys(n, d, w); }
      }
      assert d.Keys == n.index.Keys;
    }
  }

  lemma ReadyKeys(n: Numbering, d: Idom, w: Label)
    requires Ready(n, d) && w in d
    ensures w in n.index
  {
    Up(n.index, d, w);
  }

  lemma FixedStep(n: Numbering, d: Idom, v: Label)
    requires Valid(n) && Ready(n, d) && v in n.index && v in d && IsMeet(n, d, v, d[v]) && Fixed(n, d, n.index[v])
    ensures Fixed(n, d, n.index[v] + 1)
  {
    hide Valid, Forest, Total, CommonAncestor, FixedAt, IsMeet;
    forall w | w in n.index && 0 < n.index[w] < n.index[v] + 1
      ensures FixedAt(n, d, w)
    {
      if n.index[w] == n.index[v] {
        DistinctNumbers(n, v, w);
        FixedHere(n, d, v);
      }
    }
  }

  lemma FixedHere(n: Numbering, d: Idom, v: Label)
    requires Ready(n, d) && v in n.index && v in d && IsMeet(n, d, v, d[v])
    ensures FixedAt(n, d, v)
  {
    hide Forest, Total, CommonAncestor;
  }

  /** Passes over the nodes in reverse postorder until one changes nothing; where all retreating
      edges are back edges, that is the second. */
  method Immediate(ghost n: Numbering, rpo: seq<Label>, index: Index, preds: map<Label, seq<Label>>)
    returns (idom: Idom, ghost passes: nat)
    requires Valid(n) && n.rpo == rpo && n.index == index && n.preds == preds
    ensures IsDominatorTree(n, idom)
    ensures BackEdges(n) ==> passes <= 2
  {
    hide Valid, Good, PassInvariant, Fixed, IsDominatorTree, Height, BackEdges;
    RpoNonEmpty(n);
    idom := map[rpo[0] := rpo[0]];
    FirstPass(n, idom);
    ghost var first := true;
    var changed := true;
    passes := 0;
    while changed
      invariant first ==> passes == 0
      invariant BackEdges(n) && !first ==> IsDominatorTree(n, idom) && passes <= if changed then 1 else 2
      invariant first ==> idom == map[rpo[0] := rpo[0]] && changed
      invariant !first ==> Good(n, idom)
      invariant !changed ==> Good(n, idom) && Full(n, idom) && Fixed(n, idom, |rpo|)
      decreases first, Height(n, idom, |rpo|), changed
    {
      ghost var before := idom;
      idom, changed := OnePass(n, rpo, index, preds, idom, first);
      first, passes := false, passes + 1;
    }
    GoodFacts(n, idom);
    FixedIsExact(n, idom);
  }

  lemma FullReady(n: Numbering, d: Idom)
    requires Full(n, d)
    ensures Ready(n, d)
  {
    hide Ready;
  }

  lemma GoodFacts(n: Numbering, d: Idom)
    requires Good(n, d)
    ensures Full(n, d) && Sound(n, d)
  {
    hide Ready, Sound, Settled;
  }

  lemma RpoNonEmpty(n: Numbering)
    requires Valid(n)
    ensures n.rpo != [] && n.rpo[0] == n.g.entry
  {
    hide NoDuplicates, TreePaths, PredsOf, Indexed, Closed, Reachable, Edge;
  }

  /** Where the pass is before visiting node number `i`; `k` is a node it changed. */
  ghost predicate PassState(n: Numbering, first: bool, old': Idom, d: Idom, i: nat, changed: bool, k: nat) {
    && PassInvariant(n, first, old', d, i)
    && (!changed ==> d == old' && Ready(n, d) && Fixed(n, d, i) && (first ==> i == 1))
    && (!first && changed ==> k < i && Differ(n, d, old', k))
    && (first && BackEdges(n) ==> Ready(n, d) && Exact(n, d, i))
  }

  lemma PassStateStart(n: Numbering, first: bool, old': Idom)
    requires Valid(n)
    requires if first then old' == map[n.g.entry := n.g.entry] else Good(n, old')
    ensures PassState(n, first, old', old', 1, false, 0)
  {
    hide Valid, Good, PassInvariant;
    if first { FirstPass(n, old'); } else { NextPass(n, old'); }
    FixedStart(n, first, old', old');
    if first { ExactStart(n, old'); }
  }

  /** Visiting node `v`, whose predecessors meet at `x`. */
  lemma PassStateNode(n: Numbering, first: bool, old': Idom, d: Idom, v: Label, changed: bool, k: nat)
    requires Valid(n) && v in n.index && n.index[v] > 0
    requires PassState(n, first, old', d, n.index[v], changed, k)
    ensures v != n.g.entry && v in n.preds && Parent(n, v) in d && Ready(n, d) && (v in d <==> !first)
  {
    hide Valid, PassInvariant, Ready;
    PassNode(n, first, old', d, v);
  }

  lemma PassStateChanges(n: Numbering, first: bool, old': Idom, d: Idom, v: Label, x: Label, changed: bool, k: nat)
    returns (k': nat)
    requires Valid(n) && v in n.index && n.index[v] > 0
    requires PassState(n, first, old', d, n.index[v], changed, k)
    requires Ready(n, d) && IsMeet(n, d, v, x) && (v in d ==> d[v] != x)
    ensures PassState(n, first, old', d[v := x], n.index[v] + 1, true, k')
  {
    hide Valid, PassInvariant, Ready, IsMeet;
    PassNode(n, first, old', d, v);
    PassStep(n, first, old', d, v, x, d[v := x]);
    IndexBelow(n, v);
    if first && BackEdges(n) { FirstStep(n, old', d, v, x); }
    if changed && !first {
      k' := k;
      IndexAt(n, k);
    } else {
      k' := n.index[v];
    }
  }

  lemma FirstStep(n: Numbering, old': Idom, d: Idom, v: Label, x: Label)
    requires Valid(n) && v in n.index && n.index[v] > 0 && PassInvariant(n, true, old', d, n.index[v])
    requires Ready(n, d) && IsMeet(n, d, v, x) && BackEdges(n) && Exact(n, d, n.index[v])
    ensures Ready(n, d[v := x]) && Exact(n, d[v := x], n.index[v] + 1)
  {
    hide Valid, Ready, IsMeet, Sound, Settled, Covers, Exact, BackEdges;
    MeetUpdates(n, d, v, x);
    ExactStep(n, d, v, x);
  }

  lemma PassStateKeeps(n: Numbering, first: bool, old': Idom, d: Idom, v: Label, x: Label, changed: bool, k: nat)
    requires Valid(n) && v in n.index && n.index[v] > 0
    requires PassState(n, first, old', d, n.index[v], changed, k)
    requires Ready(n, d) && IsMeet(n, d, v, x) && v in d && d[v] == x
    ensures PassState(n, first, old', d, n.index[v] + 1, changed, k)
  {
    hide Valid, PassInvariant, Ready, IsMeet, Fixed;
    PassNode(n, first, old', d, v);
    PassStep(n, first, old', d, v, x, d[v := x]);
    assert d[v := x] == d;
    if !changed {
      FixedStep(n, d, v);
    }
  }

  lemma PassStateEnd(n: Numbering, first: bool, old': Idom, d: Idom, changed: bool, k: nat)
    requires Valid(n) && PassState(n, first, old', d, |n.rpo|, changed, k)
    ensures Ready(n, d)
    ensures !changed ==> Fixed(n, d, |n.rpo|)
    ensures !first && changed ==> Height(n, d, |n.rpo|) < Height(n, old', |n.rpo|)
    ensures !first && !changed ==> d == old'
    ensures Good(n, d) && Full(n, d)
    ensures first && BackEdges(n) ==> IsDominatorTree(n, d)
    ensures !first && IsDominatorTree(n, old') ==> !changed
  {
    hide Valid, PassInvariant, Ready, Good, Full, Fixed, Height, BackEdges, Exact, IsDominatorTree;
    PassEnds(n, first, old', d);
    GoodFacts(n, d);
    FullReady(n, d);
    if !first && changed {
      HeightLowers(n, old', d, |n.rpo|, k);
      if IsDominatorTree(n, old') { TreeStays(n, old', d, k); }
    }
    if first && BackEdges(n) { ExactIsTree(n, d); }
  }

  /** One pass.  `first` marks the pass that starts from the entry alone. */
  method OnePass(ghost n: Numbering, rpo: seq<Label>, index: Index, preds: map<Label, seq<Label>>, before: Idom,
                 ghost first: bool)
    returns (idom: Idom, changed: bool)
    requires n.rpo == rpo && n.index == index && n.preds == preds && rpo != []
    requires if first then before == map[n.g.entry := n.g.entry] else Good(n, before)
    requires Valid(n)
    ensures Ready(n, idom)
    ensures !changed ==> Fixed(n, idom, |rpo|)
    ensures !first && changed ==> Height(n, idom, |rpo|) < Height(n, before, |rpo|)
    ensures !first && !changed ==> idom == before
    ensures Good(n, idom) && Full(n, idom)
    ensures first && BackEdges(n) ==> IsDominatorTree(n, idom)
    ensures !first && IsDominatorTree(n, before) ==> !changed
  {
    hide BackEdges, IsDominatorTree, Valid, Good, PassState, Fixed, Height, Forest, Total, IsMeet;
    idom, changed := before, false;
    PassStateStart(n, first, before);
    ghost var k := 0;
    for i := 1 to |rpo|
      invariant PassState(n, first, before, idom, i, changed, k)
    {
      var v := rpo[i];
      AtIndex(n, i);
      PassStateNode(n, first, before, idom, v, changed, k);
      var meet := MeetPreds(n, index, preds, idom, v);
      MeetBelow(n, idom, v, meet);
      if v !in idom || idom[v] != meet {
        k := PassStateChanges(n, first, before, idom, v, meet, changed, k);
        idom := idom[v := meet];
        changed := true;
      } else {
        PassStateKeeps(n, first, before, idom, v, meet, changed, k);
      }
    }
    PassStateEnd(n, first, before, idom, changed, k);
  }

  lemma PassIsReady(n: Numbering, first: bool, old': Idom, d: Idom, i: nat)
    requires PassInvariant(n, first, old', d, i)
    ensures Ready(n, d)
  {
    hide Ready, Sound, Settled, Covers, Later, Full;
  }

  lemma FixedStart(n: Numbering, first: bool, old': Idom, d: Idom)
    requires PassInvariant(n, first, old', d, 1)
    ensures Ready(n, d) && Fixed(n, d, 1)
  {
    hide PassInvariant, Ready, FixedAt;
    PassIsReady(n, first, old', d, 1);
  }
}
