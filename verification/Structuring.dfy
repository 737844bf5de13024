/** The structuring pass itself: number the blocks, find dominators, classify the
    edges, and translate, or report a loop with a second entry. */
module Structuring {
  import opened Cir
  import opened Graphs
  import opened FlowGraph
  import opened ReversePostorder
  import opened DomTree
  import opened Dominators
  import opened Structurer
  import opened StructurerFacts
  import opened StructuredRun
  import opened StructurerProof
  import opened StructurerShape
  import opened Reducibility

  datatype Result = Structured(nodes: seq<Node>) | Irreducible(loop: Label, from: Label)

  // ----- numbering and predecessor lists -----

  method NumberBlocks(rpo: seq<Label>) returns (index: Index)
    requires NoDuplicates(rpo)
    ensures Indexed(rpo, index)
  {
    index := map[];
    for i := 0 to |rpo|
      invariant forall k :: 0 <= k < i ==> rpo[k] in index && index[rpo[k]] == k
      invariant forall v :: v in index ==> index[v] < i && rpo[index[v]] == v
    {
      forall k | 0 <= k < i
        ensures rpo[k] != rpo[i]
      {
        assert DistinctAt(rpo, k, i);
      }
      index := index[rpo[i] := i];
    }
  }

  /** `u`, once for each time `v` is among its successors `ts`. */
  function Times(u: Label, ts: seq<Label>, v: Label): seq<Label> {
    if ts == [] then []
    else Times(u, ts[..|ts| - 1], v) + (if ts[|ts| - 1] == v then [u] else [])
  }

  /** The predecessors of `v` among the first `i` nodes, with multiplicity. */
  function PredList(succ: map<Label, seq<Label>>, rpo: seq<Label>, i: nat, v: Label): seq<Label>
    requires i <= |rpo| && forall u :: u in rpo ==> u in succ
  {
    if i == 0 then [] else PredList(succ, rpo, i - 1, v) + Times(rpo[i - 1], succ[rpo[i - 1]], v)
  }

  /** Append `u` to the list of each of its successors `ts`. */
  method AddEdges(u: Label, ts: seq<Label>, before: map<Label, seq<Label>>) returns (preds: map<Label, seq<Label>>)
    requires forall v :: v in ts ==> v in before
    ensures preds.Keys == before.Keys
    ensures forall v :: v in preds && v in before ==> preds[v] == before[v] + Times(u, ts, v)
  {
    preds := before;
    for j := 0 to |ts|
      invariant preds.Keys == before.Keys
      invariant forall v :: v in preds && v in before ==> preds[v] == before[v] + Times(u, ts[..j], v)
    {
      assert ts[..j + 1][..j] == ts[..j];
      assert ts[j] in ts && ts[j] in preds.Keys;
      preds := preds[ts[j] := preds[ts[j]] + [u]];
    }
    assert ts[..|ts|] == ts;
  }

  method CollectPreds(succ: map<Label, seq<Label>>, rpo: seq<Label>) returns (preds: map<Label, seq<Label>>)
    requires forall u :: u in rpo ==> u in succ
    requires forall u, v :: u in rpo && u in succ && v in succ[u] ==> v in rpo
    ensures forall v :: v in preds <==> v in rpo
    ensures forall v :: v in preds ==> preds[v] == PredList(succ, rpo, |rpo|, v)
  {
    preds := map l | l in rpo :: [];
    ghost var keys := preds.Keys;
    for i := 0 to |rpo|
      invariant preds.Keys == keys
      invariant forall v :: v in preds ==> preds[v] == PredList(succ, rpo, i, v)
    {
      var u := rpo[i];
      assert u in rpo;
      assert forall v :: v in succ[u] ==> v in keys;
      ghost var before := preds;
      preds := AddEdges(u, succ[u], preds);
      forall v | v in preds
        ensures preds[v] == PredList(succ, rpo, i + 1, v)
      {
        assert v in before.Keys;
      }
    }
  }

  lemma {:induction false} TimesCounts(u: Label, ts: seq<Label>, v: Label, w: Label)
    ensures multiset(Times(u, ts, v))[w] == if w == u then multiset(ts)[v] else 0
  {
    if ts != [] {
      TimesCounts(u, ts[..|ts| - 1], v, w);
      assert ts == ts[..|ts| - 1] + [ts[|ts| - 1]];
    }
  }

  lemma {:induction false} PredListCounts(succ: map<Label, seq<Label>>, rpo: seq<Label>, index: Index, i: nat,
                                          v: Label, w: Label)
    requires i <= |rpo| && (forall u :: u in rpo ==> u in succ) && Indexed(rpo, index)
    ensures multiset(PredList(succ, rpo, i, v))[w] ==
            if w in index && index[w] < i && w in succ then multiset(succ[w])[v] else 0
  {
    if i > 0 {
      PredListCounts(succ, rpo, index, i - 1, v, w);
      TimesCounts(rpo[i - 1], succ[rpo[i - 1]], v, w);
    }
  }

  lemma PredListIs(g: Graph, rpo: seq<Label>, index: Index, preds: map<Label, seq<Label>>)
    requires Indexed(rpo, index) && forall u :: u in rpo ==> u in g.succ
    requires forall v :: v in preds <==> v in rpo
    requires forall v :: v in preds ==> preds[v] == PredList(g.succ, rpo, |rpo|, v)
    ensures PredsOf(g, index, preds)
  {
    forall v, u | v in index && v in preds
      ensures u in preds[v] <==> u in index && Edge(g, u, v)
    {
      PredListCounts(g.succ, rpo, index, |rpo|, v, u);
      assert u in preds[v] <==> multiset(preds[v])[u] > 0;
      if u in index {
        assert v in g.succ[u] <==> multiset(g.succ[u])[v] > 0;
      }
    }
  }

  // ----- classifying edges -----

  /** The entries of `ps` numbered below `v`: the forward in-edges of `v`. */
  function ForwardCount(index: Index, ps: seq<Label>, v: Label): nat {
    if ps == [] then 0
    else ForwardCount(index, ps[..|ps| - 1], v) +
         (if ps[|ps| - 1] in index && v in index && index[ps[|ps| - 1]] < index[v] then 1 else 0)
  }

  lemma {:induction false} ForwardCountBounds(index: Index, ps: seq<Label>, v: Label, u: Label, w: Label)
    requires u in index && w in index && v in index && index[u] < index[v] && index[w] < index[v]
    ensures u in ps ==> ForwardCount(index, ps, v) >= multiset(ps)[u]
    ensures u in ps && w in ps && u != w ==> ForwardCount(index, ps, v) >= 2
  {
    if ps != [] {
      var init, last := ps[..|ps| - 1], ps[|ps| - 1];
      assert ps == init + [last];
      ForwardCountBounds(index, init, v, u, w);
      if u in init {
        assert multiset(init)[u] > 0;
      }
      if w in init {
        ForwardCountBounds(index, init, v, w, u);
        assert multiset(init)[w] > 0;
      }
    }
  }

  /** Does `a` dominate `b` according to the tree? */
  method TreeDominates(index: Index, idom: Idom, a: Label, b0: Label) returns (r: bool)
    requires Forest(index, idom) && Total(idom) && b0 in idom
    ensures b0 in index && (r <==> IsAnc(index, idom, a, b0))
  {
    Up(index, idom, b0);
    var b := b0;
    while true
      invariant b in idom && b in index && (IsAnc(index, idom, a, b) <==> IsAnc(index, idom, a, b0))
      decreases index[b]
    {
      Up(index, idom, b);
      if a == b { return true; }
      if idom[b] == b { return false; }
      b := idom[b];
    }
  }

  /** A retreating edge from `u` to `v` has been seen to be a back edge, and `v` noted as a header. */
  ghost predicate Classified(index: Index, d: Idom, v: Label, u: Label, headers: set<Label>)
    requires Forest(index, d)
  {
    u in index && v in index && index[v] <= index[u] ==> IsAnc(index, d, v, u) && v in headers
  }

  /** The in-edges of one node. */
  method ClassifyNode(index: Index, idom: Idom, ps: seq<Label>, v: Label, before: set<Label>)
    returns (headers: set<Label>, forwardIn: nat, bad: Option<Label>)
    requires Forest(index, idom) && Total(idom) && v in index && forall u :: u in ps ==> u in idom && u in index
    ensures before <= headers <= before + {v}
    ensures bad.Some? ==>
        bad.value in ps && bad.value in index && index[v] <= index[bad.value] && !IsAnc(index, idom, v, bad.value)
    ensures bad.None? ==> forwardIn == ForwardCount(index, ps, v) && forall u ::
        u in ps ==> Classified(index, idom, v, u, headers)
  {
    headers, forwardIn, bad := before, 0, None;
    for i := 0 to |ps|
      invariant before <= headers <= before + {v} && bad.None?
      invariant forwardIn == ForwardCount(index, ps[..i], v)
      invariant forall k :: 0 <= k < i ==> Classified(index, idom, v, ps[k], headers)
    {
      assert ps[..i + 1][..i] == ps[..i];
      assert ps[i] in ps;
      if index[v] <= index[ps[i]] {
        var dominates := TreeDominates(index, idom, v, ps[i]);
        if !dominates {
          bad := Some(ps[i]);
          return;
        }
        headers := headers + {v};
      } else {
        forwardIn := forwardIn + 1;
      }
    }
    assert ps[..|ps|] == ps;
  }

  ghost predicate NodeClassified(index: Index, d: Idom, preds: map<Label, seq<Label>>, v: Label, headers: set<Label>,
                                 forwardIn: map<Label, nat>)
    requires Forest(index, d)
  {
    v in preds ==>
      && v in forwardIn && forwardIn[v] == ForwardCount(index, preds[v], v)
      && forall u :: u in preds[v] ==> Classified(index, d, v, u, headers)
  }

  datatype Classes =
    | Classes(headers: set<Label>, forwardIn: map<Label, nat>)
    | SecondEntry(loop: Label, from: Label)

  method Classify(index: Index, idom: Idom, preds: map<Label, seq<Label>>, rpo: seq<Label>) returns (c: Classes)
    requires Forest(index, idom) && Total(idom) && (forall v :: v in rpo ==> v in index && v in preds)
    requires PredsKnown(index, idom, preds)
    ensures c.SecondEntry? ==>
              && c.loop in index && c.from in index && c.loop in preds && c.from in preds[c.loop]
              && index[c.loop] <= index[c.from] && !IsAnc(index, idom, c.loop, c.from)
    ensures c.Classes? ==> c.headers <= index.Keys && forall v :: v in c.forwardIn ==> v in rpo
    ensures c.Classes? ==> forall v :: v in rpo ==> NodeClassified(index, idom, preds, v, c.headers, c.forwardIn)
  {
    var headers: set<Label> := {};
    var forwardIn: map<Label, nat> := map[];
    for i := 0 to |rpo|
      invariant headers <= index.Keys
      invariant forall v :: v in forwardIn ==> v in rpo
      invariant forall k :: 0 <= k < i ==> NodeClassified(index, idom, preds, rpo[k], headers, forwardIn)
    {
      var v := rpo[i];
      assert v in rpo && v in index.Keys;
      var headers', count, bad := ClassifyNode(index, idom, preds[v], v, headers);
      if bad.Some? {
        return SecondEntry(v, bad.value);
      }
      forall k | 0 <= k < i
        ensures NodeClassified(index, idom, preds, rpo[k], headers', forwardIn[v := count])
      {
        KeepClassified(index, idom, preds, rpo[k], headers, forwardIn, headers', v, count);
      }
      headers, forwardIn := headers', forwardIn[v := count];
    }
    c := Classes(headers, forwardIn);
  }

  ghost predicate PredsKnown(index: Index, idom: Idom, preds: map<Label, seq<Label>>) {
    forall v, u :: v in preds && u in preds[v] ==> u in idom && u in index
  }

  lemma KeepClassified(index: Index, d: Idom, preds: map<Label, seq<Label>>, w: Label,
                       headers: set<Label>, forwardIn: map<Label, nat>, headers': set<Label>, v: Label, count: nat)
    requires Forest(index, d) && NodeClassified(index, d, preds, w, headers, forwardIn)
    requires headers <= headers' && (v in preds ==> count == ForwardCount(index, preds[v], v))
    ensures NodeClassified(index, d, preds, w, headers', forwardIn[v := count])
  {
    hide Forest, IsAnc, ForwardCount;
    if w in preds {
      forall u | u in preds[w]
        ensures Classified(index, d, w, u, headers')
      {
        assert Classified(index, d, w, u, headers);
      }
    }
  }

  // ----- dominator-tree children -----

  /** The children of `v` among the nodes numbered 1 to `i - 1`, in order. */
  function ChildList(d: Idom, rpo: seq<Label>, i: nat, v: Label): seq<Label>
    requires i <= |rpo|
  {
    if i <= 1 then []
    else ChildList(d, rpo, i - 1, v) + (if rpo[i - 1] in d && d[rpo[i - 1]] == v then [rpo[i - 1]] else [])
  }

  method CollectChildren(idom: Idom, rpo: seq<Label>) returns (children: map<Label, seq<Label>>)
    requires rpo != [] && forall l :: l in rpo ==> l in idom && idom[l] in rpo
    ensures forall v :: v in children <==> v in rpo
    ensures forall v :: v in children ==> children[v] == ChildList(idom, rpo, |rpo|, v)
  {
    children := map l | l in rpo :: [];
    ghost var keys := children.Keys;
    for i := 1 to |rpo|
      invariant children.Keys == keys
      invariant forall v :: v in children ==> children[v] == ChildList(idom, rpo, i, v)
    {
      var l := rpo[i];
      assert l in rpo;
      assert idom[l] in keys;
      children := children[idom[l] := children[idom[l]] + [l]];
    }
  }

  lemma {:induction false} ChildListCounts(d: Idom, rpo: seq<Label>, index: Index, i: nat, v: Label, y: Label)
    requires i <= |rpo| && Indexed(rpo, index)
    ensures multiset(ChildList(d, rpo, i, v))[y] ==
            if y in index && 0 < index[y] < i && y in d && d[y] == v then 1 else 0
  {
    if i > 1 {
      ChildListCounts(d, rpo, index, i - 1, v, y);
    }
  }

  // ----- putting it together -----

  /** The merge nodes: two or more forward in-edges. */
  function MergeNodes(forwardIn: map<Label, nat>): set<Label> {
    set l | l in forwardIn && forwardIn[l] >= 2
  }

  lemma PlanIsOk(n: Numbering, d: Idom, pl: Plan)
    requires Valid(n) && IsDominatorTree(n, d) && EdgesMatch(n, pl) && ChildrenOk(n, d, pl)
    requires pl.size == |n.rpo|
    requires forall l :: l in pl.blocks ==>
               pl.blocks[l].Terminator().Some? && pl.blocks[l].HasCondition()
    ensures PlanOk(pl)
  {
    hide Valid, IsDominatorTree, ChildrenOk, EdgesMatch, BasicBlock.Terminator, BasicBlock.Successors;
    SamePlanIndex(n, pl);
    forall v
      ensures BlockOk(pl, v)
    {
      if v in pl.index {
        PlanBlock(n, d, pl, v);
      }
    }
    forall v, y
      ensures ChildOk(pl, v, y)
    {
      if v in pl.index && v in pl.children && y in pl.children[v] {
        ChildFact(n, d, pl, v, y);
        DomTreeForest(n, d);
        Up(n.index, d, y);
      }
    }
  }

  lemma DomTreeForest(n: Numbering, d: Idom)
    requires IsDominatorTree(n, d)
    ensures Forest(n.index, d) && Total(d) && d.Keys == n.index.Keys
  {
    hide Forest, Total, Dominates;
  }

  lemma SamePlanIndex(n: Numbering, pl: Plan)
    requires EdgesMatch(n, pl)
    ensures pl.index == n.index
  {}

  lemma PlanBlock(n: Numbering, d: Idom, pl: Plan, v: Label)
    requires Valid(n) && EdgesMatch(n, pl) && ChildrenOk(n, d, pl) && v in n.index && pl.size == |n.rpo|
    ensures pl.index == n.index && n.index[v] < pl.size && v in pl.blocks && v in pl.children
    ensures forall t :: t in pl.blocks[v].Successors() ==> t in pl.index
  {
    hide Valid, Reachable, BasicBlock.Successors;
    IndexBelow(n, v);
    ChildFact(n, d, pl, v, v);
    assert BlockMatches(n, pl, v);
    Numbered(n, v);
    EntryClosed(n);
    forall t | t in pl.blocks[v].Successors()
      ensures t in pl.index
    {
      assert Edge(n.g, v, t);
      EdgeReachable(n.g, v, t);
      Numbered(n, t);
    }
  }

  lemma RetreatsFrom(n: Numbering, d: Idom, pl: Plan, forwardIn: map<Label, nat>)
    requires Valid(n) && IsDominatorTree(n, d) && Forest(n.index, d) && pl.index == n.index
    requires forall v :: v in n.rpo ==> NodeClassified(n.index, d, n.preds, v, pl.headers, forwardIn)
    ensures RetreatsOk(n, d, pl)
  {
    hide Valid, Forest, IsDominatorTree, ForwardCount;
    forall u, v
      ensures RetreatOk(n, d, pl, u, v)
    {
      if RetreatingEdge(n, u, v) {
        IndexBelow(n, v);
        assert v in n.rpo;
        PredsHas(n, v);
        PredIsEdge(n, v, u);
        assert Classified(n.index, d, v, u, pl.headers);
      }
    }
  }

  lemma PredsHas(n: Numbering, v: Label)
    requires Valid(n) && v in n.index
    ensures v in n.preds
  {
    hide IsReversePostorder, Indexed, Closed;
  }

  lemma MergesFrom(n: Numbering, d: Idom, pl: Plan, forwardIn: map<Label, nat>)
    requires Valid(n) && Forest(n.index, d) && pl.index == n.index && pl.merges == MergeNodes(forwardIn)
    requires forall v :: v in n.rpo ==> NodeClassified(n.index, d, n.preds, v, pl.headers, forwardIn)
    requires forall v :: v in forwardIn ==> v in n.rpo
    requires forall v, u :: v in n.preds && v in n.index && u in n.index && u in n.g.succ ==>
        multiset(n.preds[v])[u] == multiset(n.g.succ[u])[v]
    ensures MergesOk(n, pl)
  {
    hide Valid, Forest, Classified;
    forall u, w, v
      ensures OneForward(n, pl, u, w, v)
    {
      if v !in pl.merges && ForwardEdge(n, u, v) && ForwardEdge(n, w, v) && u != w {
        ForwardMembers(n, d, pl, forwardIn, u, v);
        ForwardMembers(n, d, pl, forwardIn, w, v);
        ForwardCountBounds(n.index, n.preds[v], v, u, w);
      }
    }
    forall u, v
      ensures NotTwice(n, pl, u, v)
    {
      if ForwardEdge(n, u, v) && n.g.succ[u] == [v, v] {
        ForwardMembers(n, d, pl, forwardIn, u, v);
        assert multiset(n.g.succ[u])[v] == 2;
        ForwardCountBounds(n.index, n.preds[v], v, u, u);
      }
    }
    forall v
      ensures MergeNumbered(n, pl, v)
    {
      if v in pl.merges {
        MergeIsNumbered(n, d, pl, forwardIn, v);
      }
    }
  }

  lemma ForwardMembers(n: Numbering, d: Idom, pl: Plan, forwardIn: map<Label, nat>, u: Label, v: Label)
    requires Valid(n) && Forest(n.index, d) && ForwardEdge(n, u, v)
    requires forall v :: v in n.rpo ==> NodeClassified(n.index, d, n.preds, v, pl.headers, forwardIn)
    ensures v in n.preds && u in n.preds[v] && v in forwardIn && forwardIn[v] == ForwardCount(n.index, n.preds[v], v)
  {
    hide Valid, Forest, Classified, ForwardCount;
    IndexBelow(n, v);
    assert v in n.rpo;
    PredsHas(n, v);
    PredIsEdge(n, v, u);
  }

  lemma MergeIsNumbered(n: Numbering, d: Idom, pl: Plan, forwardIn: map<Label, nat>, v: Label)
    requires Valid(n) && Forest(n.index, d) && v in n.rpo && v in forwardIn && forwardIn[v] >= 2
    requires NodeClassified(n.index, d, n.preds, v, pl.headers, forwardIn)
    ensures v in n.index && n.index[v] > 0
  {
    hide Valid, Forest, Classified;
    var i :| 0 <= i < |n.rpo| && n.rpo[i] == v;
    IndexAt(n, i);
    PredsHas(n, v);
    if n.index[v] == 0 {
      NoForward(n.index, n.preds[v], v);
    }
  }

  lemma {:induction false} NoForward(index: Index, ps: seq<Label>, v: Label)
    requires v in index && index[v] == 0
    ensures ForwardCount(index, ps, v) == 0
  {
    if ps != [] {
      NoForward(index, ps[..|ps| - 1], v);
    }
  }

  lemma ChildrenFrom(n: Numbering, d: Idom, pl: Plan)
    requires Valid(n) && pl.index == n.index && n.rpo != []
    requires forall v :: v in pl.children <==> v in n.rpo
    requires forall v :: v in pl.children ==> pl.children[v] == ChildList(d, n.rpo, |n.rpo|, v)
    ensures ChildrenOk(n, d, pl)
  {
    IndexedOf(n);
    hide Valid, Indexed, ChildList, NoDuplicates;
    forall v, y
      ensures ChildIff(n, d, pl, v, y)
    {
      if v in n.index {
        IndexBelow(n, v);
        assert v in n.rpo;
        forall z
          ensures multiset(pl.children[v])[z] <= 1
        {
          ChildListCounts(d, n.rpo, n.index, |n.rpo|, v, z);
        }
        OnceEach(pl.children[v]);
        ChildListCounts(d, n.rpo, n.index, |n.rpo|, v, y);
        if y in n.index {
          IndexBelow(n, y);
        }
        assert y in pl.children[v] <==> multiset(pl.children[v])[y] > 0;
      }
    }
  }

  lemma IndexedOf(n: Numbering)
    requires Valid(n)
    ensures Indexed(n.rpo, n.index)
  {
    hide IsReversePostorder, PredsOf, Closed, Indexed;
  }

  // ----- what the pass promises -----

  function FlowFrom(f: Function, oracle: Oracle, k: nat): FlowState
    requires f.blocks != []
  {
    FlowRun(BlockMap(f.blocks), oracle, At(f.blocks[0].id, []), k)
  }

  function RunFrom(nodes: seq<Node>, oracle: Oracle, k: nat): RunState {
    Run(oracle, Running(nodes, [], []), k)
  }

  /** Same blocks so far, and finished alike with the same return. */
  predicate Agree(f: FlowState, s: RunState) {
    && !f.Lost? && !s.Trapped? && f.trace == s.trace
    && (f.Finished? <==> s.Returned?) && (f.Finished? ==> f.ret == s.ret)
  }

  /** After `k` blocks of the graph the structured code is at the same place; after
      `k` of its own steps it has run a prefix of the same blocks, has not fallen
      out of its constructs, and if it returned the graph returned the same way. */
  ghost predicate SameRun(f: Function, nodes: seq<Node>, oracle: Oracle, k: nat)
    requires f.blocks != []
  {
    && (exists j :: Agree(FlowFrom(f, oracle, k), RunFrom(nodes, oracle, j)))
    && !RunFrom(nodes, oracle, k).Trapped?
    && RunFrom(nodes, oracle, k).trace <= FlowFrom(f, oracle, k).trace
    && (RunFrom(nodes, oracle, k).Returned? ==> Agree(FlowFrom(f, oracle, k), RunFrom(nodes, oracle, k)))
  }

  lemma MatchesAgree(d: Idom, pl: Plan, f: FlowState, s: RunState)
    requires PlanOk(pl) && Forest(pl.index, d) && Matches(d, pl, f, s)
    ensures Agree(f, s)
  {
    hide PlanOk, Forest, NodeWithin, Inside, MergeChildren;
  }

  /** A machine that agrees with the graph after enough steps was right all along. */
  lemma EarlierSteps(f: FlowState, nodes: seq<Node>, oracle: Oracle, k: nat, j: nat)
    requires Agree(f, RunFrom(nodes, oracle, j)) && (j >= k || f.Finished?)
    ensures !RunFrom(nodes, oracle, k).Trapped? && RunFrom(nodes, oracle, k).trace <= f.trace
    ensures RunFrom(nodes, oracle, k).Returned? ==> Agree(f, RunFrom(nodes, oracle, k))
  {
    var s := Running(nodes, [], []);
    if j >= k {
      RunJoin(oracle, s, k, j - k);
      RunTrace(oracle, Run(oracle, s, k), j - k);
      if !Run(oracle, s, k).Running? {
        RunStays(oracle, Run(oracle, s, k), j - k);
      }
    } else {
      RunJoin(oracle, s, j, k - j);
      RunStays(oracle, Run(oracle, s, j), k - j);
    }
  }

  /** Enough machine steps to agree with `k` blocks of the graph. */
  lemma TreeFollows(n: Numbering, d: Idom, pl: Plan, e: Label, oracle: Oracle, k: nat) returns (j: nat)
    requires PlanOk(pl) && Forest(pl.index, d) && e in pl.index && pl.index[e] == 0
    requires Planned(n, d, pl)
    ensures var fk := FlowRun(pl.blocks, oracle, At(e, []), k);
            Agree(fk, RunFrom(DoTree(pl, e), oracle, j)) && (j >= k || fk.Finished?)
  {
    hide Planned, PlanOk, Forest, DoTree, Matches, Run, FlowRun, Agree, Here, Fit;
    var s := Running(DoTree(pl, e), [], []);
    EntryFits(d, pl, e);
    var i := EnterTree(d, pl, e, oracle, s);
    MatchesAt(d, pl, e, Run(oracle, s, i));
    var m := FollowFlow(n, d, pl, oracle, At(e, []), Run(oracle, s, i), k);
    j := i + m;
    RunJoin(oracle, s, i, m);
    MatchesAgree(d, pl, FlowRun(pl.blocks, oracle, At(e, []), k), Run(oracle, s, j));
  }

  lemma TreeRuns(n: Numbering, d: Idom, pl: Plan, f: Function, oracle: Oracle, k: nat)
    requires PlanOk(pl) && f.blocks != [] && f.blocks[0].id in pl.index && pl.index[f.blocks[0].id] == 0
    requires pl.blocks == BlockMap(f.blocks)
    requires Forest(pl.index, d) && Planned(n, d, pl)
    ensures SameRun(f, DoTree(pl, f.blocks[0].id), oracle, k)
  {
    hide Planned, PlanOk, Forest, DoTree, Run, FlowRun, Agree;
    var e := f.blocks[0].id;
    var j := TreeFollows(n, d, pl, e, oracle, k);
    EarlierSteps(FlowFrom(f, oracle, k), DoTree(pl, e), oracle, k, j);
  }

  lemma MatchesAt(d: Idom, pl: Plan, e: Label, s: RunState)
    requires PlanOk(pl) && Forest(pl.index, d) && Here(d, pl, e, s) && s.trace == []
    ensures Matches(d, pl, At(e, []), s)
  {
    hide PlanOk, Forest, Here;
  }

  lemma EntryFits(d: Idom, pl: Plan, e: Label)
    requires PlanOk(pl) && Forest(pl.index, d) && e in pl.index && pl.index[e] == 0
    ensures Fit(d, pl, e, [])
  {
    hide PlanOk, Forest, LoopReady, BlockReady;
  }

  lemma TreeShape(n: Numbering, d: Idom, pl: Plan, l: Label)
    requires PlanOk(pl) && n.g.entry in pl.index
    requires Forest(pl.index, d) && Planned(n, d, pl)
    ensures Scoped(DoTree(pl, n.g.entry), {}, {})
    ensures Emitted(DoTree(pl, n.g.entry), l) == if Reachable(n.g, l) then 1 else 0
  {
    SameIndex(n, d, pl);
    hide Planned, PlanOk, Forest, Valid, IsDominatorTree, ChildrenOk, MergesOk, DoTree, Reachable;
    var e := n.g.entry;
    Numbered(n, e);
    Numbered(n, l);
    TreeEmits(n, d, pl, e, l);
    if l in n.index {
      AncIsDom(n, d, e, l);
      EntryDominates(n.g, l);
    }
    EntryInScope(d, pl, e);
    TreeScoped(n, d, pl, e, {}, {});
  }

  lemma EntryDominates(g: Graph, l: Label)
    ensures Dominates(g, g.entry, l)
  {
    forall p | Connects(g, g.entry, p, l)
      ensures g.entry in p
    {
      assert p[0] in p;
    }
  }

  lemma EntryInScope(d: Idom, pl: Plan, e: Label)
    requires Forest(pl.index, d) && e in pl.index && pl.index[e] == 0
    ensures InScope(d, pl, e, {}, {})
  {
    hide Forest;
  }

  lemma OrderFacts(g: Graph, rpo: seq<Label>, tree: map<Label, seq<Label>>)
    requires Closed(g) && IsReversePostorder(g, rpo, tree)
    ensures NoDuplicates(rpo) && rpo != [] && rpo[0] == g.entry
    ensures forall u :: u in rpo ==> u in g.succ
    ensures forall u, v :: u in rpo && u in g.succ && v in g.succ[u] ==> v in rpo
  {
    hide TreePaths, NoDuplicates, TreeForward, RetreatsToAncestor;
    forall u | u in rpo
      ensures u in g.succ
    {
      var p :| Connects(g, g.entry, p, u);
    }
    forall u, v | u in rpo && u in g.succ && v in g.succ[u]
      ensures v in rpo
    {
      assert Edge(g, u, v);
      EdgeReachable(g, u, v);
    }
  }

  lemma TreeFacts(n: Numbering, d: Idom)
    requires Valid(n) && IsDominatorTree(n, d)
    ensures Forest(n.index, d) && Total(d)
    ensures forall v :: v in n.rpo ==> v in n.index && v in n.preds && v in d && d[v] in n.rpo
    ensures (forall v :: v in n.preds ==> v in n.index) ==> PredsKnown(n.index, d, n.preds)
  {
    hide Valid, Forest, Total, IsDominatorTree;
    DomTreeForest(n, d);
    forall v | v in n.rpo
      ensures v in n.index && v in n.preds && v in d && d[v] in n.rpo
    {
      var i :| 0 <= i < |n.rpo| && n.rpo[i] == v;
      IndexAt(n, i);
      PredsHas(n, v);
      assert v in d.Keys;
      Up(n.index, d, v);
      IndexBelow(n, d[v]);
    }
    forall v, u | v in n.preds && v in n.index && u in n.preds[v]
      ensures u in d && u in n.index
    {
      PredIsEdge(n, v, u);
      assert u in d.Keys;
    }
  }

  /** The edge from `from` closes a cycle through `loop`, does not go forward in a reverse postorder,
      and `from` can be reached without passing `loop`. */
  ghost predicate IsSecondEntry(g: Graph, loop: Label, from: Label) {
    && Edge(g, from, loop) && Reachable(g, from) && !Dominates(g, loop, from)
    && (exists c :: IsCycle(g, c) && loop in c && from in c)
    && exists n: Numbering :: RetreatingEdge(n, from, loop) && Valid(n) && n.g == g
  }

  ghost predicate EntersLate(n: Numbering, d: Idom, v: Label, u: Label) {
    && v in n.index && u in n.index && v in n.preds && u in n.preds[v] && n.index[v] <= n.index[u]
    && Forest(n.index, d) && !IsAnc(n.index, d, v, u)
  }

  lemma SecondEntryFound(n: Numbering, d: Idom, v: Label, u: Label)
    requires EntersLate(n, d, v, u)
    requires Valid(n) && IsDominatorTree(n, d)
    ensures !Reducible(n.g) && IsSecondEntry(n.g, v, u)
  {
    hide Valid, Forest, IsDominatorTree, Reducible, Reachable, Dominates, IsCycle, IsAnc;
    PredIsEdge(n, v, u);
    AncIsDom(n, d, v, u);
    BadRetreat(n, u, v);
    Numbered(n, u);
    var j, c := RetreatCycle(n, u, v);
  }

  lemma NoSecondEntry(n: Numbering, d: Idom, pl: Plan)
    requires Valid(n) && IsDominatorTree(n, d) && Forest(n.index, d) && RetreatsOk(n, d, pl)
    ensures Reducible(n.g)
  {
    hide Valid, Forest, IsDominatorTree, Reducible;
    forall u, v
      ensures BackEdge(n, u, v)
    {
      assert RetreatOk(n, d, pl, u, v);
      if RetreatingEdge(n, u, v) {
        AncIsDom(n, d, v, u);
      }
    }
    AllBackEdges(n);
  }

  lemma PlanMatches(n: Numbering, f: Function, pl: Plan)
    requires f.GoodCfg() && n.g == GraphOf(f) && Valid(n) && pl.index == n.index && pl.blocks == BlockMap(f.blocks)
    ensures EdgesMatch(n, pl)
  {
    FunctionGraph(f);
    hide Valid, Function.GoodCfg, BlockMap, Closed, Reachable;
    forall v
      ensures BlockMatches(n, pl, v)
    {
      if v in n.index {
        InGraph(n, v);
      }
    }
  }

  lemma InGraph(n: Numbering, v: Label)
    requires Valid(n) && v in n.index
    ensures v in n.g.succ
  {
    hide Valid;
    Numbered(n, v);
    var p :| Connects(n.g, n.g.entry, p, v);
  }

  lemma PlanBuilt(n: Numbering, d: Idom, pl: Plan, forwardIn: map<Label, nat>, f: Function)
    requires f.blocks != [] && n.g == GraphOf(f) && Forest(n.index, d)
    requires pl.index == n.index && pl.size == |n.rpo| && pl.blocks == BlockMap(f.blocks)
        && pl.merges == MergeNodes(forwardIn)
    requires forall v :: v in n.rpo ==> NodeClassified(n.index, d, n.preds, v, pl.headers, forwardIn)
    requires forall v :: v in forwardIn ==> v in n.rpo
    requires forall u :: u in n.rpo ==> u in n.g.succ
    requires forall v :: v in n.preds ==> v in n.rpo && n.preds[v] == PredList(n.g.succ, n.rpo, |n.rpo|, v)
    requires forall v :: v in pl.children <==> v in n.rpo
    requires forall v :: v in pl.children ==> pl.children[v] == ChildList(d, n.rpo, |n.rpo|, v)
    requires f.GoodCfg() && f.ConditionsGiven() && Valid(n) && IsDominatorTree(n, d)
    ensures Planned(n, d, pl) && PlanOk(pl) && Reducible(n.g) && n.g.entry in pl.index
  {
    hide Valid, Function.GoodCfg, BlockMap, IsDominatorTree, Forest, NodeClassified, PredList, ChildList, Reducible,
         PlanOk, ChildrenOk, EdgesMatch, MergesOk, RetreatsOk, MergeNodes, BasicBlock.Terminator,
         BasicBlock.HasCondition, Function.ConditionsGiven;
    FunctionGraph(f);
    ConditionsOf(f);
    PlanMatches(n, f, pl);
    RpoNonEmpty(n);
    ChildrenFrom(n, d, pl);
    PlanIsOk(n, d, pl);
    RetreatsFrom(n, d, pl, forwardIn);
    PredCounts(n);
    MergesFrom(n, d, pl, forwardIn);
    NoSecondEntry(n, d, pl);
    EntryReachable'(n);
  }

  lemma ConditionsOf(f: Function)
    requires f.ConditionsGiven()
    ensures forall l :: l in BlockMap(f.blocks) ==> BlockMap(f.blocks)[l].HasCondition()
  {
    hide BlockMap, BasicBlock.HasCondition;
    forall l | l in BlockMap(f.blocks) ensures BlockMap(f.blocks)[l].HasCondition() { BlockMapHas(f.blocks, l); }
  }

  lemma PredCounts(n: Numbering)
    requires Valid(n) && forall v :: v in n.preds ==> v in n.rpo
    requires forall u :: u in n.rpo ==> u in n.g.succ
    requires forall v :: v in n.preds ==> n.preds[v] == PredList(n.g.succ, n.rpo, |n.rpo|, v)
    ensures forall v, u :: v in n.preds && v in n.index && u in n.index && u in n.g.succ ==>
              multiset(n.preds[v])[u] == multiset(n.g.succ[u])[v]
  {
    IndexedOf(n);
    hide Valid, Indexed, PredList;
    forall v, u | v in n.preds && v in n.index && u in n.index && u in n.g.succ
      ensures multiset(n.preds[v])[u] == multiset(n.g.succ[u])[v]
    {
      PredListCounts(n.g.succ, n.rpo, n.index, |n.rpo|, v, u);
      IndexBelow(n, u);
    }
  }

  /** The plan `pl` for `f` is in order. */
  ghost predicate GoodPlan(f: Function, n: Numbering, d: Idom, pl: Plan) {
    && f.blocks != [] && n.g == GraphOf(f) && PlanOk(pl) && Forest(pl.index, d) && Planned(n, d, pl)
    && n.g.entry in pl.index && pl.index[n.g.entry] == 0
    && pl.blocks == BlockMap(f.blocks) && Reducible(n.g)
  }

  datatype Planning = Ready'(pl: Plan, entry: Label) | Rejected(loop: Label, from: Label)

  /** The numbering of the blocks and their predecessors with multiplicity. */
  ghost predicate NumberedGraph(f: Function, n: Numbering)
    requires f.blocks != []
  {
    && n.g == GraphOf(f) && Valid(n) && n.rpo != []
    && (forall u :: u in n.rpo ==> u in n.g.succ)
    && (forall v :: v in n.preds ==> v in n.rpo && n.preds[v] == PredList(n.g.succ, n.rpo, |n.rpo|, v))
  }

  method NumberGraph(f: Function, g: Graph)
    returns (rpo: seq<Label>, index: Index, preds: map<Label, seq<Label>>, ghost n: Numbering)
    requires f.GoodCfg() && g == GraphOf(f)
    ensures n.rpo == rpo && n.index == index && n.preds == preds && NumberedGraph(f, n)
  {
    hide Function.GoodCfg, Closed, IsReversePostorder, BlockMap, PredList, PredsOf, Indexed, GraphOf, NoDuplicates,
         Valid;
    GraphClosed(f);
    ghost var tree;
    rpo, tree := Compute(g);
    OrderFacts(g, rpo, tree);
    index := NumberBlocks(rpo);
    preds := CollectPreds(g.succ, rpo);
    n := Numbering(g, rpo, tree, index, preds);
    NumberingValid(g, rpo, tree, index, preds, n);
  }

  lemma GraphClosed(f: Function)
    requires f.GoodCfg()
    ensures f.blocks != [] && Closed(GraphOf(f))
  {
    FunctionGraph(f);
  }

  lemma NumberingValid(g: Graph, rpo: seq<Label>, tree: map<Label, seq<Label>>, index: Index,
                       preds: map<Label, seq<Label>>, n: Numbering)
    requires Closed(g) && IsReversePostorder(g, rpo, tree) && Indexed(rpo, index)
    requires n == Numbering(g, rpo, tree, index, preds)
    requires forall u :: u in rpo ==> u in g.succ
    requires forall v :: v in preds <==> v in rpo
    requires forall v :: v in preds ==> preds[v] == PredList(g.succ, rpo, |rpo|, v)
    ensures Valid(n)
  {
    hide PredList, PredsOf, IsReversePostorder, Closed;
    PredListIs(g, rpo, index, preds);
    hide Indexed;
  }

  /** Every edge classified: headers and forward in-edges are right, and no loop has a second entry. */
  ghost predicate AllClassified(n: Numbering, d: Idom, headers: set<Label>, forwardIn: map<Label, nat>) {
    && Forest(n.index, d)
    && (forall v :: v in n.rpo ==> NodeClassified(n.index, d, n.preds, v, headers, forwardIn))
    && forall v :: v in forwardIn ==> v in n.rpo
  }

  ghost predicate RightClasses(n: Numbering, d: Idom, c: Classes) {
    match c
    case Classes(headers, forwardIn) => AllClassified(n, d, headers, forwardIn)
    case SecondEntry(loop, from) => EntersLate(n, d, loop, from)
  }

  method ClassifyGraph(ghost f: Function, ghost n: Numbering, index: Index, idom: Idom, preds: map<Label, seq<Label>>,
                       rpo: seq<Label>) returns (c: Classes)
    requires f.blocks != [] && NumberedGraph(f, n) && n.rpo == rpo && n.index == index && n.preds == preds
    requires IsDominatorTree(n, idom)
    ensures RightClasses(n, idom, c)
  {
    hide BlockMap, Forest, NodeClassified, PredList, Valid, IsDominatorTree, SuccMap, Total, PredsKnown, IsAnc,
         ForwardCount, Indexed, GraphOf;
    TreeFacts(n, idom);
    PredsNumbered(n);
    c := Classify(index, idom, preds, rpo);
  }

  method PlanGraph(f: Function, ghost n: Numbering, index: Index, idom: Idom, rpo: seq<Label>,
                   blocks: map<Label, BasicBlock>, c: Classes) returns (pl: Plan)
    requires f.GoodCfg() && f.ConditionsGiven() && blocks == BlockMap(f.blocks) && c.Classes?
    requires f.blocks != [] && NumberedGraph(f, n) && n.rpo == rpo && n.index == index
    requires IsDominatorTree(n, idom) && AllClassified(n, idom, c.headers, c.forwardIn)
    ensures GoodPlan(f, n, idom, pl)
  {
    hide Function.GoodCfg, Reducible, BlockMap, Forest, NodeClassified, PlanOk, Planned, PredList, ChildList,
         MergeNodes, Valid, IsDominatorTree, SuccMap, Total, PredsKnown, Function.ConditionsGiven, IsAnc, ForwardCount,
         Indexed, GraphOf;
    TreeFacts(n, idom);
    var children := CollectChildren(idom, rpo);
    pl := Plan(|rpo|, index, blocks, c.headers, MergeNodes(c.forwardIn), children);
    PlanBuilt(n, idom, pl, c.forwardIn, f);
    Numbered(n, n.g.entry);
  }

  /** Find the dominators and classify the edges. */
  method MakePlan(f: Function) returns (p: Planning, ghost n: Numbering, ghost d: Idom)
    requires f.GoodCfg() && f.ConditionsGiven()
    ensures p.Rejected? ==> !Reducible(GraphOf(f)) && IsSecondEntry(GraphOf(f), p.loop, p.from)
    ensures p.Ready'? ==> GoodPlan(f, n, d, p.pl) && p.entry == f.blocks[0].id
  {
    hide Function.GoodCfg, Reducible, BlockMap, GoodPlan, Valid, IsDominatorTree, SuccMap, IsSecondEntry, PredList,
         Function.ConditionsGiven, BackEdges, AllClassified, EntersLate;
    HasBlocks(f);
    var blocks := BlockMap(f.blocks);
    var g := Graph(f.blocks[0].id, SuccMap(blocks));
    var rpo, index, preds;
    rpo, index, preds, n := NumberGraph(f, g);
    var idom, passes := Immediate(n, rpo, index, preds);
    d := idom;
    var classes := ClassifyGraph(f, n, index, idom, preds, rpo);
    if classes.SecondEntry? {
      SecondEntryFound(n, idom, classes.loop, classes.from);
      p := Rejected(classes.loop, classes.from);
    } else {
      var pl := PlanGraph(f, n, index, idom, rpo, blocks, classes);
      p := Ready'(pl, f.blocks[0].id);
    }
  }

  lemma HasBlocks(f: Function)
    requires f.GoodCfg()
    ensures f.blocks != []
  {}

  lemma PredsNumbered(n: Numbering)
    requires Valid(n) && forall v :: v in n.preds ==> v in n.rpo
    ensures forall v :: v in n.preds ==> v in n.index
  {
    hide Valid;
    forall v | v in n.preds
      ensures v in n.index
    {
      var i :| 0 <= i < |n.rpo| && n.rpo[i] == v;
      IndexAt(n, i);
    }
  }

  lemma GoodPlanTree(f: Function, n: Numbering, d: Idom, pl: Plan)
    requires GoodPlan(f, n, d, pl)
    ensures f.blocks != [] && Reducible(GraphOf(f)) && PlanOk(pl) && f.blocks[0].id in pl.index
    ensures forall oracle: Oracle, k: nat :: SameRun(f, DoTree(pl, f.blocks[0].id), oracle, k)
    ensures Scoped(DoTree(pl, f.blocks[0].id), {}, {})
    ensures forall l :: Emitted(DoTree(pl, f.blocks[0].id), l) == if Reachable(GraphOf(f), l) then 1 else 0
  {
    hide Planned, PlanOk, Forest, DoTree, BlockMap, Reducible, Reachable, SameRun;
    var e := f.blocks[0].id;
    forall oracle: Oracle, k: nat
      ensures SameRun(f, DoTree(pl, e), oracle, k)
    {
      TreeRuns(n, d, pl, f, oracle, k);
    }
    forall l
      ensures Emitted(DoTree(pl, e), l) == (if Reachable(GraphOf(f), l) then 1 else 0)
    {
      TreeShape(n, d, pl, l);
    }
    TreeShape(n, d, pl, e);
  }

  /** The CFG as nested regions, or the loop that has a second entry. */
  method Structure(f: Function) returns (r: Result)
    requires f.GoodCfg() && f.ConditionsGiven()
    ensures r.Irreducible? <==> !Reducible(GraphOf(f))
    ensures r.Irreducible? ==> IsSecondEntry(GraphOf(f), r.loop, r.from)
    ensures r.Structured? ==> forall oracle: Oracle, k: nat :: SameRun(f, r.nodes, oracle, k)
    ensures r.Structured? ==> Scoped(r.nodes, {}, {})
    ensures r.Structured? ==> forall l :: Emitted(r.nodes, l) == if Reachable(GraphOf(f), l) then 1 else 0
  {
    hide Reducible, Reachable, GoodPlan, SameRun, Scoped, Emitted, DoTree, PlanOk, IsSecondEntry;
    var p, n, d := MakePlan(f);
    match p
    case Rejected(loop, from) =>
      r := Irreducible(loop, from);
    case Ready'(pl, entry) =>
      GoodPlanTree(f, n, d, pl);
      r := Structured(DoTree(pl, entry));
  }
}
