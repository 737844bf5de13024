/** Static facts about the structured code: every reachable block is emitted
    exactly once, and every branch lies inside the construct it names. */
module StructurerShape {
  import opened Cir
  import opened Graphs
  import opened DomTree
  import opened Dominators
  import opened Structurer
  import opened StructurerFacts
  import opened StructurerProof

  // ----- single emission -----

  /** How many times the code of block `l` occurs. */
  function Emitted(nodes: seq<Node>, l: Label): nat
    decreases nodes
  {
    if nodes == [] then 0 else EmittedIn(nodes[0], l) + Emitted(nodes[1..], l)
  }

  function EmittedIn(node: Node, l: Label): nat
    decreases node
  {
    match node
    case Block(_, body) => Emitted(body, l)
    case Loop(_, body) => Emitted(body, l)
    case Code(b) => if b.id == l then 1 else 0
    case If(_, thenNodes, elseNodes) => Emitted(thenNodes, l) + Emitted(elseNodes, l)
    case Branch(_, _) => 0
    case Return(_) => 0
  }

  lemma {:induction false} EmittedConcat(a: seq<Node>, b: seq<Node>, l: Label)
    ensures Emitted(a + b, l) == Emitted(a, l) + Emitted(b, l)
  {
    if a == [] {
      assert a + b == b;
    } else {
      EmittedConcat(a[1..], b, l);
      assert (a + b)[1..] == a[1..] + b;
    }
  }

  lemma EmittedOne(node: Node, l: Label)
    ensures Emitted([node], l) == EmittedIn(node, l)
  {
    assert [node][1..] == [];
    assert Emitted([], l) == 0;
  }

  /** 1 when `l` belongs to the region of `x`. */
  ghost function Owns(d: Idom, pl: Plan, x: Label, l: Label): nat
    requires Forest(pl.index, d)
  {
    if l in pl.index && IsAnc(pl.index, d, x, l) then 1 else 0
  }

  ghost function OwnsSum(d: Idom, pl: Plan, ys: seq<Label>, l: Label): nat
    requires Forest(pl.index, d)
  {
    if ys == [] then 0 else Owns(d, pl, ys[0], l) + OwnsSum(d, pl, ys[1..], l)
  }

  /** What a branch from `x` to `t` contributes: the region of `t` when it is inlined. */
  ghost function Inlined(d: Idom, pl: Plan, x: Label, t: Label, l: Label): nat
    requires Forest(pl.index, d)
  {
    if x in pl.index && t in pl.index && pl.index[t] > pl.index[x] && t !in pl.merges then Owns(d, pl, t, l) else 0
  }

  ghost function InlinedSum(d: Idom, pl: Plan, x: Label, ts: seq<Label>, l: Label): nat
    requires Forest(pl.index, d)
  {
    if ts == [] then 0 else Inlined(d, pl, x, ts[0], l) + InlinedSum(d, pl, x, ts[1..], l)
  }

  // ----- the sum over the children of a region -----

  /** The child of `x` whose region holds `l`. */
  lemma {:induction false} NextChild(d: Idom, pl: Plan, x: Label, l: Label) returns (c: Label)
    requires Forest(pl.index, d) && l in pl.index && x in pl.index && IsAnc(pl.index, d, x, l) && x != l
    ensures c in pl.index && c in d && d[c] == x && IsAnc(pl.index, d, c, l) && pl.index[x] < pl.index[c]
    decreases pl.index[l]
  {
    if d[l] == x {
      c := l;
    } else {
      c := NextChild(d, pl, x, d[l]);
    }
  }

  /** No two children of `x` both hold `l`. */
  lemma OneChild(d: Idom, pl: Plan, x: Label, l: Label, b: Label, c: Label)
    requires Forest(pl.index, d) && l in pl.index && x in pl.index
    requires b in d && d[b] == x && c in d && d[c] == x && pl.index[x] < pl.index[b] && pl.index[x] < pl.index[c]
    requires IsAnc(pl.index, d, b, l) && IsAnc(pl.index, d, c, l)
    ensures b == c
  {
    if b != c {
      if pl.index[b] <= pl.index[c] {
        AncChain(pl.index, d, b, c, l);
        AncLower(pl.index, d, b, x);
      } else {
        AncChain(pl.index, d, c, b, l);
        AncLower(pl.index, d, c, x);
      }
    }
  }

  lemma {:induction false} SumOfOne(d: Idom, pl: Plan, ys: seq<Label>, c: Label, l: Label)
    requires Forest(pl.index, d) && l in pl.index && multiset(ys)[c] <= 1
    requires forall y :: y in ys && IsAnc(pl.index, d, y, l) ==> y == c
    requires IsAnc(pl.index, d, c, l)
    ensures OwnsSum(d, pl, ys, l) == multiset(ys)[c]
    decreases |ys|
  {
    hide Forest, IsAnc;
    if ys != [] {
      assert ys == [ys[0]] + ys[1..];
      assert ys[0] in ys;
      SumOfOne(d, pl, ys[1..], c, l);
    }
  }

  lemma {:induction false} SumOfNone(d: Idom, pl: Plan, ys: seq<Label>, l: Label)
    requires Forest(pl.index, d) && forall y :: y in ys ==> Owns(d, pl, y, l) == 0
    ensures OwnsSum(d, pl, ys, l) == 0
    decreases |ys|
  {
    hide Forest, IsAnc;
    if ys != [] {
      assert ys[0] in ys;
      SumOfNone(d, pl, ys[1..], l);
    }
  }

  /** An inlined target is a child of the branching block. */
  lemma InlinedChild(n: Numbering, d: Idom, pl: Plan, x: Label, t: Label)
    requires Planned(n, d, pl) && x in pl.index && x in pl.blocks && t in pl.blocks[x].Successors()
    requires t in pl.index && pl.index[t] > pl.index[x] && t !in pl.merges
    ensures t in d && d[t] == x
  {
    hide Planned, Valid, IsDominatorTree, Forest, BasicBlock.Successors, MergesOk, PlanOk;
    TargetIsEdge(n, d, pl, x, t);
    InlineFact(n, d, pl, x, t);
  }

  /** A child that is not a merge node is a successor of its parent, listed once. */
  lemma ChildIsTarget(n: Numbering, d: Idom, pl: Plan, x: Label, c: Label)
    requires Planned(n, d, pl) && x in pl.index && c in pl.index && c in d && d[c] == x && c !in pl.merges
    requires pl.index[x] < pl.index[c]
    ensures x in pl.blocks && c in pl.blocks[x].Successors() && pl.blocks[x].Successors() != [c, c]
  {
    hide Planned, Valid, IsDominatorTree, Forest, BasicBlock.Successors, MergesOk, PlanOk, ChildrenOk;
    SameIndex(n, d, pl);
    Numbered(n, c);
    ParentFacts(n, c);
    var p := Parent(n, c);
    PredIsEdge(n, c, p);
    assert ForwardEdge(n, p, c);
    InlineFact(n, d, pl, p, c);
    BlockEdges(n, d, pl, x, c);
  }

  lemma BlockEdges(n: Numbering, d: Idom, pl: Plan, x: Label, c: Label)
    requires Planned(n, d, pl) && ForwardEdge(n, x, c) && c !in pl.merges
    ensures x in pl.blocks && c in pl.blocks[x].Successors() && pl.blocks[x].Successors() != [c, c]
  {
    hide Valid, IsDominatorTree, Forest, BasicBlock.Successors, PlanOk, ChildrenOk, RetreatsOk;
    assert BlockMatches(n, pl, x) && NotTwice(n, pl, x, c);
  }

  lemma InlinedSumSmall(d: Idom, pl: Plan, x: Label, t: Label, u: Label, l: Label)
    requires Forest(pl.index, d)
    ensures InlinedSum(d, pl, x, [], l) == 0
    ensures InlinedSum(d, pl, x, [t], l) == Inlined(d, pl, x, t, l)
    ensures InlinedSum(d, pl, x, [t, u], l) == Inlined(d, pl, x, t, l) + Inlined(d, pl, x, u, l)
  {
    assert [t][1..] == [] && [t, u][1..] == [u] && [u][1..] == [];
    assert InlinedSum(d, pl, x, [u], l) == Inlined(d, pl, x, u, l) + InlinedSum(d, pl, x, [], l);
  }

  predicate AtMostTwo(ts: seq<Label>) {
    ts == [] || ts == [ts[0]] || (|ts| == 2 && ts == [ts[0], ts[1]])
  }

  lemma FewTargets(b: BasicBlock)
    ensures AtMostTwo(b.Successors())
  {}

  lemma MergesDistinct(n: Numbering, d: Idom, pl: Plan, x: Label, c: Label)
    requires Planned(n, d, pl) && x in pl.index
    ensures multiset(MergeChildren(pl, x))[c] <= 1
  {
    SameIndex(n, d, pl);
    hide Planned, PlanOk, Valid, IsDominatorTree, Forest, MergesOk, MergeChildren;
    ChildrenDistinct(n, d, pl, x, c);
    MergesFewer(pl, x, c);
  }

  lemma ChildrenDistinct(n: Numbering, d: Idom, pl: Plan, x: Label, c: Label)
    requires ChildrenOk(n, d, pl) && x in n.index
    ensures x in pl.children && multiset(pl.children[x])[c] <= 1
  {
    assert ChildIff(n, d, pl, x, c);
    OnceEach(pl.children[x]);
  }

  lemma MergesFewer(pl: Plan, x: Label, c: Label)
    requires PlanOk(pl) && x in pl.index && x in pl.children
    ensures multiset(MergeChildren(pl, x))[c] <= multiset(pl.children[x])[c]
  {
    assert forall z :: z in Select(pl.children[x], pl.merges) ==> ChildOk(pl, x, z) && z in pl.index;
    hide PlanOk, Select, SortHigherFirst;
    assert MergeChildren(pl, x) == SortHigherFirst(pl.index, Select(pl.children[x], pl.merges));
  }

  /** The block for `l` is neither `x` nor in a region hanging from `x`. */
  lemma PartsOutside(n: Numbering, d: Idom, pl: Plan, x: Label, l: Label)
    requires PlanOk(pl) && Forest(pl.index, d) && x in pl.index && x in pl.blocks
    requires forall c :: c in pl.index && c in d && d[c] == x && pl.index[x] < pl.index[c] ==> Owns(d, pl, c, l) == 0
    requires Planned(n, d, pl)
    ensures OwnsSum(d, pl, MergeChildren(pl, x), l) == 0
    ensures InlinedSum(d, pl, x, pl.blocks[x].Successors(), l) == 0
  {
    hide Planned, PlanOk, Forest, BasicBlock.Successors, IsAnc, MergeChildren;
    var ts := pl.blocks[x].Successors();
    forall y | y in MergeChildren(pl, x)
      ensures Owns(d, pl, y, l) == 0
    {
      MergeChildBack(n, d, pl, x, y);
    }
    SumOfNone(d, pl, MergeChildren(pl, x), l);
    forall t | t in ts
      ensures Inlined(d, pl, x, t, l) == 0
    {
      if t in pl.index && pl.index[t] > pl.index[x] && t !in pl.merges {
        InlinedChild(n, d, pl, x, t);
      }
    }
    FewTargets(pl.blocks[x]);
    if |ts| == 2 {
      InlinedSumSmall(d, pl, x, ts[0], ts[1], l);
    } else if |ts| == 1 {
      InlinedSumSmall(d, pl, x, ts[0], ts[0], l);
    } else {
      InlinedSumSmall(d, pl, x, x, x, l);
    }
  }

  /** What the inlined branches of `x` contribute when child `c` holds `l`. */
  lemma InlinedIsChild(n: Numbering, d: Idom, pl: Plan, x: Label, c: Label, l: Label)
    requires PlanOk(pl) && Forest(pl.index, d) && x in pl.index && x in pl.blocks && l in pl.index
    requires c in pl.index && c in d && d[c] == x && pl.index[x] < pl.index[c] && IsAnc(pl.index, d, c, l)
    requires Planned(n, d, pl)
    ensures InlinedSum(d, pl, x, pl.blocks[x].Successors(), l) == (if c in pl.merges then 0 else 1)
  {
    hide Planned, PlanOk, Forest, BasicBlock.Successors, IsAnc;
    var ts := pl.blocks[x].Successors();
    forall t | t in ts
      ensures Inlined(d, pl, x, t, l) == (if t == c && c !in pl.merges then 1 else 0)
    {
      if t in pl.index && pl.index[t] > pl.index[x] && t !in pl.merges {
        InlinedChild(n, d, pl, x, t);
        if IsAnc(pl.index, d, t, l) {
          OneChild(d, pl, x, l, t, c);
        }
      }
    }
    if c !in pl.merges {
      ChildIsTarget(n, d, pl, x, c);
    }
    FewTargets(pl.blocks[x]);
    if |ts| == 2 {
      InlinedSumSmall(d, pl, x, ts[0], ts[1], l);
    } else if |ts| == 1 {
      InlinedSumSmall(d, pl, x, ts[0], ts[0], l);
    } else {
      InlinedSumSmall(d, pl, x, x, x, l);
    }
  }

  lemma MergesHoldChild(n: Numbering, d: Idom, pl: Plan, x: Label, c: Label, l: Label)
    requires PlanOk(pl) && Forest(pl.index, d) && x in pl.index && l in pl.index
    requires c in pl.index && c in d && d[c] == x && pl.index[x] < pl.index[c] && IsAnc(pl.index, d, c, l)
    requires Planned(n, d, pl)
    ensures OwnsSum(d, pl, MergeChildren(pl, x), l) == (if c in pl.merges then 1 else 0)
  {
    hide Planned, PlanOk, Forest, IsAnc, MergeChildren;
    var ys := MergeChildren(pl, x);
    forall y | y in ys && y in pl.index && IsAnc(pl.index, d, y, l)
      ensures y == c
    {
      MergeChildBack(n, d, pl, x, y);
      OneChild(d, pl, x, l, y, c);
    }
    forall y | y in ys
      ensures y in pl.index
    {
      MergeChildBack(n, d, pl, x, y);
    }
    MergesDistinct(n, d, pl, x, c);
    SumOfOne(d, pl, ys, c, l);
    if c in pl.merges {
      MergeChildFact(n, d, pl, x, c);
    } else if c in ys {
      MergeChildBack(n, d, pl, x, c);
    }
  }

  /** A region is its own block plus the regions of its merge children and inlined targets. */
  lemma PartsOfRegion(n: Numbering, d: Idom, pl: Plan, x: Label, l: Label)
    requires PlanOk(pl) && Forest(pl.index, d) && x in pl.index && x in pl.blocks
    requires Planned(n, d, pl)
    ensures (if l == x then 1 else 0) + OwnsSum(d, pl, MergeChildren(pl, x), l)
            + InlinedSum(d, pl, x, pl.blocks[x].Successors(), l) == Owns(d, pl, x, l)
  {
    hide Planned, PlanOk, Forest, BasicBlock.Successors, MergeChildren;
    if l != x && l in pl.index && IsAnc(pl.index, d, x, l) {
      var c := NextChild(d, pl, x, l);
      InlinedIsChild(n, d, pl, x, c, l);
      MergesHoldChild(n, d, pl, x, c, l);
    } else {
      forall c | c in pl.index && c in d && d[c] == x && pl.index[x] < pl.index[c]
        ensures Owns(d, pl, c, l) == 0
      {
        if l in pl.index && IsAnc(pl.index, d, c, l) {
          AncLower(pl.index, d, c, l);
          AncTransitive(pl.index, d, x, c, l);
        }
      }
      PartsOutside(n, d, pl, x, l);
    }
  }

  /** The region of `x` emits the blocks it owns, each exactly once. */
  lemma {:induction false} TreeEmits(n: Numbering, d: Idom, pl: Plan, x: Label, l: Label)
    requires PlanOk(pl) && Forest(pl.index, d) && x in pl.index
    requires Planned(n, d, pl)
    ensures Emitted(DoTree(pl, x), l) == Owns(d, pl, x, l)
    decreases pl.size - pl.index[x], 3, 0
  {
    hide Planned, PlanOk, Forest, NodeWithin, BasicBlock.Successors, MergeChildren;
    BlockOfIndex(pl, x);
    var ys := MergeChildren(pl, x);
    AllMerges(pl, x);
    WithinEmits(n, d, pl, x, ys, l);
    PartsOfRegion(n, d, pl, x, l);
    EmittedOne(Loop(x, NodeWithin(pl, x, ys)), l);
  }

  lemma BlockOfIndex(pl: Plan, x: Label)
    requires PlanOk(pl) && x in pl.index
    ensures x in pl.blocks && pl.index[x] < pl.size
  {
    assert BlockOk(pl, x);
  }

  lemma BlockNamed(n: Numbering, d: Idom, pl: Plan, x: Label)
    requires Planned(n, d, pl) && x in pl.index
    ensures x in pl.blocks && pl.blocks[x].id == x
  {
    hide Valid, Forest, Total, RetreatsOk, MergesOk, ChildrenOk, Dominates, PlanOk, BasicBlock.Successors;
    assert BlockMatches(n, pl, x);
  }

  lemma {:induction false} WithinEmits(n: Numbering, d: Idom, pl: Plan, x: Label, ys: seq<Label>, l: Label)
    requires PlanOk(pl) && Forest(pl.index, d) && x in pl.index && x in pl.blocks && SomeMerges(pl, x, ys)
    requires Planned(n, d, pl)
    ensures Emitted(NodeWithin(pl, x, ys), l) ==
            (if l == x then 1 else 0) + OwnsSum(d, pl, ys, l) + InlinedSum(d, pl, x, pl.blocks[x].Successors(), l)
    decreases pl.size - pl.index[x], 2, |ys|
  {
    hide Planned, Forest, NodeWithin, BasicBlock.Successors, MergeChildren, DoTree, PlanOk;
    BlockOfIndex(pl, x);
    if ys == [] {
      CoreEmits(n, d, pl, x, l);
    } else {
      FewerMerges(pl, x, ys);
      UnfoldBlock(pl, x, ys);
      assert ys[0] in ys;
      var inner := NodeWithin(pl, x, ys[1..]);
      WithinEmits(n, d, pl, x, ys[1..], l);
      TreeEmits(n, d, pl, ys[0], l);
      EmittedConcat([Block(ys[0], inner)], DoTree(pl, ys[0]), l);
      EmittedOne(Block(ys[0], inner), l);
    }
  }

  lemma {:induction false} CoreEmits(n: Numbering, d: Idom, pl: Plan, x: Label, l: Label)
    requires PlanOk(pl) && Forest(pl.index, d) && x in pl.index && x in pl.blocks
    requires Planned(n, d, pl)
    ensures Emitted(NodeWithin(pl, x, []), l) ==
            (if l == x then 1 else 0) + InlinedSum(d, pl, x, pl.blocks[x].Successors(), l)
    decreases pl.size - pl.index[x], 1, 0
  {
    hide Planned, Forest, NodeWithin, BranchTo, PlanOk;
    BlockOfIndex(pl, x);
    BlockNamed(n, d, pl, x);
    CoreCode(pl, x);
    var b := pl.blocks[x];
    var t := b.Terminator().value;
    EmittedOne(Code(b), l);
    match t.op
    case Br(u) =>
      BranchEmits(n, d, pl, x, u, l);
      InlinedSumSmall(d, pl, x, u, u, l);
      EmittedConcat([Code(b)], BranchTo(pl, x, u), l);
    case BrCond(u, w) =>
      BranchEmits(n, d, pl, x, u, l);
      BranchEmits(n, d, pl, x, w, l);
      InlinedSumSmall(d, pl, x, u, w, l);
      var node := If(t.args[0], BranchTo(pl, x, u), BranchTo(pl, x, w));
      EmittedOne(node, l);
      EmittedConcat([Code(b)], [node], l);
    case _ =>
      InlinedSumSmall(d, pl, x, x, x, l);
      EmittedOne(Return(t), l);
      EmittedConcat([Code(b)], [Return(t)], l);
  }

  lemma {:induction false} BranchEmits(n: Numbering, d: Idom, pl: Plan, x: Label, t: Label, l: Label)
    requires PlanOk(pl) && Forest(pl.index, d) && x in pl.index && t in pl.index
    requires Planned(n, d, pl)
    ensures Emitted(BranchTo(pl, x, t), l) == Inlined(d, pl, x, t, l)
    decreases pl.size - pl.index[x], 0, 0
  {
    hide Planned, Forest, DoTree, PlanOk;
    BlockOfIndex(pl, x);
    if pl.index[t] <= pl.index[x] {
      EmittedOne(Branch(t, ToLoop), l);
    } else if t in pl.merges {
      EmittedOne(Branch(t, ToBlock), l);
    } else {
      BlockOfIndex(pl, t);
      TreeEmits(n, d, pl, t, l);
    }
  }

  // ----- scoping -----

  /** Every branch lies inside a block or loop of the kind and name it targets. */
  predicate Scoped(nodes: seq<Node>, blocks: set<Label>, loops: set<Label>)
    decreases nodes
  {
    forall i :: 0 <= i < |nodes| ==> ScopedNode(nodes[i], blocks, loops)
  }

  predicate ScopedNode(node: Node, blocks: set<Label>, loops: set<Label>)
    decreases node
  {
    match node
    case Block(name, body) => Scoped(body, blocks + {name}, loops)
    case Loop(name, body) => Scoped(body, blocks, loops + {name})
    case If(_, thenNodes, elseNodes) => Scoped(thenNodes, blocks, loops) && Scoped(elseNodes, blocks, loops)
    case Branch(dest, kind) => if kind == ToBlock then dest in blocks else dest in loops
    case _ => true
  }

  /** The enclosing constructs that the region of `x` may branch to. */
  ghost predicate InScope(d: Idom, pl: Plan, x: Label, blocks: set<Label>, loops: set<Label>)
    requires Forest(pl.index, d) && x in pl.index
  {
    && (forall h :: LoopInScope(d, pl, x, h, loops))
    && (forall y :: MergeInScope(d, pl, x, y, blocks))
  }

  ghost predicate LoopInScope(d: Idom, pl: Plan, x: Label, h: Label, loops: set<Label>)
    requires Forest(pl.index, d) && x in pl.index
  {
    h in pl.headers && h in pl.index && StrictAnc(pl.index, d, h, x) ==> h in loops
  }

  ghost predicate MergeInScope(d: Idom, pl: Plan, x: Label, y: Label, blocks: set<Label>)
    requires Forest(pl.index, d) && x in pl.index
  {
    y in pl.merges && Pending(d, pl, x, y) ==> y in blocks
  }

  /** Inside `x`, once the blocks of all merge children but `ys` are open. */
  ghost predicate InScopeWithin(d: Idom, pl: Plan, x: Label, ys: seq<Label>, blocks: set<Label>, loops: set<Label>)
    requires PlanOk(pl) && Forest(pl.index, d) && x in pl.index
  {
    && InScope(d, pl, x, blocks, loops)
    && (x in pl.headers ==> x in loops)
    && forall y :: ChildInScope(pl, x, ys, y, blocks)
  }

  ghost predicate ChildInScope(pl: Plan, x: Label, ys: seq<Label>, y: Label, blocks: set<Label>)
    requires PlanOk(pl) && x in pl.index
  {
    y in MergeChildren(pl, x) && y !in ys ==> y in blocks
  }

  lemma ScopeGrows(d: Idom, pl: Plan, x: Label, blocks: set<Label>, loops: set<Label>, blocks': set<Label>,
                   loops': set<Label>)
    requires Forest(pl.index, d) && x in pl.index && InScope(d, pl, x, blocks, loops)
    requires blocks <= blocks' && loops <= loops'
    ensures InScope(d, pl, x, blocks', loops')
  {
    hide Forest;
    forall h
      ensures LoopInScope(d, pl, x, h, loops')
    {
      assert LoopInScope(d, pl, x, h, loops);
    }
    forall y
      ensures MergeInScope(d, pl, x, y, blocks')
    {
      assert MergeInScope(d, pl, x, y, blocks);
    }
  }

  lemma ScopeOfChild(n: Numbering, d: Idom, pl: Plan, x: Label, ys: seq<Label>, blocks: set<Label>, loops: set<Label>,
                     v: Label)
    requires PlanOk(pl) && Forest(pl.index, d) && x in pl.index && InScopeWithin(d, pl, x, ys, blocks, loops)
    requires v in pl.index && v in d && d[v] == x && pl.index[x] < pl.index[v]
    requires forall y :: y in ys && y in pl.index ==> pl.index[y] <= pl.index[v]
    requires Planned(n, d, pl)
    ensures InScope(d, pl, v, blocks, loops)
  {
    hide Planned, PlanOk, Forest, MergeChildren;
    forall h
      ensures LoopInScope(d, pl, v, h, loops)
    {
      assert LoopInScope(d, pl, x, h, loops);
    }
    forall y
      ensures MergeInScope(d, pl, v, y, blocks)
    {
      assert MergeInScope(d, pl, x, y, blocks);
      if y in pl.merges && Pending(d, pl, v, y) && d[y] == x {
        MergeChildFact(n, d, pl, x, y);
        assert ChildInScope(pl, x, ys, y, blocks);
      }
    }
  }

  lemma ScopedConcat(a: seq<Node>, b: seq<Node>, blocks: set<Label>, loops: set<Label>)
    requires Scoped(a, blocks, loops) && Scoped(b, blocks, loops)
    ensures Scoped(a + b, blocks, loops)
  {}

  lemma {:induction false} TreeScoped(n: Numbering, d: Idom, pl: Plan, x: Label, blocks: set<Label>, loops: set<Label>)
    requires PlanOk(pl) && Forest(pl.index, d) && x in pl.index && InScope(d, pl, x, blocks, loops)
    requires Planned(n, d, pl)
    ensures Scoped(DoTree(pl, x), blocks, loops)
    decreases pl.size - pl.index[x], 3, 0
  {
    hide Planned, PlanOk, Forest, NodeWithin, MergeChildren, InScope;
    BlockOfIndex(pl, x);
    AllMerges(pl, x);
    var loops' := if x in pl.headers then loops + {x} else loops;
    ScopeGrows(d, pl, x, blocks, loops, blocks, loops');
    assert InScopeWithin(d, pl, x, MergeChildren(pl, x), blocks, loops');
    hide InScopeWithin;
    WithinScoped(n, d, pl, x, MergeChildren(pl, x), blocks, loops');
  }

  lemma {:induction false} WithinScoped(n: Numbering, d: Idom, pl: Plan, x: Label, ys: seq<Label>, blocks: set<Label>,
                                        loops: set<Label>)
    requires PlanOk(pl) && Forest(pl.index, d) && x in pl.index && SomeMerges(pl, x, ys)
    requires InScopeWithin(d, pl, x, ys, blocks, loops)
    requires Planned(n, d, pl)
    ensures Scoped(NodeWithin(pl, x, ys), blocks, loops)
    decreases pl.size - pl.index[x], 2, |ys|
  {
    hide Planned, Forest, PlanOk, NodeWithin, MergeChildren, DoTree, InScope, InScopeWithin;
    BlockOfIndex(pl, x);
    if ys == [] {
      CoreScoped(n, d, pl, x, blocks, loops);
    } else {
      FewerMerges(pl, x, ys);
      UnfoldBlock(pl, x, ys);
      MergeChildBack(n, d, pl, x, ys[0]);
      WithinNext(n, d, pl, x, ys, blocks, loops);
      var inner := NodeWithin(pl, x, ys[1..]);
      WithinScoped(n, d, pl, x, ys[1..], blocks + {ys[0]}, loops);
      TreeScoped(n, d, pl, ys[0], blocks, loops);
      ScopedConcat([Block(ys[0], inner)], DoTree(pl, ys[0]), blocks, loops);
    }
  }

  lemma WithinNext(n: Numbering, d: Idom, pl: Plan, x: Label, ys: seq<Label>, blocks: set<Label>, loops: set<Label>)
    requires PlanOk(pl) && Forest(pl.index, d) && x in pl.index && SomeMerges(pl, x, ys) && ys != []
    requires InScopeWithin(d, pl, x, ys, blocks, loops) && ys[0] in pl.index
    requires Planned(n, d, pl)
    ensures InScopeWithin(d, pl, x, ys[1..], blocks + {ys[0]}, loops)
    ensures InScope(d, pl, ys[0], blocks, loops)
  {
    hide Planned, PlanOk, Forest, MergeChildren, InScope;
    FewerMerges(pl, x, ys);
    MergeChildBack(n, d, pl, x, ys[0]);
    assert forall y :: y in ys ==> y == ys[0] || y in ys[1..];
    forall y | y in ys && y in pl.index
      ensures pl.index[y] <= pl.index[ys[0]]
    {
      assert y == ys[0] || y in ys[1..];
    }
    ScopeOfChild(n, d, pl, x, ys, blocks, loops, ys[0]);
    ScopeGrows(d, pl, x, blocks, loops, blocks + {ys[0]}, loops);
    forall y
      ensures ChildInScope(pl, x, ys[1..], y, blocks + {ys[0]})
    {
      assert ChildInScope(pl, x, ys, y, blocks);
    }
  }

  lemma {:induction false} CoreScoped(n: Numbering, d: Idom, pl: Plan, x: Label, blocks: set<Label>, loops: set<Label>)
    requires PlanOk(pl) && Forest(pl.index, d) && x in pl.index && InScopeWithin(d, pl, x, [], blocks, loops)
    requires Planned(n, d, pl)
    ensures Scoped(NodeWithin(pl, x, []), blocks, loops)
    decreases pl.size - pl.index[x], 1, 0
  {
    hide Planned, Forest, NodeWithin, BranchTo, PlanOk, InScopeWithin, BasicBlock.Successors, BasicBlock.Terminator;
    BlockOfIndex(pl, x);
    CoreCode(pl, x);
    var b := pl.blocks[x];
    var t := b.Terminator().value;
    match t.op
    case Br(u) =>
      BranchScoped(n, d, pl, x, u, blocks, loops);
      ScopedConcat([Code(b)], BranchTo(pl, x, u), blocks, loops);
    case BrCond(u, w) =>
      BranchScoped(n, d, pl, x, u, blocks, loops);
      BranchScoped(n, d, pl, x, w, blocks, loops);
    case _ =>
  }

  lemma {:induction false} BranchScoped(n: Numbering, d: Idom, pl: Plan, x: Label, v: Label, blocks: set<Label>,
                                        loops: set<Label>)
    requires PlanOk(pl) && Forest(pl.index, d) && x in pl.index && InScopeWithin(d, pl, x, [], blocks, loops)
    requires x in pl.blocks && v in pl.blocks[x].Successors() && v in pl.index
    requires Planned(n, d, pl)
    ensures Scoped(BranchTo(pl, x, v), blocks, loops)
    decreases pl.size - pl.index[x], 0, 0
  {
    hide Planned, Forest, DoTree, PlanOk, BasicBlock.Successors, MergeChildren, InScope;
    BlockOfIndex(pl, x);
    BlockOfIndex(pl, v);
    TargetIsEdge(n, d, pl, x, v);
    if pl.index[v] <= pl.index[x] {
      LoopTargetScoped(n, d, pl, x, v, blocks, loops);
    } else if v in pl.merges {
      MergeTargetScoped(n, d, pl, x, v, blocks, loops);
    } else {
      InlineFact(n, d, pl, x, v);
      ScopeOfChild(n, d, pl, x, [], blocks, loops, v);
      TreeScoped(n, d, pl, v, blocks, loops);
    }
  }

  lemma LoopTargetScoped(n: Numbering, d: Idom, pl: Plan, x: Label, v: Label, blocks: set<Label>, loops: set<Label>)
    requires PlanOk(pl) && Forest(pl.index, d) && x in pl.index && InScopeWithin(d, pl, x, [], blocks, loops)
    requires v in pl.index && n.index == pl.index && RetreatingEdge(n, x, v)
    requires Planned(n, d, pl)
    ensures v in loops
  {
    hide Planned, Forest, PlanOk, MergeChildren;
    RetreatFact(n, d, pl, x, v);
    assert LoopInScope(d, pl, x, v, loops);
  }

  lemma MergeTargetScoped(n: Numbering, d: Idom, pl: Plan, x: Label, v: Label, blocks: set<Label>, loops: set<Label>)
    requires PlanOk(pl) && Forest(pl.index, d) && x in pl.index && InScopeWithin(d, pl, x, [], blocks, loops)
    requires v in pl.index && n.index == pl.index && ForwardEdge(n, x, v) && v in pl.merges
    requires Planned(n, d, pl)
    ensures v in blocks
  {
    hide Planned, Forest, PlanOk, MergeChildren, Valid, IsDominatorTree, ChildrenOk, MergesOk;
    SameIndex(n, d, pl);
    ForwardFact(n, d, x, v);
    if d[v] == x {
      MergeChildFact(n, d, pl, x, v);
      assert ChildInScope(pl, x, [], v, blocks);
    } else {
      assert MergeInScope(d, pl, x, v, blocks);
    }
  }
}
