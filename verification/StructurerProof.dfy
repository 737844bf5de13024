/** The structured code runs the same blocks as the graph. */
module StructurerProof {
  import opened Cir
  import opened Graphs
  import opened DomTree
  import opened Dominators
  import opened Structurer
  import opened StructurerFacts
  import opened StructuredRun

  ghost predicate StrictAnc(index: Index, d: Idom, a: Label, v: Label)
    requires Forest(index, d) && v in index
  {
    a != v && IsAnc(index, d, a, v)
  }

  // ----- which branches a stack must be ready for -----

  /** Branching back to header `h` re-enters its loop, in a context fit for `h`. */
  ghost predicate LoopReady(d: Idom, pl: Plan, h: Label, stack: seq<Frame>)
    requires PlanOk(pl) && Forest(pl.index, d) && h in pl.index
    decreases |stack|, 0
  {
    var s := Unwind(stack, h, ToLoop);
    && s != [] && s[0].body == NodeWithin(pl, h, MergeChildren(pl, h))
    && Fit(d, pl, h, s[1..])
  }

  /** Branching out to merge node `y` continues with its region, in a context fit for `y`. */
  ghost predicate BlockReady(d: Idom, pl: Plan, y: Label, stack: seq<Frame>)
    requires PlanOk(pl) && Forest(pl.index, d) && y in pl.index
    decreases |stack|, 0
  {
    var s := Unwind(stack, y, ToBlock);
    && s != [] && DoTree(pl, y) <= s[0].rest
    && Fit(d, pl, y, s[1..])
  }

  /** `stack` is ready for every branch out of the region of `x`: back to the
      headers above it, and on to the later merge nodes hanging above it. */
  ghost predicate Fit(d: Idom, pl: Plan, x: Label, stack: seq<Frame>)
    requires PlanOk(pl) && Forest(pl.index, d) && x in pl.index
    decreases |stack|, 1
  {
    && (forall h :: h in pl.headers && h in pl.index && StrictAnc(pl.index, d, h, x) ==> LoopReady(d, pl, h, stack))
    && (forall y :: y in pl.merges && Pending(d, pl, x, y) ==> BlockReady(d, pl, y, stack))
  }

  /** `y` hangs from a strict ancestor of `x` and comes later in the order. */
  ghost predicate Pending(d: Idom, pl: Plan, x: Label, y: Label)
    requires Forest(pl.index, d) && x in pl.index
  {
    y in pl.index && y in d && pl.index[x] < pl.index[y] && StrictAnc(pl.index, d, d[y], x)
  }

  lemma FitLoop(d: Idom, pl: Plan, x: Label, stack: seq<Frame>, h: Label)
    requires PlanOk(pl) && Forest(pl.index, d) && x in pl.index && Fit(d, pl, x, stack)
    requires h in pl.headers && h in pl.index && StrictAnc(pl.index, d, h, x)
    ensures LoopReady(d, pl, h, stack)
  {
    hide PlanOk, Forest, LoopReady, BlockReady;
  }

  lemma FitBlock(d: Idom, pl: Plan, x: Label, stack: seq<Frame>, y: Label)
    requires PlanOk(pl) && Forest(pl.index, d) && x in pl.index && Fit(d, pl, x, stack)
    requires y in pl.merges && Pending(d, pl, x, y)
    ensures y in pl.index && BlockReady(d, pl, y, stack)
  {
    hide PlanOk, Forest, LoopReady, BlockReady;
  }

  /** Frames a branch does not name make no difference. */
  lemma LoopUnder(d: Idom, pl: Plan, h: Label, f: Frame, stack: seq<Frame>)
    requires PlanOk(pl) && Forest(pl.index, d) && h in pl.index
    requires !Targets(f, h, ToLoop) && LoopReady(d, pl, h, stack)
    ensures LoopReady(d, pl, h, [f] + stack)
  {
    hide PlanOk, Forest, Fit;
    assert ([f] + stack)[1..] == stack;
  }

  lemma BlockUnder(d: Idom, pl: Plan, y: Label, f: Frame, stack: seq<Frame>)
    requires PlanOk(pl) && Forest(pl.index, d) && y in pl.index
    requires !Targets(f, y, ToBlock) && BlockReady(d, pl, y, stack)
    ensures BlockReady(d, pl, y, [f] + stack)
  {
    hide PlanOk, Forest, Fit;
    assert ([f] + stack)[1..] == stack;
  }

  // ----- inside the region of x, with the blocks for `ys` still to be opened -----

  ghost predicate Inside(d: Idom, pl: Plan, x: Label, ys: seq<Label>, stack: seq<Frame>)
    requires PlanOk(pl) && Forest(pl.index, d) && x in pl.index
  {
    && Fit(d, pl, x, stack)
    && (x in pl.headers ==> LoopReady(d, pl, x, stack))
    && (forall y :: y in MergeChildren(pl, x) && y !in ys ==> BlockReady(d, pl, y, stack))
  }

  lemma InsideBlock(d: Idom, pl: Plan, x: Label, ys: seq<Label>, stack: seq<Frame>, y: Label)
    requires PlanOk(pl) && Forest(pl.index, d) && x in pl.index && Inside(d, pl, x, ys, stack)
    requires y in MergeChildren(pl, x) && y !in ys
    ensures y in pl.index && BlockReady(d, pl, y, stack)
  {
    hide PlanOk, Forest, LoopReady, BlockReady, Fit;
  }

  lemma FitUnder(d: Idom, pl: Plan, x: Label, f: Frame, stack: seq<Frame>)
    requires PlanOk(pl) && Forest(pl.index, d) && x in pl.index && Fit(d, pl, x, stack)
    requires forall h :: h in pl.index && StrictAnc(pl.index, d, h, x) ==> !Targets(f, h, ToLoop)
    requires forall y :: Pending(d, pl, x, y) ==> !Targets(f, y, ToBlock)
    ensures Fit(d, pl, x, [f] + stack)
  {
    hide PlanOk, Forest, LoopReady, BlockReady;
    forall h | h in pl.headers && h in pl.index && StrictAnc(pl.index, d, h, x)
      ensures LoopReady(d, pl, h, [f] + stack)
    {
      LoopUnder(d, pl, h, f, stack);
    }
    forall y | y in pl.merges && Pending(d, pl, x, y)
      ensures BlockReady(d, pl, y, [f] + stack)
    {
      BlockUnder(d, pl, y, f, stack);
    }
  }

  /** Entering the region of a child of `x` from inside `x`. */
  lemma FitChild(n: Numbering, d: Idom, pl: Plan, x: Label, ys: seq<Label>, stack: seq<Frame>, v: Label)
    requires Planned(n, d, pl) && Forest(pl.index, d) && x in pl.index && Inside(d, pl, x, ys, stack)
    requires v in pl.index && v in d && d[v] == x && pl.index[x] < pl.index[v]
    requires forall y :: y in ys && y in pl.index ==> pl.index[y] <= pl.index[v]
    ensures Fit(d, pl, v, stack)
  {
    hide Valid, IsDominatorTree, PlanOk, Forest, LoopReady, BlockReady, RetreatsOk, MergesOk, Fit;
    forall h | h in pl.headers && h in pl.index && StrictAnc(pl.index, d, h, v)
      ensures LoopReady(d, pl, h, stack)
    {
      assert IsAnc(pl.index, d, h, x);
      if h != x {
        FitLoop(d, pl, x, stack, h);
      }
    }
    forall y | y in pl.merges && Pending(d, pl, v, y)
      ensures BlockReady(d, pl, y, stack)
    {
      assert IsAnc(pl.index, d, d[y], x);
      if d[y] == x {
        MergeChildFact(n, d, pl, x, y);
        InsideBlock(d, pl, x, ys, stack, y);
      } else {
        FitBlock(d, pl, x, stack, y);
      }
    }
    FitFrom(d, pl, v, stack);
  }

  lemma FitFrom(d: Idom, pl: Plan, x: Label, stack: seq<Frame>)
    requires PlanOk(pl) && Forest(pl.index, d) && x in pl.index
    requires forall h :: h in pl.headers && h in pl.index && StrictAnc(pl.index, d, h, x) ==> LoopReady(d, pl, h, stack)
    requires forall y :: y in pl.merges && Pending(d, pl, x, y) ==> BlockReady(d, pl, y, stack)
    ensures Fit(d, pl, x, stack)
  {
    hide PlanOk, Forest, LoopReady, BlockReady;
  }

  lemma ChildFact(n: Numbering, d: Idom, pl: Plan, x: Label, y: Label)
    requires ChildrenOk(n, d, pl) && x in n.index
    ensures x in pl.children
    ensures y in pl.children[x] <==> y in n.index && n.index[y] > 0 && y in d && d[y] == x
  {
    hide NoDuplicates;
    assert ChildIff(n, d, pl, x, y);
  }

  lemma SameIndex(n: Numbering, d: Idom, pl: Plan)
    requires Planned(n, d, pl)
    ensures n.index == pl.index && Valid(n) && IsDominatorTree(n, d) && Forest(n.index, d)
    ensures ChildrenOk(n, d, pl) && PlanOk(pl) && MergesOk(n, pl)
  {
    hide Valid, Forest, Total, RetreatsOk, MergesOk, ChildrenOk, Dominates, PlanOk;
  }

  lemma MergeChildFact(n: Numbering, d: Idom, pl: Plan, x: Label, y: Label)
    requires Planned(n, d, pl) && x in pl.index
    requires y in pl.merges && y in pl.index && y in d && d[y] == x
    ensures y in MergeChildren(pl, x)
  {
    hide Planned, Valid, IsDominatorTree, Forest, ChildrenOk, PlanOk;
    SameIndex(n, d, pl);
    assert MergeNumbered(n, pl, y);
    ChildFact(n, d, pl, x, y);
  }

  lemma MergeChildBack(n: Numbering, d: Idom, pl: Plan, x: Label, y: Label)
    requires Planned(n, d, pl) && x in pl.index && y in MergeChildren(pl, x)
    ensures y in pl.merges && y in pl.index && y in d && d[y] == x && pl.index[x] < pl.index[y]
  {
    hide Planned, Valid, IsDominatorTree, Forest, ChildrenOk, MergesOk, PlanOk;
    SameIndex(n, d, pl);
    ChildFact(n, d, pl, x, y);
  }

  // ----- the simulation -----

  ghost predicate SomeMerges(pl: Plan, x: Label, ys: seq<Label>)
    requires PlanOk(pl) && x in pl.index
  {
    && HigherFirst(pl.index, ys)
    && forall y :: y in ys ==> y in pl.index && pl.index[x] < pl.index[y] && y in MergeChildren(pl, x)
  }

  lemma AllMerges(pl: Plan, x: Label)
    requires PlanOk(pl) && x in pl.index
    ensures SomeMerges(pl, x, MergeChildren(pl, x))
  {}

  lemma FewerMerges(pl: Plan, x: Label, ys: seq<Label>)
    requires PlanOk(pl) && x in pl.index && SomeMerges(pl, x, ys) && ys != []
    ensures SomeMerges(pl, x, ys[1..]) && ys[0] in pl.index && ys[0] in MergeChildren(pl, x)
  {
    hide PlanOk, MergeChildren;
    assert ys[0] in ys;
  }


  /** The machine has the region of `x` before it, with the blocks for `ys` still to open. */
  ghost predicate Core(d: Idom, pl: Plan, x: Label, ys: seq<Label>, s: RunState)
    requires PlanOk(pl) && Forest(pl.index, d)
  {
    && x in pl.index && SomeMerges(pl, x, ys) && s.Running?
    && NodeWithin(pl, x, ys) <= s.code
    && Inside(d, pl, x, ys, s.stack)
  }

  /** The machine is about to run the code of block `x`, in the right context. */
  ghost predicate Here(d: Idom, pl: Plan, x: Label, s: RunState)
    requires PlanOk(pl) && Forest(pl.index, d)
  {
    x in pl.index && Core(d, pl, x, MergeChildren(pl, x), s)
  }

  /** Entering a region: at most one step, for the loop. */
  lemma EnterTree(d: Idom, pl: Plan, x: Label, oracle: Oracle, s: RunState) returns (k: nat)
    requires PlanOk(pl) && Forest(pl.index, d) && x in pl.index
    requires s.Running? && DoTree(pl, x) <= s.code && Fit(d, pl, x, s.stack)
    ensures Here(d, pl, x, Run(oracle, s, k)) && Run(oracle, s, k).trace == s.trace
  {
    hide PlanOk, Forest, LoopReady, BlockReady, NodeWithin;
    AllMerges(pl, x);
    if x in pl.headers {
      k := 1;
      var body := NodeWithin(pl, x, MergeChildren(pl, x));
      assert s.code[0] == DoTree(pl, x)[0] == Loop(x, body);
      var f := LoopFrame(x, body, s.code[1..]);
      LoopEntered(d, pl, x, f, s.stack);
      assert Run(oracle, s, 1) == Run(oracle, RunStep(oracle, s), 0) == Running(body, [f] + s.stack, s.trace);
    } else {
      k := 0;
    }
  }

  lemma LoopEntered(d: Idom, pl: Plan, x: Label, f: Frame, stack: seq<Frame>)
    requires PlanOk(pl) && Forest(pl.index, d) && x in pl.index && Fit(d, pl, x, stack)
    requires f.LoopFrame? && f.name == x && f.body == NodeWithin(pl, x, MergeChildren(pl, x))
    ensures Inside(d, pl, x, MergeChildren(pl, x), [f] + stack)
  {
    hide PlanOk, Forest, BlockReady, NodeWithin, Fit, LoopReady;
    FitUnder(d, pl, x, f, stack);
    assert LoopReady(d, pl, x, [f] + stack) by { LoopTop(d, pl, x, f, stack); }
  }

  lemma LoopTop(d: Idom, pl: Plan, x: Label, f: Frame, stack: seq<Frame>)
    requires PlanOk(pl) && Forest(pl.index, d) && x in pl.index && Fit(d, pl, x, stack)
    requires f.LoopFrame? && f.name == x && f.body == NodeWithin(pl, x, MergeChildren(pl, x))
    ensures LoopReady(d, pl, x, [f] + stack)
  {
    hide PlanOk, Forest, BlockReady, NodeWithin, Fit;
    assert ([f] + stack)[1..] == stack;
  }

  lemma BlockTop(d: Idom, pl: Plan, y: Label, f: Frame, stack: seq<Frame>)
    requires PlanOk(pl) && Forest(pl.index, d) && y in pl.index && Fit(d, pl, y, stack)
    requires f.BlockFrame? && f.name == y && DoTree(pl, y) <= f.rest
    ensures BlockReady(d, pl, y, [f] + stack)
  {
    hide PlanOk, Forest, LoopReady, DoTree, Fit;
    assert ([f] + stack)[1..] == stack;
  }

  /** Opening the block of the first pending merge child. */
  lemma BlockEntered(n: Numbering, d: Idom, pl: Plan, x: Label, ys: seq<Label>, f: Frame, stack: seq<Frame>)
    requires PlanOk(pl) && Forest(pl.index, d) && x in pl.index && Inside(d, pl, x, ys, stack)
    requires ys != [] && SomeMerges(pl, x, ys)
    requires f.BlockFrame? && f.name == ys[0] && ys[0] in pl.index && DoTree(pl, ys[0]) <= f.rest
    requires Planned(n, d, pl)
    ensures Inside(d, pl, x, ys[1..], [f] + stack)
  {
    hide Valid, IsDominatorTree, PlanOk, Forest, LoopReady, BlockReady, RetreatsOk, MergesOk, Fit, DoTree,
         MergeChildren, ChildrenOk;
    var v := ys[0];
    assert v in ys;
    MergeChildBack(n, d, pl, x, v);
    forall y | y in ys && y in pl.index
      ensures pl.index[y] <= pl.index[v]
    {
      assert y == ys[0] || y in ys[1..];
    }
    FitChild(n, d, pl, x, ys, stack, v);
    forall y | Pending(d, pl, x, y)
      ensures y != v
    {
      AncLower(pl.index, d, x, x);
    }
    FitUnder(d, pl, x, f, stack);
    if x in pl.headers {
      LoopUnder(d, pl, x, f, stack);
    }
    forall y | y in MergeChildren(pl, x) && y !in ys[1..]
      ensures y in pl.index && BlockReady(d, pl, y, [f] + stack)
    {
      if y == v {
        BlockTop(d, pl, v, f, stack);
      } else {
        assert y !in ys;
        InsideBlock(d, pl, x, ys, stack, y);
        BlockUnder(d, pl, y, f, stack);
      }
    }
  }

  /** Open the blocks of the pending merge children, one step each. */
  lemma {:induction false} OpenBlocks(n: Numbering, d: Idom, pl: Plan, x: Label, ys: seq<Label>, oracle: Oracle,
                                      s: RunState)
    returns (k: nat)
    requires PlanOk(pl) && Forest(pl.index, d) && Core(d, pl, x, ys, s)
    requires Planned(n, d, pl)
    ensures Core(d, pl, x, [], Run(oracle, s, k)) && Run(oracle, s, k).trace == s.trace
    decreases |ys|
  {
    hide Planned, Forest, PlanOk, Inside, DoTree, MergeChildren, Run, Fit, NodeWithin;
    if ys == [] {
      k := 0;
      RunZero(oracle, s);
    } else {
      FewerMerges(pl, x, ys);
      UnfoldBlock(pl, x, ys);
      var f := BlockFrame(ys[0], s.code[1..]);
      assert s.code[0] == NodeWithin(pl, x, ys)[0];
      assert DoTree(pl, ys[0]) <= f.rest;
      BlockEntered(n, d, pl, x, ys, f, s.stack);
      var j := OpenBlocks(n, d, pl, x, ys[1..], oracle, RunStep(oracle, s));
      k := j + 1;
      RunUnfold(oracle, s, j);
    }
  }

  lemma UnfoldBlock(pl: Plan, x: Label, ys: seq<Label>)
    requires PlanOk(pl) && x in pl.index && SomeMerges(pl, x, ys) && ys != []
    ensures ys[0] in pl.index && SomeMerges(pl, x, ys[1..])
    ensures NodeWithin(pl, x, ys) == [Block(ys[0], NodeWithin(pl, x, ys[1..]))] + DoTree(pl, ys[0])
  {
    FewerMerges(pl, x, ys);
    hide PlanOk, MergeChildren, DoTree;
  }

  lemma RunZero(oracle: Oracle, s: RunState)
    ensures Run(oracle, s, 0) == s
  {}

  lemma RunUnfold(oracle: Oracle, s: RunState, k: nat)
    ensures Run(oracle, s, k + 1) == Run(oracle, RunStep(oracle, s), k)
  {}

  lemma BackArrives(n: Numbering, d: Idom, pl: Plan, x: Label, v: Label, oracle: Oracle, s: RunState)
    returns (k: nat)
    requires PlanOk(pl) && Forest(pl.index, d) && x in pl.index && s.Running?
    requires RetreatingEdge(n, x, v) && v in pl.index && Inside(d, pl, x, [], s.stack)
    requires s.code != [] && s.code[0] == Branch(v, ToLoop)
    requires Planned(n, d, pl)
    ensures Here(d, pl, v, Run(oracle, s, k)) && Run(oracle, s, k).trace == s.trace
  {
    hide Planned, Forest, PlanOk, MergeChildren, Run, Fit, LoopReady, BlockReady, Here;
    SameIndex(n, d, pl);
    RetreatFact(n, d, pl, x, v);
    if v != x {
      FitLoop(d, pl, x, s.stack, v);
    }
    k := LoopTaken(d, pl, v, oracle, s);
  }

  lemma MergeArrives(n: Numbering, d: Idom, pl: Plan, x: Label, v: Label, oracle: Oracle, s: RunState)
    returns (k: nat)
    requires PlanOk(pl) && Forest(pl.index, d) && x in pl.index && s.Running?
    requires ForwardEdge(n, x, v) && v in pl.merges && v in pl.index && Inside(d, pl, x, [], s.stack)
    requires s.code != [] && s.code[0] == Branch(v, ToBlock)
    requires Planned(n, d, pl)
    ensures Here(d, pl, v, Run(oracle, s, k)) && Run(oracle, s, k).trace == s.trace
  {
    hide Planned, Valid, IsDominatorTree, ChildrenOk, MergesOk, Forest, PlanOk, MergeChildren, Run, Fit, LoopReady,
         BlockReady, Here;
    SameIndex(n, d, pl);
    ForwardFact(n, d, x, v);
    if d[v] == x {
      MergeChildFact(n, d, pl, x, v);
      InsideBlock(d, pl, x, [], s.stack, v);
    } else {
      FitBlock(d, pl, x, s.stack, v);
    }
    k := BlockTaken(d, pl, v, oracle, s);
  }

  lemma InlineArrives(n: Numbering, d: Idom, pl: Plan, x: Label, v: Label, oracle: Oracle, s: RunState)
    returns (k: nat)
    requires PlanOk(pl) && Forest(pl.index, d) && x in pl.index && s.Running?
    requires ForwardEdge(n, x, v) && v !in pl.merges && v in pl.index && Inside(d, pl, x, [], s.stack)
    requires DoTree(pl, v) <= s.code
    requires Planned(n, d, pl)
    ensures Here(d, pl, v, Run(oracle, s, k)) && Run(oracle, s, k).trace == s.trace
  {
    hide Planned, Forest, PlanOk, DoTree, MergeChildren, Run, Fit, Inside, Here;
    SameIndex(n, d, pl);
    InlineFact(n, d, pl, x, v);
    FitChild(n, d, pl, x, [], s.stack, v);
    k := EnterTree(d, pl, v, oracle, s);
  }

  /** Whatever form the branch to `v` took, control arrives at block `v`. */
  lemma BranchArrives(n: Numbering, d: Idom, pl: Plan, x: Label, v: Label, oracle: Oracle, s: RunState)
    returns (k: nat)
    requires PlanOk(pl) && Forest(pl.index, d) && x in pl.index && v in pl.index && s.Running?
    requires BranchTo(pl, x, v) <= s.code && Inside(d, pl, x, [], s.stack)
    requires n.index == pl.index && Edge(n.g, x, v)
    requires Planned(n, d, pl)
    ensures Here(d, pl, v, Run(oracle, s, k)) && Run(oracle, s, k).trace == s.trace
  {
    hide Planned, Forest, PlanOk, DoTree, Run, Inside, Here;
    if pl.index[v] <= pl.index[x] {
      assert s.code[0] == BranchTo(pl, x, v)[0];
      k := BackArrives(n, d, pl, x, v, oracle, s);
    } else if v in pl.merges {
      assert s.code[0] == BranchTo(pl, x, v)[0];
      k := MergeArrives(n, d, pl, x, v, oracle, s);
    } else {
      k := InlineArrives(n, d, pl, x, v, oracle, s);
    }
  }

  lemma LoopTaken(d: Idom, pl: Plan, v: Label, oracle: Oracle, s: RunState) returns (k: nat)
    requires PlanOk(pl) && Forest(pl.index, d) && v in pl.index && s.Running?
    requires s.code != [] && s.code[0] == Branch(v, ToLoop) && LoopReady(d, pl, v, s.stack)
    ensures Here(d, pl, v, Run(oracle, s, k)) && Run(oracle, s, k).trace == s.trace
  {
    hide Forest, PlanOk, MergeChildren, Run, Fit, NodeWithin, Inside;
    k := 1;
    RunUnfold(oracle, s, 0);
    var t := Unwind(s.stack, v, ToLoop);
    RunZero(oracle, RunStep(oracle, s));
    assert RunStep(oracle, s) == Running(t[0].body, t, s.trace);
    assert [t[0]] + t[1..] == t;
    AllMerges(pl, v);
    LoopEntered(d, pl, v, t[0], t[1..]);
  }

  lemma BlockTaken(d: Idom, pl: Plan, v: Label, oracle: Oracle, s: RunState) returns (k: nat)
    requires PlanOk(pl) && Forest(pl.index, d) && v in pl.index && s.Running?
    requires s.code != [] && s.code[0] == Branch(v, ToBlock) && BlockReady(d, pl, v, s.stack)
    ensures Here(d, pl, v, Run(oracle, s, k)) && Run(oracle, s, k).trace == s.trace
  {
    hide Forest, PlanOk, MergeChildren, Run, Fit, NodeWithin, Inside, Here, DoTree;
    var t := Unwind(s.stack, v, ToBlock);
    var s1 := RunStep(oracle, s);
    assert s1 == Running(t[0].rest, t[1..], s.trace);
    var j := EnterTree(d, pl, v, oracle, s1);
    k := j + 1;
    RunUnfold(oracle, s, j);
  }

  // ----- one block -----

  /** The structured machine is where the graph is. */
  ghost predicate Matches(d: Idom, pl: Plan, f: FlowState, s: RunState)
    requires PlanOk(pl) && Forest(pl.index, d)
  {
    match f
    case At(v, trace) => Here(d, pl, v, s) && s.trace == trace
    case Finished(ret, trace) => s == Returned(ret, trace)
    case Lost(_) => false
  }

  lemma CoreCode(pl: Plan, x: Label)
    requires PlanOk(pl) && x in pl.index
    ensures BlockOk(pl, x)
    ensures var b := pl.blocks[x];
            var t := b.Terminator().value;
            var code := NodeWithin(pl, x, []);
            && (t.op.Br? ==>
                t.op.target in pl.index && t.op.target in b.Successors()
                    && code == [Code(b)] + BranchTo(pl, x, t.op.target))
            && (t.op.BrCond? ==>
                  && t.op.thenTarget in pl.index && t.op.elseTarget in pl.index && t.args != []
                  && t.op.thenTarget in b.Successors() && t.op.elseTarget in b.Successors()
                  && code == [Code(b),
                      If(t.args[0], BranchTo(pl, x, t.op.thenTarget), BranchTo(pl, x, t.op.elseTarget))])
            && (!t.op.Br? && !t.op.BrCond? ==> code == [Code(b), Return(t)])
  {
    assert BlockOk(pl, x);
    var b := pl.blocks[x];
    var t := b.Terminator().value;
    match t.op
    case Br(l) => assert l in b.Successors();
    case BrCond(l, m) => assert l in b.Successors() && m in b.Successors();
    case _ =>
  }

  /** Taking the branch of block `x` to `v` after `s` has run the block's code. */
  lemma RunTo(n: Numbering, d: Idom, pl: Plan, x: Label, v: Label, oracle: Oracle, s: RunState) returns (k: nat)
    requires PlanOk(pl) && Forest(pl.index, d) && x in pl.index && x in pl.blocks && v in pl.blocks[x].Successors()
    requires s.Running? && v in pl.index && BranchTo(pl, x, v) <= s.code && Inside(d, pl, x, [], s.stack)
    requires Planned(n, d, pl)
    ensures Here(d, pl, v, Run(oracle, s, k)) && Run(oracle, s, k).trace == s.trace
  {
    hide Planned, Forest, PlanOk, BranchTo, Run, Inside, Here;
    TargetIsEdge(n, d, pl, x, v);
    k := BranchArrives(n, d, pl, x, v, oracle, s);
  }

  /** From the code of block `x`, through its terminator, to the next block. */
  /** Through the code of `x` and its plain branch. */
  lemma RunBr(n: Numbering, d: Idom, pl: Plan, x: Label, oracle: Oracle, s: RunState, l: Label) returns (k: nat)
    requires PlanOk(pl) && Forest(pl.index, d) && Core(d, pl, x, [], s)
    requires x in pl.blocks && pl.blocks[x].Terminator().Some? && pl.blocks[x].Terminator().value.op == Br(l)
    requires Planned(n, d, pl)
    ensures k >= 1 && Matches(d, pl, FlowStep(pl.blocks, oracle, At(x, s.trace)), Run(oracle, s, k))
  {
    hide Planned, Forest, PlanOk, NodeWithin, BranchTo, Inside, Run, Here, BasicBlock.Successors, BasicBlock.Terminator;
    CoreCode(pl, x);
    var code := NodeWithin(pl, x, []);
    assert s.code[0] == code[0];
    var s1 := RunStep(oracle, s);
    assert BranchTo(pl, x, l) <= s1.code by {
      assert code[1..] == BranchTo(pl, x, l);
    }
    var j := RunTo(n, d, pl, x, l, oracle, s1);
    k := j + 1;
    RunUnfold(oracle, s, j);
  }

  /** Through the code of `x` and the arm of its conditional branch that is taken. */
  lemma RunBrCond(n: Numbering, d: Idom, pl: Plan, x: Label, oracle: Oracle, s: RunState, l: Label, m: Label)
    returns (k: nat)
    requires PlanOk(pl) && Forest(pl.index, d) && Core(d, pl, x, [], s)
    requires x in pl.blocks && pl.blocks[x].Terminator().Some? && pl.blocks[x].Terminator().value.op == BrCond(l, m)
    requires Planned(n, d, pl)
    ensures k >= 1 && Matches(d, pl, FlowStep(pl.blocks, oracle, At(x, s.trace)), Run(oracle, s, k))
  {
    hide Planned, Forest, PlanOk, NodeWithin, BranchTo, Inside, Run, Here, BasicBlock.Successors, BasicBlock.Terminator;
    CoreCode(pl, x);
    var t := pl.blocks[x].Terminator().value;
    var code := NodeWithin(pl, x, []);
    assert s.code[0] == code[0] && s.code[1] == code[1];
    var s1 := RunStep(oracle, s);
    var v := if oracle(|s1.trace|, t.args[0]) then l else m;
    var s2 := RunStep(oracle, s1);
    InsideIf(d, pl, x, s1.code[1..], s.stack);
    var j := RunTo(n, d, pl, x, v, oracle, s2);
    k := j + 2;
    RunUnfold(oracle, s1, j);
    RunUnfold(oracle, s, j + 1);
  }

  lemma RunCore(n: Numbering, d: Idom, pl: Plan, x: Label, oracle: Oracle, s: RunState) returns (k: nat)
    requires PlanOk(pl) && Forest(pl.index, d) && Core(d, pl, x, [], s)
    requires Planned(n, d, pl)
    ensures k >= 1 && Matches(d, pl, FlowStep(pl.blocks, oracle, At(x, s.trace)), Run(oracle, s, k))
  {
    hide Planned, Forest, PlanOk, NodeWithin, BranchTo, Inside, Run, Here, BasicBlock.Successors, BasicBlock.Terminator;
    CoreCode(pl, x);
    match pl.blocks[x].Terminator().value.op
    case Br(l) => k := RunBr(n, d, pl, x, oracle, s, l);
    case BrCond(l, m) => k := RunBrCond(n, d, pl, x, oracle, s, l, m);
    case _ =>
      assert s.code[0] == NodeWithin(pl, x, [])[0] && s.code[1] == NodeWithin(pl, x, [])[1];
      var s1 := RunStep(oracle, s);
      k := 2;
      RunUnfold(oracle, s, 1);
      RunUnfold(oracle, s1, 0);
      RunZero(oracle, RunStep(oracle, s1));
  }

  lemma InsideIf(d: Idom, pl: Plan, x: Label, rest: seq<Node>, stack: seq<Frame>)
    requires PlanOk(pl) && Forest(pl.index, d) && x in pl.index && Inside(d, pl, x, [], stack)
    ensures Inside(d, pl, x, [], [IfFrame(rest)] + stack)
  {
    hide Forest, PlanOk, Fit, LoopReady, BlockReady, MergeChildren;
    FitUnder(d, pl, x, IfFrame(rest), stack);
    if x in pl.headers {
      LoopUnder(d, pl, x, IfFrame(rest), stack);
    }
    forall y | y in MergeChildren(pl, x)
      ensures y in pl.index && BlockReady(d, pl, y, [IfFrame(rest)] + stack)
    {
      InsideBlock(d, pl, x, [], stack, y);
      BlockUnder(d, pl, y, IfFrame(rest), stack);
    }
  }

  lemma Visit(n: Numbering, d: Idom, pl: Plan, x: Label, oracle: Oracle, s: RunState) returns (k: nat)
    requires PlanOk(pl) && Forest(pl.index, d) && Here(d, pl, x, s)
    requires Planned(n, d, pl)
    ensures k >= 1 && Matches(d, pl, FlowStep(pl.blocks, oracle, At(x, s.trace)), Run(oracle, s, k))
  {
    hide Planned, Forest, PlanOk, NodeWithin, Inside, Run, FlowStep;
    AllMerges(pl, x);
    var i := OpenBlocks(n, d, pl, x, MergeChildren(pl, x), oracle, s);
    var s1 := Run(oracle, s, i);
    var j := RunCore(n, d, pl, x, oracle, s1);
    k := i + j;
    RunJoin(oracle, s, i, j);
  }

  // ----- whole runs -----

  /** Following `k` blocks of the graph takes at least `k` machine steps. */
  lemma {:induction false} FollowFlow(n: Numbering, d: Idom, pl: Plan, oracle: Oracle, f: FlowState, s: RunState,
                                      k: nat)
    returns (j: nat)
    requires PlanOk(pl) && Forest(pl.index, d) && Matches(d, pl, f, s)
    requires Planned(n, d, pl)
    ensures Matches(d, pl, FlowRun(pl.blocks, oracle, f, k), Run(oracle, s, j))
    ensures j >= k || FlowRun(pl.blocks, oracle, f, k).Finished?
    decreases k
  {
    hide Planned, Forest, PlanOk, Here, Run;
    if k == 0 {
      j := 0;
      RunZero(oracle, s);
    } else if f.At? {
      assert s.Running? by { assert Here(d, pl, f.next, s); HereRuns(d, pl, f.next, s); }
      var i := Visit(n, d, pl, f.next, oracle, s);
      var rest := FollowFlow(n, d, pl, oracle, FlowStep(pl.blocks, oracle, f), Run(oracle, s, i), k - 1);
      j := i + rest;
      RunJoin(oracle, s, i, rest);
    } else {
      j := 0;
      RunZero(oracle, s);
      FlowStays(pl.blocks, oracle, f, k);
    }
  }

  lemma HereRuns(d: Idom, pl: Plan, x: Label, s: RunState)
    requires PlanOk(pl) && Forest(pl.index, d) && Here(d, pl, x, s)
    ensures s.Running?
  {
  }
}
