/** The fallback for graphs that cannot be structured: a loop that dispatches on a program
    counter.  It follows the graph of every function. */
module Dispatch {
  import opened Cir
  import opened Graphs
  import opened FlowGraph
  import opened StructuredRun
  import opened StructurerShape
  import Structurer
  import opened Structuring

  // ----- the code -----

  /** What an arm does after the instructions of its block. */
  datatype Next =
    | Jump(pc: nat)
    | Choose(cond: Operand, thenPc: nat, elsePc: nat)
    | Leave(ret: Instr)

  /** `if pc == number then ...` inside the loop. */
  datatype Arm = Arm(number: nat, block: BasicBlock, next: Next)

  type Positions = map<Label, nat>

  /** The number of each block; of two with one label the later would win. */
  function Numbers(blocks: seq<BasicBlock>): (r: Positions)
    ensures r.Keys == BlockMap(blocks).Keys
  {
    if blocks == [] then map[] else Numbers(blocks[..|blocks| - 1])[blocks[|blocks| - 1].id := |blocks| - 1]
  }

  /** Do all targets of the terminator have numbers? */
  predicate Numbered(index: Positions, b: BasicBlock) {
    && b.Terminator().Some? && b.HasCondition()
    && forall l :: l in b.Successors() ==> l in index
  }

  function NextOf(index: Positions, b: BasicBlock): Next
    requires Numbered(index, b)
  {
    var t := b.Terminator().value;
    match t.op
    case Br(l) =>
      assert l in b.Successors();
      Jump(index[l])
    case BrCond(l, m) =>
      assert l in b.Successors() && m in b.Successors();
      Choose(t.args[0], index[l], index[m])
    case _ => Leave(t)
  }

  /** One arm for each block, in order. */
  ghost predicate ArmsOf(f: Function, index: Positions, arms: seq<Arm>) {
    && |arms| == |f.blocks|
    && forall n :: 0 <= n < |arms| ==>
        Numbered(index, f.blocks[n]) && arms[n] == Arm(n, f.blocks[n], NextOf(index, f.blocks[n]))
  }

  // ----- the loop, as WebAssembly 1.0 section 4.4.5 reads it -----

  datatype LoopState =
    | Testing(pc: nat, at: nat, trace: seq<BasicBlock>)     // about to compare with arm `at`
    | Left(ret: Instr, trace: seq<BasicBlock>)
    | FellOff(trace: seq<BasicBlock>)                        // the trailing `unreachable`

  function LoopStep(arms: seq<Arm>, oracle: Oracle, s: LoopState): LoopState {
    if !s.Testing? then s
    else if s.at >= |arms| then FellOff(s.trace)
    else if arms[s.at].number != s.pc then Testing(s.pc, s.at + 1, s.trace)
    else
      var trace := s.trace + [arms[s.at].block];
      match arms[s.at].next
      case Jump(pc) => Testing(pc, 0, trace)
      case Choose(c, thenPc, elsePc) => Testing(if oracle(|trace|, c) then thenPc else elsePc, 0, trace)
      case Leave(ret) => Left(ret, trace)
  }

  function LoopRun(arms: seq<Arm>, oracle: Oracle, s: LoopState, k: nat): LoopState
    decreases k
  {
    if k == 0 then s else LoopRun(arms, oracle, LoopStep(arms, oracle, s), k - 1)
  }

  function LoopFrom(arms: seq<Arm>, oracle: Oracle, k: nat): LoopState {
    LoopRun(arms, oracle, Testing(0, 0, []), k)
  }

  lemma {:induction false} LoopJoin(arms: seq<Arm>, oracle: Oracle, s: LoopState, j: nat, k: nat)
    ensures LoopRun(arms, oracle, s, j + k) == LoopRun(arms, oracle, LoopRun(arms, oracle, s, j), k)
    decreases j
  {
    if j > 0 { LoopJoin(arms, oracle, LoopStep(arms, oracle, s), j - 1, k); }
  }

  lemma {:induction false} LoopStays(arms: seq<Arm>, oracle: Oracle, s: LoopState, k: nat)
    requires !s.Testing?
    ensures LoopRun(arms, oracle, s, k) == s
    decreases k
  {
    if k > 0 { LoopStays(arms, oracle, s, k - 1); }
  }

  lemma {:induction false} LoopTrace(arms: seq<Arm>, oracle: Oracle, s: LoopState, k: nat)
    ensures s.trace <= LoopRun(arms, oracle, s, k).trace
    decreases k
  {
    if k > 0 { LoopTrace(arms, oracle, LoopStep(arms, oracle, s), k - 1); }
  }

  // ----- it follows the graph -----

  /** Same blocks so far, and finished alike with the same return. */
  predicate Follows(f: FlowState, s: LoopState) {
    && !f.Lost? && !s.FellOff? && f.trace == s.trace
    && (f.Finished? <==> s.Left?) && (f.Finished? ==> f.ret == s.ret)
  }

  /** After `k` blocks of the graph the loop is at the same place; after `k` of its own steps it has
      run a prefix of the same blocks, has not fallen out, and if it left the graph returned the same. */
  ghost predicate SameLoop(f: Function, arms: seq<Arm>, oracle: Oracle, k: nat)
    requires f.blocks != []
  {
    && (exists j :: Follows(FlowFrom(f, oracle, k), LoopFrom(arms, oracle, j)))
    && !LoopFrom(arms, oracle, k).FellOff?
    && LoopFrom(arms, oracle, k).trace <= FlowFrom(f, oracle, k).trace
    && (LoopFrom(arms, oracle, k).Left? ==> Follows(FlowFrom(f, oracle, k), LoopFrom(arms, oracle, k)))
  }

  lemma {:induction false} NumbersPlaces(blocks: seq<BasicBlock>, n: nat)
    requires n < |blocks| && forall i, j :: 0 <= i < j < |blocks| ==> blocks[i].id != blocks[j].id
    ensures blocks[n].id in Numbers(blocks) && Numbers(blocks)[blocks[n].id] == n
    ensures blocks[n].id in BlockMap(blocks) && BlockMap(blocks)[blocks[n].id] == blocks[n]
  {
    var last := |blocks| - 1;
    if n < last {
      NumbersPlaces(blocks[..last], n);
      assert blocks[..last][n] == blocks[n];
    }
  }

  /** Comparing with the arms in turn comes to the one for `pc`. */
  lemma {:induction false} Scans(arms: seq<Arm>, oracle: Oracle, pc: nat, at: nat, trace: seq<BasicBlock>)
    requires at <= pc < |arms| && forall n :: 0 <= n < |arms| ==> arms[n].number == n
    ensures LoopRun(arms, oracle, Testing(pc, at, trace), pc - at) == Testing(pc, pc, trace)
    decreases pc - at
  {
    if at < pc { Scans(arms, oracle, pc, at + 1, trace); }
  }

  /** The loop is about to look for the block the graph is at. */
  ghost predicate Level(f: Function, index: Positions, fs: FlowState, s: LoopState) {
    match fs
    case At(l, trace) => l in index && s == Testing(index[l], 0, trace)
    case Finished(ret, trace) => s == Left(ret, trace)
    case Lost(_) => false
  }

  lemma NumberedBlock(f: Function, index: Positions, arms: seq<Arm>, l: Label)
    requires f.GoodCfg() && index == Numbers(f.blocks) && ArmsOf(f, index, arms) && l in index
    ensures index[l] < |arms| && l in BlockMap(f.blocks) && arms[index[l]].block == BlockMap(f.blocks)[l]
    ensures var b := BlockMap(f.blocks)[l]; Numbered(index, b) && arms[index[l]].next == NextOf(index, b)
  {
    hide BlockMap, Numbers, NextOf, Numbered;
    BlockMapHas(f.blocks, l);
    var n :| 0 <= n < |f.blocks| && f.blocks[n].id == l;
    NumbersPlaces(f.blocks, n);
  }

  /** One block of the graph is one round of the loop. */
  lemma RoundFollows(f: Function, index: Positions, arms: seq<Arm>, oracle: Oracle, l: Label, trace: seq<BasicBlock>)
      returns (k: nat)
    requires f.GoodCfg() && index == Numbers(f.blocks) && ArmsOf(f, index, arms) && l in index
    ensures k >= 1
    ensures Level(f, index, FlowStep(BlockMap(f.blocks), oracle, At(l, trace)),
        LoopRun(arms, oracle, Testing(index[l], 0, trace), k))
  {
    hide BlockMap, Numbers, Function.GoodCfg, LoopRun, BasicBlock.Terminator, BasicBlock.Successors;
    NumberedBlock(f, index, arms, l);
    var pc, b := index[l], BlockMap(f.blocks)[l];
    Scans(arms, oracle, pc, 0, trace);
    k := pc + 1;
    LoopJoin(arms, oracle, Testing(pc, 0, trace), pc, 1);
    OneStep(arms, oracle, Testing(pc, pc, trace));
    TargetsNumbered(index, b);
  }

  lemma OneStep(arms: seq<Arm>, oracle: Oracle, s: LoopState)
    ensures LoopRun(arms, oracle, s, 1) == LoopStep(arms, oracle, s)
  {
    assert LoopRun(arms, oracle, LoopStep(arms, oracle, s), 0) == LoopStep(arms, oracle, s);
  }

  lemma TargetsNumbered(index: Positions, b: BasicBlock)
    requires Numbered(index, b)
    ensures b.Terminator().Some?
    ensures b.Terminator().value.op.Br? ==> b.Terminator().value.op.target in index
    ensures b.Terminator().value.op.BrCond? ==>
              b.Terminator().value.op.thenTarget in index && b.Terminator().value.op.elseTarget in index
              && b.Terminator().value.args != []
  {
    var t := b.Terminator().value;
    if t.op.Br? { assert t.op.target in b.Successors(); }
    if t.op.BrCond? { assert t.op.thenTarget in b.Successors() && t.op.elseTarget in b.Successors(); }
  }

  lemma {:induction false} LoopFollows(f: Function, index: Positions, arms: seq<Arm>, oracle: Oracle,
                                       fs: FlowState, s: LoopState, k: nat) returns (j: nat)
    requires f.GoodCfg() && index == Numbers(f.blocks) && ArmsOf(f, index, arms) && Level(f, index, fs, s)
    ensures var fk := FlowRun(BlockMap(f.blocks), oracle, fs, k);
            Level(f, index, fk, LoopRun(arms, oracle, s, j)) && (j >= k || fk.Finished?)
    decreases k
  {
    hide BlockMap, Numbers, Function.GoodCfg, ArmsOf, LoopStep, FlowStep;
    j := 0;
    if k > 0 {
      match fs
      case At(l, trace) =>
        var i := RoundFollows(f, index, arms, oracle, l, trace);
        var m := LoopFollows(f, index, arms, oracle, FlowStep(BlockMap(f.blocks), oracle, fs),
            LoopRun(arms, oracle, s, i), k - 1);
        LoopJoin(arms, oracle, s, i, m);
        j := i + m;
      case Finished(_, _) => FlowStays(BlockMap(f.blocks), oracle, fs, k);
    }
  }

  lemma LoopSame(f: Function, index: Positions, arms: seq<Arm>, oracle: Oracle, k: nat)
    requires f.blocks != [] && f.GoodCfg() && index == Numbers(f.blocks) && ArmsOf(f, index, arms)
    ensures SameLoop(f, arms, oracle, k)
  {
    hide Numbers, Function.GoodCfg, ArmsOf, LoopRun, FlowRun, BlockMap;
    EntryNumber(f);
    var s, fk := Testing(0, 0, []), FlowFrom(f, oracle, k);
    var j := LoopFollows(f, index, arms, oracle, At(f.blocks[0].id, []), s, k);
    assert Follows(fk, LoopFrom(arms, oracle, j));
    if j >= k {
      LoopJoin(arms, oracle, s, k, j - k);
      LoopTrace(arms, oracle, LoopRun(arms, oracle, s, k), j - k);
      if !LoopRun(arms, oracle, s, k).Testing? { LoopStays(arms, oracle, LoopRun(arms, oracle, s, k), j - k); }
    } else {
      LoopJoin(arms, oracle, s, j, k - j);
      LoopStays(arms, oracle, LoopRun(arms, oracle, s, j), k - j);
    }
  }

  lemma EntryNumber(f: Function)
    requires f.blocks != [] && f.GoodCfg()
    ensures f.blocks[0].id in Numbers(f.blocks) && Numbers(f.blocks)[f.blocks[0].id] == 0
  {
    NumbersPlaces(f.blocks, 0);
  }

  // ----- the emitter -----

  lemma TargetsThere(f: Function, n: nat)
    requires f.GoodCfg() && f.ConditionsGiven() && n < |f.blocks|
    ensures Numbered(Numbers(f.blocks), f.blocks[n])
  {
    hide BlockMap, Numbers, BasicBlock.Terminator, BasicBlock.Successors;
    forall l | l in f.blocks[n].Successors() ensures l in Numbers(f.blocks) {
      assert f.HasBlock(l);
      BlockMapHas(f.blocks, l);
      assert l in BlockMap(f.blocks).Keys;
    }
  }

  /** The dispatch loop of any function follows its graph, reducible or not. */
  method EmitDispatch(f: Function) returns (arms: seq<Arm>)
    requires f.GoodCfg() && f.ConditionsGiven()
    ensures f.blocks != [] && forall oracle: Oracle, k: nat :: SameLoop(f, arms, oracle, k)
  {
    hide Function.GoodCfg, Function.ConditionsGiven, Numbers, NextOf, Numbered, SameLoop;
    var index: Positions := map[];
    for n := 0 to |f.blocks|
      invariant index == Numbers(f.blocks[..n])
    {
      NumbersNext(f.blocks, n);
      index := index[f.blocks[n].id := n];
    }
    assert f.blocks[..|f.blocks|] == f.blocks;
    arms := [];
    for n := 0 to |f.blocks|
      invariant |arms| == n
      invariant forall i :: 0 <= i < n ==>
                  Numbered(index, f.blocks[i]) && arms[i] == Arm(i, f.blocks[i], NextOf(index, f.blocks[i]))
    {
      TargetsThere(f, n);
      arms := arms + [Arm(n, f.blocks[n], NextOf(index, f.blocks[n]))];
    }
    GraphClosed(f);
    forall oracle: Oracle, k: nat ensures SameLoop(f, arms, oracle, k) { LoopSame(f, index, arms, oracle, k); }
  }

  lemma NumbersNext(blocks: seq<BasicBlock>, n: nat)
    requires n < |blocks|
    ensures Numbers(blocks[..n + 1]) == Numbers(blocks[..n])[blocks[n].id := n]
  {
    assert blocks[..n + 1][..n] == blocks[..n];
  }

  datatype Control = Regions(nodes: seq<Structurer.Node>) | Loop(arms: seq<Arm>)

  /** Structured code where there is some, and the dispatch loop otherwise: either follows the graph. */
  method EmitControl(f: Function) returns (c: Control)
    requires f.GoodCfg() && f.ConditionsGiven()
    ensures f.blocks != [] && (c.Regions? <==> Reducible(GraphOf(f)))
    ensures c.Regions? ==> forall oracle: Oracle, k: nat :: SameRun(f, c.nodes, oracle, k)
    ensures c.Loop? ==> forall oracle: Oracle, k: nat :: SameLoop(f, c.arms, oracle, k)
  {
    hide Function.GoodCfg, Function.ConditionsGiven, Reducible, SameLoop, SameRun, IsSecondEntry;
    var r := Structure(f);
    match r
    case Structured(nodes) =>
      GraphClosed(f);
      c := Regions(nodes);
    case Irreducible(_, _) =>
      var arms := EmitDispatch(f);
      c := Loop(arms);
  }
}
