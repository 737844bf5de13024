/** Dead-code elimination: unreachable blocks and definitions nothing reads, to a fixed point. */
module Dce {
  import opened Cir
  import opened Arith
  import opened Interp
  import opened Graphs
  import opened FlowGraph
  import opened Cfg
  import opened Renaming
  import opened Pruning
  import opened PruningProof
  import opened Passes
  import opened Narrowing

  /** Every register some instruction reads. */
  function UsedRegs(f: Function): set<Name> {
    set b, i, a | b in f.blocks && i in b.instrs && a in i.args && a.Reg? :: a.name
  }

  /** Results of removable instructions that nothing reads. */
  function Unused(f: Function): set<Name> {
    (set b, i | b in f.blocks && i in b.instrs && Removable(i) :: i.dest.value) - UsedRegs(f)
  }

  function LabelsOf(f: Function): set<Label> {
    set b | b in f.blocks :: b.id
  }

  // ----- pruning twice is pruning once -----

  lemma {:induction false} PruneInstrsTwice(d: set<Name>, e: set<Name>, instrs: seq<Instr>)
    ensures PruneInstrs(e, PruneInstrs(d, instrs)) == PruneInstrs(d + e, instrs)
  {
    if instrs != [] {
      PruneInstrsTwice(d, e, instrs[1..]);
      var rest := PruneInstrs(d, instrs[1..]);
      assert ([instrs[0]] + rest)[1..] == rest;
    }
  }

  lemma {:induction false} PruneBlocksTwice(l: set<Label>, d: set<Name>, k: set<Label>, e: set<Name>,
                                            blocks: seq<BasicBlock>)
    ensures PruneBlocks(k, e, PruneBlocks(l, d, blocks)) == PruneBlocks(l * k, d + e, blocks)
  {
    hide PruneInstrs;
    if blocks != [] {
      var n := |blocks| - 1;
      PruneBlocksTwice(l, d, k, e, blocks[..n]);
      PruneInstrsTwice(d, e, blocks[n].instrs);
      var init := PruneBlocks(l, d, blocks[..n]);
      assert (init + [PruneBlock(d, blocks[n])])[..|init|] == init;
    }
  }

  lemma PruneTwice(l: set<Label>, d: set<Name>, k: set<Label>, e: set<Name>, f: Function)
    ensures Prune(k, e, Prune(l, d, f)) == Prune(l * k, d + e, f)
  {
    hide PruneBlocks;
    PruneBlocksTwice(l, d, k, e, f.blocks);
  }

  lemma {:induction false} PruneNoInstrs(instrs: seq<Instr>)
    ensures PruneInstrs({}, instrs) == instrs
  {
    if instrs != [] { PruneNoInstrs(instrs[1..]); }
  }

  lemma {:induction false} PruneNoBlocks(live: set<Label>, blocks: seq<BasicBlock>)
    requires forall b :: b in blocks ==> b.id in live
    ensures PruneBlocks(live, {}, blocks) == blocks
  {
    if blocks != [] {
      var n := |blocks| - 1;
      PruneNoBlocks(live, blocks[..n]);
      PruneNoInstrs(blocks[n].instrs);
      assert blocks[n] in blocks;
    }
  }

  lemma PruneNothing(live: set<Label>, f: Function)
    requires forall b :: b in f.blocks ==> b.id in live
    ensures Prune(live, {}, f) == f
  {
    PruneNoBlocks(live, f.blocks);
  }

  // ----- members -----

  lemma {:induction false} PrunedInstr(d: set<Name>, instrs: seq<Instr>, ins: Instr)
    ensures ins in PruneInstrs(d, instrs) <==> ins in instrs && !Dead(d, ins)
  {
    hide Dead;
    if instrs != [] {
      PrunedInstr(d, instrs[1..], ins);
      assert instrs == [instrs[0]] + instrs[1..];
    }
  }

  lemma {:induction false} PrunedBlock(live: set<Label>, d: set<Name>, blocks: seq<BasicBlock>, b: BasicBlock)
    ensures b in PruneBlocks(live, d, blocks) ==> exists o :: o in blocks && o.id in live && b == PruneBlock(d, o)
    ensures b in blocks && b.id in live ==> PruneBlock(d, b) in PruneBlocks(live, d, blocks)
  {
    hide PruneBlock;
    if blocks != [] {
      var n := |blocks| - 1;
      PrunedBlock(live, d, blocks[..n], b);
      assert blocks == blocks[..n] + [blocks[n]];
      if b in PruneBlocks(live, d, blocks) {
        if b in PruneBlocks(live, d, blocks[..n]) {
          var o :| o in blocks[..n] && o.id in live && b == PruneBlock(d, o);
          assert o in blocks;
        } else {
          assert blocks[n] in blocks && b == PruneBlock(d, blocks[n]);
        }
      }
    }
  }

  // ----- the pruned graph is well formed -----

  lemma {:induction false} PrunedLast(d: set<Name>, instrs: seq<Instr>)
    requires instrs != [] && instrs[|instrs| - 1].op.IsTerminator()
    requires forall k :: 0 <= k < |instrs| - 1 ==> !instrs[k].op.IsTerminator()
    ensures var r := PruneInstrs(d, instrs);
            r != [] && r[|r| - 1] == instrs[|instrs| - 1] && forall k :: 0 <= k < |r| - 1 ==> !r[k].op.IsTerminator()
  {
    if |instrs| > 1 {
      PrunedLast(d, instrs[1..]);
    } else {
      assert PruneInstrs(d, instrs[1..]) == [];
    }
  }

  lemma {:induction false} PrunedIds(live: set<Label>, d: set<Name>, blocks: seq<BasicBlock>)
    requires forall i, j :: 0 <= i < j < |blocks| ==> blocks[i].id != blocks[j].id
    ensures var r := PruneBlocks(live, d, blocks); forall i, j :: 0 <= i < j < |r| ==> r[i].id != r[j].id
  {
    hide PruneBlock;
    if blocks != [] {
      var n := |blocks| - 1;
      PrunedIds(live, d, blocks[..n]);
      PruneId(d, blocks[n]);
      var init := PruneBlocks(live, d, blocks[..n]);
      forall i | 0 <= i < |init| ensures init[i].id != blocks[n].id {
        PrunedBlock(live, d, blocks[..n], init[i]);
        var o :| o in blocks[..n] && o.id in live && init[i] == PruneBlock(d, o);
        PruneId(d, o);
        var k :| 0 <= k < n && blocks[k] == o;
      }
    }
  }

  lemma TerminatorKept(f: Function, d: set<Name>, o: BasicBlock)
    requires Good(f) && o in f.blocks
    ensures PruneBlock(d, o).Terminator() == o.Terminator() && o.Terminator().Some?
    ensures PruneBlock(d, o).Successors() == o.Successors()
    ensures var r := PruneBlock(d, o).instrs; forall k :: 0 <= k < |r| - 1 ==> !r[k].op.IsTerminator()
  {
    var n :| 0 <= n < |f.blocks| && f.blocks[n] == o;
    assert f.blocks[n].Terminator().Some?;
    PrunedLast(d, o.instrs);
  }

  lemma PruneKeepsGood(live: set<Label>, d: set<Name>, f: Function)
    requires Good(f) && PruneOk(live, d, f)
    ensures Good(Prune(live, d, f)) && Prune(live, d, f).blocks[0].id == f.blocks[0].id
  {
    hide PruneBlock, Function.GoodCfg, PruneBlocks, InstrOk;
    var f' := Prune(live, d, f);
    PruneFirst(live, d, f.blocks);
    PruneId(d, f.blocks[0]);
    forall n | 0 <= n < |f'.blocks|
      ensures f'.blocks[n].Terminator().Some?
      ensures forall k :: 0 <= k < |f'.blocks[n].instrs| - 1 ==> !f'.blocks[n].instrs[k].op.IsTerminator()
      ensures forall l :: l in f'.blocks[n].Successors() ==> f'.HasBlock(l)
    {
      PrunedBlock(live, d, f.blocks, f'.blocks[n]);
      var o :| o in f.blocks && o.id in live && f'.blocks[n] == PruneBlock(d, o);
      TerminatorKept(f, d, o);
      forall l | l in o.Successors() ensures f'.HasBlock(l) {
        assert BlockOk(live, d, o);
        TargetKept(live, d, f, o, l);
      }
    }
    UniqueKept(live, d, f);
    GoodFrom(f');
  }

  lemma UniqueKept(live: set<Label>, d: set<Name>, f: Function)
    requires Good(f)
    ensures Prune(live, d, f).UniqueLabels()
  {
    hide PruneBlocks;
    PrunedIds(live, d, f.blocks);
    var f' := Prune(live, d, f);
    assert f'.blocks == PruneBlocks(live, d, f.blocks);
    forall i, j | 0 <= i < j < |f'.blocks| ensures f'.blocks[i].id != f'.blocks[j].id {}
  }

  lemma GoodFrom(f: Function)
    requires f.blocks != [] && f.UniqueLabels()
    requires forall n :: 0 <= n < |f.blocks| ==>
      && f.blocks[n].Terminator().Some?
      && (forall k :: 0 <= k < |f.blocks[n].instrs| - 1 ==> !f.blocks[n].instrs[k].op.IsTerminator())
    requires forall n, l :: 0 <= n < |f.blocks| && l in f.blocks[n].Successors() ==> f.HasBlock(l)
    ensures Good(f)
  {
    hide BasicBlock.Terminator, BasicBlock.Successors, Function.HasBlock;
  }

  lemma TargetKept(live: set<Label>, d: set<Name>, f: Function, o: BasicBlock, l: Label)
    requires Good(f) && o in f.blocks && l in o.Successors() && l in live
    ensures Prune(live, d, f).HasBlock(l)
  {
    hide PruneBlock;
    var n :| 0 <= n < |f.blocks| && f.blocks[n] == o;
    assert f.HasBlock(l);
    var k :| 0 <= k < |f.blocks| && f.blocks[k].id == l;
    PrunedBlock(live, d, f.blocks, f.blocks[k]);
    PruneId(d, f.blocks[k]);
    var j :| 0 <= j < |Prune(live, d, f).blocks| && Prune(live, d, f).blocks[j] == PruneBlock(d, f.blocks[k]);
  }

  // ----- size -----

  function CountInstrs(blocks: seq<BasicBlock>): nat {
    if blocks == [] then 0 else CountInstrs(blocks[..|blocks| - 1]) + 1 + |blocks[|blocks| - 1].instrs|
  }

  lemma {:induction false} PruneInstrsShorter(d: set<Name>, instrs: seq<Instr>)
    ensures |PruneInstrs(d, instrs)| <= |instrs|
    ensures |PruneInstrs(d, instrs)| == |instrs| ==> PruneInstrs(d, instrs) == instrs
  {
    if instrs != [] { PruneInstrsShorter(d, instrs[1..]); }
  }

  /** Pruning makes a function smaller, or changes nothing. */
  lemma {:induction false} PruneShrinks(live: set<Label>, d: set<Name>, blocks: seq<BasicBlock>)
    ensures CountInstrs(PruneBlocks(live, d, blocks)) <= CountInstrs(blocks)
    ensures CountInstrs(PruneBlocks(live, d, blocks)) == CountInstrs(blocks) ==> PruneBlocks(live, d, blocks) == blocks
  {
    hide PruneInstrs;
    if blocks != [] {
      var n := |blocks| - 1;
      PruneShrinks(live, d, blocks[..n]);
      PruneInstrsShorter(d, blocks[n].instrs);
      var init := PruneBlocks(live, d, blocks[..n]);
      assert (init + [PruneBlock(d, blocks[n])])[..|init|] == init;
    }
  }

  // ----- the two eliminations -----

  /** Keep the blocks whose label is live, in order. */
  method KeepLive(f: Function, live: set<Label>) returns (res: Function)
    ensures res == Prune(live, {}, f)
  {
    var blocks: seq<BasicBlock> := [];
    for n := 0 to |f.blocks|
      invariant blocks == PruneBlocks(live, {}, f.blocks[..n])
    {
      assert f.blocks[..n + 1][..n] == f.blocks[..n];
      if f.blocks[n].id in live {
        PruneNoInstrs(f.blocks[n].instrs);
        blocks := blocks + [f.blocks[n]];
      }
    }
    assert f.blocks[..|f.blocks|] == f.blocks;
    res := f.(blocks := blocks);
  }

  /** Drop blocks with no path from the entry. */
  method RemoveUnreachable(f: Function) returns (res: Function, changed: bool, ghost live: set<Label>)
    requires Good(f)
    ensures forall l :: l in live <==> Reachable(GraphOf(f), l)
    ensures res == Prune(live, {}, f)
    ensures changed <==> res != f
    ensures !changed ==> forall b :: b in f.blocks ==> b.id in live
  {
    hide Function.GoodCfg, Reachable, PruneBlocks;
    var seen := ReachableLabels(f);
    live := seen;
    LiveAreBlocks(f, seen);
    if |seen| == |f.blocks| {
      AllLive(f, seen);
      PruneNothing(seen, f);
      res, changed := f, false;
    } else {
      res := KeepLive(f, seen);
      changed := true;
      if res == f { SomeDead(f, seen); }
    }
  }

  lemma LiveAreBlocks(f: Function, live: set<Label>)
    requires Good(f) && forall l :: l in live <==> Reachable(GraphOf(f), l)
    ensures live <= LabelsOf(f)
  {
    FunctionGraph(f);
    forall l | l in live ensures l in LabelsOf(f) {
      assert Reachable(GraphOf(f), l);
      BlockMapHas(f.blocks, l);
    }
  }

  lemma {:induction false} LabelCount(blocks: seq<BasicBlock>, ids: set<Label>)
    requires forall i, j :: 0 <= i < j < |blocks| ==> blocks[i].id != blocks[j].id
    requires forall l :: l in ids <==> exists i :: 0 <= i < |blocks| && blocks[i].id == l
    ensures |ids| == |blocks|
  {
    if blocks == [] {
      assert ids == {};
    } else {
      var n := |blocks| - 1;
      var less := ids - {blocks[n].id};
      forall l ensures l in less <==> exists i :: 0 <= i < n && blocks[..n][i].id == l {
        if l in less {
          var i :| 0 <= i < |blocks| && blocks[i].id == l;
          assert blocks[..n][i].id == l;
        }
      }
      LabelCount(blocks[..n], less);
      assert blocks[n].id in ids;
    }
  }

  lemma LabelsAre(f: Function)
    requires Good(f)
    ensures |LabelsOf(f)| == |f.blocks|
  {
    forall l ensures l in LabelsOf(f) <==> exists i :: 0 <= i < |f.blocks| && f.blocks[i].id == l {
      if l in LabelsOf(f) {
        var b :| b in f.blocks && b.id == l;
        var i :| 0 <= i < |f.blocks| && f.blocks[i] == b;
      }
      if i :| 0 <= i < |f.blocks| && f.blocks[i].id == l { assert f.blocks[i] in f.blocks; }
    }
    LabelCount(f.blocks, LabelsOf(f));
  }

  lemma AllLive(f: Function, live: set<Label>)
    requires Good(f) && live <= LabelsOf(f) && |live| == |f.blocks|
    ensures forall b :: b in f.blocks ==> b.id in live
  {
    hide Function.GoodCfg;
    LabelsAre(f);
    var rest := LabelsOf(f) - live;
    assert LabelsOf(f) == live + rest && live * rest == {};
    assert |rest| == 0;
    forall b | b in f.blocks ensures b.id in live { assert b.id in LabelsOf(f); }
  }

  /** If the counts differ, a block goes. */
  lemma SomeDead(f: Function, live: set<Label>)
    requires Good(f) && live <= LabelsOf(f) && |live| != |f.blocks|
    ensures Prune(live, {}, f) != f
  {
    hide Function.GoodCfg, PruneBlock;
    LabelsAre(f);
    assert live != LabelsOf(f);
    var l :| l in LabelsOf(f) && l !in live;
    var b :| b in f.blocks && b.id == l;
    PrunedBlock(live, {}, f.blocks, b);
    OthersLive(live, f);
  }

  lemma OthersLive(live: set<Label>, f: Function)
    ensures forall b :: b in PruneBlocks(live, {}, f.blocks) ==> b.id in live
  {
    hide PruneBlock, PruneBlocks;
    forall b | b in PruneBlocks(live, {}, f.blocks) ensures b.id in live {
      PrunedBlock(live, {}, f.blocks, b);
      var o :| o in f.blocks && o.id in live && b == PruneBlock({}, o);
      PruneId({}, o);
    }
  }

  /** Drop what nothing reads, block by block. */
  method RemoveDead(f: Function) returns (res: Function, changed: bool)
    ensures res == Prune(LabelsOf(f), Unused(f), f)
    ensures changed <==> res != f
    ensures !changed ==> Unused(f) == {}
  {
    hide Unused;
    var used := UsedRegs(f);
    var blocks: seq<BasicBlock> := [];
    changed := false;
    for n := 0 to |f.blocks|
      invariant blocks == PruneBlocks(LabelsOf(f), Unused(f), f.blocks[..n])
      invariant !changed ==> forall k, ins :: 0 <= k < n && ins in f.blocks[k].instrs ==> !Dead(Unused(f), ins)
      invariant changed ==> exists k, ins :: 0 <= k < n && ins in f.blocks[k].instrs && Dead(Unused(f), ins)
    {
      assert f.blocks[..n + 1][..n] == f.blocks[..n];
      var kept, some := SweepBlock(f, f.blocks[n], used);
      assert f.blocks[n].id in LabelsOf(f) by { assert f.blocks[n] in f.blocks; }
      blocks := blocks + [BasicBlock(f.blocks[n].id, kept)];
      changed := changed || some;
    }
    assert f.blocks[..|f.blocks|] == f.blocks;
    res := f.(blocks := blocks);
    if changed {
      var k, ins :| 0 <= k < |f.blocks| && ins in f.blocks[k].instrs && Dead(Unused(f), ins);
      DeadGoes(f, f.blocks[k], ins);
    } else {
      NothingUnused(f);
      PruneNothing(LabelsOf(f), f);
    }
  }

  lemma NothingUnused(f: Function)
    requires forall k, ins :: 0 <= k < |f.blocks| && ins in f.blocks[k].instrs ==> !Dead(Unused(f), ins)
    ensures Unused(f) == {} && forall b :: b in f.blocks ==> b.id in LabelsOf(f)
  {
    forall b, i | b in f.blocks && i in b.instrs && Removable(i) ensures i.dest.value !in Unused(f) {
      var k :| 0 <= k < |f.blocks| && f.blocks[k] == b;
      assert !Dead(Unused(f), i);
    }
  }

  lemma DeadGoes(f: Function, b: BasicBlock, ins: Instr)
    requires b in f.blocks && ins in b.instrs && Dead(Unused(f), ins)
    ensures Prune(LabelsOf(f), Unused(f), f) != f
  {
    hide Unused, PruneInstrs, Dead;
    var n :| 0 <= n < |f.blocks| && f.blocks[n] == b;
    PrunedInstr(Unused(f), b.instrs, ins);
    AllStay(LabelsOf(f), Unused(f), f.blocks);
    assert PruneBlocks(LabelsOf(f), Unused(f), f.blocks)[n] == PruneBlock(Unused(f), b);
  }

  lemma {:induction false} AllStay(live: set<Label>, d: set<Name>, blocks: seq<BasicBlock>)
    requires forall b :: b in blocks ==> b.id in live
    ensures var r := PruneBlocks(live, d, blocks);
        |r| == |blocks| && forall n :: 0 <= n < |blocks| ==> r[n] == PruneBlock(d, blocks[n])
  {
    hide PruneBlock;
    if blocks != [] {
      var n := |blocks| - 1;
      AllStay(live, d, blocks[..n]);
      assert blocks[n] in blocks;
    }
  }

  method SweepBlock(f: Function, b: BasicBlock, used: set<Name>) returns (kept: seq<Instr>, changed: bool)
    requires b in f.blocks && used == UsedRegs(f)
    ensures kept == PruneInstrs(Unused(f), b.instrs)
    ensures changed <==> exists ins :: ins in b.instrs && Dead(Unused(f), ins)
  {
    kept, changed := [], false;
    for i := 0 to |b.instrs|
      invariant PruneInstrs(Unused(f), b.instrs) == kept + PruneInstrs(Unused(f), b.instrs[i..])
      invariant changed <==> exists k :: 0 <= k < i && Dead(Unused(f), b.instrs[k])
    {
      var ins := b.instrs[i];
      assert b.instrs[i..][0] == ins && b.instrs[i..][1..] == b.instrs[i + 1..] && ins in b.instrs;
      DeadMeans(f, b, ins);
      if Removable(ins) && ins.dest.value !in used {
        changed := true;
      } else {
        kept := kept + [ins];
      }
    }
    assert b.instrs[|b.instrs|..] == [];
  }

  lemma DeadMeans(f: Function, b: BasicBlock, ins: Instr)
    requires b in f.blocks && ins in b.instrs
    ensures Dead(Unused(f), ins) <==> Removable(ins) && ins.dest.value !in UsedRegs(f)
  {}

  // ----- the pass -----

  /** `f'` is `f` pruned in a sound way. */
  ghost predicate Eliminated(f: Function, f': Function) {
    Good(f) && exists live, dead :: PrunesTo(f, f', live, dead)
  }

  ghost predicate PrunesTo(f: Function, f': Function, live: set<Label>, dead: set<Name>) {
    f' == Prune(live, dead, f) && PruneOk(live, dead, f) && Spares(f, dead)
  }

  ghost predicate Reads(ins: Instr, r: Name) {
    exists x :: x in ins.args && x.Reg? && x.name == r
  }

  /** Registers that keep each other alive: each is read, in a block control can reach, by an
      instruction that stays or whose result is one of them. */
  ghost predicate Supported(f: Function, rs: set<Name>)
    requires f.blocks != []
  {
    forall r :: r in rs ==> HasReader(f, rs, r)
  }

  ghost predicate HasReader(f: Function, rs: set<Name>, r: Name)
    requires f.blocks != []
  {
    exists b, ins :: b in f.blocks && ins in b.instrs && ReaderIn(f, rs, r, b, ins)
  }

  ghost predicate ReaderIn(f: Function, rs: set<Name>, r: Name, b: BasicBlock, ins: Instr)
    requires f.blocks != []
  {
    Reachable(GraphOf(f), b.id) && Reads(ins, r) && (!Removable(ins) || ins.dest.value in rs)
  }

  /** No register that is supported is removed. */
  ghost predicate Spares(f: Function, dead: set<Name>) {
    f.blocks != [] && forall rs: set<Name> :: Supported(f, rs) ==> rs !! dead
  }

  lemma ReachableLive(live: set<Label>, d: set<Name>, f: Function, l: Label)
    requires Good(f) && PruneOk(live, d, f) && Reachable(GraphOf(f), l)
    ensures l in live
  {
    hide Function.GoodCfg, BlockMap, BasicBlock.Successors;
    var g := GraphOf(f);
    FunctionGraph(f);
    forall u, v | u in live && Edge(g, u, v) ensures v in live {
      BlockMapHas(f.blocks, u);
      assert BlockOk(live, d, BlockMap(f.blocks)[u]);
    }
    var p :| Connects(g, g.entry, p, l);
    ClosedHoldsPaths(g, live, p, l);
  }

  /** What the pruned function never reads has no support. */
  lemma UnusedSpares(f: Function, cur: Function, live: set<Label>, dead: set<Name>)
    requires Good(f) && PrunesTo(f, cur, live, dead)
    ensures Spares(f, dead + Unused(cur))
  {
    hide Function.GoodCfg, Reachable, PruneOk, Prune, Unused, Removable;
    forall rs: set<Name> | Supported(f, rs) ensures rs !! dead + Unused(cur) {
      assert rs !! dead;
      forall r | r in rs ensures r !in Unused(cur) {
        assert HasReader(f, rs, r);
        var b, ins :| b in f.blocks && ins in b.instrs && ReaderIn(f, rs, r, b, ins);
        ReachableLive(live, dead, f, b.id);
        ReaderStays(f, cur, live, dead, b, ins, r);
      }
    }
  }

  lemma ReaderStays(f: Function, cur: Function, live: set<Label>, dead: set<Name>, b: BasicBlock, ins: Instr, r: Name)
    requires cur == Prune(live, dead, f) && b in f.blocks && b.id in live && ins in b.instrs && Reads(ins, r)
    requires !Removable(ins) || ins.dest.value !in dead
    ensures r !in Unused(cur)
  {
    hide PruneBlocks;
    PrunedBlock(live, dead, f.blocks, b);
    PrunedInstr(dead, b.instrs, ins);
    var c := PruneBlock(dead, b);
    assert c in cur.blocks && ins in c.instrs;
    var x :| x in ins.args && x.Reg? && x.name == r;
    assert r in UsedRegs(cur);
  }

  lemma EntryLive(f: Function, live: set<Label>)
    requires Good(f) && forall l :: l in live <==> Reachable(GraphOf(f), l)
    ensures f.blocks[0].id in live
  {
    FunctionGraph(f);
    EntryReachable(GraphOf(f));
  }

  /** Restricting to the blocks reachable in the pruned function is sound for the source. */
  lemma ReachableOk(f: Function, cur: Function, live: set<Label>, dead: set<Name>, seen: set<Label>)
    requires Good(f) && PrunesTo(f, cur, live, dead) && Good(cur)
    requires forall l :: l in seen <==> Reachable(GraphOf(cur), l)
    ensures PrunesTo(f, Prune(seen, {}, cur), live * seen, dead)
  {
    hide Function.GoodCfg, Reachable, InstrOk, PruneBlocks, PruneBlock, Supported;
    PruneTwice(live, dead, seen, {}, f);
    assert dead + {} == dead;
    EntryLive(cur, seen);
    PruneFirst(live, dead, f.blocks);
    PruneId(dead, f.blocks[0]);
    forall b | b in f.blocks ensures BlockOk(live * seen, dead, b) {
      assert BlockOk(live, dead, b);
      if b.id in live && b.id in seen {
        forall l | l in b.Successors() ensures l in seen { SuccessorSeen(f, cur, live, dead, seen, b, l); }
      }
    }
  }

  lemma SuccessorSeen(f: Function, cur: Function, live: set<Label>, dead: set<Name>, seen: set<Label>, b: BasicBlock,
                      l: Label)
    requires Good(f) && cur == Prune(live, dead, f) && Good(cur) && b in f.blocks && b.id in live && b.id in seen
        && l in b.Successors()
    requires forall k :: k in seen <==> Reachable(GraphOf(cur), k)
    ensures l in seen
  {
    hide Reachable, PruneBlocks, PruneBlock;
    TerminatorKept(f, dead, b);
    PrunedBlock(live, dead, f.blocks, b);
    PruneId(dead, b);
    var k :| 0 <= k < |cur.blocks| && cur.blocks[k] == PruneBlock(dead, b);
    EdgeBlocks(cur, b.id, l);
    FunctionGraph(cur);
    EdgeReachable(GraphOf(cur), b.id, l);
  }

  /** Dropping what the pruned function never reads is sound for the source. */
  lemma UnusedOk(f: Function, cur: Function, live: set<Label>, dead: set<Name>)
    requires Good(f) && PrunesTo(f, cur, live, dead)
    ensures PrunesTo(f, Prune(LabelsOf(cur), Unused(cur), cur), live, dead + Unused(cur))
  {
    hide Function.GoodCfg, PruneBlocks, PruneBlock, Unused, Supported;
    PruneTwice(live, dead, LabelsOf(cur), Unused(cur), f);
    SameLive(f, live, dead, LabelsOf(cur), dead + Unused(cur));
    UnusedSpares(f, cur, live, dead);
    forall b | b in f.blocks ensures BlockOk(live, dead + Unused(cur), b) {
      assert BlockOk(live, dead, b);
      if b.id in live {
        forall ins | ins in b.instrs ensures InstrOk(dead + Unused(cur), ins) {
          assert InstrOk(dead, ins);
          if !Dead(dead, ins) { KeptReads(f, cur, live, dead, b, ins); }
        }
      }
    }
  }

  /** The labels of the pruned function select the same blocks. */
  lemma SameLive(f: Function, live: set<Label>, dead: set<Name>, ids: set<Label>, d: set<Name>)
    requires ids == LabelsOf(Prune(live, dead, f))
    ensures Prune(live * ids, d, f) == Prune(live, d, f)
  {
    hide PruneBlock, PruneBlocks;
    forall b | b in f.blocks ensures b.id in live * ids <==> b.id in live {
      PrunedBlock(live, dead, f.blocks, b);
      PruneId(dead, b);
    }
    SelectAlike(live * ids, live, d, f.blocks);
  }

  lemma {:induction false} SelectAlike(l: set<Label>, k: set<Label>, d: set<Name>, blocks: seq<BasicBlock>)
    requires forall b :: b in blocks ==> (b.id in l <==> b.id in k)
    ensures PruneBlocks(l, d, blocks) == PruneBlocks(k, d, blocks)
  {
    if blocks != [] {
      SelectAlike(l, k, d, blocks[..|blocks| - 1]);
      assert blocks[|blocks| - 1] in blocks;
    }
  }

  lemma KeptReads(f: Function, cur: Function, live: set<Label>, dead: set<Name>, b: BasicBlock, ins: Instr)
    requires cur == Prune(live, dead, f) && b in f.blocks && b.id in live && ins in b.instrs && !Dead(dead, ins)
        && NotRead(dead, ins.args)
    ensures NotRead(dead + Unused(cur), ins.args)
  {
    hide PruneBlocks;
    PrunedBlock(live, dead, f.blocks, b);
    PrunedInstr(dead, b.instrs, ins);
    var c := PruneBlock(dead, b);
    assert c in cur.blocks && ins in c.instrs;
    forall k | 0 <= k < |ins.args| && ins.args[k].Reg? ensures ins.args[k].name in UsedRegs(cur) {
      assert ins.args[k] in ins.args;
    }
  }

  lemma NothingYet(f: Function)
    requires Good(f)
    ensures PrunesTo(f, f, LabelsOf(f), {})
  {
    hide Supported;
    forall b | b in f.blocks ensures b.id in LabelsOf(f) {}
    PruneNothing(LabelsOf(f), f);
    forall b | b in f.blocks ensures BlockOk(LabelsOf(f), {}, b) {
      forall l | l in b.Successors() ensures l in LabelsOf(f) {
        var n :| 0 <= n < |f.blocks| && f.blocks[n] == b;
        assert f.HasBlock(l);
        var k :| 0 <= k < |f.blocks| && f.blocks[k].id == l;
        assert f.blocks[k] in f.blocks;
      }
      forall ins | ins in b.instrs ensures InstrOk({}, ins) {}
    }
    assert f.blocks[0] in f.blocks;
  }

  /** Nothing left to remove: every block is reachable, every removable result is read. */
  ghost predicate Clean(f: Function)
    requires f.blocks != []
  {
    (forall b :: b in f.blocks ==> Reachable(GraphOf(f), b.id)) && Unused(f) == {}
  }

  /** One round: first blocks, then definitions. */
  method EliminateRound(ghost f: Function, cur: Function, ghost live: set<Label>, ghost dead: set<Name>)
      returns (res: Function, changed: bool, ghost live': set<Label>, ghost dead': set<Name>)
    requires Good(f) && Good(cur) && PrunesTo(f, cur, live, dead)
    ensures Good(res) && PrunesTo(f, res, live', dead')
    ensures changed ==> CountInstrs(res.blocks) < CountInstrs(cur.blocks)
    ensures !changed ==> res == cur && Clean(cur)
  {
    hide Good, PrunesTo, Unused, Reachable, PruneBlocks, CountInstrs;
    var mid, fewer, seen := RemoveUnreachable(cur);
    ReachableOk(f, cur, live, dead, seen);
    live' := live * seen;
    PrunedGood(f, mid, live', dead);
    PruneShrinks(seen, {}, cur.blocks);
    var smaller;
    res, smaller := RemoveDead(mid);
    UnusedOk(f, mid, live', dead);
    dead' := dead + Unused(mid);
    PrunedGood(f, res, live', dead');
    PruneShrinks(LabelsOf(mid), Unused(mid), mid.blocks);
    changed := fewer || smaller;
    SameBlocks(cur, mid);
    SameBlocks(mid, res);
    if !changed { CleanNow(cur, seen); }
  }

  lemma CleanNow(f: Function, seen: set<Label>)
    requires Good(f) && Unused(f) == {}
    requires forall l :: l in seen <==> Reachable(GraphOf(f), l)
    requires forall b :: b in f.blocks ==> b.id in seen
    ensures Clean(f)
  {
    hide Reachable, Unused;
  }

  lemma SameBlocks(f: Function, f': Function)
    requires f'.name == f.name && f'.params == f.params
    ensures f'.blocks == f.blocks ==> f' == f
  {}

  lemma PrunedGood(f: Function, f': Function, live: set<Label>, dead: set<Name>)
    requires Good(f) && PrunesTo(f, f', live, dead)
    ensures Good(f') && f'.blocks != []
  {
    PruneKeepsGood(live, dead, f);
  }

  /** Eliminate to a fixed point. */
  method EliminateDead(f: Function) returns (res: Function, changed: bool)
    requires Good(f)
    ensures Eliminated(f, res) && Good(res) && Clean(res)
    ensures !changed ==> res == f
  {
    hide Good, PrunesTo, Clean, CountInstrs;
    NothingYet(f);
    ghost var live, dead: set<Name> := LabelsOf(f), {};
    var going := true;
    res, changed := f, false;
    while going
      invariant Good(res) && PrunesTo(f, res, live, dead)
      invariant !changed ==> res == f
      invariant !going ==> res.blocks != [] && Clean(res)
      decreases CountInstrs(res.blocks), going
    {
      PrunedGood(f, res, live, dead);
      res, going, live, dead := EliminateRound(f, res, live, dead);
      changed := changed || going;
    }
  }

  // ----- what it does to a program -----

  ghost function CutOf(f: Function, f': Function): Cut
    requires Eliminated(f, f')
  {
    var live, dead :| PrunesTo(f, f', live, dead);
    Cut(live, dead)
  }

  /** What elimination leaves has no new edge. */
  lemma EliminationNarrows(f: Function, f': Function)
    requires Eliminated(f, f')
    ensures Narrowed(f, f')
  {
    hide PruneBlock, PruneBlocks, Answers, Function.GoodCfg, BlockOk;
    var live, dead :| PrunesTo(f, f', live, dead);
    PruneFirst(live, dead, f.blocks);
    PruneId(dead, f.blocks[0]);
    forall b' | b' in f'.blocks ensures Answers(f, b') {
      PrunedBlock(live, dead, f.blocks, b');
      var o :| o in f.blocks && o.id in live && b' == PruneBlock(dead, o);
      TerminatorKept(f, dead, o);
      PruneId(dead, o);
      AnsweredBy(f, o, b');
    }
    NarrowedFrom(f, f');
  }

  lemma AnsweredBy(f: Function, o: BasicBlock, b': BasicBlock)
    requires o in f.blocks && b'.id == o.id && b'.Successors() == o.Successors()
    ensures Answers(f, b')
  {}

  lemma CutPrunes(f: Function, f': Function)
    requires Eliminated(f, f')
    ensures PrunesTo(f, f', CutOf(f, f').live, CutOf(f, f').dead)
  {
    hide PrunesTo;
  }

  ghost predicate FunctionEliminated(env: Env, env': Env, g: Name) {
    g in env.funcs && g in env'.funcs && Eliminated(env.funcs[g], env'.funcs[g])
  }

  /** The same program with dead code eliminated in every function. */
  ghost predicate AllEliminated(env: Env, env': Env) {
    && env'.funcs.Keys == env.funcs.Keys && env' == env.(funcs := env'.funcs)
    && forall g :: g in env.funcs ==> FunctionEliminated(env, env', g)
  }

  ghost predicate CutFits(env: Env, env': Env, cuts: map<Name, Cut>, g: Name) {
    g in env.funcs && g in env'.funcs && g in cuts && PrunesTo(env.funcs[g], env'.funcs[g], cuts[g].live, cuts[g].dead)
  }

  lemma EliminatedPruned(env: Env, env': Env) returns (cuts: map<Name, Cut>)
    requires AllEliminated(env, env')
    ensures Pruned(env, env', cuts) && forall g :: g in env.funcs ==> CutFits(env, env', cuts, g)
  {
    hide Eliminated, Prune, PruneOk, CutOf, Spares;
    forall g | g in env.funcs ensures Eliminated(env.funcs[g], env'.funcs[g]) {
        assert FunctionEliminated(env, env', g); }
    cuts := map g | g in env.funcs :: CutOf(env.funcs[g], env'.funcs[g]);
    forall g | g in env.funcs ensures FunctionPruned(env, env', cuts, g) {
      CutPrunes(env.funcs[g], env'.funcs[g]);
      EliminatedGood(env.funcs[g], env'.funcs[g]);
    }
    assert cuts.Keys == env.funcs.Keys;
    forall g | g in env.funcs ensures CutFits(env, env', cuts, g) { CutPrunes(env.funcs[g], env'.funcs[g]); }
  }

  lemma EliminatedGood(f: Function, f': Function)
    requires Eliminated(f, f')
    ensures f.GoodCfg()
  {}

  ghost predicate NoPointers(vs: seq<Val>) {
    forall k :: 0 <= k < |vs| ==> !vs[k].VPtr?
  }

  ghost predicate NoPointerGlobals(globs: map<Name, Val>) {
    forall g :: g in globs ==> !globs[g].VPtr?
  }

  /** The same globals; a global that holds an address holds some value. */
  ghost predicate SameGlobals(a: map<Name, Val>, b: map<Name, Val>) {
    b.Keys == a.Keys && forall g :: g in a && !a[g].VPtr? ==> b[g] == a[g]
  }

  /** A run that returns returns the same value with the same output and leaves the same globals, one that is still
      going has printed the same, and one that traps or fails has printed a prefix. */
  ghost predicate KeepsRun(r: Outcome, r': Outcome) {
    match r
    case Done(v, m) => r'.Done? && r'.Out() == r.Out() && (!v.VPtr? ==> r'.v == v) && SameGlobals(m.globs, r'.m.globs)
    case Trapped(out) => out <= r'.Out()
    case OutOfFuel(_) => r' == r
    case Failed(out) => out <= r'.Out()
  }

  /** Dead-code elimination keeps every run of a whole program in this sense. */
  lemma EliminationKeepsRuns(env: Env, env': Env, fuel: nat, globs: map<Name, Val>, entry: Name, args: seq<Val>)
    requires AllEliminated(env, env') && NoPointers(args) && NoPointerGlobals(globs)
    ensures KeepsRun(RunProgram(env, fuel, globs, entry, args), RunProgram(env', fuel, globs, entry, args))
  {
    hide AllEliminated, Pruned, CallFn;
    var cuts := EliminatedPruned(env, env');
    var m := Mem(globs, map[], 0, []);
    assert MemRel(map[], m, m) && ValsRel(map[], args, args);
    var q := CallPruned(env, env', cuts, fuel, entry, map[], args, args, m, m);
    MatchesKeeps(Quiet(env, cuts), q, CallFn(env, fuel, entry, args, m), CallFn(env', fuel, entry, args, m));
  }

  lemma MatchesKeeps(quiet: bool, q: Slotmap, r: Outcome, r': Outcome)
    requires Matches(quiet, map[], q, 0, r, r')
    ensures KeepsRun(r, r') && (quiet && r.Trapped? ==> r' == r)
  {
    if r.Done? { SameOutput(q, r.m, r'.m); }
  }

  // ----- a trap can disappear -----

  const T := Name("t")

  /** Divides by zero and ignores the result. */
  const TRAPS := Function(Name("main"), [], [BasicBlock(Label("entry"), [
    Instr(Bin(Sdiv), I32, Some(T), [ConstInt(1, I32), ConstInt(0, I32)]),
    Instr(Ret, Void, None, [])])])

  const RETURNS := Function(Name("main"), [], [BasicBlock(Label("entry"), [Instr(Ret, Void, None, [])])])

  function Alone(fl: Floats, f: Function): Env {
    Env(fl, map[Name("main") := f], false, false)
  }

  /** So the guarantee for trapping runs cannot be more than a prefix. */
  lemma TrapVanishes(fl: Floats)
    ensures RunProgram(Alone(fl, TRAPS), 1, map[], Name("main"), []).Trapped?
    ensures RunProgram(Alone(fl, RETURNS), 1, map[], Name("main"), []).Done?
    ensures RETURNS == Prune(LabelsOf(TRAPS), Unused(TRAPS), TRAPS)
  {
    hide Step, Prune, Unused;
    var b := TRAPS.blocks[0];
    TrapsNow(fl, b.instrs[0], b.instrs[1]);
    assert Decode(b.instrs[0], map[]).Compute?;
    TrapPruned();
  }

  lemma TrapPruned()
    ensures RETURNS == Prune(LabelsOf(TRAPS), Unused(TRAPS), TRAPS)
  {
    hide PruneInstrs;
    var b := TRAPS.blocks[0];
    var div, ret := b.instrs[0], b.instrs[1];
    assert b.instrs == [div, ret];
    assert div in b.instrs && b in TRAPS.blocks && b.id in LabelsOf(TRAPS);
    UsesNothing();
    assert T in Unused(TRAPS);
    PrunedPair(Unused(TRAPS), div, ret);
    assert TRAPS.blocks[..0] == [] && PruneBlocks(LabelsOf(TRAPS), Unused(TRAPS), []) == [];
    assert [] + [PruneBlock(Unused(TRAPS), b)] == RETURNS.blocks;
  }

  lemma UsesNothing()
    ensures T !in UsedRegs(TRAPS)
  {
    var b := TRAPS.blocks[0];
    assert forall x :: x in TRAPS.blocks ==> x == b;
    assert forall i :: i in b.instrs ==> i == b.instrs[0] || i == b.instrs[1];
  }

  lemma PrunedPair(d: set<Name>, a: Instr, b: Instr)
    requires Dead(d, a) && !Dead(d, b)
    ensures PruneInstrs(d, [a, b]) == [b]
  {
    assert [a, b][1..] == [b] && [b][1..] == [];
    assert PruneInstrs(d, [b]) == [b] + PruneInstrs(d, [b][1..]);
  }

  lemma TrapsNow(fl: Floats, div: Instr, ret: Instr)
    requires div == TRAPS.blocks[0].instrs[0] && ret == TRAPS.blocks[0].instrs[1]
    ensures forall m: Mem :: Step(Alone(fl, TRAPS), div, map[], {}, m) == StepTraps
  {
    forall m: Mem ensures Step(Alone(fl, TRAPS), div, map[], {}, m) == StepTraps {
      var xs := div.args;
      assert xs[..2] == xs && xs[..1][..0] == [];
      assert OperandVals(map[], []) == Some([]);
      assert OperandVals(map[], xs[..1]) == Some([] + [VInt(Wrap(1, I32))]);
      assert OperandVals(map[], xs).Some?;
      ZeroWraps();
    }
  }

  lemma ZeroWraps()
    ensures Wrap(0, I32) == 0
  {
    var p := Pow2(32);
    assert p > 0 && 0 % p == 0;
  }
}
