/** Dead-code elimination keeps what the other passes ask for. */
module Elimination {
  import opened Cir
  import opened Graphs
  import opened FlowGraph
  import opened Cfg
  import opened Walks
  import opened Definedness
  import opened Definitions
  import opened TypedFunctions
  import opened Fold
  import opened Passes
  import opened Provenance
  import opened TextOrder
  import opened Supply
  import opened Narrowing
  import opened Discipline
  import opened Renaming
  import opened Pruning
  import opened Dce

  // ----- one block -----

  /** Kept instructions read nothing of `gone`, and what is removed only defines it. */
  ghost predicate Cuts(d: set<Name>, instrs: seq<Instr>, gone: set<Name>) {
    forall ins :: ins in instrs ==> if Dead(d, ins) then Named(ins.dest) <= gone else NotRead(gone, ins.args)
  }

  lemma {:induction false} PruneOrderedIn(d: set<Name>, instrs: seq<Instr>, gone: set<Name>, seen: set<Name>,
                                          seen': set<Name>)
    requires Cuts(d, instrs, gone) && OrderedIn(instrs, seen) && seen - gone <= seen'
    ensures OrderedIn(PruneInstrs(d, instrs), seen')
    ensures AfterIn(instrs, seen) - gone <= AfterIn(PruneInstrs(d, instrs), seen')
    decreases |instrs|
  {
    if instrs != [] {
      var ins := instrs[0];
      assert ins in instrs && Cuts(d, instrs[1..], gone);
      if Dead(d, ins) {
        PruneOrderedIn(d, instrs[1..], gone, seen + Named(ins.dest), seen');
      } else {
        PruneOrderedIn(d, instrs[1..], gone, seen + Named(ins.dest), seen' + Named(ins.dest));
        var rest := PruneInstrs(d, instrs[1..]);
        assert ([ins] + rest)[1..] == rest;
      }
    }
  }

  lemma {:induction false} RemovedAfter(instrs: seq<Instr>, gone: set<Name>, seen: set<Name>, seen': set<Name>)
    requires seen - gone <= seen' && forall ins :: ins in instrs ==> Named(ins.dest) <= gone
    ensures AfterIn(instrs, seen) - gone <= seen'
    decreases |instrs|
  {
    if instrs != [] {
      assert instrs[0] in instrs;
      RemovedAfter(instrs[1..], gone, seen + Named(instrs[0].dest), seen');
    }
  }

  // ----- on every path -----

  ghost function Without(sets: Sets, d: set<Name>): Sets {
    map l | l in sets :: sets[l] - d
  }

  lemma DeadCuts(live: set<Label>, d: set<Name>, f: Function, b: BasicBlock)
    requires PruneOk(live, d, f) && b in f.blocks && b.id in live
    ensures Cuts(d, b.instrs, d)
  {
    hide NotRead;
    assert BlockOk(live, d, b);
    forall ins | ins in b.instrs ensures if Dead(d, ins) then Named(ins.dest) <= d
        else NotRead(d, ins.args) { assert InstrOk(d, ins); }
  }

  lemma PruneSuppliedAt(live: set<Label>, d: set<Name>, f: Function, sets: Sets, l: Label)
    requires SuppliedAt(f, sets, l) && Good(f) && PruneOk(live, d, f) && l in live
    ensures SuppliedAt(Prune(live, d, f), Without(sets, d), l)
  {
    hide Function.GoodCfg, BlockMap, OrderedIn, AfterIn, PruneInstrs, PruneBlocks, PruneOk, Cuts, BasicBlock.Successors;
    PruneLookup(live, d, f.blocks, l);
    BlockMapHas(f.blocks, l);
    var b := BlockMap(f.blocks)[l];
    assert b in f.blocks;
    DeadCuts(live, d, f, b);
    TerminatorKept(f, d, b);
    PruneOrderedIn(d, b.instrs, d, sets[l], sets[l] - d);
  }

  lemma PruneSupplied(live: set<Label>, d: set<Name>, f: Function, sets: Sets)
    requires Supplied(f, sets) && Good(f) && PruneOk(live, d, f) && Narrowed(f, Prune(live, d, f))
    ensures Supplied(Prune(live, d, f), Without(sets, d))
  {
    hide Function.GoodCfg, BlockMap, SuppliedAt, PruneBlocks, BlockOk, Reachable;
    var f' := Prune(live, d, f);
    PruneFirst(live, d, f.blocks);
    PruneId(d, f.blocks[0]);
    forall l | Reachable(GraphOf(f'), l) ensures SuppliedAt(f', Without(sets, d), l) {
      ReachableWidens(f, f', l);
      ReachableNode(f', l);
      PruneLookup(live, d, f.blocks, l);
      PruneSuppliedAt(live, d, f, sets, l);
    }
  }

  // ----- in the text -----

  /** Everything a removed instruction defined. */
  ghost function Gone(live: set<Label>, d: set<Name>, f: Function): set<Name> {
    set b, ins | b in f.blocks && ins in b.instrs && ins.dest.Some? && (b.id !in live || Dead(d, ins)) :: ins.dest.value
  }

  /** A definition on the way to a reachable use is in a live block. */
  lemma UseHasLiveDef(live: set<Label>, d: set<Name>, f: Function, q: Pos, k: nat) returns (p: Pos)
    requires Good(f) && UsesDefined(f) && PruneOk(live, d, f) && Reachable(GraphOf(f), q.block) && InCode(f, q)
        && InCode(f, Pos(q.block, 0))
    requires k < |InstrAt(f, q).args| && InstrAt(f, q).args[k].Reg? && InstrAt(f, q).args[k].name !in f.params
    ensures DefinesAt(f, p, InstrAt(f, q).args[k].name) && p.block in live
  {
    hide Function.GoodCfg, BlockMap, PruneOk, Reachable;
    var r := InstrAt(f, q).args[k].name;
    var path := PathTo(f, q.block);
    var v := PathWalks(f, path, q.block);
    var w := WalkWithin(f, v, q.block, q.index);
    assert UseDefined(f, q, k);
    var j :| 0 <= j < |w| - 1 && DefinesAt(f, w[j], r);
    p := w[j];
    WalkPrefix(f, w, j + 1);
    WalkReaches(f, w[..j + 1], p);
    ReachableLive(live, d, f, p.block);
  }

  lemma PathTo(f: Function, l: Label) returns (p: seq<Label>)
    requires f.blocks != [] && Reachable(GraphOf(f), l)
    ensures Connects(GraphOf(f), GraphOf(f).entry, p, l)
  {
    p :| Connects(GraphOf(f), GraphOf(f).entry, p, l);
  }

  lemma KeptReads(live: set<Label>, d: set<Name>, f: Function, b: BasicBlock, ins: Instr, k: nat)
    requires Disciplined(f) && ParamsFixed(f) && PruneOk(live, d, f) && b in f.blocks && b.id in live
        && ins in b.instrs && !Dead(d, ins)
    requires Reachable(GraphOf(f), b.id) && k < |ins.args| && ins.args[k].Reg?
    ensures ins.args[k].name !in Gone(live, d, f)
  {
    hide Function.GoodCfg, BlockMap, Reachable, UsesDefined, TextOrdered, CountDefs, DefinesAt, PruneOk, BranchesPlain;
    var r := ins.args[k].name;
    forall b0, ins0 | b0 in f.blocks && ins0 in b0.instrs && ins0.dest == Some(r)
      ensures b0.id in live && !Dead(d, ins0) {
      var n, i := PlaceIn(f, b, ins);
      var q := Pos(b.id, i);
      PlaceInCode(f, n, i);
      var p := UseHasLiveDef(live, d, f, q, k);
      var m := PlaceOf(f, p, r);
      assert CountDefs(f.blocks, r) <= 1;
      OnlyInstr(f, r, b0, ins0, f.blocks[m], f.blocks[m].instrs[p.index]);
      DeadUnread(live, d, f, b, ins, k);
    }
  }

  lemma DeadUnread(live: set<Label>, d: set<Name>, f: Function, b: BasicBlock, ins: Instr, k: nat)
    requires PruneOk(live, d, f) && b in f.blocks && b.id in live && ins in b.instrs && !Dead(d, ins) && k < |ins.args|
        && ins.args[k].Reg?
    ensures ins.args[k].name !in d
  {
    assert BlockOk(live, d, b);
    assert InstrOk(d, ins);
  }

  lemma PlaceIn(f: Function, b: BasicBlock, ins: Instr) returns (n: nat, i: nat)
    requires b in f.blocks && ins in b.instrs
    ensures n < |f.blocks| && f.blocks[n] == b && i < |b.instrs| && b.instrs[i] == ins
  {
    n :| 0 <= n < |f.blocks| && f.blocks[n] == b;
    i :| 0 <= i < |b.instrs| && b.instrs[i] == ins;
  }

  lemma PlaceInCode(f: Function, n: nat, i: nat)
    requires Good(f) && n < |f.blocks| && i < |f.blocks[n].instrs|
    ensures var q := Pos(f.blocks[n].id, i);
        InCode(f, q) && InstrAt(f, q) == f.blocks[n].instrs[i] && InCode(f, Pos(q.block, 0))
  {
    hide BlockMap;
    var l := f.blocks[n].id;
    BlockMapHas(f.blocks, l);
    var m :| 0 <= m < |f.blocks| && f.blocks[m] == BlockMap(f.blocks)[l];
    assert f.UniqueLabels();
  }

  lemma LiveCuts(live: set<Label>, d: set<Name>, f: Function, b: BasicBlock)
    requires Disciplined(f) && ParamsFixed(f) && PruneOk(live, d, f) && b in f.blocks && b.id in live
        && Reachable(GraphOf(f), b.id)
    ensures Cuts(d, b.instrs, Gone(live, d, f))
  {
    hide Disciplined, ParamsFixed, PruneOk, Reachable, Gone, Dead;
    forall ins | ins in b.instrs ensures if Dead(d, ins) then Named(ins.dest) <= Gone(live, d, f)
        else NotRead(Gone(live, d, f), ins.args) {
      if Dead(d, ins) {
        RemovedIsGone(live, d, f, b, ins);
      } else {
        forall k | 0 <= k < |ins.args| && ins.args[k].Reg?
          ensures ins.args[k].name !in Gone(live, d, f) { KeptReads(live, d, f, b, ins, k); }
      }
    }
  }

  lemma RemovedIsGone(live: set<Label>, d: set<Name>, f: Function, b: BasicBlock, ins: Instr)
    requires b in f.blocks && ins in b.instrs && (b.id !in live || Dead(d, ins))
    ensures Named(ins.dest) <= Gone(live, d, f)
  {}

  /** The blocks from the front. */
  lemma {:induction false} PruneFront(live: set<Label>, d: set<Name>, blocks: seq<BasicBlock>)
    requires blocks != []
    ensures PruneBlocks(live, d, blocks) == (if blocks[0].id in live then [PruneBlock(d, blocks[0])] else []) +
        PruneBlocks(live, d, blocks[1..])
    decreases |blocks|
  {
    hide PruneBlock;
    if |blocks| == 1 {
      assert blocks[..0] == [] && blocks[1..] == [];
    } else {
      var n := |blocks| - 1;
      PruneFront(live, d, blocks[..n]);
      assert blocks[..n][1..] == blocks[1..][..n - 1];
    }
  }

  ghost predicate LiveReachable(live: set<Label>, f: Function)
    requires f.blocks != []
  {
    forall b :: b in f.blocks && b.id in live ==> Reachable(GraphOf(f), b.id)
  }

  lemma {:induction false} PruneOrderedBlocks(live: set<Label>, d: set<Name>, f: Function, blocks: seq<BasicBlock>,
                                              seen: set<Name>, seen': set<Name>)
    requires Disciplined(f) && ParamsFixed(f) && PruneOk(live, d, f) && LiveReachable(live, f)
    requires (forall b :: b in blocks ==> b in f.blocks) && OrderedBlocks(blocks, seen)
        && seen - Gone(live, d, f) <= seen'
    ensures OrderedBlocks(PruneBlocks(live, d, blocks), seen')
    decreases |blocks|
  {
    hide Disciplined, ParamsFixed, PruneOk, Reachable, Gone, OrderedIn, AfterIn, PruneInstrs, PruneBlocks,
         LiveReachable, Cuts;
    if blocks == [] {
      NothingPruned(live, d);
    } else {
      var b, gone := blocks[0], Gone(live, d, f);
      assert b in f.blocks;
      PruneFront(live, d, blocks);
      if b.id in live {
        LiveIsReachable(live, f, b);
        LiveCuts(live, d, f, b);
        PruneOrderedIn(d, b.instrs, gone, seen, seen');
        var after' := AfterIn(PruneInstrs(d, b.instrs), seen');
        PruneOrderedBlocks(live, d, f, blocks[1..], AfterIn(b.instrs, seen), after');
        var rest := PruneBlocks(live, d, blocks[1..]);
        assert ([PruneBlock(d, b)] + rest)[1..] == rest;
      } else {
        forall ins | ins in b.instrs ensures Named(ins.dest) <= gone { RemovedIsGone(live, d, f, b, ins); }
        RemovedAfter(b.instrs, gone, seen, seen');
        PruneOrderedBlocks(live, d, f, blocks[1..], AfterIn(b.instrs, seen), seen');
        assert [] + PruneBlocks(live, d, blocks[1..]) == PruneBlocks(live, d, blocks[1..]);
      }
    }
  }

  lemma NothingPruned(live: set<Label>, d: set<Name>)
    ensures PruneBlocks(live, d, []) == []
  {}

  lemma LiveIsReachable(live: set<Label>, f: Function, b: BasicBlock)
    requires f.blocks != [] && LiveReachable(live, f) && b in f.blocks && b.id in live
    ensures Reachable(GraphOf(f), b.id)
  {
    hide Reachable;
  }

  // ----- definitions counted, members -----

  lemma {:induction false} PruneCounts(d: set<Name>, instrs: seq<Instr>, r: Name)
    ensures CountIn(PruneInstrs(d, instrs), r) <= CountIn(instrs, r)
  {
    hide CountIn, Dead;
    if instrs != [] {
      PruneCounts(d, instrs[1..], r);
      CountFirst(instrs, r);
      if !Dead(d, instrs[0]) {
        var rest := PruneInstrs(d, instrs[1..]);
        CountFirst([instrs[0]] + rest, r);
        assert ([instrs[0]] + rest)[1..] == rest;
      }
    }
  }

  lemma {:induction false} PruneBlocksCount(live: set<Label>, d: set<Name>, blocks: seq<BasicBlock>, r: Name)
    ensures CountDefs(PruneBlocks(live, d, blocks), r) <= CountDefs(blocks, r)
  {
    hide CountIn, PruneInstrs;
    if blocks != [] {
      var n := |blocks| - 1;
      PruneBlocksCount(live, d, blocks[..n], r);
      PruneCounts(d, blocks[n].instrs, r);
      var init := PruneBlocks(live, d, blocks[..n]);
      assert (init + [PruneBlock(d, blocks[n])])[..|init|] == init;
    }
  }

  /** What is left was there. */
  lemma PrunedMember(live: set<Label>, d: set<Name>, f: Function, b: BasicBlock, ins: Instr) returns (o: BasicBlock)
    requires b in Prune(live, d, f).blocks && ins in b.instrs
    ensures o in f.blocks && ins in o.instrs
  {
    hide PruneBlocks, PruneInstrs;
    PrunedBlock(live, d, f.blocks, b);
    o :| o in f.blocks && o.id in live && b == PruneBlock(d, o);
    PrunedInstr(d, o.instrs, ins);
  }

  lemma EliminationMade(f: Function, f': Function)
    requires Eliminated(f, f')
    ensures MadeFrom(f, f')
  {
    hide PruneBlocks, PruneInstrs, Good, PruneOk, Spares, ComesFrom;
    var live, dead :| PrunesTo(f, f', live, dead);
    forall b, ins | b in f'.blocks && ins in b.instrs ensures HasOrigin(f, ins) {
      var o := PrunedMember(live, dead, f, b, ins);
      ComesFromSelf(ins);
    }
  }

  lemma PruneKeepsTypes(types: Typing, live: set<Label>, d: set<Name>, f: Function)
    requires TypedFunction(types, f) && NoBoolExtension(f) && ParamsFixed(f) && BranchesPlain(f)
    ensures var f' := Prune(live, d, f);
        TypedFunction(types, f') && NoBoolExtension(f') && ParamsFixed(f') && BranchesPlain(f')
  {
    hide PruneBlocks, TypedInstr, ExtendsBool;
    var f' := Prune(live, d, f);
    forall b, ins | b in f'.blocks && ins in b.instrs
      ensures TypedInstr(types, ins) && !ExtendsBool(ins) && (ins.dest.Some? ==> ins.dest.value !in f'.params)
          && (ins.op.BrCond? ==> ins.dest.None?) {
      var o := PrunedMember(live, d, f, b, ins);
    }
  }

  /** Eliminating dead code from a disciplined function leaves one. */
  lemma EliminationKeepsDiscipline(types: Typing, f: Function, f': Function)
    requires Eliminated(f, f') && Good(f') && Clean(f') && Disciplined(f)
    requires TypedFunction(types, f) && NoBoolExtension(f) && ParamsFixed(f)
    ensures Disciplined(f') && TypedFunction(types, f') && NoBoolExtension(f') && ParamsFixed(f')
  {
    hide Function.GoodCfg, UsesDefined, TextOrdered, CountDefs, PruneOk, Prune, Supplied, TypedFunction,
         NoBoolExtension, ParamsFixed, BranchesPlain, Clean, Narrowed;
    EliminationNarrows(f, f');
    var live, d :| PrunesTo(f, f', live, d);
    PruneKeepsTypes(types, live, d, f);
    DefinedSupplied(f);
    PruneSupplied(live, d, f, SetsOf(f));
    SuppliedDefined(f', Without(SetsOf(f), d));
    forall r ensures CountDefs(f'.blocks, r) <= 1 { PruneCountsAll(live, d, f, r); }
    CleanIsReachable(live, d, f);
    PruneTextOrdered(live, d, f);
  }

  lemma PruneCountsAll(live: set<Label>, d: set<Name>, f: Function, r: Name)
    ensures CountDefs(Prune(live, d, f).blocks, r) <= CountDefs(f.blocks, r)
  {
    PruneBlocksCount(live, d, f.blocks, r);
  }

  lemma CleanIsReachable(live: set<Label>, d: set<Name>, f: Function)
    requires Good(f) && Prune(live, d, f).blocks != [] && Clean(Prune(live, d, f)) && Narrowed(f, Prune(live, d, f))
    ensures LiveReachable(live, f)
  {
    hide Function.GoodCfg, PruneBlocks, Reachable, PruneBlock, Narrowed, Unused;
    var f' := Prune(live, d, f);
    forall b | b in f.blocks && b.id in live ensures Reachable(GraphOf(f), b.id) {
      PrunedBlock(live, d, f.blocks, b);
      PruneId(d, b);
      ReachableWidens(f, f', b.id);
    }
  }

  lemma PruneTextOrdered(live: set<Label>, d: set<Name>, f: Function)
    requires Disciplined(f) && ParamsFixed(f) && PruneOk(live, d, f) && LiveReachable(live, f)
    ensures TextOrdered(Prune(live, d, f))
  {
    hide ParamsFixed, PruneOk, LiveReachable, PruneBlocks, Gone, OrderedBlocks, UsesDefined, CountDefs,
         Function.GoodCfg;
    PruneOrderedBlocks(live, d, f, f.blocks, Params(f), Params(f));
  }
}
