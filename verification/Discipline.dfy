/** What the passes rely on beyond types: one definition a register, before its uses on every
    path and in the text.  Substitution keeps all of it. */
module Discipline {
  import opened Cir
  import opened Graphs
  import opened FlowGraph
  import opened Walks
  import opened Arith
  import opened Interp
  import opened Fold
  import opened Substitution
  import opened SubstitutionProof
  import opened Definitions
  import opened Passes
  import opened TextOrder
  import opened Ordering
  import opened Supply
  import opened Narrowing

  /** Every register has at most one definition. */
  ghost predicate Once(f: Function) {
    forall r :: CountDefs(f.blocks, r) <= 1
  }

  ghost predicate BranchesPlain(f: Function) {
    forall b, ins :: b in f.blocks && ins in b.instrs && ins.op.BrCond? ==> ins.dest.None?
  }

  ghost predicate Disciplined(f: Function) {
    Good(f) && UsesDefined(f) && TextOrdered(f) && Once(f) && BranchesPlain(f)
  }

  /** What stands for the registers of `rs`. */
  ghost function Image(s: Sub, rs: set<Name>): set<Name> {
    (set r | r in rs && r !in s) + (set r | r in rs && r in s && s[r].Reg? :: s[r].name)
  }

  lemma ImageFollows(s: Sub, rs: set<Name>)
    ensures Follows(s, rs, Image(s, rs))
  {}

  lemma ImageWithin(s: Sub, rs: set<Name>, seen: set<Name>, seen': set<Name>)
    requires rs <= seen && Follows(s, seen, seen')
    ensures Image(s, rs) <= seen'
  {}

  ghost function Images(s: Sub, sets: Sets): Sets {
    map l | l in sets :: Image(s, sets[l])
  }

  lemma RewriteSupplied(s: Sub, branches: bool, f: Function, sets: Sets)
    requires Supplied(f, sets) && Good(f) && KeepsTerminators(s, f) && KeepsOrder(s, branches, f)
    ensures Supplied(RewriteFunction(s, branches, f), Images(s, sets))
  {
    hide Function.GoodCfg, SuppliedAt, Rewrite, Reachable, StandsFor, BlockMap, KeepsTerminators;
    var f' := RewriteFunction(s, branches, f);
    RewriteNarrows(s, branches, f);
    forall p | p in Params(f) ensures p !in s {}
    forall l | Reachable(GraphOf(f'), l) ensures SuppliedAt(f', Images(s, sets), l) {
      ReachableWidens(f, f', l);
      ReachableNode(f, l);
      RewriteSuppliedAt(s, branches, f, sets, l);
    }
  }

  lemma RewriteSuppliedAt(s: Sub, branches: bool, f: Function, sets: Sets, l: Label)
    requires SuppliedAt(f, sets, l) && Good(f) && KeepsTerminators(s, f) && KeepsOrder(s, branches, f)
    ensures SuppliedAt(RewriteFunction(s, branches, f), Images(s, sets), l)
  {
    hide Function.GoodCfg, BlockMap, OrderedIn, AfterIn, Rewrite, StandsFor, BasicBlock.Successors, Follows, Image,
         KeepsTerminators;
    var f' := RewriteFunction(s, branches, f);
    BlockMapHas(f.blocks, l);
    var n :| 0 <= n < |f.blocks| && f.blocks[n] == BlockMap(f.blocks)[l];
    var b, b' := f.blocks[n], f'.blocks[n];
    LookedUp(s, branches, f, n);
    assert b in f.blocks;
    ImageFollows(s, sets[l]);
    RewriteOrdered(s, branches, b.instrs, sets[l], Image(s, sets[l]));
    RewriteTargets(s, branches, f, n);
    forall k | k in b'.Successors() ensures k in Images(s, sets)
        && Images(s, sets)[k] <= AfterIn(b'.instrs, Image(s, sets[l])) {
      ImageWithin(s, sets[k], AfterIn(b.instrs, sets[l]), AfterIn(b'.instrs, Image(s, sets[l])));
    }
  }

  lemma LookedUp(s: Sub, branches: bool, f: Function, n: nat)
    requires Good(f) && n < |f.blocks|
    ensures var f' := RewriteFunction(s, branches, f);
            f.blocks[n].id in BlockMap(f'.blocks) && BlockMap(f'.blocks)[f.blocks[n].id] == f'.blocks[n]
  {
    hide BlockMap, Rewrite;
    var f' := RewriteFunction(s, branches, f);
    var l := f.blocks[n].id;
    assert f'.blocks[n].id == l;
    BlockMapHas(f'.blocks, l);
    var k :| 0 <= k < |f'.blocks| && f'.blocks[k] == BlockMap(f'.blocks)[l];
    assert f'.blocks[k].id == f.blocks[k].id;
    assert f.UniqueLabels();
  }

  /** A sound rewriting leaves a disciplined function disciplined. */
  lemma RewriteKeepsDiscipline(s: Sub, branches: bool, f: Function)
    requires Disciplined(f) && KeepsTerminators(s, f) && KeepsOrder(s, branches, f)
    ensures Disciplined(RewriteFunction(s, branches, f))
  {
    hide Function.GoodCfg, UsesDefined, TextOrdered, CountDefs, Rewrite, KeepsTerminators, KeepsOrder, Supplied;
    var f' := RewriteFunction(s, branches, f);
    RewriteKeepsGood(s, branches, f);
    DefinedSupplied(f);
    RewriteSupplied(s, branches, f, SetsOf(f));
    SuppliedDefined(f', Images(s, SetsOf(f)));
    RewriteTextOrdered(s, branches, f);
    forall r ensures CountDefs(f'.blocks, r) <= 1 {
      RewriteBlocksCount(s, branches, f.blocks, f'.blocks, r);
    }
    RewritePlain(s, branches, f);
  }

  lemma RewritePlain(s: Sub, branches: bool, f: Function)
    requires BranchesPlain(f)
    ensures BranchesPlain(RewriteFunction(s, branches, f))
  {
    hide Rewrite;
    var f' := RewriteFunction(s, branches, f);
    forall b, ins | b in f'.blocks && ins in b.instrs && ins.op.BrCond? ensures ins.dest.None? {
      var n :| 0 <= n < |f.blocks| && f'.blocks[n] == b;
      RewriteMembers(s, branches, f.blocks[n].instrs, ins);
      var i :| i in f.blocks[n].instrs && !Dropped(s, i) && ins == RewriteInstr(s, branches, i);
      assert f.blocks[n] in f.blocks;
    }
  }

  // ----- types -----

  lemma SubstWellTyped(known: Sub, ins: Instr)
    requires KeepsTypes(known, ins) && WellTyped(ins)
    ensures WellTyped(SubstInstr(known, ins)) && ResultTy(SubstInstr(known, ins)) == ResultTy(ins)
    ensures ExtendsBool(SubstInstr(known, ins)) <==> ExtendsBool(ins)
  {}

  lemma SubstExtends(s: Sub, ins: Instr)
    requires KeepsTypes(s, ins)
    ensures ExtendsBool(SubstInstr(s, ins)) <==> ExtendsBool(ins)
  {}
}
