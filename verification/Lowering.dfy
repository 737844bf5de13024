/** What the passes leave of a function that can be lowered can be lowered too, and structured. */
module Lowering {
  import opened Cir
  import opened Arith
  import opened Interp
  import opened Graphs
  import opened FlowGraph
  import opened Bytecode
  import opened Layout
  import opened LowerSteps
  import opened NaiveProof
  import opened NaiveRuns
  import opened TextOrder
  import opened Passes
  import opened Narrowing
  import opened Provenance

  // ----- one instruction -----

  /** Can be lowered wherever its registers have locals. */
  ghost predicate Fits(ins: Instr) {
    Shaped(ins) && (ins.op.Br? || NoGlobals(Pushed(ins))) && (Computes(ins) ==> Applied(ins).Some?)
  }

  predicate HaveLocals(ins: Instr, locals: set<Name>) {
    forall k :: 0 <= k < |ins.args| && ins.args[k].Reg? ==> ins.args[k].name in locals
  }

  lemma LoweredFits(ins: Instr, locals: set<Name>, next: Option<Label>)
    requires Shaped(ins) && LowerInstr(ins, locals, next).Some?
    ensures Fits(ins)
  {
    hide PushAll, IntTable, FloatTable, CmpTable, FcmpTable, SuffixTable;
    if !ins.op.Br? {
      if Computes(ins) { LowerShape(ins, locals, next); }
      assert PushAll(Pushed(ins), locals).Some?;
      PushedPlain(Pushed(ins), locals);
    }
  }

  lemma FitLowers(ins: Instr, locals: set<Name>, next: Option<Label>)
    requires Fits(ins) && HaveLocals(ins, locals)
    ensures LowerInstr(ins, locals, next).Some?
  {
    hide PushAll, IntTable, FloatTable, CmpTable, FcmpTable, SuffixTable;
    if !ins.op.Br? {
      assert forall k :: 0 <= k < |Pushed(ins)| ==> Pushed(ins)[k] == ins.args[k];
      AllPushed(Pushed(ins), locals);
    }
  }

  /** Replacing registers by registers or constants of the same type changes none of this. */
  lemma FitsFrom(ins: Instr, ins': Instr)
    requires Fits(ins) && ComesFrom(ins, ins')
    ensures Fits(ins')
  {
    hide IntTable, FloatTable, CmpTable, FcmpTable, SuffixTable;
    if ins'.op == ins.op && |ins'.args| == |ins.args| {
      forall k | 0 <= k < |ins.args| && !ins.args[k].GlobalRef? ensures !ins'.args[k].GlobalRef? {}
      assert Shaped(ins');
      assert ins'.op.Br? || NoGlobals(Pushed(ins'));
    }
  }

  // ----- a function -----

  ghost predicate AllFit(f: Function) {
    forall b, ins :: b in f.blocks && ins in b.instrs ==> Fits(ins)
  }

  lemma {:induction false} LowersEach(instrs: seq<Instr>, locals: set<Name>, next: Option<Label>, k: nat)
    requires LowerInstrs(instrs, locals, next).Some? && k < |instrs|
    ensures LowerInstr(instrs[k], locals, next).Some?
  {
    hide LowerInstr;
    if k > 0 { LowersEach(instrs[1..], locals, next, k - 1); }
  }

  lemma LowerableFits(f: Function)
    requires Lowerable(f)
    ensures AllFit(f)
  {
    hide LowerInstrs, LowerInstr, Fits, Shaped, Function.GoodCfg, EntryUnreached, LocalTable;
    forall b, ins | b in f.blocks && ins in b.instrs ensures Fits(ins) {
      var n :| 0 <= n < |f.blocks| && f.blocks[n] == b;
      var k :| 0 <= k < |b.instrs| && b.instrs[k] == ins;
      assert ShapedBlock(f.blocks[n]) && NaiveBlock(f, n).Some?;
      LowersEach(b.instrs, LocalTable(f), NextLabel(f, n), k);
      LoweredFits(ins, LocalTable(f), NextLabel(f, n));
    }
  }

  lemma FitFrom(f: Function, f': Function)
    requires AllFit(f) && MadeFrom(f, f')
    ensures AllFit(f')
  {
    hide Fits, ComesFrom;
    forall b', ins' | b' in f'.blocks && ins' in b'.instrs ensures Fits(ins') {
      assert HasOrigin(f, ins');
      var b, ins :| b in f.blocks && ins in b.instrs && ComesFrom(ins, ins');
      FitsFrom(ins, ins');
    }
  }

  // ----- every register read has a local -----

  lemma {:induction false} SeenIn(instrs: seq<Instr>, seen: set<Name>, all: set<Name>)
    requires OrderedIn(instrs, seen) && seen <= all && forall i :: i in instrs && i.dest.Some? ==> i.dest.value in all
    ensures AfterIn(instrs, seen) <= all && forall i :: i in instrs ==> HaveLocals(i, all)
  {
    if instrs != [] {
      assert instrs[0] in instrs && instrs == [instrs[0]] + instrs[1..];
      SeenIn(instrs[1..], seen + Named(instrs[0].dest), all);
    }
  }

  lemma {:induction false} SeenInBlocks(blocks: seq<BasicBlock>, seen: set<Name>, all: set<Name>)
    requires OrderedBlocks(blocks, seen) && seen <= all
    requires forall b, i :: b in blocks && i in b.instrs && i.dest.Some? ==> i.dest.value in all
    ensures forall b, i :: b in blocks && i in b.instrs ==> HaveLocals(i, all)
  {
    hide OrderedIn, AfterIn, HaveLocals;
    if blocks != [] {
      assert blocks[0] in blocks && blocks == [blocks[0]] + blocks[1..];
      SeenIn(blocks[0].instrs, seen, all);
      SeenInBlocks(blocks[1..], AfterIn(blocks[0].instrs, seen), all);
    }
  }

  lemma OrderedHaveLocals(f: Function)
    requires TextOrdered(f)
    ensures forall b, i :: b in f.blocks && i in b.instrs ==> HaveLocals(i, LocalTable(f))
  {
    hide OrderedBlocks, HaveLocals;
    SeenInBlocks(f.blocks, Params(f), LocalTable(f));
  }

  lemma FitEmits(f: Function)
    requires AllFit(f) && TextOrdered(f)
    ensures Emits(f)
  {
    hide Fits, HaveLocals, TextOrdered, LowerInstr, LowerInstrs, LocalTable;
    OrderedHaveLocals(f);
    forall n | 0 <= n < |f.blocks| ensures NaiveBlock(f, n).Some? {
      var b := f.blocks[n];
      forall k | 0 <= k < |b.instrs| ensures LowerInstr(b.instrs[k], LocalTable(f), NextLabel(f, n)).Some? {
        assert b in f.blocks && b.instrs[k] in b.instrs;
        FitLowers(b.instrs[k], LocalTable(f), NextLabel(f, n));
      }
      AllLower(b.instrs, LocalTable(f), NextLabel(f, n));
    }
  }

  // ----- what the passes leave -----

  lemma NoEdgeToEntry(f: Function, u: Label)
    requires Good(f) && EntryUnreached(f)
    ensures !Edge(GraphOf(f), u, f.blocks[0].id)
  {
    hide BlockMap, BasicBlock.Successors;
    BlockMapHas(f.blocks, u);
    if u in BlockMap(f.blocks) {
      var i :| 0 <= i < |f.blocks| && f.blocks[i] == BlockMap(f.blocks)[u];
      assert f.blocks[0].id !in f.blocks[i].Successors();
    }
  }

  lemma EntryStaysUnreached(f: Function, f': Function)
    requires Good(f) && Good(f') && EntryUnreached(f) && Narrowed(f, f')
    ensures EntryUnreached(f')
  {
    hide BlockMap, BasicBlock.Successors, EntryUnreached;
    var e := f'.blocks[0].id;
    forall n | 0 <= n < |f'.blocks| ensures e !in f'.blocks[n].Successors() {
      var u := f'.blocks[n].id;
      BlockMapHas(f'.blocks, u);
      var k :| 0 <= k < |f'.blocks| && f'.blocks[k] == BlockMap(f'.blocks)[u];
      assert k == n;
      NoEdgeToEntry(f, u);
      assert !Edge(GraphOf(f), u, e);
      assert !Edge(GraphOf(f'), u, e);
    }
    EntryUnreachedFrom(f');
  }

  lemma EntryUnreachedFrom(f: Function)
    requires f.blocks != [] && forall n :: 0 <= n < |f.blocks| ==> f.blocks[0].id !in f.blocks[n].Successors()
    ensures EntryUnreached(f)
  {}

  /** A function made from one that can be lowered, with no new edge, can be lowered. */
  lemma StaysLowerable(f: Function, f': Function)
    requires Lowerable(f) && Good(f') && TextOrdered(f') && Narrowed(f, f') && MadeFrom(f, f')
    ensures Lowerable(f')
  {
    hide Function.GoodCfg, EntryUnreached, Emits, ShapedBlock, MadeFrom, AllFit, TextOrdered, Narrowed;
    LowerableFits(f);
    FitFrom(f, f');
    FitEmits(f');
    EntryStaysUnreached(f, f');
    forall n | 0 <= n < |f'.blocks| ensures ShapedBlock(f'.blocks[n]) { FitShaped(f', n); }
  }

  lemma FitShaped(f: Function, n: nat)
    requires AllFit(f) && n < |f.blocks|
    ensures ShapedBlock(f.blocks[n])
  {
    hide Shaped;
    forall i | i in f.blocks[n].instrs ensures Shaped(i) { assert f.blocks[n] in f.blocks && Fits(i); }
  }

  /** Every conditional branch of a function that can be lowered has its condition. */
  lemma LowerableConditions(f: Function)
    requires Lowerable(f)
    ensures f.ConditionsGiven()
  {
    hide Emits, EntryUnreached;
    forall n | 0 <= n < |f.blocks| ensures f.blocks[n].HasCondition() {
      var b := f.blocks[n];
      assert ShapedBlock(b) && b.Terminator().Some?;
      assert b.instrs[|b.instrs| - 1] in b.instrs;
    }
  }
}
