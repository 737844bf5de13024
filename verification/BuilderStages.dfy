/** The builder's output is what the optimiser and the bytecode emitter ask for. */
module BuilderStages {
  import opened Cir
  import opened Arith
  import opened Fold
  import opened FlowGraph
  import opened Walks
  import opened Definitions
  import opened TypedFunctions
  import opened Passes
  import opened Copies
  import opened ConstFold
  import opened CopyProp
  import opened TextOrder
  import opened Discipline
  import opened Bytecode
  import opened Layout
  import opened LowerSteps
  import opened NaiveProof
  import opened Labels
  import opened BuilderData
  import opened BuilderBlocks
  import opened BuilderCode
  import opened BuilderNames
  import opened BuilderOutput
  import opened Cfg

  // ----- definitions before uses in the text -----

  /** Everything the first `i` blocks and the parameters name has been seen. */
  ghost predicate Seen(d: Data, blocks: seq<BasicBlock>, i: nat, seen: set<Name>) {
    d.params <= seen && forall r :: InText(blocks, i, r) ==> r in seen
  }

  lemma {:induction false} OrderedRest(d: Data, blocks: seq<BasicBlock>, n: nat, i: nat, seen: set<Name>)
    requires CodeOk(d, blocks, false, n) && i <= |blocks| && Seen(d, blocks, i, seen)
    ensures OrderedBlocks(blocks[i..], seen)
    decreases |blocks| - i
  {
    hide CodeOk, Earlier, OrderedIn, AfterIn, Seen;
    var rest := blocks[i..];
    if i < |blocks| {
      StartSeen(d, blocks, n, i, seen);
      WholeOrdered(d, blocks[i], i == 0, n, seen);
      var more := AfterIn(blocks[i].instrs, seen);
      NextBlockSeen(d, blocks, i, seen);
      OrderedRest(d, blocks, n, i + 1, more);
      assert rest[1..] == blocks[i + 1..];
    }
  }

  lemma StartSeen(d: Data, blocks: seq<BasicBlock>, n: nat, i: nat, seen: set<Name>)
    requires CodeOk(d, blocks, false, n) && i < |blocks| && Seen(d, blocks, i, seen)
    ensures BlockCode(d, blocks[i]) && d.avail[blocks[i].id] <= seen && (i == 0 ==> SlotCode(d, blocks[i], n))
        && (i > 0 ==> d.slots <= seen)
  {
    hide Earlier, InText, EdgeCode, HereCode, ParamCode, InstrCode;
    FineBlock(d, blocks, false, n, i);
    assert Sourced(d, blocks, i, d.avail[blocks[i].id]);
    if i > 0 {
      forall r | r in d.slots ensures r in seen { SlotSeen(blocks, i, n, r); }
    }
  }

  lemma SlotSeen(blocks: seq<BasicBlock>, i: nat, n: nat, r: Name)
    requires blocks != [] && n <= |blocks[0].instrs| && Earlier(blocks[0].instrs, n, r) && i > 0
    ensures InText(blocks, i, r)
  {
    assert Defines(blocks[0], r);
  }

  lemma NextBlockSeen(d: Data, blocks: seq<BasicBlock>, i: nat, seen: set<Name>)
    requires i < |blocks| && Seen(d, blocks, i, seen)
    ensures Seen(d, blocks, i + 1, AfterIn(blocks[i].instrs, seen))
  {
    hide Earlier, AfterIn;
    var instrs := blocks[i].instrs;
    forall r ensures r in AfterIn(instrs, seen) <==>
        r in seen || Earlier(instrs, |instrs|, r) { AfterHas(instrs, seen, r); }
    forall r | InText(blocks, i + 1, r) ensures r in AfterIn(instrs, seen) {
      var m :| 0 <= m < i + 1 && m < |blocks| && Defines(blocks[m], r);
      if m < i { assert InText(blocks, i, r); }
    }
  }

  lemma OutputOrdered(d: Data, f: Function, n: nat)
    requires CodeOk(d, f.blocks, false, n) && d.params == (set p | p in f.params)
    ensures TextOrdered(f)
  {
    hide CodeOk;
    OrderedRest(d, f.blocks, n, 0, Params(f));
    assert f.blocks[0..] == f.blocks;
  }

  // ----- one definition a register, none of a parameter -----

  lemma OutputSingle(d: Data, f: Function, taken: set<Name>, nTmp: nat)
    requires d.clean && NamesOk(d, f.blocks, taken, nTmp) && d.params == (set p | p in f.params)
    ensures ParamsFixed(f) && forall r :: CountDefs(f.blocks, r) <= 1
  {
    hide CountDefs, PlainName, TempName;
    forall b, ins | b in f.blocks && ins in b.instrs && ins.dest.Some? ensures ins.dest.value !in f.params {
      DefinesCounts(f, b, ins, ins.dest.value);
      assert CountDefs(f.blocks, ins.dest.value) <= 1;
    }
  }

  lemma DefinesCounts(f: Function, b: BasicBlock, ins: Instr, r: Name)
    requires b in f.blocks && ins in b.instrs && ins.dest == Some(r)
    ensures CountDefs(f.blocks, r) >= 1
  {
    hide CountIn, CountDefs;
    var n :| 0 <= n < |f.blocks| && f.blocks[n] == b;
    var i :| 0 <= i < |b.instrs| && b.instrs[i] == ins;
    CountedIn(b.instrs, r, i);
    CountedInBlock(f.blocks, r, n);
  }

  // ----- types -----

  /** Nothing but numbers is computed with. */
  predicate Numeric(f: Function) {
    forall b, ins :: b in f.blocks && ins in b.instrs && (ins.op.Bin? || ins.op.Neg? || ins.op.Not?) ==>
        IsInt(ins.ty) || ins.ty.F64?
  }

  lemma FormedIsTyped(ins: Instr)
    requires Formed(ins) && ((ins.op.Bin? || ins.op.Neg? || ins.op.Not?) ==> IsInt(ins.ty) || ins.ty.F64?)
    ensures WellTyped(ins) && !ExtendsBool(ins)
  {}

  lemma CodeInstr(d: Data, blocks: seq<BasicBlock>, n: nat, b: BasicBlock, ins: Instr)
    requires CodeOk(d, blocks, false, n) && b in blocks && ins in b.instrs
    ensures Formed(ins) && TypedText(d, ins)
  {
    hide EdgeCode, HereCode, SlotCode, ParamCode, TextCode, Formed, TypedText, ArgKnown;
    var i :| 0 <= i < |blocks| && blocks[i] == b;
    FineBlock(d, blocks, false, n, i);
    var k :| 0 <= k < |b.instrs| && b.instrs[k] == ins;
    assert InstrCode(d, b, k);
  }

  lemma OutputTyped(d: Data, f: Function, n: nat)
    requires d.clean && CodeOk(d, f.blocks, false, n) && Numeric(f)
    ensures TypedFunction(d.types, f) && NoBoolExtension(f)
  {
    hide CodeOk, Formed, WellTyped, ExtendsBool;
    forall b, ins | b in f.blocks && ins in b.instrs ensures TypedInstr(d.types, ins) && !ExtendsBool(ins) {
      CodeInstr(d, f.blocks, n, b, ins);
      FormedIsTyped(ins);
    }
  }

  lemma OutputPlain(d: Data, f: Function, n: nat)
    requires CodeOk(d, f.blocks, false, n)
    ensures BranchesPlain(f)
  {
    hide CodeOk, WellTyped, TypedText;
    forall b, ins | b in f.blocks && ins in b.instrs && ins.op.BrCond?
      ensures ins.dest.None? { CodeInstr(d, f.blocks, n, b, ins); }
  }

  // ----- bytecode -----

  lemma FormedIsShaped(d: Data, ins: Instr)
    requires d.clean && Formed(ins) && TypedText(d, ins)
    ensures LowerSteps.Shaped(ins)
  {}

  lemma FormedOpcode(ins: Instr)
    requires Formed(ins) && !ins.op.IsTerminator() && !ins.op.Call? && !ins.op.Alloca?
    ensures Opcode(ins).Some?
  {}

  lemma FormedLowers(ins: Instr, locals: set<Name>, next: Option<Label>)
    requires Formed(ins) && (forall k :: 0 <= k < |ins.args| && ins.args[k].Reg? ==> ins.args[k].name in locals)
    ensures LowerInstr(ins, locals, next).Some?
  {
    hide PushAll, Opcode, Measured, WellTyped, SuffixTable;
    if NoGlobals(ins.args) { AllPushed(ins.args, locals); }
    if ins.op.Store? && NoGlobals(ins.args[..1]) { AllPushed(ins.args[..1], locals); }
    if !ins.op.IsTerminator() && !ins.op.Call? && !ins.op.Alloca? { FormedOpcode(ins); }
    if ins.op.Load? || ins.op.Store? { MemoryPushed(ins, locals); }
  }

  lemma MemoryPushed(ins: Instr, locals: set<Name>)
    requires Formed(ins) && (ins.op.Load? || ins.op.Store?)
    requires forall k :: 0 <= k < |ins.args| && ins.args[k].Reg? ==> ins.args[k].name in locals
    ensures ins.op.Load? && !ins.args[0].GlobalRef? ==> PushAll(ins.args, locals).Some?
    ensures ins.op.Store? ==>
        PushAll(ins.args[..1], locals).Some? && (!ins.args[1].GlobalRef? ==> PushAll(ins.args, locals).Some?)
  {
    if ins.op.Store? { AllPushed(ins.args[..1], locals); }
    if NoGlobals(ins.args) { AllPushed(ins.args, locals); }
  }

  /** Every register read has a local. */
  lemma UsesHaveLocals(d: Data, f: Function, n: nat, i: nat, k: nat, j: nat)
    requires CodeOk(d, f.blocks, false, n) && d.params == (set p | p in f.params) && i < |f.blocks|
        && k < |f.blocks[i].instrs|
    requires j < |f.blocks[i].instrs[k].args| && f.blocks[i].instrs[k].args[j].Reg?
    ensures f.blocks[i].instrs[k].args[j].name in LocalTable(f)
  {
    hide CodeOk, LocalTable, Earlier, BlockCode;
    forall m, r | 0 <= m < |f.blocks| && Defines(f.blocks[m], r) ensures r in LocalTable(f) { LocalOf(f, m, r); }
    forall r | Earlier(f.blocks[i].instrs, k, r)
      ensures r in LocalTable(f) { EarlierLonger(f.blocks[i].instrs, k, |f.blocks[i].instrs|, r); }
    ParamLocals(f);
    assert Seen(d, f.blocks, i, LocalTable(f));
    StartSeen(d, f.blocks, n, i, LocalTable(f));
    SlotLocals(d, f, n);
    OperandKnown(d, f.blocks[i], false, n, k, LocalTable(f), j);
  }

  lemma SlotLocals(d: Data, f: Function, n: nat)
    requires CodeOk(d, f.blocks, false, n) && forall m, r ::
        0 <= m < |f.blocks| && Defines(f.blocks[m], r) ==> r in LocalTable(f)
    ensures d.slots <= LocalTable(f)
  {
    hide Earlier, BlockFine, TextCode, ParamCode, LocalTable;
    forall r | r in d.slots ensures r in LocalTable(f) {
      EarlierLonger(f.blocks[0].instrs, n, |f.blocks[0].instrs|, r);
      assert Defines(f.blocks[0], r);
    }
  }

  lemma ParamLocals(f: Function)
    ensures (set p | p in f.params) <= LocalTable(f)
  {}

  lemma LocalOf(f: Function, m: nat, r: Name)
    requires m < |f.blocks| && Earlier(f.blocks[m].instrs, |f.blocks[m].instrs|, r)
    ensures r in LocalTable(f)
  {
    var b := f.blocks[m];
    var j :| 0 <= j < |b.instrs| && b.instrs[j].dest == Some(r);
    assert b in f.blocks && b.instrs[j] in b.instrs;
  }

  lemma OutputEmits(d: Data, f: Function, n: nat)
    requires CodeOk(d, f.blocks, false, n) && d.params == (set p | p in f.params)
    ensures Emits(f)
  {
    hide CodeOk, LocalTable, LowerInstrs, LowerInstr, Formed, NextLabel;
    forall i | 0 <= i < |f.blocks| ensures NaiveBlock(f, i).Some? {
      var instrs := f.blocks[i].instrs;
      forall k | 0 <= k < |instrs| ensures LowerInstr(instrs[k], LocalTable(f), NextLabel(f, i)).Some? {
        CodeInstr(d, f.blocks, n, f.blocks[i], instrs[k]);
        forall j | 0 <= j < |instrs[k].args| && instrs[k].args[j].Reg?
          ensures instrs[k].args[j].name in LocalTable(f) { UsesHaveLocals(d, f, n, i, k, j); }
        FormedLowers(instrs[k], LocalTable(f), NextLabel(f, i));
      }
      AllLower(instrs, LocalTable(f), NextLabel(f, i));
    }
  }

  lemma OutputLowerable(d: Data, f: Function, n: nat)
    requires d.clean && CodeOk(d, f.blocks, false, n) && d.params == (set p | p in f.params) && SoundCfg(f)
        && f.GoodCfg()
    ensures Lowerable(f)
  {
    hide CodeOk, Emits, Formed, LowerSteps.Shaped, TypedText, Function.GoodCfg;
    OutputEmits(d, f, n);
    forall i | 0 <= i < |f.blocks| ensures ShapedBlock(f.blocks[i]) {
      forall ins | ins in f.blocks[i].instrs ensures LowerSteps.Shaped(ins) {
        CodeInstr(d, f.blocks, n, f.blocks[i], ins);
        FormedIsShaped(d, ins);
      }
    }
  }
}
