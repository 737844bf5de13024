/** Whether every f64 slot is stored to before it is loaded from is a question of definedness:
    read each store as a definition of its slot and each load as a use. */
module StoreCheck {
  import opened Cir
  import opened Graphs
  import opened FlowGraph
  import opened Walks
  import opened FloatSlots

  function ShadeDest(slots: set<Name>, ins: Instr): Option<Name> {
    if ins.op.Store? && |ins.args| > 1 && ins.args[1].Reg? && ins.args[1].name in slots then Some(ins.args[1].name)
        else None
  }

  function ShadeArgs(slots: set<Name>, ins: Instr): seq<Operand> {
    if ins.op.Load? && ins.args != [] && ins.args[0].Reg? && ins.args[0].name in slots then [ins.args[0]] else []
  }

  function ShadeInstr(slots: set<Name>, ins: Instr): Instr {
    Instr(ins.op, ins.ty, ShadeDest(slots, ins), ShadeArgs(slots, ins))
  }

  function ShadeBlock(slots: set<Name>, b: BasicBlock): BasicBlock {
    BasicBlock(b.id, seq(|b.instrs|, k requires 0 <= k < |b.instrs| => ShadeInstr(slots, b.instrs[k])))
  }

  function ShadeBlocks(slots: set<Name>, blocks: seq<BasicBlock>): (r: seq<BasicBlock>)
    ensures |r| == |blocks|
  {
    seq(|blocks|, n requires 0 <= n < |blocks| => ShadeBlock(slots, blocks[n]))
  }

  /** The text with stores for definitions and loads for uses. */
  function Shade(f: Function): Function {
    Function(f.name, [], ShadeBlocks(FloatRegs(f), f.blocks))
  }

  lemma ShadedBlock(slots: set<Name>, b: BasicBlock)
    ensures ShadeBlock(slots, b).Successors() == b.Successors() && ShadeBlock(slots, b).id == b.id
    ensures b.Terminator().Some? <==> ShadeBlock(slots, b).Terminator().Some?
    ensures |ShadeBlock(slots, b).instrs| == |b.instrs|
    ensures forall k :: 0 <= k < |b.instrs| ==> ShadeBlock(slots, b).instrs[k] == ShadeInstr(slots, b.instrs[k])
  {}

  lemma {:induction false} ShadedMap(slots: set<Name>, blocks: seq<BasicBlock>)
    ensures BlockMap(ShadeBlocks(slots, blocks)).Keys == BlockMap(blocks).Keys
    ensures forall l ::
        l in BlockMap(blocks) ==> BlockMap(ShadeBlocks(slots, blocks))[l] == ShadeBlock(slots, BlockMap(blocks)[l])
  {
    hide ShadeBlock;
    if blocks != [] {
      var n := |blocks| - 1;
      ShadedMap(slots, blocks[..n]);
      assert ShadeBlocks(slots, blocks)[..n] == ShadeBlocks(slots, blocks[..n]);
      ShadedBlock(slots, blocks[n]);
    }
  }

  lemma ShadedGood(f: Function)
    requires f.GoodCfg()
    ensures Shade(f).GoodCfg()
  {
    hide FloatRegs, ShadeBlock, BasicBlock.Successors, BasicBlock.Terminator;
    var s, slots := Shade(f), FloatRegs(f);
    forall i | 0 <= i < |f.blocks|
      ensures s.blocks[i].id == f.blocks[i].id && s.blocks[i].Successors() == f.blocks[i].Successors()
          && s.blocks[i].Terminator().Some?
      ensures forall k :: 0 <= k < |s.blocks[i].instrs| - 1 ==> !s.blocks[i].instrs[k].op.IsTerminator() {
      ShadedBlock(slots, f.blocks[i]);
    }
    forall i, l | 0 <= i < |s.blocks| && l in s.blocks[i].Successors() ensures s.HasBlock(l) {
      assert f.HasBlock(l);
      var j :| 0 <= j < |f.blocks| && f.blocks[j].id == l;
      assert s.blocks[j].id == l;
    }
  }

  lemma ShadedCode(f: Function, q: Pos)
    ensures InCode(Shade(f), q) <==> InCode(f, q)
    ensures InCode(f, q) ==> InstrAt(Shade(f), q) == ShadeInstr(FloatRegs(f), InstrAt(f, q))
  {
    hide BlockMap, FloatRegs, ShadeInstr;
    ShadedMap(FloatRegs(f), f.blocks);
    if q.block in BlockMap(f.blocks) { ShadedBlock(FloatRegs(f), BlockMap(f.blocks)[q.block]); }
  }

  lemma ShadedStep(f: Function, a: Pos, b: Pos)
    ensures StepsTo(Shade(f), a, b) <==> StepsTo(f, a, b)
  {
    hide BlockMap, FloatRegs, ShadeBlock, BasicBlock.Successors;
    ShadedCode(f, a);
    ShadedCode(f, b);
    ShadedMap(FloatRegs(f), f.blocks);
    if a.block in BlockMap(f.blocks) { ShadedBlock(FloatRegs(f), BlockMap(f.blocks)[a.block]); }
  }

  lemma ShadedWalk(f: Function, w: seq<Pos>)
    requires f.blocks != []
    ensures IsWalk(Shade(f), w) <==> IsWalk(f, w)
  {
    hide StepsTo, InCode, FloatRegs;
    var s := Shade(f);
    assert s.blocks[0].id == f.blocks[0].id;
    forall i | 0 <= i < |w| - 1 ensures StepsTo(s, w[i], w[i + 1]) <==>
        StepsTo(f, w[i], w[i + 1]) { ShadedStep(f, w[i], w[i + 1]); }
    if w != [] { ShadedCode(f, w[0]); }
  }

  lemma ShadedStores(f: Function, w: seq<Pos>, p: Name)
    requires p in FloatRegs(f)
    ensures DefinedOn(Shade(f), w, p) <==> StoredOn(f, w, p)
  {
    hide InCode, FloatRegs, Shade;
    forall j | 0 <= j < |w| - 1 ensures DefinesAt(Shade(f), w[j], p) <==> StoresAt(f, w[j], p) { ShadedCode(f, w[j]); }
  }

  /** Every use of the shaded text is defined on every path exactly when every f64 slot is
      stored to on every path to each load from it. */
  lemma StoredIffDefined(f: Function)
    requires f.GoodCfg()
    ensures Shade(f).GoodCfg() && Shade(f).blocks != []
    ensures StoredFirst(f) <==> UsesDefined(Shade(f))
  {
    hide IsWalk, InCode, FloatRegs, StoredOn, DefinedOn, Shade;
    ShadedGood(f);
    if StoredFirst(f) {
      forall q: Pos, k: nat ensures UseDefined(Shade(f), q, k) { UseFromStore(f, q, k); }
    }
    if UsesDefined(Shade(f)) {
      forall w: seq<Pos>, p: Name | p in FloatRegs(f) && LoadReached(f, w, p)
        ensures StoredOn(f, w, p) { StoreFromUse(f, w, p); }
    }
  }

  lemma UseFromStore(f: Function, q: Pos, k: nat)
    requires f.blocks != [] && StoredFirst(f) && Shade(f).blocks != []
    ensures UseDefined(Shade(f), q, k)
  {
    hide IsWalk, InCode, FloatRegs, StoredOn, DefinedOn;
    var s := Shade(f);
    ShadedCode(f, q);
    if InCode(s, q) && k < |InstrAt(s, q).args| && InstrAt(s, q).args[k].Reg? {
      var p := InstrAt(s, q).args[k].name;
      assert p in FloatRegs(f) && LoadsFrom(InstrAt(f, q), p);
      forall w | WalksTo(s, w, q) ensures DefinedOn(s, w, p) {
        ShadedWalk(f, w);
        assert LoadReached(f, w, p);
        ShadedStores(f, w, p);
      }
    }
  }

  lemma StoreFromUse(f: Function, w: seq<Pos>, p: Name)
    requires f.blocks != [] && Shade(f).blocks != [] && UsesDefined(Shade(f)) && p in FloatRegs(f)
        && LoadReached(f, w, p)
    ensures StoredOn(f, w, p)
  {
    hide StepsTo, InCode, FloatRegs, StoredOn, DefinedOn;
    var s := Shade(f);
    var q := w[|w| - 1];
    ShadedCode(f, q);
    ShadedWalk(f, w);
    assert InstrAt(s, q).args == [InstrAt(f, q).args[0]];
    assert UseDefined(s, q, 0);
    assert WalksTo(s, w, q);
    ShadedStores(f, w, p);
  }
}
