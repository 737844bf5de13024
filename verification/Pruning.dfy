/** Leaving out unreachable blocks and dead definitions: what the smaller function does. */
module Pruning {
  import opened Cir
  import opened Arith
  import opened Interp
  import opened FlowGraph
  import opened Renaming

  /** A definition whose execution is not observable. */
  predicate Removable(ins: Instr) {
    ins.dest.Some? && !ins.op.SideEffecting() && !ins.op.IsTerminator()
  }

  /** Operations that can trap; `trap` itself is never removable. */
  predicate CanTrap(op: Op) {
    || (op.Bin? && (op.bin.Sdiv? || op.bin.Udiv? || op.bin.Srem? || op.bin.Urem?))
    || op.Gep?
    || (op.Conv? && op.conv.Fptosi?)
  }

  predicate Dead(d: set<Name>, ins: Instr) {
    Removable(ins) && ins.dest.value in d
  }

  function PruneInstrs(d: set<Name>, instrs: seq<Instr>): seq<Instr> {
    if instrs == [] then []
    else if Dead(d, instrs[0]) then PruneInstrs(d, instrs[1..])
    else [instrs[0]] + PruneInstrs(d, instrs[1..])
  }

  function PruneBlock(d: set<Name>, b: BasicBlock): BasicBlock {
    BasicBlock(b.id, PruneInstrs(d, b.instrs))
  }

  function PruneBlocks(live: set<Label>, d: set<Name>, blocks: seq<BasicBlock>): seq<BasicBlock> {
    if blocks == [] then []
    else
      var init := PruneBlocks(live, d, blocks[..|blocks| - 1]);
      var last := blocks[|blocks| - 1];
      if last.id in live then init + [PruneBlock(d, last)] else init
  }

  /** Only the blocks in `live`, without the definitions of `d`. */
  function Prune(live: set<Label>, d: set<Name>, f: Function): Function {
    f.(blocks := PruneBlocks(live, d, f.blocks))
  }

  /** What is kept reads nothing that is removed, and leads nowhere that is removed. */
  ghost predicate InstrOk(d: set<Name>, ins: Instr) {
    Dead(d, ins) || NotRead(d, ins.args)
  }

  ghost predicate BlockOk(live: set<Label>, d: set<Name>, b: BasicBlock) {
    b.id in live ==> (forall l :: l in b.Successors() ==> l in live) && forall ins ::
        ins in b.instrs ==> InstrOk(d, ins)
  }

  ghost predicate PruneOk(live: set<Label>, d: set<Name>, f: Function) {
    && f.blocks != [] && f.blocks[0].id in live
    && forall b :: b in f.blocks ==> BlockOk(live, d, b)
  }

  // ----- one instruction -----

  /** Slots numbered since `n`. */
  ghost predicate NewAbove(p: Slotmap, q: Slotmap, n: nat) {
    forall s :: s in q && s !in p ==> s >= n
  }

  ghost predicate OwnedBelow(owned: set<nat>, n: nat) {
    forall s :: s in owned ==> s < n
  }

  lemma ImageStays(p: Slotmap, q: Slotmap, owned: set<nat>, n: nat)
    requires Grows(p, q) && NewAbove(p, q, n) && OwnedBelow(owned, n)
    ensures Image(q, owned) == Image(p, owned)
  {
    forall x ensures x in Image(q, owned) <==> x in Image(p, owned) {}
  }

  /** The two machines at the same place. */
  ghost predicate Together(d: set<Name>, p: Slotmap, a: Regs, a': Regs, owned: set<nat>, owned': set<nat>, m: Mem,
                           m': Mem) {
    RegsRel(d, p, a, a') && owned' == Image(p, owned) && OwnedBelow(owned, m.next) && MemRel(p, m, m')
  }

  /** A step of a kept instruction, and of the same one in the smaller function. */
  ghost predicate StepsTogether(d: set<Name>, p: Slotmap, q: Slotmap, n: nat, r: StepResult, r': StepResult) {
    match r
    case Next(a, o, m) =>
      r'.Next? && Grows(p, q) && NewAbove(p, q, n) && n <= m.next && Together(d, q, a, r'.regs, o, r'.owned, m, r'.m)
    case StepTraps => r'.StepTraps?
    case StepFails => true
  }

  lemma DefineTogether(d: set<Name>, p: Slotmap, dest: Option<Name>, v: Val, v': Val, a: Regs, a': Regs,
                       o: set<nat>, o': set<nat>, m: Mem, m': Mem)
    requires Together(d, p, a, a', o, o', m, m') && ValRel(p, v, v')
    ensures StepsTogether(d, p, p, m.next, Define(dest, v, a, o, m), Define(dest, v', a', o', m'))
  {
    hide RegsRel, MemRel;
    if dest.Some? { DefineRel(d, p, a, a', dest.value, v, v'); }
  }

  lemma AllocaTogether(env: Env, d: set<Name>, p: Slotmap, ins: Instr, a: Regs, a': Regs, o: set<nat>, o': set<nat>,
                       m: Mem, m': Mem)
      returns (q: Slotmap)
    requires Together(d, p, a, a', o, o', m, m') && NotRead(d, ins.args) && ins.op.Alloca?
    ensures StepsTogether(d, p, q, m.next, Step(env, ins, a, o, m), Step(env, ins, a', o', m'))
  {
    hide RegsRel, MemRel, OperandVal;
    q := p;
    FreshSlot(p, m, m');
    if ins.args != [] { OperandRel(d, p, a, a', ins.args[0]); }
    var count := FirstVal(a, ins.args, Some(VInt(1)));
    if count.Some? && count.value.VInt? && ins.dest.Some? {
      q := p[m.next := m'.next];
      AllocateBoth(p, m, m', count.value.i, ins.ty.F64?);
      RegsGrow(d, p, q, a, a');
      DefineRel(d, q, a, a', ins.dest.value, VPtr(m.next, 0), VPtr(m'.next, 0));
      ImageStays(p, q, o, m.next);
      assert Image(q, o + {m.next}) == Image(q, o) + {m'.next};
    }
  }

  lemma PureTogether(env: Env, d: set<Name>, p: Slotmap, ins: Instr, a: Regs, a': Regs, o: set<nat>, o': set<nat>,
                     m: Mem, m': Mem)
    requires Together(d, p, a, a', o, o', m, m') && NotRead(d, ins.args) && IsPure(ins.op)
    ensures StepsTogether(d, p, p, m.next, Step(env, ins, a, o, m), Step(env, ins, a', o', m'))
  {
    hide Together, EvalPure, OperandVals, Define, StepsTogether;
    var n := Arity(ins.op);
    if |ins.args| >= n {
      var xs := ins.args[..n];
      ArgsTogether(d, p, a, a', o, o', m, m', ins.args, n);
      if OperandVals(a, xs).Some? {
        var vs, vs' := OperandVals(a, xs).value, OperandVals(a', xs).value;
        PureRel(env, p, ins.op, ins.ty, SourceType(ins), vs, vs');
        match EvalPure(env, ins.op, ins.ty, SourceType(ins), vs)
        case Value(v) => DefineTogether(d, p, ins.dest, v, v, a, a', o, o', m, m');
        case Traps => TrapsTogether(d, p, m.next);
        case Wrong => FailsTogether(d, p, m.next, Step(env, ins, a', o', m'));
      } else {
        FailsTogether(d, p, m.next, Step(env, ins, a', o', m'));
      }
    } else {
      FailsTogether(d, p, m.next, Step(env, ins, a', o', m'));
    }
  }

  lemma TrapsTogether(d: set<Name>, p: Slotmap, n: nat)
    ensures StepsTogether(d, p, p, n, StepTraps, StepTraps)
  {}

  lemma FailsTogether(d: set<Name>, p: Slotmap, n: nat, r': StepResult)
    ensures StepsTogether(d, p, p, n, StepFails, r')
  {}

  lemma ArgsTogether(d: set<Name>, p: Slotmap, a: Regs, a': Regs, o: set<nat>, o': set<nat>, m: Mem, m': Mem,
                     xs: seq<Operand>, n: nat)
    requires Together(d, p, a, a', o, o', m, m') && NotRead(d, xs) && n <= |xs|
    ensures OperandVals(a, xs[..n]).Some? <==> OperandVals(a', xs[..n]).Some?
    ensures OperandVals(a, xs[..n]).Some? ==> ValsRel(p, OperandVals(a, xs[..n]).value, OperandVals(a', xs[..n]).value)
  {
    hide MemRel, OperandVals, RegsRel;
    OperandsRel(d, p, a, a', xs[..n]);
  }

  lemma MemoryTogether(env: Env, d: set<Name>, p: Slotmap, ins: Instr, vs: seq<Val>, vs': seq<Val>,
                       a: Regs, a': Regs, o: set<nat>, o': set<nat>, m: Mem, m': Mem)
    requires Together(d, p, a, a', o, o', m, m') && |vs| == Arity(ins.op) && ValsRel(p, vs, vs')
    requires ins.op.Load? || ins.op.Store? || ins.op.Gep? || ins.op.PrintI32? || ins.op.PrintF64? || ins.op.Trap?
    ensures StepsTogether(d, p, p, m.next, StepMemory(env, ins, vs, a, o, m), StepMemory(env, ins, vs', a', o', m'))
  {
    hide RegsRel, MemRel, LoadFrom, StoreTo, Define;
    forall k | 0 <= k < |vs| ensures ValRel(p, vs[k], vs'[k]) {}
    match ins.op
    case Load =>
      if LoadFrom(env, m, vs[0]).Some? {
        LoadRel(env, p, m, m', vs[0], vs'[0]);
        DefineTogether(d, p, ins.dest, LoadFrom(env, m, vs[0]).value, LoadFrom(env, m', vs'[0]).value, a, a', o, o', m,
            m');
      }
    case Store =>
      if StoreTo(m, vs[1], vs[0]).Some? {
        StoreRel(p, m, m', vs[1], vs'[1], vs[0], vs'[0]);
        StoreNext(m, vs[1], vs[0]);
      }
    case Gep =>
      if vs[0].VPtr? && vs[0].slot in m.slots && vs[1].VInt? {
        SlotSize(p, m, m', vs[0].slot);
        DefineTogether(d, p, ins.dest, VPtr(vs[0].slot, vs[1].i), VPtr(p[vs[0].slot], vs[1].i), a, a', o, o', m, m');
      }
    case PrintI32 => if vs[0].VInt? { PrintRel(p, m, m', PrintedInt(vs[0].i)); }
    case PrintF64 => if AsFloat(env.fl, vs[0]).Some? { PrintRel(p, m, m', PrintedFloat(AsFloat(env.fl, vs[0]).value)); }
    case Trap =>
  }

  lemma StoreNext(m: Mem, at: Val, v: Val)
    ensures StoreTo(m, at, v).Some? ==> StoreTo(m, at, v).value.next == m.next
  {}

  lemma SlotSize(p: Slotmap, m: Mem, m': Mem, s: nat)
    requires MemRel(p, m, m') && s in p && s in m.slots
    ensures p[s] in m'.slots && |m'.slots[p[s]]| == |m.slots[s]|
  {
    assert SlotRel(p, m, m', s);
  }

  lemma PrintRel(p: Slotmap, m: Mem, m': Mem, e: Event)
    requires MemRel(p, m, m')
    ensures MemRel(p, m.(out := m.out + [e]), m'.(out := m'.out + [e]))
  {
    var a, a' := m.(out := m.out + [e]), m'.(out := m'.out + [e]);
    forall s | s in p ensures SlotRel(p, a, a', s) { assert SlotRel(p, m, m', s); }
  }

  /** A kept instruction steps alike. */
  lemma KeptStep(env: Env, d: set<Name>, p: Slotmap, ins: Instr, a: Regs, a': Regs, o: set<nat>, o': set<nat>, m: Mem,
                 m': Mem)
      returns (q: Slotmap)
    requires Together(d, p, a, a', o, o', m, m') && NotRead(d, ins.args) && !ins.op.IsTerminator() && !ins.op.Call?
    ensures StepsTogether(d, p, q, m.next, Step(env, ins, a, o, m), Step(env, ins, a', o', m'))
  {
    hide Together, StepsTogether, NotRead, OperandVals, StepMemory;
    q := p;
    if ins.op.Alloca? {
      q := AllocaTogether(env, d, p, ins, a, a', o, o', m, m');
    } else if IsPure(ins.op) {
      PureTogether(env, d, p, ins, a, a', o, o', m, m');
    } else {
      var n := Arity(ins.op);
      if |ins.args| >= n {
        ArgsTogether(d, p, a, a', o, o', m, m', ins.args, n);
        if OperandVals(a, ins.args[..n]).Some? {
          MemoryTogether(env, d, p, ins, OperandVals(a, ins.args[..n]).value, OperandVals(a', ins.args[..n]).value,
                         a, a', o, o', m, m');
        } else {
          FailsTogether(d, p, m.next, Step(env, ins, a', o', m'));
        }
      } else {
        FailsTogether(d, p, m.next, Step(env, ins, a', o', m'));
      }
    }
  }

  /** A removed instruction leaves the two together, whatever it computed. */
  lemma DeadStep(env: Env, d: set<Name>, p: Slotmap, ins: Instr, a: Regs, a': Regs, o: set<nat>, o': set<nat>, m: Mem,
                 m': Mem)
    requires Together(d, p, a, a', o, o', m, m') && Dead(d, ins)
    ensures var r := Step(env, ins, a, o, m);
            r.Next? ==> r.m.out == m.out && m.next <= r.m.next && Together(d, p, r.regs, a', r.owned, o', r.m, m')
  {
    hide MemRel, EvalPure, OperandVals, LoadFrom, RegsRel, ZeroCells;
    var r := Step(env, ins, a, o, m);
    if r.Next? {
      ForgetResult(d, p, a, r.regs, a', ins.dest.value);
      if ins.op.Alloca? {
        var count := FirstVal(a, ins.args, Some(VInt(1)));
        AllocateFirst(p, m, m', ZeroCells(count.value.i, ins.ty.F64?));
        FreshSlot(p, m, m');
        assert Image(p, o + {m.next}) == Image(p, o);
      }
    }
  }

  lemma ForgetResult(d: set<Name>, p: Slotmap, a: Regs, b: Regs, a': Regs, r: Name)
    requires RegsRel(d, p, a, a') && r in d && r in b && b == a[r := b[r]]
    ensures RegsRel(d, p, b, a')
  {}

  // ----- blocks -----

  lemma {:induction false} PruneLookup(live: set<Label>, d: set<Name>, blocks: seq<BasicBlock>, l: Label)
    ensures l in BlockMap(PruneBlocks(live, d, blocks)) <==> l in BlockMap(blocks) && l in live
    ensures l in BlockMap(blocks) && l in live ==>
              BlockMap(PruneBlocks(live, d, blocks))[l] == PruneBlock(d, BlockMap(blocks)[l])
  {
    hide PruneBlock;
    if blocks != [] {
      var n := |blocks| - 1;
      PruneLookup(live, d, blocks[..n], l);
      var init := PruneBlocks(live, d, blocks[..n]);
      PruneId(d, blocks[n]);
      if blocks[n].id in live {
        assert (init + [PruneBlock(d, blocks[n])])[..|init|] == init;
      }
    }
  }

  lemma PruneId(d: set<Name>, b: BasicBlock)
    ensures PruneBlock(d, b).id == b.id
  {}

  lemma {:induction false} PruneFirst(live: set<Label>, d: set<Name>, blocks: seq<BasicBlock>)
    requires blocks != [] && blocks[0].id in live
    ensures PruneBlocks(live, d, blocks) != [] && PruneBlocks(live, d, blocks)[0] == PruneBlock(d, blocks[0])
  {
    hide PruneBlock;
    var n := |blocks| - 1;
    if n == 0 {
      assert blocks[..0] == [] && PruneBlocks(live, d, blocks[..0]) == [];
    } else {
      PruneFirst(live, d, blocks[..n]);
    }
  }

  /** `rest` ends a live block of a well-formed function. */
  ghost predicate Inside(live: set<Label>, f: Function, b: BasicBlock, rest: seq<Instr>) {
    && b in f.blocks && b.id in live && rest != [] && |rest| <= |b.instrs| && rest == b.instrs[|b.instrs| - |rest|..]
    && f.GoodCfg()
  }

  lemma InsideFacts(live: set<Label>, d: set<Name>, f: Function, b: BasicBlock, rest: seq<Instr>)
    requires Inside(live, f, b, rest) && PruneOk(live, d, f)
    ensures rest != [] && InstrOk(d, rest[0]) && (rest[0].op.IsTerminator() <==> |rest| == 1)
    ensures |rest| > 1 ==> Inside(live, f, b, rest[1..])
    ensures rest[0].op.IsTerminator() ==> forall l :: l in rest[0].op.Targets() ==> l in live && l in BlockMap(f.blocks)
  {
    hide InstrOk, BlockMap;
    var n :| 0 <= n < |f.blocks| && f.blocks[n] == b;
    var k := |b.instrs| - |rest|;
    assert b.Terminator().Some? && rest[0] == b.instrs[k] && BlockOk(live, d, b);
    if rest[0].op.IsTerminator() {
      forall l | l in rest[0].op.Targets() ensures l in live && l in BlockMap(f.blocks) {
        assert l in b.Successors();
        assert f.HasBlock(l);
        BlockMapHas(f.blocks, l);
      }
    }
  }

  lemma InsideStart(live: set<Label>, f: Function, l: Label)
    requires l in live && l in BlockMap(f.blocks) && f.GoodCfg()
    ensures Inside(live, f, BlockMap(f.blocks)[l], BlockMap(f.blocks)[l].instrs)
  {
    BlockMapHas(f.blocks, l);
    var b := BlockMap(f.blocks)[l];
    var n :| 0 <= n < |f.blocks| && f.blocks[n] == b;
    assert b.Terminator().Some? && b.instrs[0..] == b.instrs;
  }

  lemma InsideEntry(live: set<Label>, f: Function)
    requires f.blocks != [] && f.blocks[0].id in live && f.GoodCfg()
    ensures Inside(live, f, f.blocks[0], f.blocks[0].instrs)
  {
    var b := f.blocks[0];
    assert b.Terminator().Some? && b.instrs[0..] == b.instrs;
  }

  // ----- whole runs -----

  datatype Cut = Cut(live: set<Label>, dead: set<Name>)

  ghost predicate Pruned(env: Env, env': Env, cuts: map<Name, Cut>) {
    && env'.funcs.Keys == env.funcs.Keys == cuts.Keys && env' == env.(funcs := env'.funcs)
    && forall g :: g in env.funcs ==> FunctionPruned(env, env', cuts, g)
  }

  ghost predicate FunctionPruned(env: Env, env': Env, cuts: map<Name, Cut>, g: Name) {
    && g in env.funcs && g in env'.funcs && g in cuts
    && env'.funcs[g] == Prune(cuts[g].live, cuts[g].dead, env.funcs[g])
    && env.funcs[g].GoodCfg() && PruneOk(cuts[g].live, cuts[g].dead, env.funcs[g])
  }

  /** No removed definition of a block that stays can trap. */
  ghost predicate Quiet(env: Env, cuts: map<Name, Cut>) {
    forall g :: g in env.funcs && g in cuts ==> QuietCut(env.funcs[g], cuts[g].live, cuts[g].dead)
  }

  ghost predicate QuietCut(f: Function, live: set<Label>, d: set<Name>) {
    forall b, ins :: b in f.blocks && b.id in live && ins in b.instrs && Dead(d, ins) ==> !CanTrap(ins.op)
  }

  /** How the smaller program's outcome relates: the same end, up to slot numbers; where the
      source fails, at least its output; where it traps, the same trap if nothing removed can. */
  ghost predicate Matches(quiet: bool, p: Slotmap, q: Slotmap, n: nat, r: Outcome, r': Outcome) {
    match r
    case Done(v, m) =>
      r'.Done? && Grows(p, q) && NewAbove(p, q, n) && n <= m.next && ValRel(q, v, r'.v) && MemRel(q, m, r'.m)
    case Trapped(out) => if quiet then r' == r else out <= r'.Out()
    case OutOfFuel(out) => r' == r
    case Failed(out) => out <= r'.Out()
  }

  lemma UsePruned(env: Env, env': Env, cuts: map<Name, Cut>, g: Name)
    requires g in env.funcs
    requires Pruned(env, env', cuts)
    ensures FunctionPruned(env, env', cuts, g)
  {}

  lemma EnvsAlike(env: Env, env': Env, cuts: map<Name, Cut>)
    requires Pruned(env, env', cuts)
    ensures env' == env.(funcs := env'.funcs) && env'.funcs.Keys == env.funcs.Keys
  {}

  lemma SameStep(env: Env, env': Env, ins: Instr, regs: Regs, owned: set<nat>, m: Mem)
    requires env' == env.(funcs := env'.funcs)
    ensures Step(env', ins, regs, owned, m) == Step(env, ins, regs, owned, m)
  {
    hide OperandVals, EvalBin, EvalConv, EvalIcmp, EvalFcmp, EvalNeg, EvalNot, InRange;
  }

  /** What is asked for is asked for alike. */
  ghost predicate SameAction(p: Slotmap, x: Action, x': Action) {
    match x
    case Return(v) => x'.Return? && ValRel(p, v, x'.v)
    case Invoke(g, vs) => x'.Invoke? && x'.callee == g && ValsRel(p, vs, x'.args)
    case Broken => true
    case _ => x' == x
  }

  lemma DecodeRel(d: set<Name>, p: Slotmap, ins: Instr, a: Regs, a': Regs)
    requires RegsRel(d, p, a, a') && NotRead(d, ins.args)
    ensures SameAction(p, Decode(ins, a), Decode(ins, a'))
  {
    hide RegsRel, OperandVals, OperandVal;
    OperandsRel(d, p, a, a', ins.args);
    if ins.args != [] { OperandRel(d, p, a, a', ins.args[0]); }
  }

  lemma KindOf(ins: Instr, regs: Regs)
    ensures Decode(ins, regs).Compute? <==> !ins.op.IsTerminator() && !ins.op.Call?
    ensures Decode(ins, regs).Invoke? ==> ins.op.Call?
    ensures Decode(ins, regs).Transfer? ==> ins.op.IsTerminator() && Decode(ins, regs).target in ins.op.Targets()
  {
    if ins.op.Br? {
      assert [ins.op.target][0] == ins.op.target;
    } else if ins.op.BrCond? {
      var t, e := ins.op.thenTarget, ins.op.elseTarget;
      assert [t, e][0] == t && [t, e][1] == e;
    }
  }
}
