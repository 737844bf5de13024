/** The operand stack of the emitted bytecode is empty whenever a block starts, and at a return
    it holds the value returned and nothing else: in every run, at every depth of calls. */
module StackHeights {
  import opened Cir
  import opened Arith
  import opened Interp
  import opened Bytecode
  import opened StackVm
  import opened Layout
  import opened LowerSteps
  import opened PeepholeProof
  import opened PeepholeCorrect
  import opened NaiveProof

  // ----- the height of the stack along the code of a block -----

  function Takes(op: StackOp): nat {
    if op.CallOp? then op.nargs else Pops(op)
  }

  function Gives(op: StackOp): nat {
    if op.StoreL? || op.StoreG? || op.Drop? || op.StoreOp? || op.PrintIOp? || op.PrintFOp? || op.TrapOp? then 0 else 1
  }

  /** From height `h` no operation lacks an operand; jumps leave the stack empty, a return finds
      `ret` values, and the end of the block finds none. */
  ghost predicate Balanced(ops: seq<StackOp>, h: nat, ret: nat) {
    if ops == [] then h == 0
    else if ops[0].Jmp? then h == 0 && Balanced(ops[1..], 0, ret)
    else if ops[0].Jz? then h == 1 && Balanced(ops[1..], 0, ret)
    else if ops[0].RetOp? then h == ret && |ops| == 1
    else Takes(ops[0]) <= h && Balanced(ops[1..], h - Takes(ops[0]) + Gives(ops[0]), ret)
  }

  lemma BalancedOp(op: StackOp, rest: seq<StackOp>, h: nat, ret: nat)
    requires Simple(op) || op.CallOp?
    requires Takes(op) <= h && Balanced(rest, h - Takes(op) + Gives(op), ret)
    ensures Balanced([op] + rest, h, ret)
  {
    assert ([op] + rest)[1..] == rest;
  }

  lemma {:induction false} BalancedPush(xs: seq<Operand>, locals: set<Name>, rest: seq<StackOp>, h: nat, ret: nat)
    requires PushAll(xs, locals).Some? && Balanced(rest, h + |xs|, ret)
    ensures Balanced(PushAll(xs, locals).value + rest, h, ret)
  {
    hide Balanced;
    if xs == [] {
      assert PushAll(xs, locals).value + rest == rest;
    } else {
      var init, last := xs[..|xs| - 1], PushValue(xs[|xs| - 1], locals).value;
      BalancedOp(last, rest, h + |init|, ret);
      BalancedPush(init, locals, [last] + rest, h, ret);
      assert PushAll(xs, locals).value + rest == PushAll(init, locals).value + ([last] + rest);
    }
  }

  lemma BalancedParked(dest: Option<Name>, rest: seq<StackOp>, ret: nat)
    requires Balanced(rest, 0, ret)
    ensures Balanced(Parked(dest) + rest, |Parked(dest)|, ret)
  {
    hide Balanced;
    if dest.Some? { BalancedOp(StoreL(dest.value), rest, 1, ret); } else { assert Parked(dest) + rest == rest; }
  }

  /** An operation takes what its instruction pushes and leaves what is parked. */
  lemma AppliedEffect(ins: Instr)
    requires Shaped(ins) && Computes(ins) && Applied(ins).Some?
    ensures Simple(Applied(ins).value) && Takes(Applied(ins).value) == |Pushed(ins)|
    ensures Gives(Applied(ins).value) == |Parked(ins.dest)|
  {
    hide IntTable, FloatTable, CmpTable, FcmpTable, SuffixTable;
  }

  lemma ComputeBalanced(ins: Instr, locals: set<Name>, next: Option<Label>, rest: seq<StackOp>, ret: nat)
    requires Shaped(ins) && Computes(ins) && LowerInstr(ins, locals, next).Some? && Balanced(rest, 0, ret)
    ensures Balanced(LowerInstr(ins, locals, next).value + rest, 0, ret)
  {
    hide Balanced, PushAll, LowerInstr, Applied, Shaped, Pushed, Takes, Gives;
    LowerShape(ins, locals, next);
    AppliedEffect(ins);
    var push, op, park := PushAll(Pushed(ins), locals).value, Applied(ins).value, Parked(ins.dest);
    BalancedParked(ins.dest, rest, ret);
    BalancedOp(op, park + rest, |Pushed(ins)|, ret);
    BalancedPush(Pushed(ins), locals, [op] + (park + rest), 0, ret);
    assert push + [op] + park + rest == push + ([op] + (park + rest));
  }

  lemma CallBalanced(ins: Instr, locals: set<Name>, next: Option<Label>, rest: seq<StackOp>, ret: nat)
    requires ins.op.Call? && LowerInstr(ins, locals, next).Some? && Balanced(rest, 0, ret)
    ensures Balanced(LowerInstr(ins, locals, next).value + rest, 0, ret)
  {
    hide Balanced, PushAll;
    var push, op := PushAll(ins.args, locals).value, CallOp(ins.op.callee, |ins.args|);
    var tail: seq<StackOp> := if ins.dest.Some? then [StoreL(ins.dest.value)] else [Drop];
    BalancedOp(tail[0], rest, 1, ret);
    BalancedOp(op, tail + rest, |ins.args|, ret);
    BalancedPush(ins.args, locals, [op] + (tail + rest), 0, ret);
    assert LowerInstr(ins, locals, next).value + rest == push + ([op] + (tail + rest));
  }

  /** How many values a block returns: the operands of its `ret`. */
  function RetOperands(b: BasicBlock): nat {
    if b.instrs != [] && b.instrs[|b.instrs| - 1].op.Ret? then |b.instrs[|b.instrs| - 1].args| else 0
  }

  lemma JumpBalanced(l: Label, next: Option<Label>, ret: nat)
    ensures Balanced(JumpTo(l, next), 0, ret)
  {}

  lemma LastBalanced(ins: Instr, locals: set<Name>, next: Option<Label>, ret: nat)
    requires ins.op.IsTerminator() && Shaped(ins) && LowerInstr(ins, locals, next).Some?
        && (ins.op.Ret? ==> ret == |ins.args|)
    ensures Balanced(LowerInstr(ins, locals, next).value, 0, ret)
  {
    hide PushAll, JumpTo;
    match ins.op
    case Br(l) => JumpBalanced(l, next, ret);
    case BrCond(t, e) =>
      JumpBalanced(t, next, ret);
      var tail := [Jz(e)] + JumpTo(t, next);
      assert tail[1..] == JumpTo(t, next);
      BalancedPush(ins.args, locals, tail, 0, ret);
      assert LowerInstr(ins, locals, next).value == PushAll(ins.args, locals).value + tail;
    case Ret =>
      assert Balanced([RetOp], |ins.args|, ret);
      BalancedPush(ins.args, locals, [RetOp], 0, ret);
  }

  lemma {:induction false} InstrsBalanced(instrs: seq<Instr>, locals: set<Name>, next: Option<Label>, ret: nat)
    requires instrs != [] && LowerInstrs(instrs, locals, next).Some? && forall i :: i in instrs ==> Shaped(i)
    requires instrs[|instrs| - 1].op.IsTerminator() && forall k ::
        0 <= k < |instrs| - 1 ==> !instrs[k].op.IsTerminator()
    requires instrs[|instrs| - 1].op.Ret? ==> ret == |instrs[|instrs| - 1].args|
    ensures Balanced(LowerInstrs(instrs, locals, next).value, 0, ret)
  {
    hide Balanced, LowerInstr, Shaped;
    var ins := instrs[0];
    assert ins in instrs;
    if |instrs| == 1 {
      assert LowerInstrs(instrs[1..], locals, next) == Some([]);
      LastBalanced(ins, locals, next, ret);
      assert LowerInstr(ins, locals, next).value + [] == LowerInstr(ins, locals, next).value;
    } else {
      InstrsBalanced(instrs[1..], locals, next, ret);
      if ins.op.Call? {
        CallBalanced(ins, locals, next, LowerInstrs(instrs[1..], locals, next).value, ret);
      } else {
        ComputeBalanced(ins, locals, next, LowerInstrs(instrs[1..], locals, next).value, ret);
      }
    }
  }

  lemma {:induction false} PeepholeBalanced(ops: seq<StackOp>, dead: Name -> bool, h: nat, ret: nat)
    requires Balanced(ops, h, ret)
    ensures Balanced(Peephole(ops, dead), h, ret)
    decreases |ops|
  {
    if |ops| >= 2 && ops[0].StoreL? && ops[1].LoadL? && ops[0].l == ops[1].l && dead(ops[0].l) {
      assert ops[2..] == ops[1..][1..];
      PeepholeBalanced(ops[2..], dead, h, ret);
    } else if ops != [] {
      var rest := Peephole(ops[1..], dead);
      assert ([ops[0]] + rest)[1..] == rest;
      if ops[0].Jmp? || ops[0].Jz? {
        PeepholeBalanced(ops[1..], dead, 0, ret);
      } else if !ops[0].RetOp? {
        PeepholeBalanced(ops[1..], dead, h - Takes(ops[0]) + Gives(ops[0]), ret);
      }
    }
  }

  lemma BlockBalanced(f: Function, n: nat)
    requires Lowerable(f) && n < |f.blocks|
    ensures Balanced(TunedBlocks(f)[n], 0, RetOperands(f.blocks[n]))
  {
    hide LowerInstrs, Peephole, OneRead, Shaped, EntryUnreached, LocalTable;
    var b := f.blocks[n];
    assert ShapedBlock(b) && NaiveBlock(f, n).Some? && b.Terminator().Some?;
    InstrsBalanced(b.instrs, LocalTable(f), NextLabel(f, n), RetOperands(b));
    PeepholeBalanced(NaiveBlock(f, n).value, l => OneRead(f, n, l), 0, RetOperands(b));
  }

  // ----- where a run is -----

  /** Position `pc` is operation `k` of block `n`, or its end. */
  ghost predicate Within(codes: seq<seq<StackOp>>, n: nat, k: nat, pc: nat) {
    n < |codes| && k <= |codes[n]| && pc == Start(codes, n) + k
  }

  ghost predicate Standing(f: Function, n: nat, k: nat, pc: nat, height: nat)
    requires Emits(f)
  {
    var codes := TunedBlocks(f);
    Within(codes, n, k, pc) && (k == 0 ==> height == 0) && Balanced(codes[n][k..], height, RetOperands(f.blocks[n]))
  }

  lemma StartStanding(f: Function, n: nat)
    requires Lowerable(f) && n < |f.blocks|
    ensures Standing(f, n, 0, Start(TunedBlocks(f), n), 0)
  {
    hide TunedBlocks, Balanced, EntryUnreached, ShapedBlock, Function.GoodCfg;
    BlockBalanced(f, n);
    assert TunedBlocks(f)[n][0..] == TunedBlocks(f)[n];
  }

  lemma {:induction false} StartGrows(codes: seq<seq<StackOp>>, n: nat, m: nat)
    requires n < m <= |codes|
    ensures Start(codes, n) + |codes[n]| <= Start(codes, m)
  {
    if n + 1 < m { StartGrows(codes, n, m - 1); }
  }

  /** At a block start the stack is empty; at a return it holds what the block returns. */
  ghost predicate StackFits(f: Function, pc: nat, height: nat)
    requires Emits(f)
  {
    var codes := TunedBlocks(f);
    && (forall n :: 0 <= n < |codes| && Start(codes, n) == pc ==> height == 0)
    && forall n: nat, k: nat :: Within(codes, n, k, pc) && k < |codes[n]| && codes[n][k].RetOp? ==>
        height == RetOperands(f.blocks[n])
  }

  lemma StandingFits(f: Function, n: nat, k: nat, pc: nat, height: nat)
    requires Lowerable(f) && Standing(f, n, k, pc, height)
    ensures StackFits(f, pc, height)
  {
    hide TunedBlocks, Start, EntryUnreached, ShapedBlock, Function.GoodCfg, Balanced, Emits;
    var codes := TunedBlocks(f);
    StandingEnds(f, n, k, pc, height);
    forall m | 0 <= m < |codes| && Start(codes, m) == pc ensures height == 0 {
      if m < n { StartGrows(codes, m, n); } else if m > n { StartGrows(codes, n, m); }
      assert k == 0 || k == |codes[n]|;
    }
    forall m: nat, j: nat | Within(codes, m, j, pc) && j < |codes[m]| && codes[m][j].RetOp?
      ensures height == RetOperands(f.blocks[m]) {
      SamePlace(f, n, k, m, j, pc, height);
    }
  }

  lemma StandingEnds(f: Function, n: nat, k: nat, pc: nat, height: nat)
    requires Emits(f) && Standing(f, n, k, pc, height)
    ensures k == 0 || k == |TunedBlocks(f)[n]| ==> height == 0
  {
    hide TunedBlocks, Start;
  }

  /** Only one operation stands at a position. */
  lemma SamePlace(f: Function, n: nat, k: nat, m: nat, j: nat, pc: nat, height: nat)
    requires Lowerable(f) && Standing(f, n, k, pc, height) && Within(TunedBlocks(f), m, j, pc)
        && j < |TunedBlocks(f)[m]|
    requires TunedBlocks(f)[m][j].RetOp?
    ensures height == RetOperands(f.blocks[m])
  {
    hide TunedBlocks, Start, EntryUnreached, ShapedBlock, Function.GoodCfg, Emits;
    var codes := TunedBlocks(f);
    if m < n { StartGrows(codes, m, n); }
    if n < m { StartGrows(codes, n, m); }
    StandingEnds(f, n, k, pc, height);
    StartStanding(f, m);
    if n == m { assert codes[n][k..][0] == codes[m][j]; } else { assert codes[m][0..][0] == codes[m][j]; }
  }

  lemma {:induction false} NextStanding(f: Function, n: nat, k: nat, pc: nat, height: nat) returns (m: nat, j: nat)
    requires Lowerable(f) && Standing(f, n, k, pc, height) && pc < Start(TunedBlocks(f), |TunedBlocks(f)|)
    ensures Standing(f, m, j, pc, height) && j < |TunedBlocks(f)[m]|
    decreases |f.blocks| - n
  {
    hide TunedBlocks, EntryUnreached, ShapedBlock, Function.GoodCfg, Emits, Balanced;
    var codes := TunedBlocks(f);
    if k < |codes[n]| {
      m, j := n, k;
    } else {
      StandingEnds(f, n, k, pc, height);
      assert Start(codes, n + 1) == pc;
      StartStanding(f, n + 1);
      m, j := NextStanding(f, n + 1, 0, pc, 0);
    }
  }

  lemma CodeAt(f: Function, n: nat, k: nat)
    requires Emits(f) && f.UniqueLabels() && n < |f.blocks| && k < |TunedBlocks(f)[n]|
    ensures var c, pc := EmittedCode(f), Start(TunedBlocks(f), n) + k;
            pc < |c.code| == Start(TunedBlocks(f), |f.blocks|) && c.code[pc] == TunedBlocks(f)[n][k]
  {
    hide TunedBlocks, Assemble, Emits;
    DistinctFunction(f);
    Assembled(f.params, Ids(f), TunedBlocks(f), n);
    HoldsAt(EmittedCode(f).code, Start(TunedBlocks(f), n), TunedBlocks(f)[n], k);
  }

  lemma StandingGoesOn(f: Function, n: nat, k: nat, pc: nat, height: nat, height': nat)
    requires Emits(f) && Standing(f, n, k, pc, height) && k < |TunedBlocks(f)[n]|
    requires Balanced(TunedBlocks(f)[n][k + 1..], height', RetOperands(f.blocks[n]))
    ensures Standing(f, n, k + 1, pc + 1, height')
  {
    hide TunedBlocks, Balanced, Emits;
  }

  lemma BalancedNext(ops: seq<StackOp>, k: nat, h: nat, ret: nat)
    requires k < |ops| && Balanced(ops[k..], h, ret)
    ensures var op, rest := ops[k], ops[k + 1..];
            && (op.Jmp? ==> h == 0) && (op.Jz? ==> h == 1 && Balanced(rest, 0, ret))
            && (!op.Jmp? && !op.Jz? && !op.RetOp? ==> Takes(op) <= h && Balanced(rest, h - Takes(op) + Gives(op), ret))
  {
    assert ops[k..][0] == ops[k] && ops[k..][1..] == ops[k + 1..];
  }

  lemma StepHeight(fl: Floats, op: StackOp, st: seq<Val>, local: Regs, owned: set<nat>, m: Mem)
    requires StackStep(fl, op, st, local, owned, m).VNext?
    ensures Takes(op) <= |st| && |StackStep(fl, op, st, local, owned, m).st| == |st| - Takes(op) + Gives(op)
  {
    hide EvalBin, EvalNeg, EvalNot, EvalIcmp, EvalFcmp, EvalConv, AsFloat, ValidPtr, StoreTo;
  }

  /** Where a jump leads, the stack is empty. */
  lemma TargetStanding(f: Function, l: Label) returns (m: nat)
    requires Lowerable(f) && l in EmittedCode(f).labels
    ensures Standing(f, m, 0, EmittedCode(f).labels[l], 0)
  {
    hide TunedBlocks, Assemble, Emits, EntryUnreached, ShapedBlock, Balanced;
    DistinctFunction(f);
    m := LabelsNameBlocks(f.params, Ids(f), TunedBlocks(f), l);
    StartStanding(f, m);
  }

  // ----- every run -----

  /** At every step of the run, callees included, the stack fits. */
  ghost predicate StacksFit(funcs: map<Name, Function>, env: VEnv, fuel: nat, g: Name, pc: nat, st: seq<Val>,
                            local: Regs, owned: set<nat>, m: Mem)
    requires g in funcs && Emits(funcs[g])
    decreases fuel, 0
  {
    var c := EmittedCode(funcs[g]);
    && StackFits(funcs[g], pc, |st|)
    && (fuel > 0 ==>
          match VDecode(c, pc, st)
          case VJump(pc', st') => StacksFit(funcs, env, fuel - 1, g, pc', st', local, owned, m)
          case VReturn(_) => true
          case VInvoke(h, args, st') =>
            && CallStacksFit(funcs, env, fuel - 1, h, args, m)
            && var r := VCall(env, fuel - 1, h, args, m);
               r.Done? ==> StacksFit(funcs, env, fuel - 1, g, pc + 1, st' + [r.v], local, owned, r.m)
          case VCompute =>
            var r := StackStep(env.fl, c.code[pc], st, local, owned, m);
            r.VNext? ==> StacksFit(funcs, env, fuel - 1, g, pc + 1, r.st, r.local, r.owned, r.m)
          case VBroken => true)
  }

  ghost predicate CallStacksFit(funcs: map<Name, Function>, env: VEnv, fuel: nat, g: Name, args: seq<Val>, m: Mem)
    decreases fuel, 1
  {
    g in funcs && Emits(funcs[g]) ==> StacksFit(funcs, env, fuel, g, 0, [], Bind(funcs[g].params, args), {}, m)
  }

  lemma {:induction false} RunStacksFit(funcs: map<Name, Function>, env: VEnv, fuel: nat, g: Name, n: nat, k: nat,
                                        pc: nat,
                                        st: seq<Val>, local: Regs, owned: set<nat>, m: Mem)
    requires g in funcs && Lowerable(funcs[g]) && Standing(funcs[g], n, k, pc, |st|) && AllLowerable(funcs)
    ensures StacksFit(funcs, env, fuel, g, pc, st, local, owned, m)
    decreases fuel, 0
  {
    hide Standing, StackFits, AllLowerable, EmittedCode, Lowerable, StackStep, VCall, Balanced, TunedBlocks;
    var f := funcs[g];
    CodeEnds(f);
    var c := EmittedCode(f);
    StandingFits(f, n, k, pc, |st|);
    if fuel > 0 && pc < |c.code| {
      var i, j := NextStanding(f, n, k, pc, |st|);
      StandingHas(f, i, j, pc, |st|);
      var op := c.code[pc];
      match VDecode(c, pc, st)
      case VJump(pc', st') =>
        if op.Jz? && pc' == pc + 1 && Top(st) != VInt(0) {
          StandingGoesOn(f, i, j, pc, |st|, 0);
          RunStacksFit(funcs, env, fuel - 1, g, i, j + 1, pc', st', local, owned, m);
        } else {
          var t := TargetStanding(f, op.target);
          RunStacksFit(funcs, env, fuel - 1, g, t, 0, pc', st', local, owned, m);
        }
      case VReturn(_) =>
      case VInvoke(h, args, st') =>
        CallsFit(funcs, env, fuel - 1, h, args, m);
        var r := VCall(env, fuel - 1, h, args, m);
        if r.Done? {
          StandingGoesOn(f, i, j, pc, |st|, |st'| + 1);
          RunStacksFit(funcs, env, fuel - 1, g, i, j + 1, pc + 1, st' + [r.v], local, owned, r.m);
        }
      case VCompute =>
        var r := StackStep(env.fl, op, st, local, owned, m);
        if r.VNext? {
          StepHeight(env.fl, op, st, local, owned, m);
          StandingGoesOn(f, i, j, pc, |st|, |r.st|);
          RunStacksFit(funcs, env, fuel - 1, g, i, j + 1, pc + 1, r.st, r.local, r.owned, r.m);
        }
      case VBroken =>
    }
  }

  lemma CodeEnds(f: Function)
    requires Lowerable(f)
    ensures Emits(f) && |EmittedCode(f).code| == Start(TunedBlocks(f), |TunedBlocks(f)|)
  {
    hide TunedBlocks, Assemble, Emits, EntryUnreached, ShapedBlock;
    DistinctFunction(f);
    Assembled(f.params, Ids(f), TunedBlocks(f), 0);
  }

  lemma StandingHas(f: Function, n: nat, k: nat, pc: nat, height: nat)
    requires Lowerable(f) && Standing(f, n, k, pc, height) && k < |TunedBlocks(f)[n]|
    ensures pc < |EmittedCode(f).code| && EmittedCode(f).code[pc] == TunedBlocks(f)[n][k]
    ensures var op, rest, ret := EmittedCode(f).code[pc], TunedBlocks(f)[n][k + 1..], RetOperands(f.blocks[n]);
            && (op.Jmp? ==> height == 0) && (op.Jz? ==> height == 1 && Balanced(rest, 0, ret))
            && (!op.Jmp? && !op.Jz? && !op.RetOp? ==>
                Takes(op) <= height && Balanced(rest, height - Takes(op) + Gives(op), ret))
  {
    hide TunedBlocks, EmittedCode, Emits, EntryUnreached, ShapedBlock, Balanced;
    CodeAt(f, n, k);
    BalancedNext(TunedBlocks(f)[n], k, height, RetOperands(f.blocks[n]));
  }

  lemma {:induction false} CallsFit(funcs: map<Name, Function>, env: VEnv, fuel: nat, g: Name, args: seq<Val>, m: Mem)
    requires AllLowerable(funcs)
    ensures CallStacksFit(funcs, env, fuel, g, args, m)
    decreases fuel, 1
  {
    hide StacksFit, TunedBlocks, Standing;
    if g in funcs && Emits(funcs[g]) {
      BlocksThere(funcs[g]);
      StartStanding(funcs[g], 0);
      RunStacksFit(funcs, env, fuel, g, 0, 0, 0, [], Bind(funcs[g].params, args), {}, m);
    }
  }

  lemma BlocksThere(f: Function)
    requires Lowerable(f)
    ensures f.blocks != [] && Start(TunedBlocks(f), 0) == 0
  {}

  /** In every run of an emitted program the operand stack is empty at every block start, and a
      return finds on it exactly what it returns: nothing, for `ret void`. */
  lemma ProgramStacksFit(fl: Floats, funcs: map<Name, Function>, fuel: nat, entry: Name, args: seq<Val>, m: Mem)
    requires AllLowerable(funcs)
    ensures Emitting(funcs) && CallStacksFit(funcs, EmittedEnv(fl, funcs), fuel, entry, args, m)
  {
    hide Lowerable, EmittedEnv, CallStacksFit;
    forall g | g in funcs ensures CanEmit(funcs[g]) { LowerableEmits(funcs[g]); }
    CallsFit(funcs, EmittedEnv(fl, funcs), fuel, entry, args, m);
  }

  lemma LowerableEmits(f: Function)
    requires Lowerable(f)
    ensures CanEmit(f)
  {
    hide Emits, EntryUnreached, ShapedBlock;
  }
}
