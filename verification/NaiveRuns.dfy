/** Each CIR instruction, run as the bytecode it lowers to. */
module NaiveRuns {
  import opened Cir
  import opened Arith
  import opened Interp
  import opened Bytecode
  import opened StackVm
  import opened Layout
  import opened LowerSteps
  import opened PeepholeCorrect
  import opened NaiveProof

  lemma {:induction false} PushedPlain(xs: seq<Operand>, locals: set<Name>)
    requires PushAll(xs, locals).Some?
    ensures NoGlobals(xs)
  {
    if xs != [] { PushedPlain(xs[..|xs| - 1], locals); }
  }

  lemma {:induction false} OperandsClean(regs: Regs, xs: seq<Operand>)
    requires CleanRegs(regs) && OperandVals(regs, xs).Some? && forall k :: 0 <= k < |xs| ==> !xs[k].GlobalRef?
    ensures CleanVals(OperandVals(regs, xs).value)
  {
    if xs != [] { OperandsClean(regs, xs[..|xs| - 1]); }
  }

  // ----- straight-line instructions -----

  lemma ComputeRuns(env: Env, f: Function, n: nat, rest: seq<Instr>, pc: nat, ops: seq<StackOp>, fuel: nat, v: VEnv,
                    regs: Regs, owned: set<nat>, m: Mem)
    requires env.checkWritten && v.fl == env.fl && rest != [] && Computes(rest[0]) && Shaped(rest[0])
    requires LowerInstr(rest[0], LocalTable(f), NextLabel(f, n)) == Some(ops)
    requires CleanRegs(regs) && CleanMem(m) && Emits(f) && Holds(NaiveCode(f).code, pc, ops)
    ensures var c := NaiveCode(f);
            var r := VExec(v, fuel, c, pc, [], regs, owned, Erase(m));
            match Step(env, rest[0], regs, owned, m)
            case Next(regs', owned', m') =>
              && r == Paid(v, c, fuel, |ops|, pc + |ops|, [], regs', owned', Erase(m'), m.out)
              && CleanRegs(regs') && CleanMem(m')
            case StepTraps => r == if fuel <= |Pushed(rest[0])| then OutOfFuel(m.out) else Trapped(m.out)
            case StepFails => true
  {
    hide Step, StackStep, VExec, LowerInstr, CleanRegs, CleanMem, Assemble, Erase, Applied, Pushed, PushAll,
         OperandVals, Shaped, Paid, LocalTable;
    var ins := rest[0];
    if !Step(env, ins, regs, owned, m).StepFails? {
      LowerShape(ins, LocalTable(f), NextLabel(f, n));
      PushedPlain(Pushed(ins), LocalTable(f));
      StepMatches(env, ins, regs, owned, m);
      SameOut(m);
      var op, vs := Applied(ins).value, OperandVals(regs, Pushed(ins)).value;
      match Step(env, ins, regs, owned, m)
      case Next(regs', owned', m') =>
        var st' := StackStep(env.fl, op, vs, regs, owned, Erase(m)).st;
        SameOut(m');
        ApplyRuns(v, NaiveCode(f), fuel, Pushed(ins), LocalTable(f), op, ins.dest, pc, regs, owned, Erase(m),
                  st', owned', Erase(m'));
      case StepTraps =>
        ApplyTraps(v, NaiveCode(f), fuel, Pushed(ins), LocalTable(f), op, Parked(ins.dest), pc, regs, owned, Erase(m));
    }
  }

  lemma SameOut(m: Mem)
    ensures Erase(m).out == m.out
  {}

  // ----- transfers -----

  /** How many operations the transfer takes. */
  function TransferCost(ins: Instr, regs: Regs, next: Option<Label>): nat {
    match ins.op
    case Br(l) => |JumpTo(l, next)|
    case BrCond(t, e) => (
      match FirstVal(regs, ins.args, None)
      case Some(VInt(i)) => if i == 0 then 2 else 2 + |JumpTo(t, next)|
      case _ => 0)
    case _ => 0
  }

  lemma TransferTarget(f: Function, n: nat, rest: seq<Instr>, regs: Regs)
    requires n < |f.blocks| && |rest| == 1 && |f.blocks[n].instrs| >= 1
    requires rest == f.blocks[n].instrs[|f.blocks[n].instrs| - 1..]
    requires Decode(rest[0], regs).Transfer?
    ensures Decode(rest[0], regs).target in f.blocks[n].Successors()
  {
    var b := f.blocks[n];
    assert rest[0] == b.instrs[|b.instrs| - 1];
    var l := Decode(rest[0], regs).target;
    if rest[0].op.Br? {
      assert [rest[0].op.target][0] == l;
    } else {
      var t, e := rest[0].op.thenTarget, rest[0].op.elseTarget;
      assert [t, e][0] == t && [t, e][1] == e;
    }
  }

  lemma JumpRuns(v: VEnv, c: Code, fuel: nat, l: Label, next: Option<Label>, pc: nat, to: nat,
                 regs: Regs, owned: set<nat>, m: Mem)
    requires Holds(c.code, pc, JumpTo(l, next)) && l in c.labels && c.labels[l] == to
    requires next == Some(l) ==> pc == to
    ensures VExec(v, fuel, c, pc, [], regs, owned, m)
         == Paid(v, c, fuel, |JumpTo(l, next)|, to, [], regs, owned, m, m.out)
  {
    if next != Some(l) { HoldsAt(c.code, pc, [Jmp(l)], 0); }
  }

  /** A block's terminator leads the machine to the start of the target's code; a
      transfer that takes no operation goes to the next block. */
  lemma TransferRuns(f: Function, n: nat, rest: seq<Instr>, pc: nat, fuel: nat, v: VEnv,
                     regs: Regs, owned: set<nat>, m: Mem) returns (k: nat)
    requires Decode(if rest == [] then Instr(Trap, Void, None, []) else rest[0], regs).Transfer?
    requires Lowerable(f) && At(f, n, rest, pc)
    ensures var l := Decode(rest[0], regs).target;
            k < |f.blocks| && l in BlockMap(f.blocks) && BlockMap(f.blocks)[l] == f.blocks[k]
    ensures var c := NaiveCode(f);
            var cost := TransferCost(rest[0], regs, NextLabel(f, n));
            && (cost == 0 ==> k == n + 1)
            && VExec(v, fuel, c, pc, [], regs, owned, m)
            == Paid(v, c, fuel, cost, Start(NaiveBlocks(f), k), [], regs, owned, m, m.out)
  {
    hide EntryUnreached, ShapedBlock, VExec, Assemble, LowerInstrs, LocalTable, BlockMap, NaiveBlocks, Start;
    AtShape(f, n, rest, pc);
    var ops := AtNext(f, n, rest, pc);
    var ins := rest[0];
    var next := NextLabel(f, n);
    TransferTarget(f, n, rest, regs);
    k := TargetPlaced(f, n, Decode(ins, regs).target);
    var c, to := NaiveCode(f), Start(NaiveBlocks(f), k);
    if ins.op.Br? {
      JumpRuns(v, c, fuel, ins.op.target, next, pc, to, regs, owned, m);
    } else {
      CondRuns(v, c, fuel, ins, LocalTable(f), next, pc, to, regs, owned, m);
    }
  }

  lemma CondRuns(v: VEnv, c: Code, fuel: nat, ins: Instr, locals: set<Name>, next: Option<Label>, pc: nat, to: nat,
                 regs: Regs, owned: set<nat>, m: Mem)
    requires ins.op.BrCond? && |ins.args| == 1 && Decode(ins, regs).Transfer?
    requires LowerInstr(ins, locals, next).Some? && Holds(c.code, pc, LowerInstr(ins, locals, next).value)
    requires Decode(ins, regs).target in c.labels && c.labels[Decode(ins, regs).target] == to
    requires next == Some(Decode(ins, regs).target) && Decode(ins, regs).target == ins.op.thenTarget ==>
               pc + |LowerInstr(ins, locals, next).value| == to
    ensures VExec(v, fuel, c, pc, [], regs, owned, m)
         == Paid(v, c, fuel, TransferCost(ins, regs, next), to, [], regs, owned, m, m.out)
  {
    hide PushAll, OperandVals, JumpTo, VExec, Holds, LowerInstr;
    var t, e := ins.op.thenTarget, ins.op.elseTarget;
    CondPlaced(c, ins, locals, next, pc);
    OneValue(regs, ins.args);
    var x := OperandVal(regs, ins.args[0]).value;
    PushRuns(v, c, fuel, ins.args, locals, pc, [], regs, owned, m);
    assert [] + [x] == [x];
    if fuel == 1 {
      VNoFuel(v, c, pc + 1, [x], regs, owned, m);
    } else if fuel > 1 {
      JzRuns(v, c, fuel - 1, pc + 1, x.i, e, regs, owned, m);
      if x.i != 0 {
        if next == Some(t) { SkippedJump(t, next); }
        JumpRuns(v, c, fuel - 2, t, next, pc + 2, to, regs, owned, m);
      }
    }
  }

  /** Where the pieces of a conditional branch's code are. */
  lemma CondPlaced(c: Code, ins: Instr, locals: set<Name>, next: Option<Label>, pc: nat)
    requires ins.op.BrCond? && |ins.args| == 1 && LowerInstr(ins, locals, next).Some?
    requires Holds(c.code, pc, LowerInstr(ins, locals, next).value)
    ensures PushAll(ins.args, locals).Some? && Holds(c.code, pc, PushAll(ins.args, locals).value)
    ensures pc + 1 < |c.code| && c.code[pc + 1] == Jz(ins.op.elseTarget)
    ensures Holds(c.code, pc + 2, JumpTo(ins.op.thenTarget, next))
    ensures |LowerInstr(ins, locals, next).value| == 2 + |JumpTo(ins.op.thenTarget, next)|
  {
    hide PushAll, JumpTo, Holds;
    var ps := PushAll(ins.args, locals).value;
    var jz := [Jz(ins.op.elseTarget)];
    HoldsSplit(c.code, pc, ps + jz, JumpTo(ins.op.thenTarget, next));
    HoldsSplit(c.code, pc, ps, jz);
    HoldsAt(c.code, pc + 1, jz, 0);
  }

  lemma SkippedJump(t: Label, next: Option<Label>)
    requires next == Some(t)
    ensures JumpTo(t, next) == []
  {}

  lemma JzRuns(v: VEnv, c: Code, fuel: nat, pc: nat, i: int, e: Label, regs: Regs, owned: set<nat>, m: Mem)
    requires fuel > 0 && pc < |c.code| && c.code[pc] == Jz(e)
    requires i == 0 ==> e in c.labels
    ensures VExec(v, fuel, c, pc, [VInt(i)], regs, owned, m)
         == VExec(v, fuel - 1, c, if i == 0 then c.labels[e] else pc + 1, [], regs, owned, m)
  {
    assert Pop([VInt(i)], 1) == [];
  }

  // ----- returns -----

  lemma ReturnRuns(v: VEnv, c: Code, fuel: nat, ins: Instr, locals: set<Name>, next: Option<Label>, pc: nat,
                   regs: Regs, owned: set<nat>, m: Mem)
    requires ins.op.Ret? && |ins.args| <= 1 && Decode(ins, regs).Return?
    requires LowerInstr(ins, locals, next).Some? && Holds(c.code, pc, LowerInstr(ins, locals, next).value)
    ensures VExec(v, fuel, c, pc, [], regs, owned, m) ==
            if fuel <= |ins.args| then OutOfFuel(m.out) else Done(Decode(ins, regs).v, Release(m, owned))
  {
    hide PushAll, OperandVals, VExec;
    var ps := PushAll(ins.args, locals).value;
    var n := |ins.args|;
    if n == 0 { NoOperands(regs); } else { OneValue(regs, ins.args); }
    HoldsSplit(c.code, pc, ps, [RetOp]);
    HoldsAt(c.code, pc + n, [RetOp], 0);
    PushRuns(v, c, fuel, ins.args, locals, pc, [], regs, owned, m);
    var vs := OperandVals(regs, ins.args).value;
    assert [] + vs == vs;
    if fuel == n {
      VNoFuel(v, c, pc + n, vs, regs, owned, m);
    } else if fuel > n {
      RetOpRuns(v, c, fuel - n, pc + n, vs, regs, owned, m);
    }
  }

  lemma RetOpRuns(v: VEnv, c: Code, fuel: nat, pc: nat, st: seq<Val>, regs: Regs, owned: set<nat>, m: Mem)
    requires fuel > 0 && pc < |c.code| && c.code[pc] == RetOp
    ensures VExec(v, fuel, c, pc, st, regs, owned, m) == Done(if st == [] then VInt(0) else Top(st), Release(m, owned))
  {}

  // ----- calls -----

  lemma InvokeRuns(v: VEnv, c: Code, fuel: nat, ins: Instr, locals: set<Name>, next: Option<Label>, pc: nat,
                   vs: seq<Val>,
                   regs: Regs, owned: set<nat>, m: Mem)
    requires ins.op.Call? && OperandVals(regs, ins.args) == Some(vs)
    requires LowerInstr(ins, locals, next).Some? && Holds(c.code, pc, LowerInstr(ins, locals, next).value)
    ensures |LowerInstr(ins, locals, next).value| == |vs| + 2
    ensures fuel <= |vs| ==> VExec(v, fuel, c, pc, [], regs, owned, m) == OutOfFuel(m.out)
    ensures fuel > |vs| ==>
              VExec(v, fuel, c, pc, [], regs, owned, m) ==
              match VCall(v, fuel - |vs| - 1, ins.op.callee, vs, m)
              case Done(x, m') =>
                Paid(v, c, fuel - |vs| - 1, 1, pc + |vs| + 2, [], Receive(regs, ins.dest, x), owned, m', m'.out)
              case stop => stop
  {
    hide OperandVals, VExec, VCall, Holds, LowerInstr, StackStep, PushAll;
    var n := |vs|;
    var tail := InvokePlaced(c, ins, locals, next, pc);
    PushRuns(v, c, fuel, ins.args, locals, pc, [], regs, owned, m);
    assert [] + vs == vs;
    if fuel == n {
      VNoFuel(v, c, pc + n, vs, regs, owned, m);
    } else if fuel > n {
      CallOpRuns(v, c, fuel - n, pc + n, vs, ins.op.callee, regs, owned, m);
      match VCall(v, fuel - n - 1, ins.op.callee, vs, m)
      case Done(x, m') =>
        if fuel == n + 1 {
          VNoFuel(v, c, pc + n + 1, [x], regs, owned, m');
        } else {
          OneOp(v, c, fuel - n - 1, pc + n + 1, [x], regs, owned, m');
          ParkOrDrop(v.fl, ins.dest, x, regs, owned, m');
        }
      case _ =>
    }
  }

  /** Where the pieces of a call's code are. */
  lemma InvokePlaced(c: Code, ins: Instr, locals: set<Name>, next: Option<Label>, pc: nat) returns (tail: StackOp)
    requires ins.op.Call? && LowerInstr(ins, locals, next).Some?
    requires Holds(c.code, pc, LowerInstr(ins, locals, next).value)
    ensures var n := |ins.args|;
            && |LowerInstr(ins, locals, next).value| == n + 2 && pc + n + 1 < |c.code|
            && PushAll(ins.args, locals).Some? && Holds(c.code, pc, PushAll(ins.args, locals).value)
            && c.code[pc + n] == CallOp(ins.op.callee, n) && c.code[pc + n + 1] == tail
    ensures tail == if ins.dest.Some? then StoreL(ins.dest.value) else Drop
  {
    hide PushAll, Holds;
    var n := |ins.args|;
    var ps := PushAll(ins.args, locals).value;
    var op := CallOp(ins.op.callee, n);
    tail := if ins.dest.Some? then StoreL(ins.dest.value) else Drop;
    HoldsSplit(c.code, pc, ps + [op], [tail]);
    HoldsSplit(c.code, pc, ps, [op]);
    HoldsAt(c.code, pc + n, [op], 0);
    HoldsAt(c.code, pc + n + 1, [tail], 0);
  }

  lemma CallOpRuns(v: VEnv, c: Code, fuel: nat, pc: nat, vs: seq<Val>, g: Name, regs: Regs, owned: set<nat>, m: Mem)
    requires fuel > 0 && pc < |c.code| && c.code[pc] == CallOp(g, |vs|)
    ensures VExec(v, fuel, c, pc, vs, regs, owned, m) ==
            match VCall(v, fuel - 1, g, vs, m)
            case Done(x, m') => VExec(v, fuel - 1, c, pc + 1, [x], regs, owned, m')
            case stop => stop
  {
    hide VCall;
    assert vs[0..] == vs && Pop(vs, |vs|) == [];
    match VCall(v, fuel - 1, g, vs, m)
    case Done(x, m') => assert [] + [x] == [x];
    case _ =>
  }

  lemma ParkOrDrop(fl: Floats, dest: Option<Name>, x: Val, regs: Regs, owned: set<nat>, m: Mem)
    ensures StackStep(fl, if dest.Some? then StoreL(dest.value) else Drop, [x], regs, owned, m)
         == VNext([], Receive(regs, dest, x), owned, m)
  {
    assert Pop([x], 1) == [];
  }
}
