/** Where the bytecode differs from the interpreter: an f64 slot read before it is
    written.  The interpreter fills it with 0.0, the machine with the integer 0. */
module ZeroFill {
  import opened Cir
  import opened Arith
  import opened Interp
  import opened Bytecode
  import opened StackVm
  import opened LowerSteps
  import opened Layout
  import opened BytecodeProof
  import opened NaiveRuns

  /** A load sees the same value in both exactly when it does not read an unwritten f64 element. */
  lemma LoadAgreesIff(fl: Floats, c: Cell)
    ensures VCellVal(EraseCell(c)) == CellVal(fl, c) <==> c != Zeroed(true)
  {}

  const P := Name("p")
  const X := Name("x")
  const Y := Name("y")

  /** Negates and prints a slot nothing was stored to. */
  const INSTRS: seq<Instr> := [
    Instr(Alloca, F64, Some(P), []),
    Instr(Load, F64, Some(X), [Reg(P, Ptr)]),
    Instr(Neg, F64, Some(Y), [Reg(X, F64)]),
    Instr(PrintF64, Void, None, [Reg(Y, F64)]),
    Instr(Ret, Void, None, [])]

  const BLOCK := BasicBlock(Label("entry"), INSTRS)

  const PROGRAM := Function(Name("main"), [], [BLOCK])

  function Plain(fl: Floats): Env {
    Env(fl, map[Name("main") := PROGRAM], false, false)
  }

  lemma InterpPrints(fl: Floats)
    ensures RunProgram(Plain(fl), 1, map[], Name("main"), []).Out() == [PrintedFloat(fl.neg(fl.zero))]
    ensures RunProgram(Plain(fl), 1, map[], Name("main"), []).Done?
  {
    hide Step, Exec;
    var env := Plain(fl);
    var m0 := Mem(map[], map[], 0, []);
    var m1 := Mem(map[], map[0 := [Zeroed(true)]], 1, []);
    var r1: Regs := map[P := VPtr(0, 0)];
    var r2 := r1[X := VFloat(fl.zero)];
    var r3 := r2[Y := VFloat(fl.neg(fl.zero))];
    var m2 := m1.(out := [PrintedFloat(fl.neg(fl.zero))]);
    AllocaStep0(env, m0, m1, r1);
    LoadStep0(env, m1, r1, r2);
    NegStep0(env, m1, r2, r3);
    PrintStep0(env, m1, r3, m2);
    InstrTails();
    ExecCompute(env, 0, PROGRAM, BLOCK, INSTRS, map[], {}, m0);
    ExecCompute(env, 0, PROGRAM, BLOCK, INSTRS[1..], r1, {0}, m1);
    ExecCompute(env, 0, PROGRAM, BLOCK, INSTRS[2..], r2, {0}, m1);
    ExecCompute(env, 0, PROGRAM, BLOCK, INSTRS[3..], r3, {0}, m1);
    ExecReturn(env, 0, PROGRAM, BLOCK, INSTRS[4..], r3, {0}, m2);
  }

  lemma InstrTails()
    ensures INSTRS[1..][0] == INSTRS[1] && INSTRS[1..][1..] == INSTRS[2..]
    ensures INSTRS[2..][0] == INSTRS[2] && INSTRS[2..][1..] == INSTRS[3..]
    ensures INSTRS[3..][0] == INSTRS[3] && INSTRS[3..][1..] == INSTRS[4..]
    ensures INSTRS[4..][0] == INSTRS[4] && INSTRS[4..][1..] == []
  {}

  lemma AllocaStep0(env: Env, m0: Mem, m1: Mem, r1: Regs)
    requires m0 == Mem(map[], map[], 0, []) && m1 == Mem(map[], map[0 := [Zeroed(true)]], 1, [])
        && r1 == map[P := VPtr(0, 0)]
    ensures Step(env, INSTRS[0], map[], {}, m0) == Next(r1, {0}, m1)
  {
    assert ZeroCells(1, true) == [Zeroed(true)];
    assert {} + {0} == {0};
  }

  lemma LoadStep0(env: Env, m1: Mem, r1: Regs, r2: Regs)
    requires !env.checkWritten && m1 == Mem(map[], map[0 := [Zeroed(true)]], 1, []) && r1 == map[P := VPtr(0, 0)]
    requires r2 == r1[X := VFloat(env.fl.zero)]
    ensures Step(env, INSTRS[1], r1, {0}, m1) == Next(r2, {0}, m1)
  {
    OneValue(r1, INSTRS[1].args);
    assert INSTRS[1].args[..1] == INSTRS[1].args;
  }

  lemma NegStep0(env: Env, m1: Mem, r2: Regs, r3: Regs)
    requires X in r2 && r2[X] == VFloat(env.fl.zero) && r3 == r2[Y := VFloat(env.fl.neg(env.fl.zero))]
    ensures Step(env, INSTRS[2], r2, {0}, m1) == Next(r3, {0}, m1)
  {
    OneValue(r2, INSTRS[2].args);
    assert INSTRS[2].args[..1] == INSTRS[2].args;
  }

  lemma PrintStep0(env: Env, m1: Mem, r3: Regs, m2: Mem)
    requires Y in r3 && r3[Y] == VFloat(env.fl.neg(env.fl.zero)) && m1.out == []
    requires m2 == m1.(out := [PrintedFloat(env.fl.neg(env.fl.zero))])
    ensures Step(env, INSTRS[3], r3, {0}, m1) == Next(r3, {0}, m2)
  {
    OneValue(r3, INSTRS[3].args);
    assert INSTRS[3].args[..1] == INSTRS[3].args;
    assert [] + [PrintedFloat(env.fl.neg(env.fl.zero))] == [PrintedFloat(env.fl.neg(env.fl.zero))];
  }

  /** The code the emitter produces for it: every local is kept on the stack. */
  const CODE: seq<StackOp> := [AllocaOp(1), LoadOp, FNegOp, PrintFOp, RetOp]

  lemma EmittedProgram()
    ensures Emits(PROGRAM) && EmittedCode(PROGRAM).code == CODE && EmittedCode(PROGRAM).params == []
  {
    hide LowerInstrs, Peephole, UseCount, Parse;
    var locals := LocalTable(PROGRAM);
    var f := PROGRAM;
    assert P in locals by { assert INSTRS[0] in BLOCK.instrs && BLOCK in f.blocks; }
    assert X in locals by { assert INSTRS[1] in BLOCK.instrs && BLOCK in f.blocks; }
    assert Y in locals by { assert INSTRS[2] in BLOCK.instrs && BLOCK in f.blocks; }
    Lowered(locals);
    assert NaiveBlock(f, 0) == Some(NAIVE);
    var dead := l => OneRead(f, 0, l);
    UsedOnce(P);
    UsedOnce(X);
    UsedOnce(Y);
    PeepholeResult(dead);
    assert TunedBlocks(f) == [CODE];
    Assembled([], Ids(f), [CODE], 0);
    assert Start([CODE], 1) == Start([CODE], 0) + |CODE|;
    assert EmittedCode(f).code == EmittedCode(f).code[0..0 + |CODE|];
  }

  lemma UsedOnce(l: Name)
    requires l in {P, X, Y}
    ensures OneRead(PROGRAM, 0, l)
  {
    InstrTails();
    ReadsOne(Reg(P, Ptr), l);
    ReadsOne(Reg(X, F64), l);
    ReadsOne(Reg(Y, F64), l);
    assert UseCount(INSTRS[4..], l) == 0;
    assert UseCount(INSTRS[3..], l) == if l == Y then 1 else 0;
    assert UseCount(INSTRS[2..], l) == if l == P then 0 else 1;
    assert UseCount(INSTRS[1..], l) == 1;
  }

  lemma ReadsOne(x: Operand, l: Name)
    requires x.Reg?
    ensures Reads([x], l) == if x.name == l then 1 else 0
  {
    assert [x][..0] == [] && Reads([x][..0], l) == 0;
  }

  lemma PeepholeResult(dead: Name -> bool)
    requires dead(P) && dead(X) && dead(Y)
    ensures Peephole(NAIVE, dead) == CODE
  {
    hide Peephole;
    var s4 := [PrintFOp, RetOp];
    var s3 := [FNegOp] + ([StoreL(Y), LoadL(Y)] + s4);
    var s2 := [LoadOp] + ([StoreL(X), LoadL(X)] + s3);
    assert NAIVE == [AllocaOp(1)] + ([StoreL(P), LoadL(P)] + s2);
    assert s4 == [PrintFOp] + ([RetOp] + []);
    PeepholeEmpty(dead);
    PeepholeKeep(RetOp, [], dead);
    PeepholeKeep(PrintFOp, [RetOp] + [], dead);
    PeepholeDrop(Y, s4, dead);
    PeepholeKeep(FNegOp, [StoreL(Y), LoadL(Y)] + s4, dead);
    PeepholeDrop(X, s3, dead);
    PeepholeKeep(LoadOp, [StoreL(X), LoadL(X)] + s3, dead);
    PeepholeDrop(P, s2, dead);
    PeepholeKeep(AllocaOp(1), [StoreL(P), LoadL(P)] + s2, dead);
  }

  lemma PeepholeEmpty(dead: Name -> bool)
    ensures Peephole([], dead) == []
  {}

  lemma PeepholeKeep(op: StackOp, s: seq<StackOp>, dead: Name -> bool)
    requires !op.StoreL?
    ensures Peephole([op] + s, dead) == [op] + Peephole(s, dead)
  {
    assert ([op] + s)[1..] == s;
  }

  lemma PeepholeDrop(l: Name, s: seq<StackOp>, dead: Name -> bool)
    requires dead(l)
    ensures Peephole([StoreL(l), LoadL(l)] + s, dead) == Peephole(s, dead)
  {
    assert ([StoreL(l), LoadL(l)] + s)[2..] == s;
  }

  lemma MachinePrints(v: VEnv)
    requires Name("main") in v.funcs && v.funcs[Name("main")].code == CODE && v.funcs[Name("main")].params == []
    ensures VRunProgram(v, 5, map[], Name("main"), []).Out() == [PrintedFloat(v.fl.ofInt(0))]
    ensures VRunProgram(v, 5, map[], Name("main"), []).Done?
  {
    hide StackStep, VExec;
    var c := v.funcs[Name("main")];
    var m0 := Mem(map[], map[], 0, []);
    var m1 := Mem(map[], map[0 := [Zeroed(false)]], 1, []);
    var m2 := m1.(out := [PrintedFloat(v.fl.ofInt(0))]);
    MachineSteps(v.fl, m0, m1, m2);
    OneOp(v, c, 5, 0, [], map[], {}, m0);
    OneOp(v, c, 4, 1, [VPtr(0, 0)], map[], {0}, m1);
    OneOp(v, c, 3, 2, [VInt(0)], map[], {0}, m1);
    OneOp(v, c, 2, 3, [VInt(0)], map[], {0}, m1);
    RetOpRuns(v, c, 1, 4, [], map[], {0}, m2);
  }

  lemma MachineSteps(fl: Floats, m0: Mem, m1: Mem, m2: Mem)
    requires m0 == Mem(map[], map[], 0, []) && m1 == Mem(map[], map[0 := [Zeroed(false)]], 1, [])
    requires m2 == m1.(out := [PrintedFloat(fl.ofInt(0))])
    ensures StackStep(fl, AllocaOp(1), [], map[], {}, m0) == VNext([VPtr(0, 0)], map[], {0}, m1)
    ensures StackStep(fl, LoadOp, [VPtr(0, 0)], map[], {0}, m1) == VNext([VInt(0)], map[], {0}, m1)
    ensures StackStep(fl, FNegOp, [VInt(0)], map[], {0}, m1) == VNext([VInt(0)], map[], {0}, m1)
    ensures StackStep(fl, PrintFOp, [VInt(0)], map[], {0}, m1) == VNext([], map[], {0}, m2)
  {
    hide StackStep;
    MachineMemory(fl, m0, m1);
    MachineFloat(fl, m1, m2);
  }

  lemma MachineMemory(fl: Floats, m0: Mem, m1: Mem)
    requires m0 == Mem(map[], map[], 0, []) && m1 == Mem(map[], map[0 := [Zeroed(false)]], 1, [])
    ensures StackStep(fl, AllocaOp(1), [], map[], {}, m0) == VNext([VPtr(0, 0)], map[], {0}, m1)
    ensures StackStep(fl, LoadOp, [VPtr(0, 0)], map[], {0}, m1) == VNext([VInt(0)], map[], {0}, m1)
  {
    hide StackStep;
    MachineAlloca(fl, m0, m1);
    MachineLoad(fl, m1);
  }

  lemma MachineAlloca(fl: Floats, m0: Mem, m1: Mem)
    requires m0 == Mem(map[], map[], 0, []) && m1 == Mem(map[], map[0 := [Zeroed(false)]], 1, [])
    ensures StackStep(fl, AllocaOp(1), [], map[], {}, m0) == VNext([VPtr(0, 0)], map[], {0}, m1)
  {
    hide EvalBin, EvalNeg, EvalNot, EvalIcmp, EvalFcmp, EvalConv, AsFloat, ValidPtr, StoreTo;
    assert ZeroCells(1, false) == [Zeroed(false)] && {} + {0} == {0} && [] + [VPtr(0, 0)] == [VPtr(0, 0)];
  }

  lemma MachineLoad(fl: Floats, m: Mem)
    requires m.slots == map[0 := [Zeroed(false)]]
    ensures StackStep(fl, LoadOp, [VPtr(0, 0)], map[], {0}, m) == VNext([VInt(0)], map[], {0}, m)
  {
    hide EvalBin, EvalNeg, EvalNot, EvalIcmp, EvalFcmp, EvalConv, AsFloat, StoreTo, ZeroCells;
    assert Pop([VPtr(0, 0)], 1) == [] && [] + [VInt(0)] == [VInt(0)];
  }

  lemma MachineFloat(fl: Floats, m1: Mem, m2: Mem)
    requires m1.out == [] && m2 == m1.(out := [PrintedFloat(fl.ofInt(0))])
    ensures StackStep(fl, FNegOp, [VInt(0)], map[], {0}, m1) == VNext([VInt(0)], map[], {0}, m1)
    ensures StackStep(fl, PrintFOp, [VInt(0)], map[], {0}, m1) == VNext([], map[], {0}, m2)
  {
    hide EvalBin, EvalNot, EvalIcmp, EvalFcmp, EvalConv, StoreTo, ValidPtr;
    assert [] + [VInt(0)] == [VInt(0)] && Pop([VInt(0)], 1) == [];
    assert m1.out + [PrintedFloat(fl.ofInt(0))] == m2.out;
  }

  /** The two print different floats as soon as negating zero is not the integer 0. */
  lemma PrintsDiffer(fl: Floats, v: VEnv)
    requires fl.neg(fl.zero) != fl.ofInt(0) && Emits(PROGRAM)
    requires v == VEnv(fl, map[Name("main") := EmittedCode(PROGRAM)])
    ensures RunProgram(Plain(fl), 1, map[], Name("main"), []).Out()
         != VRunProgram(v, 5, map[], Name("main"), []).Out()
  {
    EmittedProgram();
    InterpPrints(fl);
    MachinePrints(v);
  }

  const NAIVE: seq<StackOp> := [AllocaOp(1), StoreL(P), LoadL(P), LoadOp, StoreL(X), LoadL(X), FNegOp, StoreL(Y),
                                LoadL(Y), PrintFOp, RetOp]

  lemma LoweredEach(locals: set<Name>)
    requires P in locals && X in locals && Y in locals
    ensures LowerInstr(INSTRS[0], locals, None) == Some([AllocaOp(1), StoreL(P)])
    ensures LowerInstr(INSTRS[1], locals, None) == Some([LoadL(P), LoadOp, StoreL(X)])
    ensures LowerInstr(INSTRS[2], locals, None) == Some([LoadL(X), FNegOp, StoreL(Y)])
    ensures LowerInstr(INSTRS[3], locals, None) == Some([LoadL(Y), PrintFOp])
    ensures LowerInstr(INSTRS[4], locals, None) == Some([RetOp])
  {
    hide LowerInstr;
    LoweredMemory(locals);
    LoweredRest(locals);
  }

  lemma LoweredMemory(locals: set<Name>)
    requires P in locals
    ensures LowerInstr(INSTRS[0], locals, None) == Some([AllocaOp(1), StoreL(P)])
    ensures LowerInstr(INSTRS[1], locals, None) == Some([LoadL(P), LoadOp, StoreL(X)])
  {
    PushOneReg(P, Ptr, locals);
    assert [] + [AllocaOp(1)] + [StoreL(P)] == [AllocaOp(1), StoreL(P)];
    assert [LoadL(P)] + [LoadOp] + [StoreL(X)] == [LoadL(P), LoadOp, StoreL(X)];
  }

  lemma LoweredRest(locals: set<Name>)
    requires X in locals && Y in locals
    ensures LowerInstr(INSTRS[2], locals, None) == Some([LoadL(X), FNegOp, StoreL(Y)])
    ensures LowerInstr(INSTRS[3], locals, None) == Some([LoadL(Y), PrintFOp])
    ensures LowerInstr(INSTRS[4], locals, None) == Some([RetOp])
  {
    PushOneReg(X, F64, locals);
    PushOneReg(Y, F64, locals);
    assert PushAll([], locals) == Some([]) && [] + [RetOp] == [RetOp];
    assert [LoadL(X)] + [FNegOp] + [StoreL(Y)] == [LoadL(X), FNegOp, StoreL(Y)];
    assert [LoadL(Y)] + [PrintFOp] + [] == [LoadL(Y), PrintFOp];
  }

  lemma Lowered(locals: set<Name>)
    requires P in locals && X in locals && Y in locals
    ensures LowerInstrs(INSTRS, locals, None) == Some(NAIVE)
  {
    hide LowerInstr;
    LoweredEach(locals);
    InstrTails();
    var s4 := [RetOp];
    var s3 := [LoadL(Y), PrintFOp] + s4;
    var s2 := [LoadL(X), FNegOp, StoreL(Y)] + s3;
    var s1 := [LoadL(P), LoadOp, StoreL(X)] + s2;
    assert NAIVE == [AllocaOp(1), StoreL(P)] + s1;
    assert LowerInstrs([], locals, None) == Some([]) && s4 + [] == s4;
    assert LowerInstrs(INSTRS[4..], locals, None) == Some(s4);
    assert LowerInstrs(INSTRS[3..], locals, None) == Some(s3);
    assert LowerInstrs(INSTRS[2..], locals, None) == Some(s2);
    assert LowerInstrs(INSTRS[1..], locals, None) == Some(s1);
  }

  lemma PushOneReg(r: Name, ty: Ty, locals: set<Name>)
    requires r in locals
    ensures PushAll([Reg(r, ty)], locals) == Some([LoadL(r)])
  {
    var xs := [Reg(r, ty)];
    assert xs[..0] == [] && PushAll(xs[..0], locals) == Some([]);
    assert [] + [LoadL(r)] == [LoadL(r)];
  }
}
