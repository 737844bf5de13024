/** One CIR instruction against the stack operations it is lowered to. */
module LowerSteps {
  import opened Cir
  import opened Arith
  import opened Interp
  import opened Bytecode
  import opened StackVm
  import opened Layout

  /** The machine's view of memory: every slot zero-filled with the integer 0. */
  function EraseCell(c: Cell): Cell {
    match c
    case Zeroed(_) => Zeroed(false)
    case Written(_) => c
  }

  function EraseCells(s: seq<Cell>): (r: seq<Cell>)
    ensures |r| == |s|
  {
    seq(|s|, i requires 0 <= i < |s| => EraseCell(s[i]))
  }

  function Erase(m: Mem): Mem {
    m.(slots := map s | s in m.slots :: EraseCells(m.slots[s]))
  }

  lemma EraseSlot(m: Mem, s: nat, cells: seq<Cell>)
    ensures Erase(m.(slots := m.slots[s := cells])) == Erase(m).(slots := Erase(m).slots[s := EraseCells(cells)])
  {
    var a := Erase(m.(slots := m.slots[s := cells])).slots;
    var b := Erase(m).slots[s := EraseCells(cells)];
    assert a.Keys == b.Keys;
    assert forall k :: k in a ==> a[k] == b[k];
    assert a == b;
  }

  lemma EraseRelease(m: Mem, owned: set<nat>)
    ensures Erase(Release(m, owned)) == Release(Erase(m), owned)
  {
    assert Erase(Release(m, owned)).slots == Release(Erase(m), owned).slots;
  }

  // ----- no global's address is ever held in a register or in memory -----

  ghost predicate CleanVals(vs: seq<Val>) {
    forall k :: 0 <= k < |vs| ==> !vs[k].VGlob?
  }

  ghost predicate CleanRegs(regs: Regs) {
    forall r :: r in regs ==> !regs[r].VGlob?
  }

  predicate CleanCell(c: Cell) {
    c.Written? ==> !c.v.VGlob?
  }

  ghost predicate CleanCells(cells: seq<Cell>) {
    forall k :: 0 <= k < |cells| ==> CleanCell(cells[k])
  }

  ghost predicate CleanMem(m: Mem) {
    && CleanRegs(m.globs)
    && forall s :: s in m.slots ==> CleanCells(m.slots[s])
  }

  // ----- the shape of an instruction's code -----

  /** Instructions with the operands and result their operation calls for. */
  predicate Shaped(ins: Instr) {
    match ins.op
    case Alloca =>
      ins.dest.Some? && (ins.args == [] ||
        (|ins.args| == 1 && ins.args[0].ConstInt?
            && CountKept(ins.args[0].value, ins.args[0].ty)))
    case Call(_) => true
    case Ret => |ins.args| <= 1
    case Br(_) => true
    case Store => |ins.args| == 2 && ins.dest.None?
    case PrintI32 => |ins.args| == 1 && ins.dest.None?
    case PrintF64 => |ins.args| == 1 && ins.dest.None?
    case Trap => ins.args == [] && ins.dest.None?
    case BrCond(_, _) => |ins.args| == 1
    case _ => |ins.args| == Arity(ins.op) && ins.dest.Some?
  }

  predicate Computes(ins: Instr) {
    !ins.op.IsTerminator() && !ins.op.Call?
  }

  /** What is pushed. */
  function Pushed(ins: Instr): seq<Operand> {
    if ins.op.Alloca? then []
    else if ins.op.Load? && ins.args != [] && ins.args[0].GlobalRef? then []
    else if ins.op.Store? && |ins.args| > 1 && ins.args[1].GlobalRef? then ins.args[..1]
    else ins.args
  }

  /** The operation that follows. */
  function Applied(ins: Instr): Option<StackOp> {
    if ins.op.Alloca? then
      if ins.args == [] then Some(AllocaOp(1))
      else if ins.args[0].ConstInt? then Some(AllocaOp(ins.args[0].value)) else None
    else if ins.op.Load? && ins.args != [] && ins.args[0].GlobalRef? then Some(LoadG(ins.args[0].name))
    else if ins.op.Store? && |ins.args| > 1 && ins.args[1].GlobalRef? then Some(StoreG(ins.args[1].name))
    else Opcode(ins)
  }

  function Parked(dest: Option<Name>): seq<StackOp> {
    match dest
    case Some(d) => [StoreL(d)]
    case None => []
  }

  lemma LowerShape(ins: Instr, locals: set<Name>, next: Option<Label>)
    requires Shaped(ins) && Computes(ins) && LowerInstr(ins, locals, next).Some?
    ensures PushAll(Pushed(ins), locals).Some? && Applied(ins).Some?
    ensures LowerInstr(ins, locals, next).value
         == PushAll(Pushed(ins), locals).value + [Applied(ins).value] + Parked(ins.dest)
  {
    hide IntTable, FloatTable, CmpTable, FcmpTable, SuffixTable;
    match ins.op
    case Load => assert Opcode(ins) == Some(LoadOp);
    case Store => assert Opcode(ins) == Some(StoreOp);
    case _ =>
  }

  // ----- running the shape -----

  predicate Simple(op: StackOp) {
    !op.Jmp? && !op.Jz? && !op.CallOp? && !op.RetOp?
  }

  lemma OneOp(v: VEnv, c: Code, fuel: nat, pc: nat, st: seq<Val>, local: Regs, owned: set<nat>, m: Mem)
    requires fuel > 0 && pc < |c.code| && Simple(c.code[pc])
    ensures VExec(v, fuel, c, pc, st, local, owned, m) ==
            match StackStep(v.fl, c.code[pc], st, local, owned, m)
            case VNext(st', local', owned', m') => VExec(v, fuel - 1, c, pc + 1, st', local', owned', m')
            case VTraps => Trapped(m.out)
            case VFails => Failed(m.out)
  {}

  lemma PushOne(fl: Floats, x: Operand, locals: set<Name>, st: seq<Val>, regs: Regs, owned: set<nat>, m: Mem)
    requires PushValue(x, locals).Some? && OperandVal(regs, x).Some?
    ensures Simple(PushValue(x, locals).value)
    ensures StackStep(fl, PushValue(x, locals).value, st, regs, owned, m)
         == VNext(st + [OperandVal(regs, x).value], regs, owned, m)
  {}

  /** Either `k` operations are paid for and done, or the run stops with nothing printed. */
  function Paid(v: VEnv, c: Code, fuel: nat, k: nat, pc: nat, st: seq<Val>, local: Regs, owned: set<nat>, m: Mem,
                printed: seq<Event>): Outcome
  {
    if fuel < k then OutOfFuel(printed) else VExec(v, fuel - k, c, pc, st, local, owned, m)
  }

  /** Operands are pushed left to right. */
  lemma {:induction false} PushRuns(v: VEnv, c: Code, fuel: nat, xs: seq<Operand>, locals: set<Name>, pc: nat,
                                    st: seq<Val>,
                                    regs: Regs, owned: set<nat>, m: Mem)
    requires PushAll(xs, locals).Some? && OperandVals(regs, xs).Some?
    requires Holds(c.code, pc, PushAll(xs, locals).value)
    ensures VExec(v, fuel, c, pc, st, regs, owned, m)
         == Paid(v, c, fuel, |xs|, pc + |xs|, st + OperandVals(regs, xs).value, regs, owned, m, m.out)
    decreases |xs|
  {
    hide StackStep, VExec, PushValue, OperandVal;
    if xs == [] {
      assert st + [] == st;
    } else {
      var n := |xs| - 1;
      var init := xs[..n];
      var ops, op := PushAll(init, locals).value, PushValue(xs[n], locals).value;
      var vs, x := OperandVals(regs, init).value, OperandVal(regs, xs[n]).value;
      HoldsSplit(c.code, pc, ops, [op]);
      HoldsAt(c.code, pc + n, [op], 0);
      PushRuns(v, c, fuel, init, locals, pc, st, regs, owned, m);
      PushOne(v.fl, xs[n], locals, st + vs, regs, owned, m);
      assert st + vs + [x] == st + (vs + [x]);
      if fuel > n {
        OneOp(v, c, fuel - n, pc + n, st + vs, regs, owned, m);
      } else if fuel == n {
        VNoFuel(v, c, pc + n, st + vs, regs, owned, m);
      }
    }
  }

  lemma VNoFuel(v: VEnv, c: Code, pc: nat, st: seq<Val>, local: Regs, owned: set<nat>, m: Mem)
    ensures VExec(v, 0, c, pc, st, local, owned, m) == OutOfFuel(m.out)
  {}

  /** The operation applied to the pushed operands, when it goes through. */
  lemma ApplyRuns(v: VEnv, c: Code, fuel: nat, xs: seq<Operand>, locals: set<Name>, op: StackOp, dest: Option<Name>,
                  pc: nat, regs: Regs, owned: set<nat>, m: Mem, st': seq<Val>, owned': set<nat>, m': Mem)
    requires PushAll(xs, locals).Some? && OperandVals(regs, xs).Some? && Simple(op)
    requires Holds(c.code, pc, PushAll(xs, locals).value + [op] + Parked(dest))
    requires StackStep(v.fl, op, OperandVals(regs, xs).value, regs, owned, m) == VNext(st', regs, owned', m')
    requires dest.Some? ==> |st'| == 1 && m'.out == m.out
    requires dest.None? ==> st' == []
    ensures var k := |xs| + 1 + |Parked(dest)|;
            var regs' := if dest.Some? then regs[dest.value := st'[0]] else regs;
            VExec(v, fuel, c, pc, [], regs, owned, m) == Paid(v, c, fuel, k, pc + k, [], regs', owned', m', m.out)
  {
    hide StackStep, VExec, PushAll, OperandVals;
    var n := |xs|;
    var ops, vs := PushAll(xs, locals).value, OperandVals(regs, xs).value;
    HoldsSplit(c.code, pc, ops + [op], Parked(dest));
    HoldsSplit(c.code, pc, ops, [op]);
    HoldsAt(c.code, pc + n, [op], 0);
    PushRuns(v, c, fuel, xs, locals, pc, [], regs, owned, m);
    assert [] + vs == vs;
    if fuel == n {
      VNoFuel(v, c, pc + n, vs, regs, owned, m);
    } else if fuel > n {
      OneOp(v, c, fuel - n, pc + n, vs, regs, owned, m);
      if dest.Some? {
        HoldsAt(c.code, pc + n + 1, [StoreL(dest.value)], 0);
        if fuel == n + 1 {
          VNoFuel(v, c, pc + n + 1, st', regs, owned', m');
        } else {
          ParkOne(v.fl, dest.value, st', regs, owned', m');
          OneOp(v, c, fuel - n - 1, pc + n + 1, st', regs, owned', m');
        }
      }
    }
  }

  lemma ParkOne(fl: Floats, d: Name, st: seq<Val>, local: Regs, owned: set<nat>, m: Mem)
    requires |st| == 1
    ensures StackStep(fl, StoreL(d), st, local, owned, m) == VNext([], local[d := st[0]], owned, m)
  {}

  /** ... and when it traps. */
  lemma ApplyTraps(v: VEnv, c: Code, fuel: nat, xs: seq<Operand>, locals: set<Name>, op: StackOp, tail: seq<StackOp>,
                   pc: nat, regs: Regs, owned: set<nat>, m: Mem)
    requires PushAll(xs, locals).Some? && OperandVals(regs, xs).Some? && Simple(op)
    requires Holds(c.code, pc, PushAll(xs, locals).value + [op] + tail)
    requires StackStep(v.fl, op, OperandVals(regs, xs).value, regs, owned, m) == VTraps
    ensures VExec(v, fuel, c, pc, [], regs, owned, m) == if fuel <= |xs| then OutOfFuel(m.out) else Trapped(m.out)
  {
    hide StackStep, VExec, PushAll, OperandVals;
    var n := |xs|;
    var ops, vs := PushAll(xs, locals).value, OperandVals(regs, xs).value;
    HoldsSplit(c.code, pc, ops + [op], tail);
    HoldsSplit(c.code, pc, ops, [op]);
    HoldsAt(c.code, pc + n, [op], 0);
    PushRuns(v, c, fuel, xs, locals, pc, [], regs, owned, m);
    assert [] + vs == vs;
    if fuel == n {
      VNoFuel(v, c, pc + n, vs, regs, owned, m);
    } else if fuel > n {
      OneOp(v, c, fuel - n, pc + n, vs, regs, owned, m);
    }
  }

  // ----- the operation does what the instruction does -----

  lemma TablesInvert(b: BinOp, p: IntPred, q: FloatPred)
    ensures IntTable(b).Some? ==> BinOf(IntTable(b).value) == b && !IsFloatOp(b)
    ensures FloatTable(b).Some? ==> FloatOf(FloatTable(b).value) == b && IsFloatOp(b)
    ensures IntTable(b).Some? || FloatTable(b).Some?
    ensures PredOf(CmpTable(p)) == p && FpredOf(FcmpTable(q)) == q
  {}

  lemma SuffixWidth(ty: Ty)
    ensures SuffixTable(ty).Some? && IsInt(ty) ==> WidthOf(SuffixTable(ty).value) == ty
    ensures SuffixTable(ty).Some? ==> !ty.F64?
  {}

  /** A pure operation: the machine computes the interpreter's value. */
  lemma PureAgrees(env: Env, ins: Instr, vs: seq<Val>, local: Regs, owned: set<nat>, m: Mem)
    requires IsPure(ins.op) && Shaped(ins) && |vs| == Arity(ins.op) && Opcode(ins).Some?
    requires !EvalPure(env, ins.op, ins.ty, SourceType(ins), vs).Wrong?
    ensures Simple(Opcode(ins).value)
    ensures StackStep(env.fl, Opcode(ins).value, vs, local, owned, m)
         == PushEval(EvalPure(env, ins.op, ins.ty, SourceType(ins), vs), [], local, owned, m)
  {
    hide IntTable, FloatTable, CmpTable, FcmpTable, BinOf, FloatOf, PredOf, FpredOf, EvalConv, IntBin, FloatBin,
         EvalFcmp, SuffixTable, WidthOf, Compare, Wrap;
    SuffixWidth(ins.ty);
    assert Pop(vs, |vs|) == [];
    match ins.op
    case Bin(b) => TablesInvert(b, Eq, Oeq);
    case Icmp(p) => TablesInvert(Add, p, Oeq);
    case Fcmp(q) => TablesInvert(Add, Eq, q);
    case _ =>
  }

  /** What the machine does for an instruction the interpreter carries out. */
  ghost predicate Matches(env: Env, ins: Instr, regs: Regs, owned: set<nat>, m: Mem) {
    var vs := OperandVals(regs, Pushed(ins));
    && Applied(ins).Some? && Simple(Applied(ins).value) && vs.Some?
    && var r := StackStep(env.fl, Applied(ins).value, vs.value, regs, owned, Erase(m));
       match Step(env, ins, regs, owned, m)
       case Next(regs', owned', m') =>
         && r.VNext? && r.local == regs && r.owned == owned' && r.m == Erase(m')
         && (ins.dest.Some? ==> |r.st| == 1 && regs' == regs[ins.dest.value := r.st[0]] && m'.out == m.out)
         && (ins.dest.None? ==> r.st == [] && regs' == regs)
         && CleanRegs(regs') && CleanMem(m')
       case StepTraps => r.VTraps?
       case StepFails => true
  }

  ghost predicate Ready(env: Env, ins: Instr, regs: Regs, owned: set<nat>, m: Mem) {
    && env.checkWritten && Shaped(ins) && Computes(ins) && Applied(ins).Some?
    && CleanRegs(regs) && CleanMem(m) && !Step(env, ins, regs, owned, m).StepFails?
    && forall k :: 0 <= k < |Pushed(ins)| ==> !Pushed(ins)[k].GlobalRef?
  }

  lemma OperandClean(regs: Regs, x: Operand)
    requires CleanRegs(regs) && !x.GlobalRef? && OperandVal(regs, x).Some?
    ensures !OperandVal(regs, x).value.VGlob?
  {}

  lemma PureMatches(env: Env, ins: Instr, regs: Regs, owned: set<nat>, m: Mem)
    requires Ready(env, ins, regs, owned, m) && IsPure(ins.op)
    ensures Matches(env, ins, regs, owned, m)
  {
    hide OperandVals, StackStep, EvalPure, Opcode, Erase, CleanMem;
    assert ins.args[..Arity(ins.op)] == ins.args;
    var vs := OperandVals(regs, ins.args).value;
    PureAgrees(env, ins, vs, regs, owned, Erase(m));
    PureClean(env, ins.op, ins.ty, SourceType(ins), vs);
    assert Pushed(ins) == ins.args && Applied(ins) == Opcode(ins);
    match EvalPure(env, ins.op, ins.ty, SourceType(ins), vs)
    case Value(x) =>
      assert Step(env, ins, regs, owned, m) == Next(regs[ins.dest.value := x], owned, m);
    case Traps =>
      assert Step(env, ins, regs, owned, m) == StepTraps;
    case Wrong =>
  }

  lemma PureClean(env: Env, op: Op, ty: Ty, src: Ty, vs: seq<Val>)
    requires IsPure(op) && |vs| == Arity(op)
    ensures EvalPure(env, op, ty, src, vs).Value? ==> !EvalPure(env, op, ty, src, vs).v.VGlob?
  {
    hide Wrap; hide Pow2; hide Bits; hide Compare;
  }

  lemma AllocaMatches(env: Env, ins: Instr, regs: Regs, owned: set<nat>, m: Mem)
    requires Ready(env, ins, regs, owned, m) && ins.op.Alloca?
    ensures Matches(env, ins, regs, owned, m)
  {
    hide StackStep, Erase, ZeroCells, OperandVals;
    var n := if ins.args == [] then 1 else ins.args[0].value;
    var count := if ins.args == [] then 1 else ConstVal(ins.args[0].value, ins.args[0].ty).i;
    NoOperands(regs);
    SameElements(count, n, ins.ty.F64?);
    AllocaStep(env.fl, n, ins.ty.F64?, regs, owned, m);
    assert Step(env, ins, regs, owned, m).m
        == m.(slots := m.slots[m.next := ZeroCells(n, ins.ty.F64?)], next := m.next + 1);
  }

  lemma SameElements(a: int, b: int, isFloat: bool)
    ensures Elements(a) == Elements(b) <==> ZeroCells(a, isFloat) == ZeroCells(b, isFloat)
  {
    assert |ZeroCells(a, isFloat)| == Elements(a) && |ZeroCells(b, isFloat)| == Elements(b);
  }

  lemma AllocaStep(fl: Floats, n: int, isFloat: bool, regs: Regs, owned: set<nat>, m: Mem)
    requires CleanMem(m)
    ensures var m' := m.(slots := m.slots[m.next := ZeroCells(n, isFloat)], next := m.next + 1);
            && StackStep(fl, AllocaOp(n), [], regs, owned, Erase(m))
            == VNext([VPtr(m.next, 0)], regs, owned + {m.next}, Erase(m'))
            && CleanMem(m')
  {
    var cells := ZeroCells(n, isFloat);
    assert EraseCells(cells) == ZeroCells(n, false);
    EraseSlot(m, m.next, cells);
    assert CleanCells(cells);
  }

  lemma LoadMatches(env: Env, ins: Instr, regs: Regs, owned: set<nat>, m: Mem)
    requires Ready(env, ins, regs, owned, m) && ins.op.Load?
    ensures Matches(env, ins, regs, owned, m)
  {
    hide OperandVal, OperandVals, StackStep, CleanMem, ValidPtr, LoadFrom, Erase;
    assert ins.args[..1] == ins.args;
    OneValue(regs, ins.args);
    var x := ins.args[0];
    var p := OperandVal(regs, x).value;
    var v := LoadFrom(env, m, p).value;
    LoadClean(env, m, p);
    if x.GlobalRef? {
      NoOperands(regs);
      GlobalOperand(regs, x);
      LoadGlobal(env, x.name, regs, owned, m);
    } else {
      assert Pushed(ins)[0] == x;
      OperandClean(regs, x);
      LoadSlot(env, p, regs, owned, m);
    }
  }

  lemma GlobalOperand(regs: Regs, x: Operand)
    requires x.GlobalRef?
    ensures OperandVal(regs, x) == Some(VGlob(x.name))
  {}

  lemma NoOperands(regs: Regs)
    ensures OperandVals(regs, []) == Some([])
  {}

  lemma LoadClean(env: Env, m: Mem, p: Val)
    requires CleanMem(m) && LoadFrom(env, m, p).Some?
    ensures !LoadFrom(env, m, p).value.VGlob?
  {
    if !(p.VGlob? && p.name in m.globs) {
      assert CleanCells(m.slots[p.slot]);
      assert CleanCell(m.slots[p.slot][p.idx]);
    }
  }

  lemma LoadGlobal(env: Env, g: Name, regs: Regs, owned: set<nat>, m: Mem)
    requires LoadFrom(env, m, VGlob(g)).Some?
    ensures StackStep(env.fl, LoadG(g), [], regs, owned, Erase(m))
         == VNext([LoadFrom(env, m, VGlob(g)).value], regs, owned, Erase(m))
  {}

  lemma LoadSlot(env: Env, p: Val, regs: Regs, owned: set<nat>, m: Mem)
    requires env.checkWritten && !p.VGlob? && LoadFrom(env, m, p).Some?
    ensures StackStep(env.fl, LoadOp, [p], regs, owned, Erase(m))
         == VNext([LoadFrom(env, m, p).value], regs, owned, Erase(m))
  {}

  lemma StoreMatches(env: Env, ins: Instr, regs: Regs, owned: set<nat>, m: Mem)
    requires Ready(env, ins, regs, owned, m) && ins.op.Store?
    ensures Matches(env, ins, regs, owned, m)
  {
    hide OperandVal, OperandVals, StackStep, CleanMem, ValidPtr, StoreTo, Erase;
    assert ins.args[..2] == ins.args;
    TwoValues(regs, ins.args);
    var x, y := ins.args[0], ins.args[1];
    var v, p := OperandVal(regs, x).value, OperandVal(regs, y).value;
    assert Pushed(ins)[0] == x;
    OperandClean(regs, x);
    StoreClean(m, p, v);
    if y.GlobalRef? {
      OneValue(regs, ins.args[..1]);
      StoreGlobal(env.fl, y.name, v, regs, owned, m);
    } else {
      assert Pushed(ins)[1] == y;
      OperandClean(regs, y);
      StoreSlot(env.fl, p, v, regs, owned, m);
    }
  }

  lemma StoreClean(m: Mem, p: Val, v: Val)
    requires CleanMem(m) && !v.VGlob? && StoreTo(m, p, v).Some?
    ensures CleanMem(StoreTo(m, p, v).value)
  {
    if !p.VGlob? {
      assert CleanCells(m.slots[p.slot]);
      assert CleanCells(m.slots[p.slot][p.idx := Written(v)]);
    }
  }

  lemma StoreGlobal(fl: Floats, g: Name, v: Val, regs: Regs, owned: set<nat>, m: Mem)
    ensures OperandVal(regs, GlobalRef(g)) == Some(VGlob(g))
    ensures StoreTo(m, VGlob(g), v).Some?
    ensures StackStep(fl, StoreG(g), [v], regs, owned, Erase(m))
         == VNext([], regs, owned, Erase(StoreTo(m, VGlob(g), v).value))
  {}

  lemma StoreSlot(fl: Floats, p: Val, v: Val, regs: Regs, owned: set<nat>, m: Mem)
    requires !p.VGlob? && StoreTo(m, p, v).Some?
    ensures StackStep(fl, StoreOp, [v, p], regs, owned, Erase(m))
         == VNext([], regs, owned, Erase(StoreTo(m, p, v).value))
  {
    var cells := m.slots[p.slot][p.idx := Written(v)];
    EraseSlot(m, p.slot, cells);
    assert EraseCells(cells) == EraseCells(m.slots[p.slot])[p.idx := Written(v)];
    assert Pop([v, p], 2) == [];
  }

  lemma GepMatches(env: Env, ins: Instr, regs: Regs, owned: set<nat>, m: Mem)
    requires Ready(env, ins, regs, owned, m) && ins.op.Gep?
    ensures Matches(env, ins, regs, owned, m)
  {
    hide OperandVal, OperandVals, CleanMem;
    assert ins.args[..2] == ins.args;
    TwoValues(regs, ins.args);
  }

  lemma PrintMatches(env: Env, ins: Instr, regs: Regs, owned: set<nat>, m: Mem)
    requires Ready(env, ins, regs, owned, m) && (ins.op.PrintI32? || ins.op.PrintF64?)
    ensures Matches(env, ins, regs, owned, m)
  {
    hide OperandVal, OperandVals, CleanRegs, StackStep;
    assert ins.args[..1] == ins.args;
    OneValue(regs, ins.args);
    var x := OperandVal(regs, ins.args[0]).value;
    PrintStep(env.fl, x, regs, owned, m);
  }

  lemma PrintStep(fl: Floats, x: Val, regs: Regs, owned: set<nat>, m: Mem)
    ensures var r := StackStep(fl, PrintIOp, [x], regs, owned, Erase(m));
            x.VInt? ==> r == VNext([], regs, owned, Erase(m.(out := m.out + [PrintedInt(x.i)])))
    ensures var r, f := StackStep(fl, PrintFOp, [x], regs, owned, Erase(m)), AsFloat(fl, x);
            f.Some? ==> r == VNext([], regs, owned, Erase(m.(out := m.out + [PrintedFloat(f.value)])))
  {
    assert Pop([x], 1) == [];
  }

  lemma TrapMatches(env: Env, ins: Instr, regs: Regs, owned: set<nat>, m: Mem)
    requires Ready(env, ins, regs, owned, m) && ins.op.Trap?
    ensures Matches(env, ins, regs, owned, m)
  {
    hide OperandVal, OperandVals, CleanRegs, CleanMem, Erase;
    assert ins.args[..0] == ins.args;
    NoOperands(regs);
  }

  lemma StepMatches(env: Env, ins: Instr, regs: Regs, owned: set<nat>, m: Mem)
    requires Ready(env, ins, regs, owned, m)
    ensures Matches(env, ins, regs, owned, m)
  {
    hide Matches, Step, Erase, CleanMem, CleanRegs;
    match ins.op
    case Alloca => AllocaMatches(env, ins, regs, owned, m);
    case Load => LoadMatches(env, ins, regs, owned, m);
    case Store => StoreMatches(env, ins, regs, owned, m);
    case Gep => GepMatches(env, ins, regs, owned, m);
    case PrintI32 => PrintMatches(env, ins, regs, owned, m);
    case PrintF64 => PrintMatches(env, ins, regs, owned, m);
    case Trap => TrapMatches(env, ins, regs, owned, m);
    case _ => PureMatches(env, ins, regs, owned, m);
  }
}
