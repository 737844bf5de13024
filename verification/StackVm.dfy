/** The reference stack machine for the bytecode. */
module StackVm {
  import opened Cir
  import opened Arith
  import opened Interp
  import opened Bytecode

  datatype VEnv = VEnv(fl: Floats, funcs: map<Name, Code>)

  // ----- opcode tables of the machine -----

  function BinOf(im: IntMnemonic): BinOp {
    match im
    case ADD => Add
    case SUB => Sub
    case MUL => Mul
    case DIV_S => Sdiv
    case DIV_U => Udiv
    case REM_S => Srem
    case REM_U => Urem
    case AND => And
    case OR => Or
    case XOR => Xor
    case SHL => Shl
    case SHR_S => Ashr
    case SHR_U => Lshr
  }

  function FloatOf(fm: FloatMnemonic): BinOp {
    match fm
    case FADD => Fadd
    case FSUB => Fsub
    case FMUL => Fmul
    case FDIV => Fdiv
  }

  function PredOf(cm: CmpMnemonic): IntPred {
    match cm
    case EQ => Eq
    case NE => Ne
    case LT_S => Slt
    case LE_S => Sle
    case GT_S => Sgt
    case GE_S => Sge
    case LT_U => Ult
    case LE_U => Ule
    case GT_U => Ugt
    case GE_U => Uge
  }

  function FpredOf(fc: FcmpMnemonic): FloatPred {
    match fc
    case FEQ => Oeq
    case FNE => One
    case FLT => Olt
    case FLE => Ole
    case FGT => Ogt
    case FGE => Oge
  }

  function WidthOf(s: Suffix): Ty {
    match s
    case Plain => I32
    case Dot64 => I64
    case Dot1 => I1
  }

  // ----- one operation that neither jumps nor calls -----

  datatype VResult =
    | VNext(st: seq<Val>, local: Regs, owned: set<nat>, m: Mem)
    | VTraps
    | VFails

  function Top(st: seq<Val>): Val
    requires st != []
  {
    st[|st| - 1]
  }

  function Pop(st: seq<Val>, n: nat): seq<Val>
    requires n <= |st|
  {
    st[..|st| - n]
  }

  function PushEval(e: Eval, st: seq<Val>, local: Regs, owned: set<nat>, m: Mem): VResult {
    match e
    case Value(v) => VNext(st + [v], local, owned, m)
    case Traps => VTraps
    case Wrong => VFails
  }

  /** Every slot of the machine is zero-filled with the integer 0. */
  function VCellVal(c: Cell): Val {
    match c
    case Zeroed(_) => VInt(0)
    case Written(v) => v
  }

  /** How many values the operation pops. */
  function Pops(op: StackOp): nat {
    match op
    case StoreL(_) => 1
    case StoreG(_) => 1
    case Drop => 1
    case IntOp(_, _) => 2
    case FloatOp(_) => 2
    case NegOp(_) => 1
    case NotOp(_) => 1
    case FNegOp => 1
    case CmpOp(_, _) => 2
    case FcmpOp(_) => 2
    case Convert(_, _, _) => 1
    case LoadOp => 1
    case StoreOp => 2
    case GepOp => 2
    case PrintIOp => 1
    case PrintFOp => 1
    case _ => 0
  }

  function StackStep(fl: Floats, op: StackOp, st: seq<Val>, local: Regs, owned: set<nat>, m: Mem): VResult {
    if |st| < Pops(op) then VFails
    else
      var below := Pop(st, Pops(op));
      match op
      case PushI(n) => VNext(st + [VInt(n)], local, owned, m)
      case PushF(f) => VNext(st + [VFloat(f)], local, owned, m)
      case LoadL(l) => if l in local then VNext(st + [local[l]], local, owned, m) else VFails
      case StoreL(l) => VNext(below, local[l := Top(st)], owned, m)
      case LoadG(g) => VNext(st + [if g in m.globs then m.globs[g] else VInt(0)], local, owned, m)
      case StoreG(g) => VNext(below, local, owned, m.(globs := m.globs[g := Top(st)]))
      case Drop => VNext(below, local, owned, m)
      case IntOp(im, s) => PushEval(EvalBin(fl, BinOf(im), WidthOf(s), st[|st| - 2], Top(st)), below, local, owned, m)
      case FloatOp(fm) => PushEval(EvalBin(fl, FloatOf(fm), F64, st[|st| - 2], Top(st)), below, local, owned, m)
      case NegOp(s) => PushEval(EvalNeg(fl, WidthOf(s), Top(st)), below, local, owned, m)
      case NotOp(s) => PushEval(EvalNot(WidthOf(s), Top(st)), below, local, owned, m)
      case FNegOp => PushEval(EvalNeg(fl, F64, Top(st)), below, local, owned, m)
      case CmpOp(cm, s) => PushEval(EvalIcmp(PredOf(cm), WidthOf(s), st[|st| - 2], Top(st)), below, local, owned, m)
      case FcmpOp(fc) => PushEval(EvalFcmp(fl, FpredOf(fc), st[|st| - 2], Top(st)), below, local, owned, m)
      case Convert(c, src, dst) => PushEval(EvalConv(fl, c, dst, Top(st), src), below, local, owned, m)
      case AllocaOp(n) =>
        VNext(st + [VPtr(m.next, 0)], local, owned + {m.next},
              m.(slots := m.slots[m.next := ZeroCells(n, false)], next := m.next + 1))
      case LoadOp =>
        if ValidPtr(m, Top(st)) then VNext(below + [VCellVal(m.slots[Top(st).slot][Top(st).idx])], local, owned, m)
        else VFails
      case StoreOp =>
        if ValidPtr(m, Top(st)) then VNext(below, local, owned, StoreTo(m, Top(st), st[|st| - 2]).value) else VFails
      case GepOp =>
        var base, i := st[|st| - 2], Top(st);
        if !base.VPtr? || base.slot !in m.slots || !i.VInt? then VFails
        else if 0 <= i.i < |m.slots[base.slot]| then VNext(below + [VPtr(base.slot, i.i)], local, owned, m)
        else VTraps
      case PrintIOp =>
        if Top(st).VInt? then VNext(below, local, owned, m.(out := m.out + [PrintedInt(Top(st).i)])) else VFails
      case PrintFOp => (
        match AsFloat(fl, Top(st))
        case Some(f) => VNext(below, local, owned, m.(out := m.out + [PrintedFloat(f)]))
        case None => VFails)
      case TrapOp => VTraps
      case _ => VFails
  }

  // ----- the machine -----

  /** What the operation at `pc` asks of the machine. */
  datatype VAction =
    | VJump(pc: nat, st: seq<Val>)
    | VReturn(v: Val)
    | VInvoke(callee: Name, args: seq<Val>, st: seq<Val>)
    | VCompute
    | VBroken

  function JumpTarget(c: Code, l: Label, st: seq<Val>): VAction {
    if l in c.labels then VJump(c.labels[l], st) else VBroken
  }

  function VDecode(c: Code, pc: nat, st: seq<Val>): VAction {
    if pc >= |c.code| then VReturn(VInt(0))
    else match c.code[pc]
      case Jmp(l) => JumpTarget(c, l, st)
      case Jz(l) =>
        if st == [] || !Top(st).VInt? then VBroken
        else if Top(st).i == 0 then JumpTarget(c, l, Pop(st, 1))
        else VJump(pc + 1, Pop(st, 1))
      case CallOp(g, n) => if |st| < n then VBroken else VInvoke(g, st[|st| - n..], Pop(st, n))
      case RetOp => VReturn(if st == [] then VInt(0) else Top(st))
      case _ => VCompute
  }

  /** A call, one unit of fuel per operation. */
  function VCall(env: VEnv, fuel: nat, name: Name, args: seq<Val>, m: Mem): Outcome
    decreases fuel, 1
  {
    if name !in env.funcs then Failed(m.out)
    else VExec(env, fuel, env.funcs[name], 0, [], Bind(env.funcs[name].params, args), {}, m)
  }

  function VExec(env: VEnv, fuel: nat, c: Code, pc: nat, st: seq<Val>, local: Regs, owned: set<nat>, m: Mem): Outcome
    decreases fuel, 0
  {
    if fuel == 0 then OutOfFuel(m.out)
    else
      match VDecode(c, pc, st)
      case VJump(pc', st') => VExec(env, fuel - 1, c, pc', st', local, owned, m)
      case VReturn(v) => Done(v, Release(m, owned))
      case VInvoke(g, args, st') => (
        match VCall(env, fuel - 1, g, args, m)
        case Done(v, m') => VExec(env, fuel - 1, c, pc + 1, st' + [v], local, owned, m')
        case stop => stop)
      case VCompute => (
        match StackStep(env.fl, c.code[pc], st, local, owned, m)
        case VNext(st', local', owned', m') => VExec(env, fuel - 1, c, pc + 1, st', local', owned', m')
        case VTraps => Trapped(m.out)
        case VFails => Failed(m.out))
      case VBroken => Failed(m.out)
  }

  function VRunProgram(env: VEnv, fuel: nat, globs: map<Name, Val>, entry: Name, args: seq<Val>): Outcome {
    VCall(env, fuel, entry, args, Mem(globs, map[], 0, []))
  }

  // ----- fuel -----

  lemma VStepOutGrows(fl: Floats, op: StackOp, st: seq<Val>, local: Regs, owned: set<nat>, m: Mem)
    ensures var r := StackStep(fl, op, st, local, owned, m); r.VNext? ==> m.out <= r.m.out
  {}

  lemma {:induction false} VCallOutGrows(env: VEnv, fuel: nat, name: Name, args: seq<Val>, m: Mem)
    ensures m.out <= VCall(env, fuel, name, args, m).Out()
    decreases fuel, 1
  {
    if name in env.funcs {
      VExecOutGrows(env, fuel, env.funcs[name], 0, [], Bind(env.funcs[name].params, args), {}, m);
    }
  }

  lemma {:induction false} VExecOutGrows(env: VEnv, fuel: nat, c: Code, pc: nat, st: seq<Val>, local: Regs,
                                         owned: set<nat>, m: Mem)
    ensures m.out <= VExec(env, fuel, c, pc, st, local, owned, m).Out()
    decreases fuel, 0
  {
    hide StackStep, VCall;
    if fuel > 0 {
      match VDecode(c, pc, st)
      case VJump(pc', st') => VExecOutGrows(env, fuel - 1, c, pc', st', local, owned, m);
      case VReturn(v) =>
      case VInvoke(g, args, st') =>
        VCallOutGrows(env, fuel - 1, g, args, m);
        match VCall(env, fuel - 1, g, args, m) {
          case Done(v, m') => VExecOutGrows(env, fuel - 1, c, pc + 1, st' + [v], local, owned, m');
          case _ =>
        }
      case VCompute =>
        VStepOutGrows(env.fl, c.code[pc], st, local, owned, m);
        match StackStep(env.fl, c.code[pc], st, local, owned, m) {
          case VNext(st', local', owned', m') => VExecOutGrows(env, fuel - 1, c, pc + 1, st', local', owned', m');
          case _ =>
        }
      case VBroken =>
    }
  }

  /** More fuel only adds information. */
  lemma {:induction false} VCallMoreFuel(env: VEnv, fuel: nat, more: nat, name: Name, args: seq<Val>, m: Mem)
    requires fuel <= more
    ensures Extends(VCall(env, fuel, name, args, m), VCall(env, more, name, args, m))
    decreases fuel, 1
  {
    if name in env.funcs {
      VExecMoreFuel(env, fuel, more, env.funcs[name], 0, [], Bind(env.funcs[name].params, args), {}, m);
    }
  }

  lemma {:induction false} VExecMoreFuel(env: VEnv, fuel: nat, more: nat, c: Code, pc: nat, st: seq<Val>, local: Regs,
                                         owned: set<nat>, m: Mem)
    requires fuel <= more
    ensures Extends(VExec(env, fuel, c, pc, st, local, owned, m), VExec(env, more, c, pc, st, local, owned, m))
    decreases fuel, 0
  {
    hide StackStep, VCall;
    if fuel == 0 {
      VExecOutGrows(env, more, c, pc, st, local, owned, m);
    } else {
      match VDecode(c, pc, st)
      case VJump(pc', st') => VExecMoreFuel(env, fuel - 1, more - 1, c, pc', st', local, owned, m);
      case VReturn(v) =>
      case VInvoke(g, args, st') =>
        VCallMoreFuel(env, fuel - 1, more - 1, g, args, m);
        match VCall(env, more - 1, g, args, m) {
          case Done(v, m') =>
            VExecMoreFuel(env, fuel - 1, more - 1, c, pc + 1, st' + [v], local, owned, m');
            VExecOutGrows(env, more - 1, c, pc + 1, st' + [v], local, owned, m');
          case _ =>
        }
      case VCompute =>
        match StackStep(env.fl, c.code[pc], st, local, owned, m) {
          case VNext(st', local', owned', m') => VExecMoreFuel(env, fuel - 1, more - 1, c, pc + 1, st', local', owned',
              m');
          case _ =>
        }
      case VBroken =>
    }
  }
}
