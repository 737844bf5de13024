/** The reference meaning of CIR. */
module Interp {
  import opened Cir
  import opened Arith

  datatype Event = PrintedInt(i: int) | PrintedFloat(f: Float)

  /** An element of a stack slot.  A slot starts zero-filled: with 0.0 if it was
      allocated for f64 elements, and with 0 otherwise. */
  datatype Cell = Zeroed(isFloat: bool) | Written(v: Val)

  type Regs = map<Name, Val>
  type Slots = map<nat, seq<Cell>>

  datatype Mem = Mem(globs: map<Name, Val>, slots: Slots, next: nat, out: seq<Event>)

  /** The program, the float operations, and two optional checks that turn a step
      outside what typed, initialised programs do into a failure: an integer
      operand outside the range of the instruction's type, and a load of an f64
      element nothing has been stored to. */
  datatype Env = Env(fl: Floats, funcs: map<Name, Function>, checkRanges: bool, checkWritten: bool)

  /** How a call ends.  Every outcome keeps the output printed so far. */
  datatype Outcome =
    | Done(v: Val, m: Mem)
    | Trapped(printed: seq<Event>)
    | Failed(printed: seq<Event>)       // malformed or ill-typed: not a CIR behaviour
    | OutOfFuel(printed: seq<Event>)    // still running
  {
    function Out(): seq<Event> {
      if Done? then m.out else printed
    }
  }

  // ----- operands -----

  function OperandVal(regs: Regs, x: Operand): Option<Val> {
    match x
    case Reg(name, _) => if name in regs then Some(regs[name]) else None
    case ConstInt(value, ty) => Some(ConstVal(value, ty))
    case ConstFloat(f) => Some(VFloat(f))
    case GlobalRef(name) => Some(VGlob(name))
  }

  /** All operands, or nothing if one is an undefined register. */
  function OperandVals(regs: Regs, xs: seq<Operand>): (r: Option<seq<Val>>)
    ensures r.Some? ==> |r.value| == |xs|
  {
    if xs == [] then Some([])
    else match (OperandVals(regs, xs[..|xs| - 1]), OperandVal(regs, xs[|xs| - 1]))
      case (Some(vs), Some(v)) => Some(vs + [v])
      case _ => None
  }

  lemma OneValue(regs: Regs, xs: seq<Operand>)
    requires |xs| == 1
    ensures OperandVals(regs, xs) == match OperandVal(regs, xs[0]) case Some(a) => Some([a]) case None => None
  {
    hide OperandVal;
    assert xs[..0] == [] && OperandVals(regs, []) == Some([]);
    if OperandVal(regs, xs[0]).Some? { assert [] + [OperandVal(regs, xs[0]).value] == [OperandVal(regs, xs[0]).value]; }
  }

  lemma TwoValues(regs: Regs, xs: seq<Operand>)
    requires |xs| == 2
    ensures OperandVals(regs, xs) ==
            (match (OperandVal(regs, xs[0]), OperandVal(regs, xs[1])) case (Some(a),
                Some(b)) => Some([a, b]) case _ => None)
  {
    hide OperandVal;
    assert xs[..1][..0] == [] && xs[..1][0] == xs[0] && OperandVals(regs, []) == Some([]);
    assert OperandVals(regs, xs[..1]) == match OperandVal(regs, xs[0]) case Some(a) => Some([] + [a]) case None => None;
    if OperandVal(regs, xs[0]).Some? && OperandVal(regs, xs[1]).Some? {
      var a, b := OperandVal(regs, xs[0]).value, OperandVal(regs, xs[1]).value;
      assert [] + [a] + [b] == [a, b];
    }
  }

  /** The first operand, or a default when there is none. */
  function FirstVal(regs: Regs, xs: seq<Operand>, default: Option<Val>): Option<Val> {
    if xs == [] then default else OperandVal(regs, xs[0])
  }

  // ----- straight-line instructions -----

  predicate IsPure(op: Op) {
    op.Bin? || op.Neg? || op.Not? || op.Icmp? || op.Fcmp? || op.Conv?
  }

  /** How many operands the instruction reads; `call` and `ret` read what they have. */
  function Arity(op: Op): nat {
    match op
    case Bin(_) => 2
    case Icmp(_) => 2
    case Fcmp(_) => 2
    case Store => 2
    case Gep => 2
    case Neg => 1
    case Not => 1
    case Conv(_) => 1
    case Load => 1
    case PrintI32 => 1
    case PrintF64 => 1
    case BrCond(_, _) => 1
    case _ => 0
  }

  predicate RangesOk(env: Env, op: Op, ty: Ty, vs: seq<Val>) {
    env.checkRanges && op.Bin? && !IsFloatOp(op.bin) ==>
      forall k :: 0 <= k < |vs| ==> vs[k].VInt? && InRange(vs[k].i, ty)
  }

  function EvalPure(env: Env, op: Op, ty: Ty, src: Ty, vs: seq<Val>): Eval
    requires IsPure(op) && |vs| == Arity(op)
  {
    if !RangesOk(env, op, ty, vs) then Wrong
    else match op
      case Bin(b) => EvalBin(env.fl, b, ty, vs[0], vs[1])
      case Neg => EvalNeg(env.fl, ty, vs[0])
      case Not => EvalNot(ty, vs[0])
      case Icmp(p) => EvalIcmp(p, ty, vs[0], vs[1])
      case Fcmp(p) => EvalFcmp(env.fl, p, vs[0], vs[1])
      case Conv(c) => EvalConv(env.fl, c, ty, vs[0], src)
  }

  function CellVal(fl: Floats, c: Cell): Val {
    match c
    case Zeroed(isFloat) => if isFloat then VFloat(fl.zero) else VInt(0)
    case Written(v) => v
  }

  predicate ValidPtr(m: Mem, p: Val) {
    p.VPtr? && p.slot in m.slots && 0 <= p.idx < |m.slots[p.slot]|
  }

  function LoadFrom(env: Env, m: Mem, p: Val): Option<Val> {
    if p.VGlob? && p.name in m.globs then Some(m.globs[p.name])
    else if !ValidPtr(m, p) then None
    else
      var c := m.slots[p.slot][p.idx];
      if env.checkWritten && c == Zeroed(true) then None else Some(CellVal(env.fl, c))
  }

  function StoreTo(m: Mem, p: Val, v: Val): Option<Mem> {
    if p.VGlob? then Some(m.(globs := m.globs[p.name := v]))
    else if ValidPtr(m, p) then Some(m.(slots := m.slots[p.slot := m.slots[p.slot][p.idx := Written(v)]]))
    else None
  }

  function ZeroCells(n: int, isFloat: bool): seq<Cell> {
    seq(if n < 0 then 0 else n, _ => Zeroed(isFloat))
  }

  datatype StepResult =
    | Next(regs: Regs, owned: set<nat>, m: Mem)
    | StepTraps
    | StepFails

  function Define(dest: Option<Name>, v: Val, regs: Regs, owned: set<nat>, m: Mem): StepResult {
    if dest.Some? then Next(regs[dest.value := v], owned, m) else StepFails
  }

  function SourceType(ins: Instr): Ty {
    if ins.args == [] then I32 else TypeOf(ins.args[0])
  }

  /** One instruction that neither transfers control nor calls. */
  function Step(env: Env, ins: Instr, regs: Regs, owned: set<nat>, m: Mem): StepResult {
    var op := ins.op;
    var n := Arity(op);
    if |ins.args| < n then StepFails
    else if op.Alloca? then
      var count := FirstVal(regs, ins.args, Some(VInt(1)));
      if count.None? || !count.value.VInt? then StepFails
      else
        var m' := m.(slots := m.slots[m.next := ZeroCells(count.value.i, ins.ty.F64?)], next := m.next + 1);
        Define(ins.dest, VPtr(m.next, 0), regs, owned + {m.next}, m')
    else
      match OperandVals(regs, ins.args[..n])
      case None => StepFails
      case Some(vs) =>
        if IsPure(op) then
          match EvalPure(env, op, ins.ty, SourceType(ins), vs)
          case Value(v) => Define(ins.dest, v, regs, owned, m)
          case Traps => StepTraps
          case Wrong => StepFails
        else StepMemory(env, ins, vs, regs, owned, m)
  }

  function StepMemory(env: Env, ins: Instr, vs: seq<Val>, regs: Regs, owned: set<nat>, m: Mem): StepResult
    requires |vs| == Arity(ins.op)
  {
    match ins.op
    case Load => (
      match LoadFrom(env, m, vs[0])
      case Some(v) => Define(ins.dest, v, regs, owned, m)
      case None => StepFails)
    case Store => (
      match StoreTo(m, vs[1], vs[0])
      case Some(m') => Next(regs, owned, m')
      case None => StepFails)
    case Gep =>
      if !vs[0].VPtr? || vs[0].slot !in m.slots || !vs[1].VInt? then StepFails
      else if 0 <= vs[1].i < |m.slots[vs[0].slot]| then Define(ins.dest, VPtr(vs[0].slot, vs[1].i), regs, owned, m)
      else StepTraps
    case PrintI32 =>
      if vs[0].VInt? then Next(regs, owned, m.(out := m.out + [PrintedInt(vs[0].i)])) else StepFails
    case PrintF64 => (
      match AsFloat(env.fl, vs[0])
      case Some(f) => Next(regs, owned, m.(out := m.out + [PrintedFloat(f)]))
      case None => StepFails)
    case Trap => StepTraps
    case _ => StepFails
  }

  // ----- calls and control flow -----

  /** Arguments bound to parameters by position, as far as both go. */
  function Bind(params: seq<Name>, args: seq<Val>): Regs {
    if params == [] || args == [] then map[]
    else
      var n := if |params| < |args| then |params| else |args|;
      Bind(params[..n - 1], args[..n - 1])[params[n - 1] := args[n - 1]]
  }

  function Release(m: Mem, owned: set<nat>): Mem {
    m.(slots := m.slots - owned)
  }

  /** A call, bounded by fuel: one unit per call and per transfer to a block. */
  function CallFn(env: Env, fuel: nat, name: Name, args: seq<Val>, m: Mem): Outcome
    decreases fuel, 0
  {
    if fuel == 0 then OutOfFuel(m.out)
    else if name !in env.funcs || env.funcs[name].blocks == [] then Failed(m.out)
    else
      var f := env.funcs[name];
      Exec(env, fuel - 1, f, f.blocks[0], f.blocks[0].instrs, Bind(f.params, args), {}, m)
  }

  /** What an instruction asks of the machine. */
  datatype Action =
    | Transfer(target: Label)
    | Return(v: Val)
    | Invoke(callee: Name, args: seq<Val>)
    | Compute
    | Broken

  function Decode(ins: Instr, regs: Regs): Action {
    match ins.op
    case Br(l) => Transfer(l)
    case BrCond(t, e) => (
      match FirstVal(regs, ins.args, None)
      case Some(VInt(i)) => Transfer(if i != 0 then t else e)
      case _ => Broken)
    case Ret => (
      match FirstVal(regs, ins.args, Some(VInt(0)))
      case Some(v) => Return(v)
      case None => Broken)
    case Call(callee) => (
      match OperandVals(regs, ins.args)
      case Some(vs) => Invoke(callee, vs)
      case None => Broken)
    case _ => Compute
  }

  /** The registers after a call that returned `v`. */
  function Receive(regs: Regs, dest: Option<Name>, v: Val): Regs {
    if dest.Some? then regs[dest.value := v] else regs
  }

  /** The rest of block `b`, then wherever it leads.  Running off the end of an
      unterminated block starts it again. */
  function Exec(env: Env, fuel: nat, f: Function, b: BasicBlock, rest: seq<Instr>,
                regs: Regs, owned: set<nat>, m: Mem): Outcome
    decreases fuel, |rest| + 1
  {
    if rest == [] then
      if fuel == 0 then OutOfFuel(m.out) else Exec(env, fuel - 1, f, b, b.instrs, regs, owned, m)
    else
      match Decode(rest[0], regs)
      case Transfer(l) => Goto(env, fuel, f, l, regs, owned, m)
      case Return(v) => Done(v, Release(m, owned))
      case Invoke(callee, vs) => (
        match CallFn(env, fuel, callee, vs, m)
        case Done(v, m') => Exec(env, fuel, f, b, rest[1..], Receive(regs, rest[0].dest, v), owned, m')
        case stop => stop)
      case Compute => (
        match Step(env, rest[0], regs, owned, m)
        case Next(regs', owned', m') => Exec(env, fuel, f, b, rest[1..], regs', owned', m')
        case StepTraps => Trapped(m.out)
        case StepFails => Failed(m.out))
      case Broken => Failed(m.out)
  }

  function Goto(env: Env, fuel: nat, f: Function, l: Label, regs: Regs, owned: set<nat>, m: Mem): Outcome
    decreases fuel, 0
  {
    var blocks := BlockMap(f.blocks);
    if fuel == 0 then OutOfFuel(m.out)
    else if l !in blocks then Failed(m.out)
    else Exec(env, fuel - 1, f, blocks[l], blocks[l].instrs, regs, owned, m)
  }

  /** A whole program: the globals start from their initialisers. */
  function RunProgram(env: Env, fuel: nat, globs: map<Name, Val>, entry: Name, args: seq<Val>): Outcome {
    CallFn(env, fuel, entry, args, Mem(globs, map[], 0, []))
  }

  // ----- more fuel only adds information -----

  /** `s` knows at least what `r` knows: the same outcome, or, where `r` was cut
      short, output that extends what `r` had printed. */
  predicate Extends(r: Outcome, s: Outcome) {
    if r.OutOfFuel? then r.printed <= s.Out() else s == r
  }

  lemma StepOutGrows(env: Env, ins: Instr, regs: Regs, owned: set<nat>, m: Mem)
    ensures var r := Step(env, ins, regs, owned, m); r.Next? ==> m.out <= r.m.out
  {}

  lemma {:induction false} ExecOutGrows(env: Env, fuel: nat, f: Function, b: BasicBlock, rest: seq<Instr>,
                                        regs: Regs, owned: set<nat>, m: Mem)
    ensures m.out <= Exec(env, fuel, f, b, rest, regs, owned, m).Out()
    decreases fuel, |rest| + 1
  {
    hide Step, Decode, Goto, CallFn;
    if rest == [] {
      if fuel > 0 { ExecOutGrows(env, fuel - 1, f, b, b.instrs, regs, owned, m); }
    } else {
      match Decode(rest[0], regs)
      case Transfer(l) => GotoOutGrows(env, fuel, f, l, regs, owned, m);
      case Return(v) =>
      case Invoke(callee, vs) =>
        CallOutGrows(env, fuel, callee, vs, m);
        match CallFn(env, fuel, callee, vs, m) {
          case Done(v, m') => ExecOutGrows(env, fuel, f, b, rest[1..], Receive(regs, rest[0].dest, v), owned, m');
          case _ =>
        }
      case Compute =>
        StepOutGrows(env, rest[0], regs, owned, m);
        match Step(env, rest[0], regs, owned, m) {
          case Next(regs', owned', m') => ExecOutGrows(env, fuel, f, b, rest[1..], regs', owned', m');
          case _ =>
        }
      case Broken =>
    }
  }

  lemma {:induction false} GotoOutGrows(env: Env, fuel: nat, f: Function, l: Label, regs: Regs, owned: set<nat>, m: Mem)
    ensures m.out <= Goto(env, fuel, f, l, regs, owned, m).Out()
    decreases fuel, 0
  {
    hide BlockMap, Exec;
    var blocks := BlockMap(f.blocks);
    if fuel > 0 && l in blocks {
      ExecOutGrows(env, fuel - 1, f, blocks[l], blocks[l].instrs, regs, owned, m);
    }
  }

  lemma {:induction false} CallOutGrows(env: Env, fuel: nat, name: Name, args: seq<Val>, m: Mem)
    ensures m.out <= CallFn(env, fuel, name, args, m).Out()
    decreases fuel, 0
  {
    hide Exec;
    if fuel > 0 && name in env.funcs && env.funcs[name].blocks != [] {
      var f := env.funcs[name];
      ExecOutGrows(env, fuel - 1, f, f.blocks[0], f.blocks[0].instrs, Bind(f.params, args), {}, m);
    }
  }

  /** The output of a run covers what its next call prints. */
  lemma InvokeOut(env: Env, fuel: nat, f: Function, b: BasicBlock, rest: seq<Instr>, regs: Regs, owned: set<nat>,
                  m: Mem)
    requires rest != [] && Decode(rest[0], regs).Invoke?
    ensures var d := Decode(rest[0], regs);
            CallFn(env, fuel, d.callee, d.args, m).Out() <= Exec(env, fuel, f, b, rest, regs, owned, m).Out()
  {
    hide Goto, Step;
    var d := Decode(rest[0], regs);
    match CallFn(env, fuel, d.callee, d.args, m)
    case Done(v, m') => ExecOutGrows(env, fuel, f, b, rest[1..], Receive(regs, rest[0].dest, v), owned, m');
    case _ =>
  }

  lemma {:induction false} ExecMoreFuel(env: Env, fuel: nat, more: nat, f: Function, b: BasicBlock, rest: seq<Instr>,
                                        regs: Regs, owned: set<nat>, m: Mem)
    requires fuel <= more
    ensures Extends(Exec(env, fuel, f, b, rest, regs, owned, m), Exec(env, more, f, b, rest, regs, owned, m))
    decreases fuel, |rest| + 1
  {
    hide Step, Decode, Goto, CallFn;
    if rest == [] {
      if fuel == 0 {
        ExecOutGrows(env, more, f, b, rest, regs, owned, m);
      } else {
        ExecMoreFuel(env, fuel - 1, more - 1, f, b, b.instrs, regs, owned, m);
      }
    } else {
      match Decode(rest[0], regs)
      case Transfer(l) => GotoMoreFuel(env, fuel, more, f, l, regs, owned, m);
      case Return(v) =>
      case Invoke(callee, vs) =>
        CallMoreFuel(env, fuel, more, callee, vs, m);
        match CallFn(env, more, callee, vs, m) {
          case Done(v, m') =>
            var regs' := Receive(regs, rest[0].dest, v);
            ExecMoreFuel(env, fuel, more, f, b, rest[1..], regs', owned, m');
            ExecOutGrows(env, more, f, b, rest[1..], regs', owned, m');
          case _ =>
        }
      case Compute =>
        match Step(env, rest[0], regs, owned, m) {
          case Next(regs', owned', m') => ExecMoreFuel(env, fuel, more, f, b, rest[1..], regs', owned', m');
          case _ =>
        }
      case Broken =>
    }
  }

  lemma {:induction false} GotoMoreFuel(env: Env, fuel: nat, more: nat, f: Function, l: Label,
                                        regs: Regs, owned: set<nat>, m: Mem)
    requires fuel <= more
    ensures Extends(Goto(env, fuel, f, l, regs, owned, m), Goto(env, more, f, l, regs, owned, m))
    decreases fuel, 0
  {
    hide BlockMap, Exec;
    var blocks := BlockMap(f.blocks);
    if fuel == 0 {
      GotoOutGrows(env, more, f, l, regs, owned, m);
    } else if l in blocks {
      ExecMoreFuel(env, fuel - 1, more - 1, f, blocks[l], blocks[l].instrs, regs, owned, m);
    }
  }

  lemma {:induction false} CallMoreFuel(env: Env, fuel: nat, more: nat, name: Name, args: seq<Val>, m: Mem)
    requires fuel <= more
    ensures Extends(CallFn(env, fuel, name, args, m), CallFn(env, more, name, args, m))
    decreases fuel, 0
  {
    hide Exec;
    if fuel == 0 {
      CallOutGrows(env, more, name, args, m);
    } else if name in env.funcs && env.funcs[name].blocks != [] {
      var f := env.funcs[name];
      ExecMoreFuel(env, fuel - 1, more - 1, f, f.blocks[0], f.blocks[0].instrs, Bind(f.params, args), {}, m);
    }
  }
}
