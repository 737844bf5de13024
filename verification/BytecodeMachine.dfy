/** The stack machine as an object with state: a fetch loop over one function's code
    with an operand stack, sharing globals, slots and output with its callees. */
module BytecodeMachine {
  import opened Cir
  import opened Arith
  import opened Interp
  import opened Bytecode
  import opened StackVm

  datatype Halt = Answered(v: Val) | Halted | Stuck | Spent

  class Processor {
    const env: VEnv
    var globs: map<Name, Val>
    var slots: Slots
    var next: nat
    var out: seq<Event>

    constructor (env: VEnv, globs: map<Name, Val>)
      ensures this.env == env && Memory() == Mem(globs, map[], 0, [])
    {
      this.env := env;
      this.globs := globs;
      slots := map[];
      next := 0;
      out := [];
    }

    function Memory(): Mem
      reads this
    {
      Mem(globs, slots, next, out)
    }

    function Result(h: Halt): Outcome
      reads this
    {
      match h
      case Answered(v) => Done(v, Memory())
      case Halted => Trapped(out)
      case Stuck => Failed(out)
      case Spent => OutOfFuel(out)
    }

    /** One operation that neither jumps nor calls; only those that write memory touch the object. */
    method Perform(op: StackOp, st: seq<Val>, local: Regs, owned: set<nat>) returns (res: VResult)
      modifies this
      ensures res == StackStep(env.fl, op, st, local, owned, old(Memory()))
      ensures Memory() == if res.VNext? then res.m else old(Memory())
    {
      hide EvalBin, EvalNeg, EvalNot, EvalIcmp, EvalFcmp, EvalConv;
      if |st| < Pops(op) {
        return VFails;
      }
      var below := Pop(st, Pops(op));
      match op
      case StoreG(g) =>
        globs := globs[g := Top(st)];
        return VNext(below, local, owned, Memory());
      case AllocaOp(n) =>
        var p := VPtr(next, 0);
        slots := slots[next := ZeroCells(n, false)];
        next := next + 1;
        return VNext(st + [p], local, owned + {p.slot}, Memory());
      case StoreOp =>
        var p := Top(st);
        if !ValidPtr(Memory(), p) {
          return VFails;
        }
        slots := slots[p.slot := slots[p.slot][p.idx := Written(st[|st| - 2])]];
        return VNext(below, local, owned, Memory());
      case PrintIOp =>
        if !Top(st).VInt? {
          return VFails;
        }
        out := out + [PrintedInt(Top(st).i)];
        return VNext(below, local, owned, Memory());
      case PrintFOp =>
        var f := AsFloat(env.fl, Top(st));
        if f.None? {
          return VFails;
        }
        out := out + [PrintedFloat(f.value)];
        return VNext(below, local, owned, Memory());
      case _ =>
        res := StackStep(env.fl, op, st, local, owned, Memory());
        LeavesMemory(env.fl, op, st, local, owned, Memory());
    }

    /** A call: the fetch loop does what the specification of the machine says. */
    method Call(fuel: nat, name: Name, args: seq<Val>) returns (halt: Halt)
      modifies this
      ensures Result(halt) == VCall(env, fuel, name, args, old(Memory()))
      decreases fuel
    {
      hide StackStep, VDecode, Bind;
      if name !in env.funcs {
        return Stuck;
      }
      var c := env.funcs[name];
      var local, st: seq<Val>, owned: set<nat> := Bind(c.params, args), [], {};
      var pc: nat, left: nat := 0, fuel;
      ghost var goal := VCall(env, fuel, name, args, Memory());
      halt := Spent;
      while left > 0
        invariant left <= fuel
        invariant goal == VExec(env, left, c, pc, st, local, owned, Memory())
        invariant halt == Spent
        decreases left
      {
        left := left - 1;
        match VDecode(c, pc, st)
        case VJump(pc', st') => pc, st := pc', st';
        case VReturn(v) =>
          halt := Answered(v);
          break;
        case VInvoke(g, vs, st') =>
          var h := Call(left, g, vs);
          if !h.Answered? {
            halt := h;
            break;
          }
          pc, st := pc + 1, st' + [h.v];
        case VCompute =>
          InCode(c, pc, st);
          var res := Perform(c.code[pc], st, local, owned);
          if !res.VNext? {
            halt := if res.VTraps? then Halted else Stuck;
            break;
          }
          pc, st, local, owned := pc + 1, res.st, res.local, res.owned;
        case VBroken =>
          halt := Stuck;
          break;
      }
      slots := slots - owned;
    }
  }

  lemma InCode(c: Code, pc: nat, st: seq<Val>)
    requires VDecode(c, pc, st).VCompute?
    ensures pc < |c.code|
  {}

  lemma LeavesMemory(fl: Floats, op: StackOp, st: seq<Val>, local: Regs, owned: set<nat>, m: Mem)
    requires !op.StoreG? && !op.AllocaOp? && !op.StoreOp? && !op.PrintIOp? && !op.PrintFOp?
    ensures var r := StackStep(fl, op, st, local, owned, m); r.VNext? ==> r.m == m
  {
    hide EvalBin, EvalNeg, EvalNot, EvalIcmp, EvalFcmp, EvalConv;
  }
}
