/** The interpreter as a machine with state: one object holds the globals, the slots
    and the output, and a call walks the blocks in a loop. */
module Interpreter {
  import opened Cir
  import opened Arith
  import opened Interp

  /** How a call came to an end. */
  datatype Stop = Returned(v: Val) | TrapRaised | BrokeDown | Exhausted

  class Machine {
    const env: Env
    var globs: map<Name, Val>
    var slots: Slots
    var next: nat
    var out: seq<Event>

    constructor (env: Env, globs: map<Name, Val>)
      ensures this.env == env && Memory() == Mem(globs, map[], 0, [])
    {
      this.env := env;
      this.globs := globs;
      slots := map[];
      next := 0;
      out := [];
    }

    function Memory(): Mem
      reads this
    {
      Mem(globs, slots, next, out)
    }

    /** Slot numbers are handed out in order. */
    ghost predicate Valid()
      reads this
    {
      forall s :: s in slots ==> s < next
    }

    /** The outcome a stop stands for. */
    function Result(s: Stop): Outcome
      reads this
    {
      match s
      case Returned(v) => Done(v, Memory())
      case TrapRaised => Trapped(out)
      case BrokeDown => Failed(out)
      case Exhausted => OutOfFuel(out)
    }

    method Allocate(count: int, isFloat: bool) returns (p: Val)
      requires Valid()
      modifies this
      ensures Valid() && p == VPtr(old(next), 0)
      ensures Memory() == old(Memory()).(
                slots := old(slots)[old(next) := ZeroCells(count, isFloat)], next := old(next) + 1)
    {
      p := VPtr(next, 0);
      slots := slots[next := ZeroCells(count, isFloat)];
      next := next + 1;
    }

    method StoreAt(p: Val, v: Val) returns (ok: bool)
      requires Valid()
      modifies this
      ensures Valid() && ok == StoreTo(old(Memory()), p, v).Some?
      ensures Memory() == if ok then StoreTo(old(Memory()), p, v).value else old(Memory())
      ensures slots.Keys == old(slots.Keys)
    {
      ok := true;
      if p.VGlob? {
        globs := globs[p.name := v];
      } else if ValidPtr(Memory(), p) {
        slots := slots[p.slot := slots[p.slot][p.idx := Written(v)]];
      } else {
        ok := false;
      }
    }

    /** One instruction that neither transfers control nor calls, done in place. */
    method Perform(ins: Instr, regs: Regs, owned: set<nat>) returns (res: StepResult)
      requires Valid() && owned <= slots.Keys
      modifies this
      ensures Valid() && res == Step(env, ins, regs, owned, old(Memory())) && old(next) <= next
      ensures Memory() == if res.Next? then res.m else old(Memory())
      ensures res.Next? ==> owned <= res.owned && slots.Keys == old(slots.Keys) + (res.owned - owned)
      ensures res.Next? ==> forall s :: s in res.owned - owned ==> s >= old(next)
    {
      var n := Arity(ins.op);
      if |ins.args| < n {
        return StepFails;
      }
      if ins.op.Alloca? {
        var count := FirstVal(regs, ins.args, Some(VInt(1)));
        if count.None? || !count.value.VInt? || ins.dest.None? {
          return StepFails;
        }
        var p := Allocate(count.value.i, ins.ty.F64?);
        return Next(regs[ins.dest.value := p], owned + {p.slot}, Memory());
      }
      var vs := OperandVals(regs, ins.args[..n]);
      if vs.None? {
        return StepFails;
      }
      if ins.op.Store? {
        var ok := StoreAt(vs.value[1], vs.value[0]);
        return if ok then Next(regs, owned, Memory()) else StepFails;
      }
      res := Step(env, ins, regs, owned, Memory());
      PrintsOnly(env, ins, regs, owned, Memory());
      if res.Next? {
        out := res.m.out;
      }
    }

    /** A call.  Whatever its end, the slots it allocated are gone and the caller's are
        still there. */
    method Call(fuel: nat, name: Name, args: seq<Val>) returns (stop: Stop)
      requires Valid()
      modifies this
      ensures Valid() && slots.Keys == old(slots.Keys) && old(next) <= next
      ensures Result(stop) == CallFn(env, fuel, name, args, old(Memory()))
      decreases fuel, 0
    {
      hide Step, Decode, BlockMap, Bind, Receive;
      if fuel == 0 {
        return Exhausted;
      }
      if name !in env.funcs || env.funcs[name].blocks == [] {
        return BrokeDown;
      }
      var f := env.funcs[name];
      var blocks := BlockMap(f.blocks);
      var b, regs := f.blocks[0], Bind(f.params, args);
      var owned: set<nat> := {};
      var i, left: nat := 0, fuel - 1;
      ghost var goal := CallFn(env, fuel, name, args, Memory());
      assert b.instrs[0..] == b.instrs;
      while true
        invariant Valid() && i <= |b.instrs| && left < fuel
        invariant goal == Exec(env, left, f, b, b.instrs[i..], regs, owned, Memory())
        invariant slots.Keys == old(slots.Keys) + owned && owned !! old(slots.Keys) && old(next) <= next
        decreases left, |b.instrs| - i
      {
        if i == |b.instrs| {
          if left == 0 {
            stop := Exhausted;
            break;
          }
          left, i := left - 1, 0;
          assert b.instrs[0..] == b.instrs;
          continue;
        }
        var ins := b.instrs[i];
        assert b.instrs[i..][0] == ins && b.instrs[i..][1..] == b.instrs[i + 1..];
        match Decode(ins, regs)
        case Transfer(l) =>
          if left == 0 {
            stop := Exhausted;
            break;
          }
          if l !in blocks {
            stop := BrokeDown;
            break;
          }
          b, i, left := blocks[l], 0, left - 1;
          assert b.instrs[0..] == b.instrs;
        case Return(v) =>
          stop := Returned(v);
          break;
        case Invoke(callee, vs) =>
          stop := Call(left, callee, vs);
          if !stop.Returned? {
            break;
          }
          regs, i := Receive(regs, ins.dest, stop.v), i + 1;
        case Compute =>
          var res := Perform(ins, regs, owned);
          if res.StepTraps? {
            stop := TrapRaised;
            break;
          }
          if res.StepFails? {
            stop := BrokeDown;
            break;
          }
          regs, owned, i := res.regs, res.owned, i + 1;
        case Broken =>
          stop := BrokeDown;
          break;
      }
      slots := slots - owned;
    }
  }

  /** Apart from allocation and stores, an instruction changes memory only by printing. */
  lemma PrintsOnly(env: Env, ins: Instr, regs: Regs, owned: set<nat>, m: Mem)
    requires !ins.op.Alloca? && !ins.op.Store?
    ensures var r := Step(env, ins, regs, owned, m);
            r.Next? ==> r.owned == owned && r.m == m.(out := r.m.out)
  {}
}
