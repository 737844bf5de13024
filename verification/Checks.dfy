/** The optional checks only cut runs short: a run that passes them is a run of the plain
    interpreter, and one that fails had printed no more than the plain one prints. */
module Checks {
  import opened Cir
  import opened Arith
  import opened Interp

  /** The interpreter as it is, without the optional checks. */
  function Unchecked(env: Env): Env {
    env.(checkRanges := false, checkWritten := false)
  }

  /** Some of the checks of `env` dropped. */
  ghost predicate Loosens(env: Env, loose: Env) {
    && loose == env.(checkRanges := loose.checkRanges, checkWritten := loose.checkWritten)
    && (loose.checkRanges ==> env.checkRanges) && (loose.checkWritten ==> env.checkWritten)
  }

  predicate Unless(r: Outcome, s: Outcome) {
    r == s || (r.Failed? && r.printed <= s.Out())
  }

  lemma StepChecks(env: Env, loose: Env, ins: Instr, regs: Regs, owned: set<nat>, m: Mem)
    requires Loosens(env, loose)
    ensures Step(env, ins, regs, owned, m).StepFails?
        || Step(env, ins, regs, owned, m) == Step(loose, ins, regs, owned, m)
  {
    hide EvalBin, EvalNeg, EvalNot, EvalIcmp, EvalFcmp, EvalConv, OperandVals, InRange;
  }

  lemma {:induction false} ExecChecks(env: Env, loose: Env, fuel: nat, f: Function, b: BasicBlock, rest: seq<Instr>,
                                      regs: Regs, owned: set<nat>, m: Mem)
    requires Loosens(env, loose)
    ensures Unless(Exec(env, fuel, f, b, rest, regs, owned, m), Exec(loose, fuel, f, b, rest, regs, owned, m))
    decreases fuel, |rest| + 1
  {
    hide Step, Decode, Goto, CallFn;
    ExecOutGrows(loose, fuel, f, b, rest, regs, owned, m);
    if rest == [] {
      if fuel > 0 { ExecChecks(env, loose, fuel - 1, f, b, b.instrs, regs, owned, m); }
    } else {
      match Decode(rest[0], regs)
      case Transfer(l) => GotoChecks(env, loose, fuel, f, l, regs, owned, m);
      case Return(v) =>
      case Invoke(callee, vs) =>
        CallChecks(env, loose, fuel, callee, vs, m);
        InvokeOut(loose, fuel, f, b, rest, regs, owned, m);
        match CallFn(env, fuel, callee, vs, m) {
          case Done(v, m') => ExecChecks(env, loose, fuel, f, b, rest[1..], Receive(regs, rest[0].dest, v), owned, m');
          case _ =>
        }
      case Compute =>
        StepChecks(env, loose, rest[0], regs, owned, m);
        match Step(env, rest[0], regs, owned, m) {
          case Next(regs', owned', m') => ExecChecks(env, loose, fuel, f, b, rest[1..], regs', owned', m');
          case _ =>
        }
      case Broken =>
    }
  }

  lemma {:induction false} GotoChecks(env: Env, loose: Env, fuel: nat, f: Function, l: Label, regs: Regs,
                                      owned: set<nat>, m: Mem)
    requires Loosens(env, loose)
    ensures Unless(Goto(env, fuel, f, l, regs, owned, m), Goto(loose, fuel, f, l, regs, owned, m))
    decreases fuel, 0
  {
    hide BlockMap, Exec;
    var blocks := BlockMap(f.blocks);
    if fuel > 0 && l in blocks { ExecChecks(env, loose, fuel - 1, f, blocks[l], blocks[l].instrs, regs, owned, m); }
  }

  /** A run that passes the checks is the run without them. */
  lemma {:induction false} CallChecks(env: Env, loose: Env, fuel: nat, name: Name, args: seq<Val>, m: Mem)
    requires Loosens(env, loose)
    ensures Unless(CallFn(env, fuel, name, args, m), CallFn(loose, fuel, name, args, m))
    decreases fuel, 0
  {
    hide Exec;
    if fuel > 0 && name in env.funcs && env.funcs[name].blocks != [] {
      var f := env.funcs[name];
      ExecChecks(env, loose, fuel - 1, f, f.blocks[0], f.blocks[0].instrs, Bind(f.params, args), {}, m);
    }
  }
}
