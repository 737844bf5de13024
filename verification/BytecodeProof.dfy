/** From CIR to the emitted bytecode: the two machines print the same, return the
    same and trap together, and neither runs ahead of the other for ever. */
module BytecodeProof {
  import opened Cir
  import opened Arith
  import opened Interp
  import opened Bytecode
  import opened StackVm
  import opened Layout
  import opened LowerSteps
  import opened PeepholeProof
  import opened PeepholeCorrect
  import opened NaiveProof
  import opened NaiveRuns

  /** An outcome as the machine sees it. */
  function EraseOut(o: Outcome): (r: Outcome)
    ensures r.Out() == o.Out()
  {
    match o
    case Done(v, m) => Done(v, Erase(m))
    case _ => o
  }

  ghost predicate CleanOut(o: Outcome) {
    o.Done? ==> !o.v.VGlob? && CleanMem(o.m)
  }

  /** A run at a position of both programs. */
  ghost predicate Running(env: Env, g: Name, n: nat, rest: seq<Instr>, pc: nat, regs: Regs, m: Mem) {
    && g in env.funcs && CleanRegs(regs) && CleanMem(m)
    && Lowerable(env.funcs[g]) && At(env.funcs[g], n, rest, pc)
  }

  ghost predicate Vm(env: Env, v: VEnv)
    requires Compilable(env)
  {
    CompilableEmits(env); v == NaiveEnv(env.fl, env.funcs)
  }

  lemma VmCode(env: Env, v: VEnv, g: Name)
    requires Compilable(env) && Vm(env, v)
    ensures v.fl == env.fl && (g in v.funcs <==> g in env.funcs)
    ensures g in env.funcs ==> Lowerable(env.funcs[g]) && Emits(env.funcs[g]) && v.funcs[g] == NaiveCode(env.funcs[g])
  {
    hide Emits, EntryUnreached, ShapedBlock, Assemble, NaiveCode;
    CompilableEmits(env);
    if g in env.funcs { assert CanEmit(env.funcs[g]); assert Lowerable(env.funcs[g]); }
  }

  /** What a step of a running program needs and leaves. */
  lemma RunningInstr(env: Env, g: Name, n: nat, rest: seq<Instr>, pc: nat, regs: Regs, m: Mem)
    returns (ops: seq<StackOp>)
    requires Running(env, g, n, rest, pc, regs, m)
    ensures var f := env.funcs[g];
            && Emits(f) && n < |f.blocks| && rest != []
            && LowerInstr(rest[0], LocalTable(f), NextLabel(f, n)) == Some(ops)
            && Holds(NaiveCode(f).code, pc, ops) && Shaped(rest[0])
            && (rest[0].op.IsTerminator() <==> |rest| == 1)
            && (|rest| > 1 ==> At(f, n, rest[1..], pc + |ops|))
  {
    hide Holds, LowerInstr, LocalTable, NaiveCode, Start, CleanMem, CleanRegs, LowerInstrs, Emits, EntryUnreached,
         ShapedBlock;
    ops := AtNext(env.funcs[g], n, rest, pc);
    AtShape(env.funcs[g], n, rest, pc);
  }

  lemma BoundClean(params: seq<Name>, args: seq<Val>)
    requires CleanVals(args)
    ensures CleanRegs(Bind(params, args))
  {}

  lemma StartRunning(env: Env, g: Name, n: nat, regs: Regs, m: Mem)
    requires g in env.funcs && n < |env.funcs[g].blocks| && CleanRegs(regs) && CleanMem(m) && Lowerable(env.funcs[g])
    ensures Running(env, g, n, env.funcs[g].blocks[n].instrs, Start(NaiveBlocks(env.funcs[g]), n), regs, m)
  {
    hide CleanMem, CleanRegs, At, Lowerable, Start, NaiveBlocks;
    AtStart(env.funcs[g], n);
  }

  lemma ReleaseClean(m: Mem, owned: set<nat>)
    requires CleanMem(m)
    ensures CleanMem(Release(m, owned))
  {}

  lemma ReturnClean(ins: Instr, regs: Regs, locals: set<Name>, next: Option<Label>)
    requires CleanRegs(regs) && Decode(ins, regs).Return? && LowerInstr(ins, locals, next).Some? && Shaped(ins)
    ensures !Decode(ins, regs).v.VGlob?
  {
    PushedPlain(ins.args, locals);
    if ins.args != [] { OperandClean(regs, ins.args[0]); }
  }

  lemma InvokeClean(ins: Instr, regs: Regs, locals: set<Name>, next: Option<Label>)
    requires CleanRegs(regs) && Decode(ins, regs).Invoke? && LowerInstr(ins, locals, next).Some?
    ensures CleanVals(Decode(ins, regs).args) && OperandVals(regs, ins.args) == Some(Decode(ins, regs).args)
    ensures ins.op.Call? && Decode(ins, regs).callee == ins.op.callee
  {
    PushedPlain(ins.args, locals);
    OperandsClean(regs, ins.args);
  }

  lemma ReceiveClean(regs: Regs, dest: Option<Name>, x: Val)
    requires CleanRegs(regs) && !x.VGlob?
    ensures CleanRegs(Receive(regs, dest, x))
  {}

  // ----- no address of a global escapes -----

  lemma {:induction false} ExecClean(env: Env, v: VEnv, fuel: nat, g: Name, n: nat, rest: seq<Instr>, pc: nat,
                                     regs: Regs, owned: set<nat>, m: Mem)
    requires Running(env, g, n, rest, pc, regs, m)
    requires Compilable(env) && Vm(env, v)
    ensures CleanOut(Exec(env, fuel, env.funcs[g], env.funcs[g].blocks[n], rest, regs, owned, m))
    decreases fuel, |rest| + 1
  {
    hide Compilable, CleanMem, CleanRegs, CleanVals, Step, At, Lowerable, LowerInstr, LocalTable, NaiveCode, Holds,
         Decode, CallFn, Shaped, Vm, Start, NaiveBlocks;
    VmCode(env, v, g);
    var ops := RunningInstr(env, g, n, rest, pc, regs, m);
    var f, ins := env.funcs[g], rest[0];
    Kinds(ins, regs);
    match Decode(ins, regs)
    case Transfer(l) =>
      if fuel > 0 {
        var k := TransferRuns(f, n, rest, pc, 0, v, regs, owned, m);
        StartRunning(env, g, k, regs, m);
        ExecClean(env, v, fuel - 1, g, k, f.blocks[k].instrs, Start(NaiveBlocks(f), k), regs, owned, m);
      }
    case Return(x) =>
      ReturnClean(ins, regs, LocalTable(f), NextLabel(f, n));
      ReleaseClean(m, owned);
    case Invoke(callee, vs) =>
      InvokeClean(ins, regs, LocalTable(f), NextLabel(f, n));
      CallClean(env, v, fuel, callee, vs, m);
      match CallFn(env, fuel, callee, vs, m) {
        case Done(x, m') =>
          ReceiveClean(regs, ins.dest, x);
          ExecClean(env, v, fuel, g, n, rest[1..], pc + |ops|, Receive(regs, ins.dest, x), owned, m');
        case _ =>
      }
    case Compute =>
      EnvChecks(env);
      ComputeRuns(env, f, n, rest, pc, ops, 0, v, regs, owned, m);
      match Step(env, ins, regs, owned, m) {
        case Next(regs', owned', m') => ExecClean(env, v, fuel, g, n, rest[1..], pc + |ops|, regs', owned', m');
        case _ =>
      }
    case Broken =>
  }

  lemma EnvChecks(env: Env)
    requires Compilable(env)
    ensures env.checkWritten
  {}

  lemma Kinds(ins: Instr, regs: Regs)
    ensures Decode(ins, regs).Compute? ==> Computes(ins)
    ensures Decode(ins, regs).Invoke? || Decode(ins, regs).Compute? ==> !ins.op.IsTerminator()
    ensures Decode(ins, regs).Transfer? ==> ins.op.Br? || ins.op.BrCond?
    ensures Decode(ins, regs).Return? ==> ins.op.Ret?
  {}

  lemma {:induction false} CallClean(env: Env, v: VEnv, fuel: nat, g: Name, args: seq<Val>, m: Mem)
    requires CleanVals(args) && CleanMem(m)
    requires Compilable(env) && Vm(env, v)
    ensures CleanOut(CallFn(env, fuel, g, args, m))
    decreases fuel, 0
  {
    hide Compilable, CleanMem, CleanRegs, At, Lowerable, Start, NaiveBlocks, Exec, Vm, Running, CleanVals;
    if fuel > 0 && g in env.funcs && env.funcs[g].blocks != [] {
      var f := env.funcs[g];
      VmCode(env, v, g);
      BoundClean(f.params, args);
      StartRunning(env, g, 0, Bind(f.params, args), m);
      ExecClean(env, v, fuel - 1, g, 0, f.blocks[0].instrs, Start(NaiveBlocks(f), 0), Bind(f.params, args), {}, m);
    }
  }

  // ----- whatever the interpreter does, the machine does on enough fuel -----

  lemma {:induction false} NaiveReaches(env: Env, v: VEnv, fuel: nat, g: Name, n: nat, rest: seq<Instr>, pc: nat,
                                        regs: Regs, owned: set<nat>, m: Mem) returns (more: nat)
    requires Running(env, g, n, rest, pc, regs, m)
    requires Compilable(env) && Vm(env, v)
    ensures Known(EraseOut(Exec(env, fuel, env.funcs[g], env.funcs[g].blocks[n], rest, regs, owned, m)),
                  VExec(v, more, NaiveCode(env.funcs[g]), pc, [], regs, owned, Erase(m)))
    decreases fuel, 2 * |rest| + 1
  {
    hide Compilable, CleanMem, CleanRegs, CleanVals, Step, At, Lowerable, LowerInstr, LocalTable, NaiveCode, Holds,
         Decode, CallFn, Shaped, Vm, Start, NaiveBlocks, VExec, Erase, BlockMap;
    VmCode(env, v, g);
    var ops := RunningInstr(env, g, n, rest, pc, regs, m);
    var f, ins := env.funcs[g], rest[0];
    var c := NaiveCode(f);
    Kinds(ins, regs);
    SameOut(m);
    match Decode(ins, regs)
    case Transfer(l) =>
      if fuel == 0 {
        more := 0;
        VNoFuel(v, c, pc, [], regs, owned, Erase(m));
      } else {
        var k := TransferRuns(f, n, rest, pc, 0, v, regs, owned, Erase(m));
        StartRunning(env, g, k, regs, m);
        more := NaiveReaches(env, v, fuel - 1, g, k, f.blocks[k].instrs, Start(NaiveBlocks(f), k), regs, owned, m);
        more := more + TransferCost(ins, regs, NextLabel(f, n));
        var k' := TransferRuns(f, n, rest, pc, more, v, regs, owned, Erase(m));
        SameBlock(f, k, k');
      }
    case Return(x) =>
      more := |ins.args| + 1;
      AtShapeReturn(ins);
      ReturnRuns(v, c, more, ins, LocalTable(f), NextLabel(f, n), pc, regs, owned, Erase(m));
      EraseRelease(m, owned);
    case Invoke(callee, vs) =>
      more := InvokeReaches(env, v, fuel, g, n, rest, pc, regs, owned, m);
    case Compute =>
      EnvChecks(env);
      ComputeRuns(env, f, n, rest, pc, ops, 0, v, regs, owned, m);
      match Step(env, ins, regs, owned, m) {
        case Next(regs', owned', m') =>
          more := NaiveReaches(env, v, fuel, g, n, rest[1..], pc + |ops|, regs', owned', m');
          more := more + |ops|;
          ComputeRuns(env, f, n, rest, pc, ops, more, v, regs, owned, m);
        case StepTraps =>
          more := |Pushed(ins)| + 1;
          ComputeRuns(env, f, n, rest, pc, ops, more, v, regs, owned, m);
        case StepFails => more := 0;
      }
    case Broken => more := 0;
  }

  lemma AtShapeReturn(ins: Instr)
    requires Shaped(ins) && ins.op.Ret?
    ensures |ins.args| <= 1
  {}

  lemma SameBlock(f: Function, k: nat, k': nat)
    requires k < |f.blocks| && k' < |f.blocks| && f.blocks[k] == f.blocks[k'] && Lowerable(f)
    ensures k == k'
  {}

  lemma {:induction false} InvokeReaches(env: Env, v: VEnv, fuel: nat, g: Name, n: nat, rest: seq<Instr>, pc: nat,
                                         regs: Regs, owned: set<nat>, m: Mem) returns (more: nat)
    requires Running(env, g, n, rest, pc, regs, m) && Decode(rest[0], regs).Invoke?
    requires Compilable(env) && Vm(env, v)
    ensures Known(EraseOut(Exec(env, fuel, env.funcs[g], env.funcs[g].blocks[n], rest, regs, owned, m)),
                  VExec(v, more, NaiveCode(env.funcs[g]), pc, [], regs, owned, Erase(m)))
    decreases fuel, 2 * |rest|
  {
    hide Compilable, CleanMem, CleanRegs, CleanVals, Step, At, Lowerable, LowerInstr, LocalTable, NaiveCode, Holds,
         Decode, CallFn, Shaped, Vm, Start, NaiveBlocks, VExec, Erase, BlockMap, VCall, Exec;
    VmCode(env, v, g);
    var ops := RunningInstr(env, g, n, rest, pc, regs, m);
    var f, ins, vs := env.funcs[g], rest[0], Decode(rest[0], regs).args;
    var c := NaiveCode(f);
    Kinds(ins, regs);
    InvokeClean(ins, regs, LocalTable(f), NextLabel(f, n));
    CallClean(env, v, fuel, ins.op.callee, vs, m);
    ExecInvoke(env, fuel, f, f.blocks[n], rest, regs, owned, m);
    var more0 := CallReaches(env, v, fuel, ins.op.callee, vs, m);
    match CallFn(env, fuel, ins.op.callee, vs, m)
    case Done(x, m') =>
      var regs' := Receive(regs, ins.dest, x);
      ReceiveClean(regs, ins.dest, x);
      InvokeRuns(v, c, 0, ins, LocalTable(f), NextLabel(f, n), pc, vs, regs, owned, Erase(m));
      var more1 := NaiveReaches(env, v, fuel, g, n, rest[1..], pc + |ops|, regs', owned, m');
      var top := if more0 < more1 + 1 then more1 + 1 else more0;
      VCallMoreFuel(v, more0, top, ins.op.callee, vs, Erase(m));
      VExecMoreFuel(v, more1, top - 1, c, pc + |ops|, [], regs', owned, Erase(m'));
      more := top + |vs| + 1;
      InvokeRuns(v, c, more, ins, LocalTable(f), NextLabel(f, n), pc, vs, regs, owned, Erase(m));
    case OutOfFuel(p) =>
      more := more0 + |vs| + 1;
      InvokeRuns(v, c, more, ins, LocalTable(f), NextLabel(f, n), pc, vs, regs, owned, Erase(m));
      match VCall(v, more0, ins.op.callee, vs, Erase(m)) {
        case Done(x, m') =>
          PaidOutGrows(v, c, more0, 1, pc + |vs| + 2, [], Receive(regs, ins.dest, x), owned, m');
        case _ =>
      }
    case _ =>
      more := more0 + |vs| + 1;
      InvokeRuns(v, c, more, ins, LocalTable(f), NextLabel(f, n), pc, vs, regs, owned, Erase(m));
  }

  lemma PaidOutGrows(v: VEnv, c: Code, fuel: nat, k: nat, pc: nat, st: seq<Val>, local: Regs, owned: set<nat>, m: Mem)
    ensures m.out <= Paid(v, c, fuel, k, pc, st, local, owned, m, m.out).Out()
  {
    if fuel >= k { VExecOutGrows(v, fuel - k, c, pc, st, local, owned, m); }
  }

  lemma ExecInvoke(env: Env, fuel: nat, f: Function, b: BasicBlock, rest: seq<Instr>, regs: Regs, owned: set<nat>,
                   m: Mem)
    requires rest != [] && Decode(rest[0], regs).Invoke?
    ensures var r := CallFn(env, fuel, Decode(rest[0], regs).callee, Decode(rest[0], regs).args, m);
            Exec(env, fuel, f, b, rest, regs, owned, m) ==
            if r.Done? then Exec(env, fuel, f, b, rest[1..], Receive(regs, rest[0].dest, r.v), owned, r.m) else r
  {}

  lemma {:induction false} CallReaches(env: Env, v: VEnv, fuel: nat, g: Name, args: seq<Val>, m: Mem)
    returns (more: nat)
    requires CleanVals(args) && CleanMem(m)
    requires Compilable(env) && Vm(env, v)
    ensures Known(EraseOut(CallFn(env, fuel, g, args, m)), VCall(v, more, g, args, Erase(m)))
    decreases fuel, 0
  {
    hide Compilable, CleanMem, CleanRegs, At, Lowerable, NaiveBlocks, Exec, Vm, Running, CleanVals, Erase, VExec,
         NaiveCode, VCall;
    more := 0;
    SameOut(m);
    VCallOutGrows(v, 0, g, args, Erase(m));
    if fuel > 0 && g in env.funcs && env.funcs[g].blocks != [] {
      var f, regs := env.funcs[g], Bind(env.funcs[g].params, args);
      VmCode(env, v, g);
      BoundClean(f.params, args);
      StartRunning(env, g, 0, regs, m);
      more := NaiveReaches(env, v, fuel - 1, g, 0, f.blocks[0].instrs, Start(NaiveBlocks(f), 0), regs, {}, m);
      VCallRuns(v, more, g, f, args, Erase(m));
    }
  }

  lemma VCallRuns(v: VEnv, fuel: nat, g: Name, f: Function, args: seq<Val>, m: Mem)
    requires Emits(f) && g in v.funcs && v.funcs[g] == NaiveCode(f)
    ensures VCall(v, fuel, g, args, m) == VExec(v, fuel, NaiveCode(f), 0, [], Bind(f.params, args), {}, m)
  {}

  // ----- whatever the machine does, the interpreter does on enough fuel -----

  lemma {:induction false} NaiveStays(env: Env, v: VEnv, fuel: nat, g: Name, n: nat, rest: seq<Instr>, pc: nat,
                                      regs: Regs, owned: set<nat>, m: Mem) returns (more: nat)
    requires Running(env, g, n, rest, pc, regs, m)
    requires Compilable(env) && Vm(env, v)
    ensures Covered(VExec(v, fuel, NaiveCode(env.funcs[g]), pc, [], regs, owned, Erase(m)),
                    EraseOut(Exec(env, more, env.funcs[g], env.funcs[g].blocks[n], rest, regs, owned, m)))
    decreases fuel, |env.funcs[g].blocks| - n, |rest|, 1
  {
    hide Compilable, CleanMem, CleanRegs, CleanVals, Step, At, Lowerable, LowerInstr, LocalTable, NaiveCode, Holds,
         Decode, CallFn, Shaped, Vm, Start, NaiveBlocks, VExec, Erase, BlockMap, VCall, Exec;
    VmCode(env, v, g);
    var ops := RunningInstr(env, g, n, rest, pc, regs, m);
    var f, ins := env.funcs[g], rest[0];
    var b := f.blocks[n];
    var c := NaiveCode(f);
    Kinds(ins, regs);
    SameOut(m);
    more := 0;
    ExecOutGrows(env, 0, f, b, rest, regs, owned, m);
    match Decode(ins, regs)
    case Transfer(l) =>
      var k := TransferRuns(f, n, rest, pc, fuel, v, regs, owned, Erase(m));
      var cost := TransferCost(ins, regs, NextLabel(f, n));
      if fuel >= cost {
        StartRunning(env, g, k, regs, m);
        more := NaiveStays(env, v, fuel - cost, g, k, f.blocks[k].instrs, Start(NaiveBlocks(f), k), regs, owned, m);
        more := more + 1;
        ExecTransfer(env, more, f, b, rest, regs, owned, m);
      }
    case Return(x) =>
      AtShapeReturn(ins);
      ReturnRuns(v, c, fuel, ins, LocalTable(f), NextLabel(f, n), pc, regs, owned, Erase(m));
      EraseRelease(m, owned);
      ExecReturn(env, 0, f, b, rest, regs, owned, m);
    case Invoke(callee, vs) =>
      more := InvokeStays(env, v, fuel, g, n, rest, pc, regs, owned, m);
    case Compute =>
      EnvChecks(env);
      ComputeRuns(env, f, n, rest, pc, ops, fuel, v, regs, owned, m);
      ExecCompute(env, more, f, b, rest, regs, owned, m);
      match Step(env, ins, regs, owned, m) {
        case Next(regs', owned', m') =>
          if fuel >= |ops| {
            more := NaiveStays(env, v, fuel - |ops|, g, n, rest[1..], pc + |ops|, regs', owned', m');
            ExecCompute(env, more, f, b, rest, regs, owned, m);
          }
        case _ =>
      }
    case Broken => ExecBroken(env, 0, f, b, rest, regs, owned, m);
  }

  lemma ExecTransfer(env: Env, fuel: nat, f: Function, b: BasicBlock, rest: seq<Instr>, regs: Regs, owned: set<nat>,
                     m: Mem)
    requires rest != [] && Decode(rest[0], regs).Transfer? && fuel > 0
        && Decode(rest[0], regs).target in BlockMap(f.blocks)
    ensures var to := BlockMap(f.blocks)[Decode(rest[0], regs).target];
            Exec(env, fuel, f, b, rest, regs, owned, m) == Exec(env, fuel - 1, f, to, to.instrs, regs, owned, m)
  {}

  lemma ExecReturn(env: Env, fuel: nat, f: Function, b: BasicBlock, rest: seq<Instr>, regs: Regs, owned: set<nat>,
                   m: Mem)
    requires rest != [] && Decode(rest[0], regs).Return?
    ensures Exec(env, fuel, f, b, rest, regs, owned, m) == Done(Decode(rest[0], regs).v, Release(m, owned))
  {}

  lemma ExecBroken(env: Env, fuel: nat, f: Function, b: BasicBlock, rest: seq<Instr>, regs: Regs, owned: set<nat>,
                   m: Mem)
    requires rest != [] && Decode(rest[0], regs).Broken?
    ensures Exec(env, fuel, f, b, rest, regs, owned, m) == Failed(m.out)
  {}

  lemma ExecCompute(env: Env, fuel: nat, f: Function, b: BasicBlock, rest: seq<Instr>, regs: Regs, owned: set<nat>,
                    m: Mem)
    requires rest != [] && Decode(rest[0], regs).Compute?
    ensures Exec(env, fuel, f, b, rest, regs, owned, m) ==
            match Step(env, rest[0], regs, owned, m)
            case Next(regs', owned', m') => Exec(env, fuel, f, b, rest[1..], regs', owned', m')
            case StepTraps => Trapped(m.out)
            case StepFails => Failed(m.out)
  {}

  lemma {:induction false} InvokeStays(env: Env, v: VEnv, fuel: nat, g: Name, n: nat, rest: seq<Instr>, pc: nat,
                                       regs: Regs, owned: set<nat>, m: Mem) returns (more: nat)
    requires Running(env, g, n, rest, pc, regs, m) && Decode(rest[0], regs).Invoke?
    requires Compilable(env) && Vm(env, v)
    ensures Covered(VExec(v, fuel, NaiveCode(env.funcs[g]), pc, [], regs, owned, Erase(m)),
                    EraseOut(Exec(env, more, env.funcs[g], env.funcs[g].blocks[n], rest, regs, owned, m)))
    decreases fuel, |env.funcs[g].blocks| - n, |rest|, 0
  {
    hide Compilable, CleanMem, CleanRegs, CleanVals, Step, At, Lowerable, LowerInstr, LocalTable, NaiveCode, Holds,
         Decode, CallFn, Shaped, Vm, Start, NaiveBlocks, VExec, Erase, BlockMap, VCall, Exec;
    VmCode(env, v, g);
    var ops := RunningInstr(env, g, n, rest, pc, regs, m);
    var f, ins, vs := env.funcs[g], rest[0], Decode(rest[0], regs).args;
    Kinds(ins, regs);
    SameOut(m);
    InvokeClean(ins, regs, LocalTable(f), NextLabel(f, n));
    var b, c, callee := f.blocks[n], NaiveCode(f), ins.op.callee;
    InvokeRuns(v, c, fuel, ins, LocalTable(f), NextLabel(f, n), pc, vs, regs, owned, Erase(m));
    more := 0;
    ExecOutGrows(env, 0, f, b, rest, regs, owned, m);
    if fuel > |vs| {
      var left := fuel - |vs| - 1;
      var more0 := CallStays(env, v, left, callee, vs, m);
      CallClean(env, v, more0, callee, vs, m);
      ExecInvoke(env, more0, f, b, rest, regs, owned, m);
      more := more0;
      match CallFn(env, more0, callee, vs, m)
      case Done(x, m') =>
        var regs' := Receive(regs, ins.dest, x);
        SameOut(m');
        ExecOutGrows(env, more0, f, b, rest[1..], regs', owned, m');
        if left > 0 && VCall(v, left, callee, vs, Erase(m)).Done? {
          ReceiveClean(regs, ins.dest, x);
          var more1 := NaiveStays(env, v, left - 1, g, n, rest[1..], pc + |ops|, regs', owned, m');
          more := if more0 < more1 then more1 else more0;
          CallMoreFuel(env, more0, more, callee, vs, m);
          ExecMoreFuel(env, more1, more, f, b, rest[1..], regs', owned, m');
          ExecInvoke(env, more, f, b, rest, regs, owned, m);
        }
      case _ =>
    }
  }

  lemma {:induction false} CallStays(env: Env, v: VEnv, fuel: nat, g: Name, args: seq<Val>, m: Mem) returns (more: nat)
    requires CleanVals(args) && CleanMem(m)
    requires Compilable(env) && Vm(env, v)
    ensures Covered(VCall(v, fuel, g, args, Erase(m)), EraseOut(CallFn(env, more, g, args, m)))
    decreases fuel + 1, 0, 0, 0
  {
    hide Compilable, CleanMem, CleanRegs, At, Lowerable, NaiveBlocks, Exec, Vm, Running, CleanVals, Erase, VExec,
         NaiveCode, VCall;
    more := 1;
    if g in env.funcs && env.funcs[g].blocks != [] {
      var f, regs := env.funcs[g], Bind(env.funcs[g].params, args);
      VmCode(env, v, g);
      BoundClean(f.params, args);
      StartRunning(env, g, 0, regs, m);
      more := NaiveStays(env, v, fuel, g, 0, f.blocks[0].instrs, Start(NaiveBlocks(f), 0), regs, {}, m);
      more := more + 1;
      VCallRuns(v, fuel, g, f, args, Erase(m));
    }
  }
}
