/** Pruned programs: results and output of runs that do not trap are kept, and a trapping
    run's output is the beginning of the pruned run's. */
module PruningProof {
  import opened Cir
  import opened Arith
  import opened Interp
  import opened Renaming
  import opened Pruning

  lemma MatchesGrows(quiet: bool, p: Slotmap, q: Slotmap, z: Slotmap, n: nat, n': nat, r: Outcome, r': Outcome)
    requires Grows(p, q) && NewAbove(p, q, n) && n <= n' && Matches(quiet, q, z, n', r, r')
    ensures Matches(quiet, p, z, n, r, r')
  {
    hide MemRel, ValRel;
  }

  /** Everything an instruction at the same place needs. */
  ghost predicate Side(env: Env, env': Env, cuts: map<Name, Cut>, g: Name, b: BasicBlock, rest: seq<Instr>) {
    g in env.funcs && g in env'.funcs && g in cuts && Inside(cuts[g].live, env.funcs[g], b, rest)
  }

  lemma SideFacts(env: Env, env': Env, cuts: map<Name, Cut>, g: Name, b: BasicBlock, rest: seq<Instr>)
    requires Side(env, env', cuts, g, b, rest)
    requires Pruned(env, env', cuts)
    ensures rest != [] && InstrOk(cuts[g].dead, rest[0]) && (rest[0].op.IsTerminator() <==> |rest| == 1)
    ensures |rest| > 1 ==> Side(env, env', cuts, g, b, rest[1..])
    ensures rest[0].op.IsTerminator() ==> forall l ::
        l in rest[0].op.Targets() ==> l in cuts[g].live && l in BlockMap(env.funcs[g].blocks)
    ensures FunctionPruned(env, env', cuts, g)
  {
    hide Inside, PruneOk, InstrOk, BlockMap, Function.GoodCfg, Prune;
    UsePruned(env, env', cuts, g);
    InsideFacts(cuts[g].live, cuts[g].dead, env.funcs[g], b, rest);
  }

  lemma PruneUnfolds(d: set<Name>, rest: seq<Instr>)
    requires rest != []
    ensures Dead(d, rest[0]) ==> PruneInstrs(d, rest) == PruneInstrs(d, rest[1..])
    ensures !Dead(d, rest[0]) ==>
              PruneInstrs(d, rest) != [] && PruneInstrs(d, rest)[0] == rest[0]
                  && PruneInstrs(d, rest)[1..] == PruneInstrs(d, rest[1..])
  {}

  lemma OutOf(d: set<Name>, p: Slotmap, a: Regs, a': Regs, o: set<nat>, o': set<nat>, m: Mem, m': Mem)
    requires Together(d, p, a, a', o, o', m, m')
    ensures m'.out == m.out
  {}

  lemma {:induction false} RunsPruned(env: Env, env': Env, cuts: map<Name, Cut>, fuel: nat, g: Name, b: BasicBlock,
                                      b': BasicBlock,
                                      rest: seq<Instr>, p: Slotmap, a: Regs, a': Regs, o: set<nat>, o': set<nat>,
                                          m: Mem, m': Mem)
      returns (q: Slotmap)
    requires Side(env, env', cuts, g, b, rest) && Together(cuts[g].dead, p, a, a', o, o', m, m')
    requires Pruned(env, env', cuts)
    ensures Matches(Quiet(env, cuts), p, q, m.next, Exec(env, fuel, env.funcs[g], b, rest, a, o, m),
                    Exec(env', fuel, env'.funcs[g], b', PruneInstrs(cuts[g].dead, rest), a', o', m'))
    decreases fuel, 3 * |rest| + 1
  {
    hide Pruned, FunctionPruned, Together, Matches, Step, Decode, CallFn, Goto, BlockMap, Inside, Dead, PruneInstrs,
         NotRead;
    q := p;
    SideFacts(env, env', cuts, g, b, rest);
    var d := cuts[g].dead;
    PruneUnfolds(d, rest);
    KindOf(rest[0], a);
    KindOf(rest[0], a');
    OutOf(d, p, a, a', o, o', m, m');
    if Dead(d, rest[0]) {
      DeadKind(d, rest[0]);
      ExecOutGrows(env', fuel, env'.funcs[g], b', PruneInstrs(d, rest[1..]), a', o', m');
      DeadStep(env, d, p, rest[0], a, a', o, o', m, m');
      match Step(env, rest[0], a, o, m)
      case Next(r, o1, m1) =>
        q := RunsPruned(env, env', cuts, fuel, g, b, b', rest[1..], p, r, a', o1, o', m1, m');
        StaysMatched(Quiet(env, cuts), p, q, m.next, m1.next, Exec(env, fuel, env.funcs[g], b, rest[1..], r, o1, m1),
                     Exec(env', fuel, env'.funcs[g], b', PruneInstrs(d, rest[1..]), a', o', m'));
      case StepTraps =>
        NotQuiet(env, env', cuts, g, b, rest, a, o, m);
        TrapMatches(Quiet(env, cuts), p, m.next, m.out,
            Exec(env', fuel, env'.funcs[g], b', PruneInstrs(d, rest[1..]), a', o', m'));
      case StepFails => FailMatches(Quiet(env, cuts), p, m.next, m.out,
          Exec(env', fuel, env'.funcs[g], b', PruneInstrs(d, rest[1..]), a', o', m'));
    } else {
      q := KeptPruned(env, env', cuts, fuel, g, b, b', rest, p, a, a', o, o', m, m');
    }
  }

  /** A removable step that traps is one of the operations that can. */
  lemma TrapsOnlyIfCan(env: Env, ins: Instr, regs: Regs, owned: set<nat>, m: Mem)
    requires Removable(ins) && Step(env, ins, regs, owned, m).StepTraps?
    ensures CanTrap(ins.op)
  {
    hide OperandVals, Wrap, DivTrunc, Bits, Compare;
  }

  lemma NotQuiet(env: Env, env': Env, cuts: map<Name, Cut>, g: Name, b: BasicBlock, rest: seq<Instr>, a: Regs,
                 o: set<nat>, m: Mem)
    requires Side(env, env', cuts, g, b, rest) && Dead(cuts[g].dead, rest[0]) && Step(env, rest[0], a, o, m).StepTraps?
    ensures !Quiet(env, cuts)
  {
    hide Step, CanTrap;
    TrapsOnlyIfCan(env, rest[0], a, o, m);
    assert rest[0] == b.instrs[|b.instrs| - |rest|];
    assert rest[0] in b.instrs;
    assert !QuietCut(env.funcs[g], cuts[g].live, cuts[g].dead);
  }

  lemma DeadKind(d: set<Name>, ins: Instr)
    requires Dead(d, ins)
    ensures !ins.op.IsTerminator() && !ins.op.Call?
  {}

  lemma StaysMatched(quiet: bool, p: Slotmap, q: Slotmap, n: nat, n': nat, r: Outcome, r': Outcome)
    requires Matches(quiet, p, q, n', r, r') && n <= n'
    ensures Matches(quiet, p, q, n, r, r')
  {
    hide MemRel, ValRel, Grows;
  }

  lemma TrapMatches(quiet: bool, p: Slotmap, n: nat, out: seq<Event>, r': Outcome)
    requires if quiet then r' == Trapped(out) else out <= r'.Out()
    ensures Matches(quiet, p, p, n, Trapped(out), r')
  {}

  lemma FailMatches(quiet: bool, p: Slotmap, n: nat, out: seq<Event>, r': Outcome)
    requires out <= r'.Out()
    ensures Matches(quiet, p, p, n, Failed(out), r')
  {}

  lemma {:induction false} KeptPruned(env: Env, env': Env, cuts: map<Name, Cut>, fuel: nat, g: Name, b: BasicBlock,
                                      b': BasicBlock,
                                      rest: seq<Instr>, p: Slotmap, a: Regs, a': Regs, o: set<nat>, o': set<nat>,
                                          m: Mem, m': Mem)
      returns (q: Slotmap)
    requires Side(env, env', cuts, g, b, rest) && Together(cuts[g].dead, p, a, a', o, o', m, m')
    requires rest != [] && !Dead(cuts[g].dead, rest[0])
    requires Pruned(env, env', cuts)
    ensures Matches(Quiet(env, cuts), p, q, m.next, Exec(env, fuel, env.funcs[g], b, rest, a, o, m),
                    Exec(env', fuel, env'.funcs[g], b', PruneInstrs(cuts[g].dead, rest), a', o', m'))
    decreases fuel, 3 * |rest|
  {
    hide Pruned, FunctionPruned, Together, Matches, Step, Decode, CallFn, Goto, BlockMap, Inside, Dead, PruneInstrs,
         NotRead, StepsTogether, SameAction;
    q := p;
    SideFacts(env, env', cuts, g, b, rest);
    var d := cuts[g].dead;
    PruneUnfolds(d, rest);
    KindOf(rest[0], a);
    KindOf(rest[0], a');
    OutOf(d, p, a, a', o, o', m, m');
    RegsOf(d, p, a, a', o, o', m, m');
    DecodeRel(d, p, rest[0], a, a');
    var out' := Exec(env', fuel, env'.funcs[g], b', PruneInstrs(d, rest), a', o', m');
    UseAction(p, Decode(rest[0], a), Decode(rest[0], a'));
    ExecOutGrows(env', fuel, env'.funcs[g], b', PruneInstrs(d, rest), a', o', m');
    match Decode(rest[0], a)
    case Transfer(l) => q := GotoPruned(env, env', cuts, fuel, g, l, p, a, a', o, o', m, m');
    case Return(v) => ReturnMatches(Quiet(env, cuts), d, p, a, a', o, o', m, m', v, Decode(rest[0], a').v);
    case Invoke(callee, vs) => q := InvokePruned(env, env', cuts, fuel, g, b, b', rest, p, a, a', o, o', m, m');
    case Compute =>
      EnvsAlike(env, env', cuts);
      SameStep(env, env', rest[0], a', o', m');
      var z := KeptStep(env, d, p, rest[0], a, a', o, o', m, m');
      UseSteps(d, p, z, m.next, Step(env, rest[0], a, o, m), Step(env, rest[0], a', o', m'));
      match Step(env, rest[0], a, o, m) {
        case Next(r, o1, m1) =>
          var s' := Step(env, rest[0], a', o', m');
          q := RunsPruned(env, env', cuts, fuel, g, b, b', rest[1..], z, r, s'.regs, o1, s'.owned, m1, s'.m);
          MatchesGrows(Quiet(env, cuts), p, z, q, m.next, m1.next,
              Exec(env, fuel, env.funcs[g], b, rest[1..], r, o1, m1),
                       Exec(env', fuel, env'.funcs[g], b', PruneInstrs(d, rest[1..]), s'.regs, s'.owned, s'.m));
        case StepTraps => TrapMatches(Quiet(env, cuts), p, m.next, m.out, out');
        case StepFails => FailMatches(Quiet(env, cuts), p, m.next, m.out, out');
      }
    case Broken => FailMatches(Quiet(env, cuts), p, m.next, m.out, out');
  }

  lemma RegsOf(d: set<Name>, p: Slotmap, a: Regs, a': Regs, o: set<nat>, o': set<nat>, m: Mem, m': Mem)
    requires Together(d, p, a, a', o, o', m, m')
    ensures RegsRel(d, p, a, a')
  {}

  lemma UseAction(p: Slotmap, x: Action, x': Action)
    requires SameAction(p, x, x')
    ensures x.Transfer? || x.Compute? ==> x' == x
    ensures x.Return? ==> x'.Return? && ValRel(p, x.v, x'.v)
    ensures x.Invoke? ==> x'.Invoke? && x'.callee == x.callee && ValsRel(p, x.args, x'.args)
  {}

  lemma UseSteps(d: set<Name>, p: Slotmap, q: Slotmap, n: nat, r: StepResult, r': StepResult)
    requires StepsTogether(d, p, q, n, r, r')
    ensures r.StepTraps? ==> r'.StepTraps?
    ensures r.Next? ==> r'.Next? && Grows(p, q) && NewAbove(p, q, n) && n <= r.m.next
    ensures r.Next? ==> Together(d, q, r.regs, r'.regs, r.owned, r'.owned, r.m, r'.m)
  {}

  lemma ReturnMatches(quiet: bool, d: set<Name>, p: Slotmap, a: Regs, a': Regs, o: set<nat>, o': set<nat>, m: Mem,
                      m': Mem, v: Val, v': Val)
    requires Together(d, p, a, a', o, o', m, m') && ValRel(p, v, v')
    ensures Matches(quiet, p, p, m.next, Done(v, Release(m, o)), Done(v', Release(m', o')))
  {
    hide MemRel, RegsRel;
    ReleaseRel(p, m, m', o);
  }

  lemma {:induction false} GotoPruned(env: Env, env': Env, cuts: map<Name, Cut>, fuel: nat, g: Name, l: Label,
                                      p: Slotmap, a: Regs, a': Regs, o: set<nat>, o': set<nat>, m: Mem, m': Mem)
      returns (q: Slotmap)
    requires g in env.funcs && g in env'.funcs && g in cuts && l in cuts[g].live && l in BlockMap(env.funcs[g].blocks)
    requires Together(cuts[g].dead, p, a, a', o, o', m, m')
    requires Pruned(env, env', cuts)
    ensures Matches(Quiet(env, cuts), p, q, m.next, Goto(env, fuel, env.funcs[g], l, a, o, m),
        Goto(env', fuel, env'.funcs[g], l, a', o', m'))
    decreases fuel, 0
  {
    hide Pruned, Together, Matches, BlockMap, Inside, PruneInstrs, Exec, Function.GoodCfg, PruneOk, PruneBlocks;
    q := p;
    UsePruned(env, env', cuts, g);
    OutOf(cuts[g].dead, p, a, a', o, o', m, m');
    PruneLookup(cuts[g].live, cuts[g].dead, env.funcs[g].blocks, l);
    if fuel > 0 {
      var to, to' := BlockMap(env.funcs[g].blocks)[l], BlockMap(env'.funcs[g].blocks)[l];
      InsideStart(cuts[g].live, env.funcs[g], l);
      q := RunsPruned(env, env', cuts, fuel - 1, g, to, to', to.instrs, p, a, a', o, o', m, m');
    } else {
      FuelMatches(Quiet(env, cuts), p, m.next, m.out);
    }
  }

  lemma FuelMatches(quiet: bool, p: Slotmap, n: nat, out: seq<Event>)
    ensures Matches(quiet, p, p, n, OutOfFuel(out), OutOfFuel(out))
  {}

  lemma {:induction false} InvokePruned(env: Env, env': Env, cuts: map<Name, Cut>, fuel: nat, g: Name, b: BasicBlock,
                                        b': BasicBlock,
                                        rest: seq<Instr>, p: Slotmap, a: Regs, a': Regs, o: set<nat>, o': set<nat>,
                                            m: Mem, m': Mem)
      returns (q: Slotmap)
    requires Side(env, env', cuts, g, b, rest) && Together(cuts[g].dead, p, a, a', o, o', m, m')
    requires rest != [] && !Dead(cuts[g].dead, rest[0]) && Decode(rest[0], a).Invoke? && Decode(rest[0], a').Invoke?
    requires Decode(rest[0], a').callee == Decode(rest[0], a).callee
        && ValsRel(p, Decode(rest[0], a).args, Decode(rest[0], a').args)
    requires Pruned(env, env', cuts)
    ensures Matches(Quiet(env, cuts), p, q, m.next, Exec(env, fuel, env.funcs[g], b, rest, a, o, m),
                    Exec(env', fuel, env'.funcs[g], b', PruneInstrs(cuts[g].dead, rest), a', o', m'))
    decreases fuel, 3 * |rest| - 1
  {
    hide Pruned, FunctionPruned, Together, Step, Decode, CallFn, Goto, BlockMap, Inside, Dead, PruneInstrs, NotRead,
         MemRel, RegsRel, ValRel, Grows, NewAbove, ValsRel;
    SideFacts(env, env', cuts, g, b, rest);
    var d := cuts[g].dead;
    PruneUnfolds(d, rest);
    KindOf(rest[0], a);
    CallOnly(rest[0]);
    var x, x' := Decode(rest[0], a), Decode(rest[0], a');
    MemOf(d, p, a, a', o, o', m, m');
    var z := CallPruned(env, env', cuts, fuel, x.callee, p, x.args, x'.args, m, m');
    InvokeOut(env', fuel, env'.funcs[g], b', PruneInstrs(d, rest), a', o', m');
    q := z;
    var r, r' := CallFn(env, fuel, x.callee, x.args, m), CallFn(env', fuel, x.callee, x'.args, m');
    if r.Done? {
      var s, s' := Receive(a, rest[0].dest, r.v), Receive(a', rest[0].dest, r'.v);
      AfterCall(d, p, z, a, a', o, o', m, m', rest[0].dest, r.v, r'.v, r.m, r'.m);
      q := RunsPruned(env, env', cuts, fuel, g, b, b', rest[1..], z, s, s', o, o', r.m, r'.m);
      MatchesGrows(Quiet(env, cuts), p, z, q, m.next, r.m.next, Exec(env, fuel, env.funcs[g], b, rest[1..], s, o, r.m),
                   Exec(env', fuel, env'.funcs[g], b', PruneInstrs(d, rest[1..]), s', o', r'.m));
    }
  }

  lemma CallOnly(ins: Instr)
    requires ins.op.Call?
    ensures !ins.op.IsTerminator()
  {}

  lemma MemOf(d: set<Name>, p: Slotmap, a: Regs, a': Regs, o: set<nat>, o': set<nat>, m: Mem, m': Mem)
    requires Together(d, p, a, a', o, o', m, m')
    ensures MemRel(p, m, m')
  {}

  lemma AfterCall(d: set<Name>, p: Slotmap, z: Slotmap, a: Regs, a': Regs, o: set<nat>, o': set<nat>, m: Mem, m': Mem,
                  dest: Option<Name>, v: Val, v': Val, m1: Mem, m1': Mem)
    requires Together(d, p, a, a', o, o', m, m') && Grows(p, z) && NewAbove(p, z, m.next) && m.next <= m1.next
    requires ValRel(z, v, v') && MemRel(z, m1, m1')
    ensures Together(d, z, Receive(a, dest, v), Receive(a', dest, v'), o, o', m1, m1')
  {
    hide MemRel, RegsRel, Grows, NewAbove;
    RegsGrow(d, p, z, a, a');
    ImageStays(p, z, o, m.next);
    if dest.Some? { DefineRel(d, z, a, a', dest.value, v, v'); }
  }

  lemma {:induction false} BindRel(d: set<Name>, p: Slotmap, params: seq<Name>, vs: seq<Val>, vs': seq<Val>)
    requires ValsRel(p, vs, vs')
    ensures RegsRel(d, p, Bind(params, vs), Bind(params, vs'))
  {
    if params != [] && vs != [] {
      var n := if |params| < |vs| then |params| else |vs|;
      BindRel(d, p, params[..n - 1], vs[..n - 1], vs'[..n - 1]);
      DefineRel(d, p, Bind(params[..n - 1], vs[..n - 1]), Bind(params[..n - 1], vs'[..n - 1]), params[n - 1],
          vs[n - 1], vs'[n - 1]);
    }
  }

  /** A call in the pruned program. */
  lemma {:induction false} CallPruned(env: Env, env': Env, cuts: map<Name, Cut>, fuel: nat, g: Name, p: Slotmap,
                                      args: seq<Val>, args': seq<Val>, m: Mem, m': Mem)
      returns (q: Slotmap)
    requires MemRel(p, m, m') && ValsRel(p, args, args')
    requires Pruned(env, env', cuts)
    ensures Matches(Quiet(env, cuts), p, q, m.next, CallFn(env, fuel, g, args, m), CallFn(env', fuel, g, args', m'))
    decreases fuel, 0
  {
    hide Pruned, Together, Matches, Inside, PruneInstrs, Exec, Function.GoodCfg, MemRel, Bind, ValsRel, PruneBlocks,
         BlockOk;
    q := p;
    EnvsAlike(env, env', cuts);
    SameOutput(p, m, m');
    if fuel == 0 {
      FuelMatches(Quiet(env, cuts), p, m.next, m.out);
    } else if g !in env.funcs || env.funcs[g].blocks == [] {
      CallOutGrows(env', fuel, g, args', m');
      FailMatches(Quiet(env, cuts), p, m.next, m.out, CallFn(env', fuel, g, args', m'));
    } else {
      UsePruned(env, env', cuts, g);
      var f := env.funcs[g];
      var b, d := f.blocks[0], cuts[g].dead;
      PruneFirst(cuts[g].live, d, f.blocks);
      InsideEntry(cuts[g].live, f);
      BindRel(d, p, f.params, args, args');
      StartTogether(d, p, Bind(f.params, args), Bind(f.params, args'), m, m');
      q := RunsPruned(env, env', cuts, fuel - 1, g, b, env'.funcs[g].blocks[0], b.instrs, p, Bind(f.params, args),
                      Bind(f.params, args'), {}, {}, m, m');
    }
  }

  lemma SameOutput(p: Slotmap, m: Mem, m': Mem)
    requires MemRel(p, m, m')
    ensures m'.out == m.out
  {}

  lemma StartTogether(d: set<Name>, p: Slotmap, a: Regs, a': Regs, m: Mem, m': Mem)
    requires RegsRel(d, p, a, a') && MemRel(p, m, m')
    ensures Together(d, p, a, a', {}, {}, m, m')
  {
    assert Image(p, {}) == {};
  }
}
