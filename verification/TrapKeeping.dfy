/** Which definitions dead-code elimination removes, which of them can trap, and when every
    trap is kept. */
module TrapKeeping {
  import opened Cir
  import opened Arith
  import opened Interp
  import opened Graphs
  import opened FlowGraph
  import opened Passes
  import opened Narrowing
  import opened Renaming
  import opened Pruning
  import opened PruningProof
  import opened Dce
  import opened Elimination

  // ----- operations that can trap -----

  /** Some removable instruction with this operation traps in some state. */
  ghost predicate TrapsSomewhere(op: Op) {
    exists env: Env, ins: Instr, regs: Regs, owned: set<nat>, m: Mem ::
      ins.op == op && Removable(ins) && Step(env, ins, regs, owned, m).StepTraps?
  }

  const NO_FLOATS := Floats(Float(0), (o, x, y) => x, x => x, (p, x, y) => false, i => Float(0), (x, ty) => None,
      x => false)

  /** An instruction with this operation, and a state in which it traps: a divisor of 0, an index
      outside its slot, a float outside the integers. */
  function Witness(op: Op): Instr {
    var args := if op.Gep? then [Reg(Name("p"), Ptr), ConstInt(0, I32)] else if op.Conv? then [ConstFloat(Float(0))]
        else [ConstInt(1, I32), ConstInt(0, I32)];
    Instr(op, I32, Some(Name("t")), args)
  }

  function EmptySlot(): Mem {
    Mem(map[], map[0 := []], 1, [])
  }

  lemma WitnessTraps(op: Op)
    requires CanTrap(op)
    ensures Removable(Witness(op))
    ensures Step(Env(NO_FLOATS, map[], false, false), Witness(op), map[Name("p") := VPtr(0, 0)], {},
        EmptySlot()).StepTraps?
  {
    hide Wrap, OperandVals, Bits, Compare;
    var ins, regs := Witness(op), map[Name("p") := VPtr(0, 0)];
    assert ins.args[..Arity(op)] == ins.args;
    if op.Conv? { OneValue(regs, ins.args); } else { TwoValues(regs, ins.args); }
    WrapZero();
  }

  lemma WrapZero()
    ensures Wrap(0, I32) == 0
  {}

  /** Among removable instructions exactly divisions, remainders, address computations and
      conversions to integer can trap. */
  lemma RemovableTraps(op: Op)
    ensures TrapsSomewhere(op) <==> CanTrap(op)
  {
    hide Step, CanTrap, Removable;
    if TrapsSomewhere(op) {
      var env: Env, ins: Instr, regs: Regs, owned: set<nat>, m: Mem :|
        ins.op == op && Removable(ins) && Step(env, ins, regs, owned, m).StepTraps?;
      TrapsOnlyIfCan(env, ins, regs, owned, m);
    }
    if CanTrap(op) {
      WitnessTraps(op);
      assert Witness(op).op == op;
    }
  }

  // ----- what is removed -----

  /** In some block with this label, `ins` is still there. */
  ghost predicate StaysIn(f: Function, l: Label, ins: Instr) {
    exists b :: b in f.blocks && b.id == l && ins in b.instrs
  }

  ghost predicate IsSupported(f: Function, r: Name)
    requires f.blocks != []
  {
    exists rs: set<Name> :: Supported(f, rs) && r in rs
  }

  /** The registers the cleaned function still defines removably support each other. */
  ghost function StillDefined(f: Function): set<Name> {
    set b, i | b in f.blocks && i in b.instrs && Removable(i) :: i.dest.value
  }

  lemma CleanSupports(f: Function, f': Function, live: set<Label>, d: set<Name>)
    requires Good(f) && PrunesTo(f, f', live, d) && Good(f') && Clean(f') && Narrowed(f, f')
    ensures Supported(f, StillDefined(f'))
  {
    hide Function.GoodCfg, Reachable, PruneOk, Spares, Narrowed, PruneBlocks;
    var rs := StillDefined(f');
    forall r | r in rs ensures HasReader(f, rs, r) {
      assert r in UsedRegs(f') by { assert r !in Unused(f'); }
      var b', ins, x :| b' in f'.blocks && ins in b'.instrs && x in ins.args && x.Reg? && x.name == r;
      var o := PrunedMember(live, d, f, b', ins);
      OwnerReachable(f, f', live, d, b', ins, rs, r);
    }
  }

  lemma OwnerReachable(f: Function, f': Function, live: set<Label>, d: set<Name>, b': BasicBlock, ins: Instr,
                       rs: set<Name>, r: Name)
    requires Good(f) && f' == Prune(live, d, f) && f'.blocks != [] && Narrowed(f, f') && b' in f'.blocks
        && ins in b'.instrs && Reads(ins, r)
    requires Reachable(GraphOf(f'), b'.id) && rs == StillDefined(f')
    ensures HasReader(f, rs, r)
  {
    hide Function.GoodCfg, Reachable, Narrowed, PruneBlocks;
    PrunedBlock(live, d, f.blocks, b');
    var o :| o in f.blocks && o.id in live && b' == PruneBlock(d, o);
    PruneId(d, o);
    PrunedInstr(d, o.instrs, ins);
    ReachableWidens(f, f', b'.id);
    assert ReaderIn(f, rs, r, o, ins);
  }

  /** A removable definition that control can reach stays exactly when it is supported. */
  lemma EliminationExact(f: Function, f': Function, b: BasicBlock, ins: Instr)
    requires Eliminated(f, f') && Good(f') && Clean(f')
    requires b in f.blocks && Reachable(GraphOf(f), b.id) && ins in b.instrs && Removable(ins)
    ensures StaysIn(f', b.id, ins) <==> IsSupported(f, ins.dest.value)
  {
    hide Function.GoodCfg, Reachable, PruneOk, PruneBlocks, Clean, Supported, Narrowed;
    EliminationNarrows(f, f');
    var live, d :| PrunesTo(f, f', live, d);
    ReachableLive(live, d, f, b.id);
    if IsSupported(f, ins.dest.value) {
      var rs: set<Name> :| Supported(f, rs) && ins.dest.value in rs;
      assert rs !! d;
      PrunedBlock(live, d, f.blocks, b);
      PruneId(d, b);
      PrunedInstr(d, b.instrs, ins);
      assert PruneBlock(d, b) in f'.blocks;
    }
    if StaysIn(f', b.id, ins) {
      var b' :| b' in f'.blocks && b'.id == b.id && ins in b'.instrs;
      assert ins.dest.value in StillDefined(f');
      CleanSupports(f, f', live, d);
    }
  }

  // ----- traps kept -----

  /** Every definition control can reach that can trap is supported: a condition on the text. */
  ghost predicate TrapsSupported(f: Function) {
    f.blocks != [] && forall b, ins :: b in f.blocks && ins in b.instrs ==> TrapSupported(f, b, ins)
  }

  ghost predicate TrapSupported(f: Function, b: BasicBlock, ins: Instr)
    requires f.blocks != []
  {
    Reachable(GraphOf(f), b.id) && Removable(ins) && CanTrap(ins.op) ==> IsSupported(f, ins.dest.value)
  }

  ghost predicate TrapStays(f: Function, f': Function, b: BasicBlock, ins: Instr)
    requires f.blocks != []
  {
    Reachable(GraphOf(f), b.id) && Removable(ins) && CanTrap(ins.op) ==> StaysIn(f', b.id, ins)
  }

  /** The condition is exact for what is removed. */
  lemma SupportedIffKept(f: Function, f': Function)
    requires Eliminated(f, f') && Good(f') && Clean(f')
    ensures TrapsSupported(f) <==> forall b, ins :: b in f.blocks && ins in b.instrs ==> TrapStays(f, f', b, ins)
  {
    hide Function.GoodCfg, Reachable, Clean, IsSupported, StaysIn, Removable, CanTrap, PrunesTo;
    forall b, ins | b in f.blocks && ins in b.instrs ensures TrapStays(f, f', b, ins) <==> TrapSupported(f, b, ins) {
      if Reachable(GraphOf(f), b.id) && Removable(ins) { EliminationExact(f, f', b, ins); }
    }
  }

  lemma QuietFrom(f: Function, f': Function, live: set<Label>, d: set<Name>)
    requires Good(f) && PrunesTo(f, f', live, d) && Good(f') && Clean(f') && Narrowed(f, f') && TrapsSupported(f)
    ensures QuietCut(f, live, d)
  {
    hide Function.GoodCfg, Reachable, PruneOk, Prune, Clean, Supported, Narrowed, CanTrap;
    CleanIsReachable(live, d, f);
    forall b, ins | b in f.blocks && b.id in live && ins in b.instrs && Dead(d, ins) ensures !CanTrap(ins.op) {
      LiveIsReachable(live, f, b);
      assert TrapSupported(f, b, ins);
      forall rs: set<Name> | Supported(f, rs) ensures ins.dest.value !in rs {}
    }
  }

  ghost predicate Cleaned(env: Env, env': Env, g: Name) {
    g in env.funcs && g in env'.funcs && Good(env'.funcs[g]) && Clean(env'.funcs[g]) && TrapsSupported(env.funcs[g])
  }

  lemma FunctionQuiet(env: Env, env': Env, cuts: map<Name, Cut>, g: Name)
    requires AllEliminated(env, env') && Cleaned(env, env', g) && CutFits(env, env', cuts, g)
    ensures QuietCut(env.funcs[g], cuts[g].live, cuts[g].dead)
  {
    hide PrunesTo, Clean, TrapsSupported, QuietCut, Narrowed, Function.GoodCfg;
    assert FunctionEliminated(env, env', g);
    EliminationNarrows(env.funcs[g], env'.funcs[g]);
    QuietFrom(env.funcs[g], env'.funcs[g], cuts[g].live, cuts[g].dead);
  }

  /** Where every definition that can trap is supported, elimination keeps traps as well: a run
      traps with some output exactly when the smaller program traps with it. */
  lemma EliminationKeepsTraps(env: Env, env': Env, fuel: nat, globs: map<Name, Val>, entry: Name, args: seq<Val>)
    requires AllEliminated(env, env') && NoPointers(args) && NoPointerGlobals(globs)
    requires forall g :: g in env.funcs ==> Cleaned(env, env', g)
    ensures var r, r' := RunProgram(env, fuel, globs, entry, args), RunProgram(env', fuel, globs, entry, args);
            KeepsRun(r, r') && (r.Trapped? ==> r' == r) && (!r.Failed? ==> (r'.Trapped? <==> r.Trapped?))
  {
    hide AllEliminated, Pruned, CallFn, TrapsSupported, Clean, Good;
    var cuts := EliminatedPruned(env, env');
    forall g | g in env.funcs && g in cuts ensures QuietCut(env.funcs[g], cuts[g].live, cuts[g].dead) {
      assert Cleaned(env, env', g);
      FunctionQuiet(env, env', cuts, g);
    }
    var m := Mem(globs, map[], 0, []);
    assert MemRel(map[], m, m) && ValsRel(map[], args, args);
    var q := CallPruned(env, env', cuts, fuel, entry, map[], args, args, m, m);
    MatchesKeeps(Quiet(env, cuts), q, CallFn(env, fuel, entry, args, m), CallFn(env', fuel, entry, args, m));
  }
}
