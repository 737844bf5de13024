/** From declarations to optimised functions, to bytecode and to nested regions: what each
    stage leaves is what the next one asks for, and the bytecode at the end shows what the
    functions as built do. */
module Compiler {
  import opened Cir
  import opened Arith
  import opened Interp
  import opened Checks
  import opened Cfg
  import opened Graphs
  import opened FlowGraph
  import opened TypedFunctions
  import opened Passes
  import TextOrder
  import opened Provenance
  import opened Narrowing
  import opened Discipline
  import opened ConstFold
  import opened Dce
  import opened Pipeline
  import opened StackVm
  import opened PeepholeProof
  import opened PeepholeCorrect
  import opened NaiveProof
  import opened BytecodeProof
  import opened EndToEnd
  import opened FloatSlots
  import opened Lowering
  import opened MiniLang
  import opened BuilderData
  import opened BuilderNames
  import opened BuilderStages
  import opened Builder
  import opened Building
  import Structurer
  import Structuring
  import StructuredRun
  import StructurerShape

  // ----- every function of a program -----

  ghost predicate BuiltFromOne(decls: seq<FnDecl>, types: Typing, g: Name, f: Function) {
    exists k :: 0 <= k < |decls| && Name(decls[k].name) == g && Built(decls[k], types, f)
  }

  ghost predicate AllBuilt(decls: seq<FnDecl>, types: map<Name, Typing>, funcs: map<Name, Function>) {
    && funcs.Keys == (set d | d in decls :: Name(d.name))
    && forall g :: g in funcs ==> g in types && BuiltFromOne(decls, types[g], g, funcs[g])
  }

  /** Build every function; of several with one name the last stays. */
  method BuildAll(fl: Floats, decls: seq<FnDecl>, sigs: map<string, Sig>, globals: map<string, Var>)
    returns (r: Lowered<map<Name, Function>>, ghost types: map<Name, Typing>)
    requires forall x ::
        x in globals ==> globals[x].InMemory? && globals[x].addr.GlobalRef? && globals[x].arrayLen.None?
    ensures r.Lowered? ==> r.value.Keys == set d | d in decls :: Name(d.name)
    ensures r.Lowered? ==> AllBuilt(decls, types, r.value)
  {
    hide Built;
    var funcs: map<Name, Function> := map[];
    types := map[];
    for n := 0 to |decls|
      invariant AllBuilt(decls[..n], types, funcs)
    {
      var f, ty := BuildFunction(fl, decls[n], sigs, globals);
      if f.Error? { return Error(f.code), types; }
      var g := Name(decls[n].name);
      BuiltMore(decls, n, types, funcs, ty, f.value);
      funcs, types := funcs[g := f.value], types[g := ty];
    }
    assert decls[..|decls|] == decls;
    r := Lowered(funcs);
  }

  lemma BuiltMore(decls: seq<FnDecl>, n: nat, types: map<Name, Typing>, funcs: map<Name, Function>, ty: Typing,
                  f: Function)
    requires n < |decls| && AllBuilt(decls[..n], types, funcs) && Built(decls[n], ty, f)
    ensures var g := Name(decls[n].name); AllBuilt(decls[..n + 1], types[g := ty], funcs[g := f])
  {
    hide Built;
    var g := Name(decls[n].name);
    var types', funcs' := types[g := ty], funcs[g := f];
    assert decls[..n + 1] == decls[..n] + [decls[n]];
    forall h | h in funcs' ensures h in types' && BuiltFromOne(decls[..n + 1], types'[h], h, funcs'[h]) {
      if h == g {
        assert decls[..n + 1][n] == decls[n];
      } else {
        var k :| 0 <= k < n && Name(decls[..n][k].name) == h && Built(decls[..n][k], types[h], funcs[h]);
        assert decls[..n + 1][k] == decls[..n][k];
      }
    }
  }

  // ----- what each stage leaves is what the next asks for -----

  ghost predicate AllClean(decls: seq<FnDecl>) {
    forall k :: 0 <= k < |decls| ==> CleanDecl(decls[k])
  }

  ghost predicate AllNumeric(funcs: map<Name, Function>) {
    forall g :: g in funcs ==> Numeric(funcs[g])
  }

  /** Structuring cannot fail on it. */
  ghost predicate Structurable(f: Function) {
    f.GoodCfg() && f.ConditionsGiven() && Reducible(GraphOf(f))
  }

  ghost predicate AllStructurable(funcs: map<Name, Function>) {
    forall g :: g in funcs ==> Structurable(funcs[g])
  }

  lemma BuiltStructurable(decl: FnDecl, types: Typing, f: Function)
    requires Built(decl, types, f)
    ensures Structurable(f)
  {
    hide SoundCfg, Function.GoodCfg, Reducible, Function.ConditionsGiven, GraphOf;
  }

  lemma BuiltReady(decls: seq<FnDecl>, types: map<Name, Typing>, funcs: map<Name, Function>)
    requires AllBuilt(decls, types, funcs)
    ensures AllStructurable(funcs)
    ensures AllClean(decls) && AllNumeric(funcs) ==> AllOptimisable(types, funcs) && AllLowerable(funcs)
  {
    hide Built, Structurable, Numeric, CleanDecl, Optimisable, Lowerable;
    forall g | g in funcs
      ensures Structurable(funcs[g])
      ensures AllClean(decls) && AllNumeric(funcs) ==> Optimisable(types[g], funcs[g]) && Lowerable(funcs[g]) {
      var k :| 0 <= k < |decls| && Name(decls[k].name) == g && Built(decls[k], types[g], funcs[g]);
      BuiltStructurable(decls[k], types[g], funcs[g]);
      if AllClean(decls) && AllNumeric(funcs) { BuiltIsReady(decls[k], types[g], funcs[g]); }
    }
  }

  /** `funcs'` is what the optimiser made of `funcs`. */
  ghost predicate Optimised(types: map<Name, Typing>, funcs: map<Name, Function>, funcs': map<Name, Function>) {
    && funcs'.Keys == funcs.Keys && AllOptimisable(types, funcs')
    && forall g :: g in funcs ==> Narrowed(funcs[g], funcs'[g]) && MadeFrom(funcs[g], funcs'[g])
  }

  lemma OptimisableOrdered(types: Typing, f: Function)
    requires Optimisable(types, f)
    ensures Good(f) && TextOrder.TextOrdered(f)
  {}

  /** Optimised functions can be lowered and structured like the ones they were made from. */
  lemma OptimisedReady(types: map<Name, Typing>, funcs: map<Name, Function>, funcs': map<Name, Function>)
    requires Optimised(types, funcs, funcs') && AllLowerable(funcs) && AllStructurable(funcs)
    ensures AllLowerable(funcs') && AllStructurable(funcs')
  {
    hide Optimisable, Lowerable, Narrowed, MadeFrom, Function.GoodCfg, Function.ConditionsGiven, Reducible,
         TextOrder.TextOrdered, GraphOf;
    forall g | g in funcs' ensures Lowerable(funcs'[g]) && Structurable(funcs'[g]) {
      var f, f' := funcs[g], funcs'[g];
      OptimisableOrdered(types[g], f');
      assert Structurable(f);
      StaysLowerable(f, f');
      LowerableConditions(f');
      NarrowedHas(f, f');
      NarrowedKeepsReducible(f, f');
    }
  }

  lemma NarrowedHas(f: Function, f': Function)
    requires Narrowed(f, f')
    ensures f.blocks != [] && f'.blocks != []
  {}

  /** Optimise what was built. */
  method OptimiseBuilt(fl: Floats, ghost decls: seq<FnDecl>, ghost types: map<Name, Typing>, funcs: map<Name, Function>,
                       order: seq<Name>, level: int) returns (res: map<Name, Function>)
    requires AllBuilt(decls, types, funcs) && AllClean(decls) && AllNumeric(funcs)
    requires forall k :: 0 <= k < |order| ==> order[k] in funcs
    ensures level <= 0 ==> res == funcs
    ensures Optimised(types, funcs, res) && RunsKept(fl, funcs, res) && AllLowerable(res) && AllStructurable(res)
    ensures Emitting(res) && Faithful(fl, funcs, res)
  {
    hide AllBuilt, AllClean, AllNumeric, AllOptimisable, AllLowerable, AllStructurable, RunsKept, Narrowed, MadeFrom,
         Emitting, Faithful;
    BuiltReady(decls, types, funcs);
    res := OptimiseModule(fl, types, funcs, order, level);
    OptimisedReady(types, funcs, res);
    KeptIsFaithful(fl, funcs, res);
  }

  /** The regions of `f`: the same paths, every branch to an enclosing region, every reachable block once. */
  ghost predicate RegionsOf(f: Function, nodes: seq<Structurer.Node>)
    requires f.blocks != []
  {
    && (forall oracle: StructuredRun.Oracle, k: nat :: Structuring.SameRun(f, nodes, oracle, k))
    && StructurerShape.Scoped(nodes, {}, {})
    && forall l :: StructurerShape.Emitted(nodes, l) == if Reachable(GraphOf(f), l) then 1 else 0
  }

  /** Structuring what the optimiser leaves always succeeds. */
  method StructureBuilt(f: Function) returns (nodes: seq<Structurer.Node>)
    requires Structurable(f)
    ensures f.blocks != [] && RegionsOf(f, nodes)
  {
    hide Reducible, Reachable, Structuring.SameRun, StructurerShape.Scoped, StructurerShape.Emitted;
    HasText(f);
    var r := Structuring.Structure(f);
    nodes := r.nodes;
  }

  // ----- from the functions as built to the bytecode -----

  /** What a run of the bytecode shows of a run of the functions as built: a result with all its
      output and the globals it leaves, or at least the output so far. */
  ghost predicate Shows(r: Outcome, x: Outcome) {
    if r.Done? then x.Done? && x.Out() == r.Out() && (!r.v.VPtr? ==> x.v == r.v) && SameGlobals(r.m.globs, x.m.globs)
    else r.Out() <= x.Out()
  }

  lemma NumbersOnly(gs: seq<Global>, args: seq<Val>)
    requires Numbers(args)
    ensures NoPointers(args) && NoPointerGlobals(InterpGlobals(gs))
  {
    hide InterpGlobals;
    forall g | g in InterpGlobals(gs) ensures !InterpGlobals(gs)[g].VPtr? { GlobalsAreNumbers(gs, g); }
  }

  /** A run of the functions as built with every check of the interpreter on, from globals that start
      alike and called with numbers, never traps and fails none of the checks. */
  ghost predicate Steady(env: Env, gs: seq<Global>, entry: Name, args: seq<Val>) {
    && env.checkRanges && env.checkWritten && PlainGlobals(gs) && Numbers(args)
    && forall n: nat :: RunsOn(RunProgram(env, n, InterpGlobals(gs), entry, args))
  }

  predicate RunsOn(r: Outcome) {
    r.Done? || r.OutOfFuel?
  }

  /** What the optimiser keeps of a steady run: optimised and without the checks, it neither fails nor traps. */
  lemma SteadyStays(env: Env, res: map<Name, Function>, gs: seq<Global>, fuel: nat, entry: Name, args: seq<Val>)
    requires RunsKept(env.fl, env.funcs, res) && Steady(env, gs, entry, args)
    ensures var env' := env.(funcs := res);
            && KeepsRun(RunProgram(env, fuel, InterpGlobals(gs), entry, args), Interpreted(env', gs, fuel, entry, args))
            && RunsOn(Interpreted(env', gs, fuel, entry, args))
            && RunsOn(CallFn(Watched(env'), fuel, entry, args, Blank(gs)))
  {
    hide InterpGlobals, CallFn, PlainGlobals, SameGlobals;
    var env' := env.(funcs := res);
    NumbersOnly(gs, args);
    assert KeptRun(env, res, fuel, InterpGlobals(gs), entry, args);
    assert RunsOn(RunProgram(env, fuel, InterpGlobals(gs), entry, args));
    CallChecks(env', Unchecked(env'), fuel, entry, args, Blank(gs));
    CallChecks(env', Watched(env'), fuel, entry, args, Blank(gs));
  }

  /** The functions as optimised meet the conditions of the bytecode emitter. */
  lemma OptimisedIsSound(env: Env, res: map<Name, Function>, gs: seq<Global>, entry: Name, args: seq<Val>)
    requires RunsKept(env.fl, env.funcs, res) && AllLowerable(res) && Steady(env, gs, entry, args)
    ensures Sound(env.(funcs := res), gs, entry, args)
  {
    hide RunsKept, AllLowerable, PlainGlobals, Numbers, CallFn, Interpreted, KeepsRun, RunProgram, InterpGlobals;
    var env' := env.(funcs := res);
    forall fuel: nat
      ensures !Interpreted(env', gs, fuel, entry, args).Failed?
      ensures !CallFn(Watched(env'), fuel, entry, args, Blank(gs)).Failed? {
      SteadyStays(env, res, gs, fuel, entry, args);
    }
  }

  /** Everything a steady run of the functions as built does, the bytecode of the optimised functions does. */
  lemma CompiledKeepsUp(env: Env, res: map<Name, Function>, gs: seq<Global>, fuel: nat, entry: Name, args: seq<Val>)
      returns (more: nat)
    requires RunsKept(env.fl, env.funcs, res) && AllLowerable(res) && Steady(env, gs, entry, args)
    ensures Emitting(res)
    ensures Shows(RunProgram(env, fuel, InterpGlobals(gs), entry, args),
        Executed(env.(funcs := res), gs, more, entry, args))
  {
    hide Executed, Emitting, InterpGlobals, RunProgram, AllLowerable, Sound, RunsKept, Steady, KeepsRun, Interpreted;
    var env' := env.(funcs := res);
    OptimisedIsSound(env, res, gs, entry, args);
    SteadyStays(env, res, gs, fuel, entry, args);
    more := BytecodeReaches(env', gs, fuel, entry, args);
    Chained(RunProgram(env, fuel, InterpGlobals(gs), entry, args), Interpreted(env', gs, fuel, entry, args),
        Interpreted(env', gs, fuel, entry, args), Executed(env', gs, more, entry, args));
  }

  lemma Chained(r: Outcome, r1: Outcome, r2: Outcome, x: Outcome)
    requires KeepsRun(r, r1) && Unless(r1, r2) && Interp.Extends(EraseOut(r2), x)
    ensures Shows(r, x)
  {}

  /** ... and the bytecode does nothing else. */
  lemma CompiledAddsNothing(env: Env, res: map<Name, Function>, gs: seq<Global>, fuel: nat, entry: Name, args: seq<Val>)
      returns (more: nat)
    requires RunsKept(env.fl, env.funcs, res) && AllLowerable(res) && Steady(env, gs, entry, args)
    ensures Emitting(res)
    ensures Adds(RunProgram(env, more, InterpGlobals(gs), entry, args),
        Executed(env.(funcs := res), gs, fuel, entry, args))
  {
    hide Executed, Emitting, InterpGlobals, RunProgram, AllLowerable, Sound, RunsKept, KeepsRun, Interpreted;
    var env' := env.(funcs := res);
    OptimisedIsSound(env, res, gs, entry, args);
    more := BytecodeAddsNothing(env', gs, fuel, entry, args);
    SteadyStays(env, res, gs, more, entry, args);
    assert RunsOn(RunProgram(env, more, InterpGlobals(gs), entry, args));
    ChainedBack(RunProgram(env, more, InterpGlobals(gs), entry, args), Interpreted(env', gs, more, entry, args),
        Executed(env', gs, fuel, entry, args));
  }

  /** The bytecode printed no more, and what it returned is what was returned. */
  ghost predicate Adds(r: Outcome, x: Outcome) {
    x.Out() <= r.Out() && (x.OutOfFuel? || (r.Done? && Shows(r, x)))
  }

  lemma ChainedBack(r: Outcome, r1: Outcome, x: Outcome)
    requires KeepsRun(r, r1) && Interp.Extends(x, EraseOut(r1)) && RunsOn(r)
    ensures Adds(r, x)
  {}

  /** For a run that may trap: the bytecode shows what comes before, under the emitter's own conditions. */
  lemma TrappingKeepsUp(env: Env, res: map<Name, Function>, gs: seq<Global>, fuel: nat, entry: Name, args: seq<Val>)
      returns (more: nat)
    requires env.checkRanges && RunsKept(env.fl, env.funcs, res) && Sound(env.(funcs := res), gs, entry, args)
    ensures Emitting(res)
    ensures Shows(RunProgram(env, fuel, InterpGlobals(gs), entry, args),
        Executed(env.(funcs := res), gs, more, entry, args))
  {
    hide Executed, Emitting, InterpGlobals, CallFn, AllLowerable, AllFloatsStored, PlainGlobals, KeepsRun;
    var env' := env.(funcs := res);
    NumbersOnly(gs, args);
    assert KeptRun(env, res, fuel, InterpGlobals(gs), entry, args);
    CallChecks(env', Unchecked(env'), fuel, entry, args, Blank(gs));
    more := BytecodeReaches(env', gs, fuel, entry, args);
    Chained(RunProgram(env, fuel, InterpGlobals(gs), entry, args),
        RunProgram(env', fuel, InterpGlobals(gs), entry, args),
            RunProgram(Unchecked(env'), fuel, InterpGlobals(gs), entry, args), Executed(env', gs, more, entry, args));
  }

  /** If this run of the functions as built is steady, the bytecode of `res` does the same and nothing else. */
  ghost predicate Follows(fl: Floats, funcs: map<Name, Function>, res: map<Name, Function>, gs: seq<Global>, fuel: nat,
                          entry: Name, args: seq<Val>)
    requires Emitting(res)
  {
    var env, env' := Env(fl, funcs, true, true), Env(fl, res, true, true);
    Steady(env, gs, entry, args) ==>
      && (exists more: nat ::
            Shows(RunProgram(env, fuel, InterpGlobals(gs), entry, args), Executed(env', gs, more, entry, args)))
      && exists more: nat ::
            Adds(RunProgram(env, more, InterpGlobals(gs), entry, args), Executed(env', gs, fuel, entry, args))
  }

  ghost predicate Faithful(fl: Floats, funcs: map<Name, Function>, res: map<Name, Function>)
    requires Emitting(res)
  {
    forall gs, fuel: nat, entry, args :: Follows(fl, funcs, res, gs, fuel, entry, args)
  }

  lemma KeptIsFaithful(fl: Floats, funcs: map<Name, Function>, res: map<Name, Function>)
    requires RunsKept(fl, funcs, res) && AllLowerable(res)
    ensures Emitting(res) && Faithful(fl, funcs, res)
  {
    hide Emitting, RunsKept, AllLowerable, Follows;
    LowerableEmits(fl, res);
    forall gs, fuel: nat, entry, args ensures Follows(fl, funcs, res, gs, fuel, entry, args) {
      KeptFollows(fl, funcs, res, gs, fuel, entry, args);
    }
  }

  lemma KeptFollows(fl: Floats, funcs: map<Name, Function>, res: map<Name, Function>, gs: seq<Global>, fuel: nat,
                    entry: Name, args: seq<Val>)
    requires RunsKept(fl, funcs, res) && AllLowerable(res) && Emitting(res)
    ensures Follows(fl, funcs, res, gs, fuel, entry, args)
  {
    hide Executed, Emitting, InterpGlobals, RunProgram, RunsKept, AllLowerable, Steady, Shows, Adds;
    var env := Env(fl, funcs, true, true);
    if Steady(env, gs, entry, args) {
      assert env.(funcs := res) == Env(fl, res, true, true);
      var n := CompiledKeepsUp(env, res, gs, fuel, entry, args);
      var m := CompiledAddsNothing(env, res, gs, fuel, entry, args);
    }
  }

  lemma LowerableEmits(fl: Floats, res: map<Name, Function>)
    requires AllLowerable(res)
    ensures Emitting(res)
  {
    hide Lowerable, Emitting;
    CompilableEmits(Env(fl, res, false, true));
  }
}
