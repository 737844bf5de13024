/** The pass pipeline: rounds of constant folding, copy propagation and dead-code
    elimination, and what they keep of every run of a program. */
module Pipeline {
  import opened Cir
  import opened Arith
  import opened Interp
  import opened SubstitutionProof
  import opened FlowGraph
  import opened Definitions
  import opened TypedFunctions
  import opened Passes
  import opened Provenance
  import opened Narrowing
  import opened TextOrder
  import opened Copies
  import opened ConstFold
  import opened CopyProp
  import opened Discipline
  import opened Dce
  import opened Elimination
  import opened Walks

  /** What every pass asks of its input, and leaves. */
  ghost predicate Optimisable(types: Typing, f: Function) {
    Plain(types, f) && NoBoolExtension(f) && Disciplined(f)
  }

  lemma OptimisablePropagates(types: Typing, f: Function)
    requires Optimisable(types, f)
    ensures Propagatable(types, f)
  {
    hide Function.GoodCfg, UsesDefined, TextOrdered, TypedFunction, CountDefs, BranchesPlain, ParamsFixed,
         NoBoolExtension;
    forall b, ins | b in f.blocks && ins in b.instrs && MayCopy(ins) && CountDefs(f.blocks, ins.dest.value) == 1
      ensures SourceFixed(f, ins, 0) && SourceFixed(f, ins, 1) {}
  }

  // ----- runs kept -----

  lemma KeepsSame(r: Outcome, r': Outcome)
    requires Same(r, r')
    ensures KeepsRun(r, r')
  {}

  lemma KeepsTransitive(r: Outcome, r1: Outcome, r2: Outcome)
    requires KeepsRun(r, r1) && KeepsRun(r1, r2)
    ensures KeepsRun(r, r2)
  {}

  ghost predicate KeptBySwap(env: Env, g: Name, f: Function, fuel: nat, globs: map<Name, Val>, entry: Name,
                             args: seq<Val>) {
    KeepsRun(RunProgram(env, fuel, globs, entry, args), RunProgram(Swap(env, g, f), fuel, globs, entry, args))
  }

  /** Replacing `f` by `f'` in any program keeps its runs. */
  ghost predicate Improves(fl: Floats, f: Function, f': Function) {
    && Good(f') && f'.params == f.params
    && forall env, g, fuel: nat, globs, entry, args ::
        Hosts(env, g, f, fl, true) && NoPointers(args) && NoPointerGlobals(globs) ==>
         KeptBySwap(env, g, f', fuel, globs, entry, args)
  }

  lemma ImprovesSelf(fl: Floats, f: Function)
    requires Good(f)
    ensures Improves(fl, f, f)
  {
    PreservesSelf(fl, true, f);
    PreservesImproves(fl, true, f, f);
  }

  lemma PreservesImproves(fl: Floats, ranges: bool, f: Function, f': Function)
    requires Preserves(fl, ranges, f, f')
    ensures Improves(fl, f, f')
  {
    hide CallFn, Good, KeepsRun, Same;
    forall env, g, fuel: nat, globs, entry, args | Hosts(env, g, f, fl, true) && NoPointers(args)
        && NoPointerGlobals(globs)
      ensures KeptBySwap(env, g, f', fuel, globs, entry, args) {
      assert Hosts(env, g, f, fl, ranges);
      assert SwapSame(env, g, f', fuel, entry, args, Mem(globs, map[], 0, []));
      KeepsSame(RunProgram(env, fuel, globs, entry, args), RunProgram(Swap(env, g, f'), fuel, globs, entry, args));
    }
  }

  lemma EliminatedImproves(fl: Floats, f: Function, f': Function)
    requires Eliminated(f, f') && Good(f')
    ensures Improves(fl, f, f')
  {
    hide RunProgram, Good, KeepsRun, Eliminated;
    EliminatedParams(f, f');
    forall env, g, fuel: nat, globs, entry, args | Hosts(env, g, f, fl, true) && NoPointers(args)
        && NoPointerGlobals(globs)
      ensures KeptBySwap(env, g, f', fuel, globs, entry, args) {
      var env' := Swap(env, g, f');
      forall h | h in env.funcs ensures FunctionEliminated(env, env', h) {
        if h != g { NothingEliminated(env.funcs[h]); }
      }
      EliminationKeepsRuns(env, env', fuel, globs, entry, args);
    }
  }

  lemma EliminatedParams(f: Function, f': Function)
    requires Eliminated(f, f')
    ensures f'.params == f.params
  {}

  lemma NothingEliminated(f: Function)
    requires Good(f)
    ensures Eliminated(f, f)
  {
    hide PrunesTo;
    NothingYet(f);
    assert PrunesTo(f, f, LabelsOf(f), {});
  }

  lemma ImprovesTransitive(fl: Floats, f: Function, f1: Function, f2: Function)
    requires Improves(fl, f, f1) && Improves(fl, f1, f2)
    ensures Improves(fl, f, f2)
  {
    hide RunProgram, Good, KeepsRun;
    forall env, g, fuel: nat, globs, entry, args | Hosts(env, g, f, fl, true) && NoPointers(args)
        && NoPointerGlobals(globs)
      ensures KeptBySwap(env, g, f2, fuel, globs, entry, args) {
      var mid := Swap(env, g, f1);
      assert KeptBySwap(env, g, f1, fuel, globs, entry, args);
      assert Hosts(mid, g, f1, fl, true);
      assert KeptBySwap(mid, g, f2, fuel, globs, entry, args);
      assert Swap(mid, g, f2) == Swap(env, g, f2);
      KeepsTransitive(RunProgram(env, fuel, globs, entry, args), RunProgram(mid, fuel, globs, entry, args),
                      RunProgram(Swap(env, g, f2), fuel, globs, entry, args));
    }
  }

  // ----- one function -----

  const MAX_ROUNDS: nat := 8

  /** Passes in order until one changes something. */
  method RunRound(fl: Floats, ghost types: Typing, f: Function) returns (res: Function, changed: bool)
    requires Optimisable(types, f)
    ensures Optimisable(types, res) && Improves(fl, f, res) && Narrowed(f, res) && MadeFrom(f, res)
    ensures !changed ==> res == f && Clean(f) && forall single :: IsSingle(f, single) ==> NoCopies(f, single)
  {
    hide Plain, Disciplined, Improves, Narrowed, Preserves, Eliminated, Clean, NoCopies, Propagatable, NothingFolds,
         MadeFrom, TypedFunction, ParamsFixed, NoBoolExtension, CountDefs;
    OptimisableFolds(fl, types, f);
    res, changed := FoldFunction(fl, types, f);
    PreservesImproves(fl, false, f, res);
    if !changed {
      OptimisablePropagates(types, f);
      res, changed := PropagateFunction(fl, types, f);
      PreservesImproves(fl, true, f, res);
      PropagatedPlain(types, res);
      if !changed {
        PlainGood(types, f);
        res, changed := EliminateDead(f);
        EliminatedImproves(fl, f, res);
        EliminationNarrows(f, res);
        EliminationMade(f, res);
        PlainParts(types, f);
        EliminationKeepsDiscipline(types, f, res);
        PropagatedPlain(types, res);
      }
    }
  }

  lemma OptimisableFolds(fl: Floats, types: Typing, f: Function)
    requires Optimisable(types, f)
    ensures Foldable(fl, types, f)
  {
    hide Disciplined, TypedFunction, NoBoolExtension, NoTrueExtension, ParamsFixed, CountDefs, Good;
    forall single ensures NoTrueExtension(fl, f, single) { NoneMeansNoTrue(fl, types, f, single); }
  }

  lemma PropagatedPlain(types: Typing, f: Function)
    requires Disciplined(f) && TypedFunction(types, f) && ParamsFixed(f)
    ensures Plain(types, f)
  {}

  lemma PlainParts(types: Typing, f: Function)
    requires Plain(types, f)
    ensures TypedFunction(types, f) && ParamsFixed(f)
  {}

  /** At most eight rounds; fewer if nothing changes any more. */
  method OptimiseFunction(fl: Floats, ghost types: Typing, f: Function) returns (res: Function, settled: bool)
    requires Optimisable(types, f)
    ensures Optimisable(types, res) && Improves(fl, f, res) && Narrowed(f, res) && MadeFrom(f, res)
    ensures settled ==> Good(res) && Clean(res) && forall single :: IsSingle(res, single) ==> NoCopies(res, single)
  {
    hide Optimisable, Improves, Narrowed, Clean, NoCopies, CountDefs, MadeFrom;
    OptimisableGood(types, f);
    ImprovesSelf(fl, f);
    NarrowedSelf(f);
    MadeSelf(f);
    res, settled := f, false;
    for i := 0 to MAX_ROUNDS
      invariant Optimisable(types, res) && Improves(fl, f, res) && Narrowed(f, res) && MadeFrom(f, res)
      invariant !settled
    {
      var next, changed := RunRound(fl, types, res);
      OptimisableGood(types, res);
      if !changed {
        settled := true;
        break;
      }
      ImprovesTransitive(fl, f, res, next);
      NarrowedTransitive(f, res, next);
      MadeTransitive(f, res, next);
      res := next;
    }
  }

  lemma OptimisableGood(types: Typing, f: Function)
    requires Optimisable(types, f)
    ensures Good(f)
  {}

  // ----- a module -----

  ghost predicate AllOptimisable(types: map<Name, Typing>, funcs: map<Name, Function>) {
    forall g :: g in funcs ==> g in types && Optimisable(types[g], funcs[g])
  }

  ghost predicate KeptRun(env: Env, funcs: map<Name, Function>, fuel: nat, globs: map<Name, Val>, entry: Name,
                          args: seq<Val>) {
    KeepsRun(RunProgram(env, fuel, globs, entry, args), RunProgram(env.(funcs := funcs), fuel, globs, entry, args))
  }

  /** A program of these functions whose integers stay in the range of their types. */
  ghost predicate Runs(fl: Floats, funcs: map<Name, Function>, env: Env, globs: map<Name, Val>, args: seq<Val>) {
    env.fl == fl && env.checkRanges && env.funcs == funcs && NoPointers(args) && NoPointerGlobals(globs)
  }

  /** Whatever is run, from whatever globals and with however much fuel, is kept. */
  ghost predicate RunsKept(fl: Floats, funcs: map<Name, Function>, funcs': map<Name, Function>) {
    forall env: Env, fuel: nat, globs, entry, args ::
      Runs(fl, funcs, env, globs, args) ==>
      KeptRun(env, funcs', fuel, globs, entry, args)
  }

  lemma RunsKeptSelf(fl: Floats, funcs: map<Name, Function>)
    ensures RunsKept(fl, funcs, funcs)
  {
    hide RunProgram;
    forall env: Env, fuel: nat, globs, entry, args | Runs(fl, funcs, env, globs, args)
      ensures KeptRun(env, funcs, fuel, globs, entry, args) {
      assert env.(funcs := funcs) == env;
    }
  }

  lemma RunsKeptStep(fl: Floats, types: map<Name, Typing>, funcs: map<Name, Function>, mid: map<Name, Function>,
                     g: Name, f: Function)
    requires RunsKept(fl, funcs, mid) && AllOptimisable(types, mid) && g in mid && Improves(fl, mid[g], f)
    ensures RunsKept(fl, funcs, mid[g := f])
  {
    hide RunProgram, Good, KeepsRun, Optimisable;
    forall h | h in mid ensures Good(mid[h]) { OptimisableGood(types[h], mid[h]); }
    var next := mid[g := f];
    forall env: Env, fuel: nat, globs, entry, args | Runs(fl, funcs, env, globs, args)
      ensures KeptRun(env, next, fuel, globs, entry, args) {
      var env1 := env.(funcs := mid);
      assert KeptRun(env, mid, fuel, globs, entry, args);
      assert Hosts(env1, g, mid[g], fl, true);
      assert KeptBySwap(env1, g, f, fuel, globs, entry, args);
      assert Swap(env1, g, f) == env.(funcs := next);
      KeepsTransitive(RunProgram(env, fuel, globs, entry, args), RunProgram(env1, fuel, globs, entry, args),
                      RunProgram(env.(funcs := next), fuel, globs, entry, args));
    }
  }

  /** Optimise a module in place; level 0 does nothing. */
  method OptimiseModule(fl: Floats, ghost types: map<Name, Typing>, funcs: map<Name, Function>, order: seq<Name>,
                        level: int)
      returns (res: map<Name, Function>)
    requires AllOptimisable(types, funcs) && forall k :: 0 <= k < |order| ==> order[k] in funcs
    ensures level <= 0 ==> res == funcs
    ensures res.Keys == funcs.Keys && AllOptimisable(types, res) && RunsKept(fl, funcs, res)
    ensures forall g :: g in funcs ==> Narrowed(funcs[g], res[g]) && MadeFrom(funcs[g], res[g])
  {
    hide Optimisable, RunsKept, Improves, Narrowed, Clean, NoCopies, CountDefs, MadeFrom;
    res := funcs;
    RunsKeptSelf(fl, funcs);
    forall g | g in funcs ensures Narrowed(funcs[g], funcs[g]) && MadeFrom(funcs[g], funcs[g]) {
      OptimisableGood(types[g], funcs[g]);
      NarrowedSelf(funcs[g]);
      MadeSelf(funcs[g]);
    }
    if level <= 0 { return; }
    for i := 0 to |order|
      invariant res.Keys == funcs.Keys && AllOptimisable(types, res) && RunsKept(fl, funcs, res)
      invariant forall g :: g in funcs ==> Narrowed(funcs[g], res[g]) && MadeFrom(funcs[g], res[g])
    {
      var g := order[i];
      var f, settled := OptimiseFunction(fl, types[g], res[g]);
      RunsKeptStep(fl, types, funcs, res, g, f);
      NarrowedTransitive(funcs[g], res[g], f);
      MadeTransitive(funcs[g], res[g], f);
      res := res[g := f];
    }
  }
}
