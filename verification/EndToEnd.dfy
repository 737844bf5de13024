/** The interpreter and the emitted bytecode, whole programs. */
module EndToEnd {
  import opened Cir
  import opened Arith
  import opened Interp
  import opened Checks
  import opened Bytecode
  import opened StackVm
  import opened LowerSteps
  import opened PeepholeProof
  import opened PeepholeCorrect
  import opened NaiveProof
  import opened BytecodeProof
  import opened FloatSlots

  // ----- globals -----

  datatype Global = Global(name: Name, ty: Ty, init: Option<Operand>)

  /** Where the interpreter starts a global: its initialiser as written, or 0. */
  function InterpInit(g: Global): Val {
    match g.init
    case Some(ConstInt(v, _)) => VInt(v)
    case Some(ConstFloat(f)) => VFloat(f)
    case _ => VInt(0)
  }

  /** What the bytecode writes for it: the initialiser reduced to its type, or a zero of the global's type. */
  function EmittedInit(fl: Floats, g: Global): Val {
    match g.init
    case Some(ConstInt(v, ty)) => ConstVal(v, ty)
    case Some(ConstFloat(f)) => VFloat(f)
    case _ => if g.ty.F64? then VFloat(fl.zero) else VInt(0)
  }

  function InterpGlobals(gs: seq<Global>): map<Name, Val> {
    if gs == [] then map[] else InterpGlobals(gs[..|gs| - 1])[gs[|gs| - 1].name := InterpInit(gs[|gs| - 1])]
  }

  function EmittedGlobals(fl: Floats, gs: seq<Global>): map<Name, Val> {
    if gs == [] then map[] else EmittedGlobals(fl, gs[..|gs| - 1])[gs[|gs| - 1].name := EmittedInit(fl, gs[|gs| - 1])]
  }

  /** An integer initialiser in the range of its type, and an initialiser for every f64. */
  predicate PlainGlobal(g: Global) {
    match g.init
    case Some(ConstInt(v, ty)) => IsInt(ty) ==> InRange(v, ty)
    case Some(ConstFloat(_)) => true
    case _ => !g.ty.F64?
  }

  ghost predicate PlainGlobals(gs: seq<Global>) {
    forall k :: 0 <= k < |gs| ==> PlainGlobal(gs[k])
  }

  lemma {:induction false} GlobalsAgree(fl: Floats, gs: seq<Global>)
    requires PlainGlobals(gs)
    ensures InterpGlobals(gs) == EmittedGlobals(fl, gs) && CleanRegs(InterpGlobals(gs))
  {
    if gs != [] {
      GlobalsAgree(fl, gs[..|gs| - 1]);
      assert PlainGlobal(gs[|gs| - 1]);
    }
  }

  /** Two global tables start alike exactly when each global is plain. */
  lemma GlobalAgreesIff(fl: Floats, g: Global)
    ensures InterpInit(g) == EmittedInit(fl, g) <==> PlainGlobal(g)
  {}

  // ----- whole programs -----

  /** The same, failing at a load of an f64 element nothing was stored to. */
  function Watched(env: Env): Env {
    env.(checkRanges := false, checkWritten := true)
  }

  /** What the interpreter does with a program. */
  function Interpreted(env: Env, gs: seq<Global>, fuel: nat, entry: Name, args: seq<Val>): Outcome {
    RunProgram(Unchecked(env), fuel, InterpGlobals(gs), entry, args)
  }

  /** What the machine does with its emitted bytecode. */
  ghost function Executed(env: Env, gs: seq<Global>, fuel: nat, entry: Name, args: seq<Val>): Outcome
    requires Emitting(env.funcs)
  {
    VRunProgram(EmittedEnv(env.fl, env.funcs), fuel, EmittedGlobals(env.fl, gs), entry, args)
  }

  /** A program starts from numbers, not addresses. */
  ghost predicate Numbers(args: seq<Val>) {
    forall k :: 0 <= k < |args| ==> args[k].VInt? || args[k].VFloat?
  }

  /** What a program starts from: every function can be lowered, globals are plain, and the
      arguments are numbers. */
  ghost predicate Prepared(env: Env, gs: seq<Global>, args: seq<Val>) {
    PlainGlobals(gs) && Numbers(args) && AllLowerable(env.funcs)
  }

  function Blank(gs: seq<Global>): Mem {
    Mem(InterpGlobals(gs), map[], 0, [])
  }

  /** The run loads no f64 element that was never stored to. */
  ghost predicate ReadsStored(env: Env, gs: seq<Global>, entry: Name, args: seq<Val>) {
    forall fuel: nat :: !CallFn(Watched(env), fuel, entry, args, Blank(gs)).Failed?
  }

  /** The run never meets operands of the wrong kind, and f64 elements are stored to before they
      are loaded: by the text of the functions, or else, as with arrays, in this run. */
  ghost predicate Sound(env: Env, gs: seq<Global>, entry: Name, args: seq<Val>) {
    && Prepared(env, gs, args)
    && (forall fuel: nat :: !Interpreted(env, gs, fuel, entry, args).Failed?)
    && (AllFloatsStored(env.funcs) || ReadsStored(env, gs, entry, args))
  }

  lemma BlankErased(gs: seq<Global>)
    ensures Erase(Blank(gs)) == Blank(gs)
  {
    assert Erase(Blank(gs)).slots == map[];
  }

  lemma {:induction false} GlobalsAreNumbers(gs: seq<Global>, g: Name)
    requires g in InterpGlobals(gs)
    ensures InterpGlobals(gs)[g].VInt? || InterpGlobals(gs)[g].VFloat?
  {
    if gs != [] && gs[|gs| - 1].name != g { GlobalsAreNumbers(gs[..|gs| - 1], g); }
  }

  lemma BlankTame(gs: seq<Global>, args: seq<Val>)
    requires Numbers(args)
    ensures Tame(Blank(gs)) && SafeVals(Blank(gs), args) && CleanVals(args)
  {
    hide InterpGlobals;
    forall g | g in InterpGlobals(gs) ensures Safe(Blank(gs), InterpGlobals(gs)[g]) { GlobalsAreNumbers(gs, g); }
  }

  /** Watching for unwritten f64 elements changes no run of a sound program. */
  lemma WatchingChangesNothing(env: Env, gs: seq<Global>, fuel: nat, entry: Name, args: seq<Val>)
    requires Sound(env, gs, entry, args)
    ensures CallFn(Watched(env), fuel, entry, args, Blank(gs)) == Interpreted(env, gs, fuel, entry, args)
  {
    hide CallFn, AllLowerable, PlainGlobals, AllFloatsStored, Tame, SafeVals, Numbers, InterpGlobals;
    if AllFloatsStored(env.funcs) {
      BlankTame(gs, args);
      assert Checked(Unchecked(env), true) == Watched(env) && Checked(Unchecked(env), false) == Unchecked(env);
      CallSame(Unchecked(env), fuel, entry, args, Blank(gs));
    } else {
      assert Unchecked(Watched(env)) == Unchecked(env);
      CallChecks(Watched(env), Unchecked(env), fuel, entry, args, Blank(gs));
    }
  }

  lemma NaiveSound(env: Env, gs: seq<Global>, fuel: nat, entry: Name, args: seq<Val>)
    requires Sound(env, gs, entry, args)
    ensures Emitting(env.funcs)
    ensures !VCall(NaiveEnv(env.fl, env.funcs), fuel, entry, args, Blank(gs)).Failed?
  {
    hide Compilable, CallFn, Emitting, VCall, NaiveEnv, CleanVals, Erase, Prepared;
    SoundParts(env, gs, entry, args);
    BlankErased(gs);
    var more := CallStays(Watched(env), NaiveEnv(env.fl, env.funcs), fuel, entry, args, Blank(gs));
    WatchingChangesNothing(env, gs, more, entry, args);
  }

  lemma SoundParts(env: Env, gs: seq<Global>, entry: Name, args: seq<Val>)
    requires Prepared(env, gs, args)
    ensures Compilable(Watched(env)) && CleanVals(args) && CleanMem(Blank(gs)) && Emitting(env.funcs)
    ensures Vm(Watched(env), NaiveEnv(env.fl, env.funcs)) && InterpGlobals(gs) == EmittedGlobals(env.fl, gs)
  {
    hide Lowerable, Emitting, AllFloatsStored, SafeVals, Tame;
    CompilableEmits(Watched(env));
    BlankTame(gs, args);
    GlobalsAgree(env.fl, gs);
  }

  /** Whatever the interpreter shows, the emitted bytecode shows on enough fuel: the same
      result and memory, the same trap, and at least the same output of a run still going. */
  lemma BytecodeReaches(env: Env, gs: seq<Global>, fuel: nat, entry: Name, args: seq<Val>) returns (more: nat)
    requires Sound(env, gs, entry, args)
    ensures Emitting(env.funcs)
    ensures Extends(EraseOut(Interpreted(env, gs, fuel, entry, args)), Executed(env, gs, more, entry, args))
  {
    hide Compilable, CallFn, Emitting, VCall, NaiveEnv, EmittedEnv, CleanVals, Erase, EmittedGlobals, InterpGlobals,
         Prepared, Interpreted;
    SoundParts(env, gs, entry, args);
    BlankErased(gs);
    WatchingChangesNothing(env, gs, fuel, entry, args);
    more := CallReaches(Watched(env), NaiveEnv(env.fl, env.funcs), fuel, entry, args, Blank(gs));
    NaiveSound(env, gs, more, entry, args);
    PeepholeKeepsUp(env.fl, env.funcs, more, entry, args, Blank(gs));
  }

  /** ... and whatever the emitted bytecode shows, the interpreter shows on enough fuel.  So
      both return, both trap, or both run for ever, with the same output. */
  lemma BytecodeAddsNothing(env: Env, gs: seq<Global>, fuel: nat, entry: Name, args: seq<Val>) returns (more: nat)
    requires Sound(env, gs, entry, args)
    ensures Emitting(env.funcs)
    ensures Extends(Executed(env, gs, fuel, entry, args), EraseOut(Interpreted(env, gs, more, entry, args)))
  {
    hide Compilable, CallFn, Emitting, VCall, NaiveEnv, EmittedEnv, CleanVals, Erase, EmittedGlobals, InterpGlobals,
         Prepared, Interpreted;
    SoundParts(env, gs, entry, args);
    BlankErased(gs);
    var naive := PeepholeAddsNothing(env.fl, env.funcs, fuel, entry, args, Blank(gs));
    NaiveSound(env, gs, naive, entry, args);
    more := CallStays(Watched(env), NaiveEnv(env.fl, env.funcs), naive, entry, args, Blank(gs));
    WatchingChangesNothing(env, gs, more, entry, args);
  }
}
