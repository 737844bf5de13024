/** A program that stores to its f64 slot before reading it meets every condition asked of
    whole programs; without the store it would be the one whose output differs. */
module StoredSlot {
  import opened Cir
  import opened Arith
  import opened Interp
  import opened Checks
  import opened Graphs
  import opened FlowGraph
  import opened Walks
  import opened Definitions
  import opened Bytecode
  import opened Layout
  import opened LowerSteps
  import opened NaiveProof
  import opened BytecodeProof
  import opened FloatSlots
  import opened EndToEnd
  import opened ZeroFill

  const MAIN := Name("main")
  const ADDRESS := Reg(P, Ptr)

  function Instrs(x: Float): seq<Instr> {
    [Instr(Alloca, F64, Some(P), []),
     Instr(Store, F64, None, [ConstFloat(x), ADDRESS]),
     Instr(Load, F64, Some(X), [ADDRESS]),
     Instr(PrintF64, Void, None, [Reg(X, F64)]),
     Instr(Ret, Void, None, [])]
  }

  function Body(x: Float): BasicBlock {
    BasicBlock(Label("entry"), Instrs(x))
  }

  function Filled(x: Float): Function {
    Function(MAIN, [], [Body(x)])
  }

  lemma OneBlock(x: Float)
    ensures BlockMap(Filled(x).blocks) == map[Label("entry") := Body(x)]
  {
    assert Filled(x).blocks[..0] == [] && BlockMap([]) == map[];
  }

  lemma FilledEmits(x: Float)
    ensures Emits(Filled(x))
  {
    hide LowerInstr, PushAll;
    var f, locals := Filled(x), LocalTable(Filled(x));
    assert P in locals by { assert Instrs(x)[0] in Body(x).instrs && Body(x) in f.blocks; }
    assert X in locals by { assert Instrs(x)[2] in Body(x).instrs && Body(x) in f.blocks; }
    hide LocalTable;
    EachLowers(x, locals, NextLabel(f, 0));
    AllLower(Instrs(x), locals, NextLabel(f, 0));
  }

  lemma EachLowers(x: Float, locals: set<Name>, next: Option<Label>)
    requires P in locals && X in locals
    ensures forall k :: 0 <= k < 5 ==> LowerInstr(Instrs(x)[k], locals, next).Some?
  {
    hide PushAll, IntTable, FloatTable, CmpTable, FcmpTable, SuffixTable;
    PushOneReg(P, Ptr, locals);
    PushOneReg(X, F64, locals);
    PushStored(x, locals);
    assert PushAll([], locals) == Some([]) by { PushNothing(locals); }
  }

  lemma PushNothing(locals: set<Name>)
    ensures PushAll([], locals) == Some([])
  {}

  lemma PushStored(x: Float, locals: set<Name>)
    requires P in locals
    ensures PushAll([ConstFloat(x), ADDRESS], locals).Some?
  {
    var xs := [ConstFloat(x), ADDRESS];
    assert xs[..1] == [ConstFloat(x)] && xs[..1][..0] == [] && PushAll([], locals) == Some([]);
    assert PushAll(xs[..1], locals).Some?;
  }

  lemma FilledGood(x: Float)
    ensures Filled(x).GoodCfg() && EntryUnreached(Filled(x))
  {
    var f, b := Filled(x), Body(x);
    assert b.Terminator() == Some(Instrs(x)[4]) && b.Successors() == [];
    assert f.blocks[0] == b && |f.blocks| == 1;
  }

  lemma FilledShaped(x: Float)
    ensures ShapedBlock(Body(x))
  {
    var s := Instrs(x);
    assert Shaped(s[0]) && Shaped(s[1]) && Shaped(s[2]) && Shaped(s[3]) && Shaped(s[4]);
  }

  lemma FilledLowerable(x: Float)
    ensures Lowerable(Filled(x))
  {
    hide Emits, EntryUnreached, ShapedBlock, Function.GoodCfg, Body;
    FilledEmits(x);
    FilledGood(x);
    FilledShaped(x);
    assert |Filled(x).blocks| == 1 && Filled(x).blocks[0] == Body(x);
  }

  lemma FilledDirect(x: Float)
    ensures FloatsDirect(Filled(x)) && FloatRegs(Filled(x)) == {P}
  {
    hide CountDefs;
    var f, b := Filled(x), Body(x);
    FilledGood(x);
    CountOne(x);
    assert Instrs(x)[0] in b.instrs && b in f.blocks;
    assert FloatRegs(f) == {P};
    hide Function.GoodCfg;
    forall ins | ins in b.instrs ensures SlotPlain(f, b, ins) && SlotDirect(f, ins) {}
  }

  lemma CountOne(x: Float)
    ensures CountDefs(Filled(x).blocks, P) == 1
  {
    var s := Instrs(x);
    assert Filled(x).blocks[..0] == [] && s[..5] == s && s[..5][..4] == s[..4] && s[..4][..3] == s[..3];
    assert s[..3][..2] == s[..2] && s[..2][..1] == s[..1] && s[..1][..0] == [];
    assert CountIn(s[..1], P) == 1;
    assert CountIn(s[..2], P) == 1;
    assert CountIn(s[..3], P) == 1;
    assert CountIn(s[..4], P) == 1;
    assert CountIn(s, P) == 1;
  }

  lemma FilledStores(x: Float)
    ensures FloatsStored(Filled(x))
  {
    hide FloatRegs, FloatsDirect, IsWalk, BlockMap, StepsTo;
    var f := Filled(x);
    FilledDirect(x);
    OneBlock(x);
    forall w: seq<Pos>, p: Name | p in FloatRegs(f) && LoadReached(f, w, p) ensures StoredOn(f, w, p) {
      EndInCode(f, w);
      var q := w[|w| - 1];
      assert q == Pos(Label("entry"), 2);
      WalkFromStart(f, w, q.block, 2);
      assert w[|w| - 1 - 2 + 1] == Pos(Label("entry"), 1);
      assert StoresAt(f, w[|w| - 2], P);
    }
  }

  lemma EndInCode(f: Function, w: seq<Pos>)
    requires f.blocks != [] && IsWalk(f, w)
    ensures w != [] && InCode(f, w[|w| - 1])
  {
    WalkInCode(f, w, |w| - 1);
  }

  lemma FilledRuns(fl: Floats, x: Float, fuel: nat)
    ensures !RunProgram(Env(fl, map[MAIN := Filled(x)], false, false), fuel, map[], MAIN, []).Failed?
  {
    hide Step, Exec;
    if fuel > 0 {
      var env, f, b, n, s := Env(fl, map[MAIN := Filled(x)], false, false), Filled(x), Body(x), fuel - 1, Instrs(x);
      var m0 := Mem(map[], map[], 0, []);
      var m1 := Mem(map[], map[0 := [Zeroed(true)]], 1, []);
      var m2 := Mem(map[], map[0 := [Written(VFloat(x))]], 1, []);
      var m3 := m2.(out := [PrintedFloat(x)]);
      var r1: Regs := map[P := VPtr(0, 0)];
      var r2 := r1[X := VFloat(x)];
      AllocaStep0(env, m0, m1, r1);
      StoreStep(env, x, m1, m2, r1);
      LoadStep(env, x, m2, r1, r2);
      PrintStep(env, x, m2, m3, r2);
      Tails(s);
      ExecCompute(env, n, f, b, s, map[], {}, m0);
      ExecCompute(env, n, f, b, s[1..], r1, {0}, m1);
      ExecCompute(env, n, f, b, s[2..], r1, {0}, m2);
      ExecCompute(env, n, f, b, s[3..], r2, {0}, m2);
      ExecReturn(env, n, f, b, s[4..], r2, {0}, m3);
    }
  }

  lemma Tails(s: seq<Instr>)
    requires |s| == 5
    ensures s[1..][0] == s[1] && s[1..][1..] == s[2..] && s[2..][0] == s[2] && s[2..][1..] == s[3..]
    ensures s[3..][0] == s[3] && s[3..][1..] == s[4..] && s[4..][0] == s[4]
  {}

  lemma StoreStep(env: Env, x: Float, m1: Mem, m2: Mem, r1: Regs)
    requires m1 == Mem(map[], map[0 := [Zeroed(true)]], 1, [])
        && m2 == Mem(map[], map[0 := [Written(VFloat(x))]], 1, [])
    requires r1 == map[P := VPtr(0, 0)]
    ensures Step(env, Instrs(x)[1], r1, {0}, m1) == Next(r1, {0}, m2)
  {
    hide EvalPure;
    var s := Instrs(x)[1];
    TwoValues(r1, s.args);
    assert s.args[..2] == s.args && [Zeroed(true)][0 := Written(VFloat(x))] == [Written(VFloat(x))];
  }

  lemma LoadStep(env: Env, x: Float, m2: Mem, r1: Regs, r2: Regs)
    requires m2 == Mem(map[], map[0 := [Written(VFloat(x))]], 1, []) && r1 == map[P := VPtr(0, 0)]
        && r2 == r1[X := VFloat(x)]
    ensures Step(env, Instrs(x)[2], r1, {0}, m2) == Next(r2, {0}, m2)
  {
    hide EvalPure;
    var s := Instrs(x)[2];
    OneValue(r1, s.args);
    assert s.args[..1] == s.args;
  }

  lemma PrintStep(env: Env, x: Float, m2: Mem, m3: Mem, r2: Regs)
    requires m2.out == [] && m3 == m2.(out := [PrintedFloat(x)]) && X in r2 && r2[X] == VFloat(x)
    ensures Step(env, Instrs(x)[3], r2, {0}, m2) == Next(r2, {0}, m3)
  {
    hide EvalPure;
    var s := Instrs(x)[3];
    OneValue(r2, s.args);
    assert s.args[..1] == s.args && [] + [PrintedFloat(x)] == [PrintedFloat(x)];
  }

  /** The conditions asked of a whole program can be met, f64 slots included. */
  lemma FilledIsSound(fl: Floats, x: Float)
    ensures Sound(Env(fl, map[MAIN := Filled(x)], false, false), [], MAIN, [])
  {
    hide Lowerable, FloatsStored, RunProgram;
    FilledLowerable(x);
    FilledStores(x);
    var env := Env(fl, map[MAIN := Filled(x)], false, false);
    assert InterpGlobals([]) == map[] && Unchecked(env) == env;
    forall fuel: nat ensures !Interpreted(env, [], fuel, MAIN, []).Failed? { FilledRuns(fl, x, fuel); }
  }
}
