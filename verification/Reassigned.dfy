/** Why the passes ask that the source of a copy is assigned once, and a parameter never: CIR is
    not in single-assignment form, and both passes count only the definitions of the register
    they replace. */
module Reassigned {
  import opened Cir
  import opened Arith
  import opened Interp
  import opened Graphs
  import opened FlowGraph
  import opened Walks
  import opened Definitions
  import opened Substitution
  import opened Fold
  import opened Copies
  import opened Cfg
  import opened TextOrder
  import opened BytecodeProof
  import opened TypedFunctions
  import opened CopySweep

  const MAIN := Name("main")
  const BEGIN := Label("entry")
  const X := Name("x")
  const T := Name("t")
  const G := Name("g")
  const H := Name("h")

  function Whole(params: seq<Name>, instrs: seq<Instr>): Function {
    Function(MAIN, params, [BasicBlock(BEGIN, instrs)])
  }

  function Program(fl: Floats, f: Function): Env {
    Env(fl, map[MAIN := f], false, false)
  }

  // ----- a copy whose source changes -----

  /** `t` copies `x`, `x` is loaded again, `t` is printed. */
  const COPYING: seq<Instr> := [
    Instr(Load, I32, Some(X), [GlobalRef(G)]),
    Instr(Bin(Add), I32, Some(T), [Reg(X, I32), ConstInt(0, I32)]),
    Instr(Load, I32, Some(X), [GlobalRef(H)]),
    Instr(PrintI32, Void, None, [Reg(T, I32)]),
    Instr(Ret, Void, None, [])]

  /** With `x` for `t`, and the copy dropped. */
  const COPIED: seq<Instr> := [
    Instr(Load, I32, Some(X), [GlobalRef(G)]),
    Instr(Load, I32, Some(X), [GlobalRef(H)]),
    Instr(PrintI32, Void, None, [Reg(X, I32)]),
    Instr(Ret, Void, None, [])]

  lemma ZeroStays()
    ensures InRange(0, I32)
  {
    hide Pow2;
    PowPositive(I32);
  }

  lemma CopyCounts()
    ensures CountDefs(Whole([], COPYING).blocks, T) == 1 && CountDefs(Whole([], COPYING).blocks, X) == 2
  {
    var s := COPYING;
    assert Whole([], s).blocks[..0] == [] && s[..5] == s && s[..5][..4] == s[..4] && s[..4][..3] == s[..3];
    assert s[..3][..2] == s[..2] && s[..2][..1] == s[..1] && s[..1][..0] == [];
    assert CountIn(s[..1], T) == 0 && CountIn(s[..1], X) == 1;
    assert CountIn(s[..2], T) == 1 && CountIn(s[..2], X) == 1;
    assert CountIn(s[..3], T) == 1 && CountIn(s[..3], X) == 2;
    assert CountIn(s[..4], T) == 1 && CountIn(s[..4], X) == 2;
  }

  lemma CopyRewrites()
    ensures RewriteFunction(map[T := Reg(X, I32)], false, Whole([], COPYING)) == Whole([], COPIED)
  {
    var s: Sub := map[T := Reg(X, I32)];
    var c := COPYING;
    assert c[1..][1..] == c[2..] && c[2..][1..] == c[3..] && c[3..][1..] == c[4..] && c[4..][1..] == [];
    assert Rewrite(s, false, c[4..]) == [c[4]] by { assert SubstArgs(s, c[4].args) == c[4].args; }
    assert SubstArgs(s, c[3].args) == [Reg(X, I32)] && SubstArgs(s, c[2].args) == c[2].args
        && SubstArgs(s, c[0].args) == c[0].args;
    assert Rewrite(s, false, c[3..]) == COPIED[2..];
    assert Rewrite(s, false, c[2..]) == COPIED[1..];
    assert Rewrite(s, false, c[1..]) == COPIED[1..];
    assert Rewrite(s, false, c) == COPIED;
  }

  lemma LoadsGlobal(env: Env, ins: Instr, regs: Regs, m: Mem, g: Name)
    requires ins == Instr(Load, I32, Some(X), [GlobalRef(g)]) && g in m.globs
    ensures Step(env, ins, regs, {}, m) == Next(regs[X := m.globs[g]], {}, m)
  {
    hide EvalPure;
    OneValue(regs, ins.args);
    assert ins.args[..1] == ins.args;
  }

  lemma Prints(env: Env, ins: Instr, regs: Regs, m: Mem, v: int)
    requires ins.op.PrintI32? && |ins.args| == 1 && OperandVal(regs, ins.args[0]) == Some(VInt(v))
    ensures Step(env, ins, regs, {}, m) == Next(regs, {}, m.(out := m.out + [PrintedInt(v)]))
  {
    hide EvalPure;
    OneValue(regs, ins.args);
    assert ins.args[..1] == ins.args;
  }

  lemma Tails(s: seq<Instr>)
    requires 4 <= |s| <= 5
    ensures s[1..][0] == s[1] && s[1..][1..] == s[2..] && s[2..][0] == s[2] && s[2..][1..] == s[3..]
        && s[3..][0] == s[3]
    ensures |s| == 5 ==> s[3..][1..] == s[4..] && s[4..][0] == s[4]
  {}

  function Globs(a: int, b: int): map<Name, Val> {
    map[G := VInt(a), H := VInt(b)]
  }

  lemma CopyingRuns(fl: Floats, a: int, b: int)
    requires InRange(a, I32)
    ensures var r := RunProgram(Program(fl, Whole([], COPYING)), 1, Globs(a, b), MAIN, []);
            r.Done? && r.Out() == [PrintedInt(a)]
  {
    hide Step, Exec;
    var f := Whole([], COPYING);
    var env, c := Program(fl, f), f.blocks[0];
    var m := Mem(Globs(a, b), map[], 0, []);
    var r1: Regs := map[X := VInt(a)];
    var r2 := r1[T := VInt(a)];
    var r3 := r2[X := VInt(b)];
    Tails(COPYING);
    LoadsGlobal(env, COPYING[0], map[], m, G);
    CopiesReg(env, COPYING[1], T, X, r1, m, a);
    LoadsGlobal(env, COPYING[2], r2, m, H);
    Prints(env, COPYING[3], r3, m, a);
    ExecCompute(env, 0, f, c, COPYING, map[], {}, m);
    ExecCompute(env, 0, f, c, COPYING[1..], r1, {}, m);
    ExecCompute(env, 0, f, c, COPYING[2..], r2, {}, m);
    ExecCompute(env, 0, f, c, COPYING[3..], r3, {}, m);
    ExecReturn(env, 0, f, c, COPYING[4..], r3, {}, m.(out := m.out + [PrintedInt(a)]));
    assert m.out + [PrintedInt(a)] == [PrintedInt(a)];
  }

  lemma CopiedRuns(fl: Floats, a: int, b: int)
    ensures var r := RunProgram(Program(fl, Whole([], COPIED)), 1, Globs(a, b), MAIN, []);
            r.Done? && r.Out() == [PrintedInt(b)]
  {
    hide Step, Exec;
    var f := Whole([], COPIED);
    var env, c := Program(fl, f), f.blocks[0];
    var m := Mem(Globs(a, b), map[], 0, []);
    var r1: Regs := map[X := VInt(a)];
    var r2 := r1[X := VInt(b)];
    Tails(COPIED);
    LoadsGlobal(env, COPIED[0], map[], m, G);
    LoadsGlobal(env, COPIED[1], r1, m, H);
    Prints(env, COPIED[2], r2, m, b);
    ExecCompute(env, 0, f, c, COPIED, map[], {}, m);
    ExecCompute(env, 0, f, c, COPIED[1..], r1, {}, m);
    ExecCompute(env, 0, f, c, COPIED[2..], r2, {}, m);
    ExecReturn(env, 0, f, c, COPIED[3..], r2, {}, m.(out := m.out + [PrintedInt(b)]));
    assert m.out + [PrintedInt(b)] == [PrintedInt(b)];
  }

  /** The register replaced has one definition, its definition is a copy, and every use is defined
      on every path; still the program prints something else once its uses read the source. */
  lemma CopyMoves(fl: Floats, a: int, b: int)
    requires InRange(a, I32) && a != b
    ensures CountDefs(Whole([], COPYING).blocks, T) == 1 && CopySource(COPYING[1]) == Some(Reg(X, I32))
    ensures var f := Whole([], COPYING);
            var f' := RewriteFunction(map[T := Reg(X, I32)], false, f);
            RunProgram(Program(fl, f), 1, Globs(a, b), MAIN, []).Out() !=
            RunProgram(Program(fl, f'), 1, Globs(a, b), MAIN, []).Out()
  {
    hide RunProgram, RewriteFunction, CountDefs;
    CopyCounts();
    CopyRewrites();
    CopyingRuns(fl, a, b);
    CopiedRuns(fl, a, b);
    assert [PrintedInt(a)][0] != [PrintedInt(b)][0];
  }

  // ----- a parameter that is assigned -----

  /** Prints its parameter and then assigns it a constant. */
  function Assigning(c: int): seq<Instr> {
    [Instr(PrintI32, Void, None, [Reg(X, I32)]),
     Instr(Bin(Add), I32, Some(X), [ConstInt(c, I32), ConstInt(0, I32)]),
     Instr(Ret, Void, None, [])]
  }

  /** With the constant for the parameter. */
  function Assigned(c: int): seq<Instr> {
    [Instr(PrintI32, Void, None, [ConstInt(c, I32)]),
     Instr(Ret, Void, None, [])]
  }

  lemma AssignFolds(fl: Floats, c: int)
    requires InRange(c, I32)
    ensures FoldInstr(fl, Assigning(c)[1]) == Some(ConstInt(c, I32))
    ensures CountDefs(Whole([X], Assigning(c)).blocks, X) == 1
  {
    hide Wrap;
    ZeroStays();
    var s := Assigning(c);
    assert FoldBin(fl, Add, I32, ConstInt(c, I32), ConstInt(0, I32)) == Some(ConstInt(Wrap(c + 0, I32), I32));
    assert Whole([X], s).blocks[..0] == [] && s[..3] == s && s[..3][..2] == s[..2] && s[..2][..1] == s[..1]
        && s[..1][..0] == [];
    assert CountIn(s[..1], X) == 0 && CountIn(s[..2], X) == 1;
  }

  lemma AssignRewrites(c: int)
    ensures RewriteFunction(map[X := ConstInt(c, I32)], true, Whole([X], Assigning(c))) == Whole([X], Assigned(c))
  {
    var s: Sub := map[X := ConstInt(c, I32)];
    var i := Assigning(c);
    assert i[1..][1..] == i[2..] && i[2..][1..] == [];
    assert SubstArgs(s, i[0].args) == [ConstInt(c, I32)] && SubstArgs(s, i[2].args) == [];
    assert Rewrite(s, true, i[2..]) == [i[2]];
    assert Rewrite(s, true, i[1..]) == [i[2]];
    assert Rewrite(s, true, i) == Assigned(c);
  }

  lemma AssigningRuns(fl: Floats, c: int, v: int)
    requires InRange(c, I32)
    ensures var r := RunProgram(Program(fl, Whole([X], Assigning(c))), 1, map[], MAIN, [VInt(v)]);
            r.Done? && r.Out() == [PrintedInt(v)]
  {
    hide Step, Exec, Wrap;
    var f := Whole([X], Assigning(c));
    var env, k, s := Program(fl, f), f.blocks[0], Assigning(c);
    var m := Mem(map[], map[], 0, []);
    var m' := m.(out := m.out + [PrintedInt(v)]);
    var r1: Regs := map[X := VInt(v)];
    OneArgument(X, v);
    assert s[1..][0] == s[1] && s[1..][1..] == s[2..] && s[2..][0] == s[2];
    Prints(env, s[0], r1, m, v);
    AddsConstants(env, c, r1, m');
    ExecCompute(env, 0, f, k, s, r1, {}, m);
    ExecCompute(env, 0, f, k, s[1..], r1, {}, m');
    ExecReturn(env, 0, f, k, s[2..], r1[X := VInt(c)], {}, m');
    assert m.out + [PrintedInt(v)] == [PrintedInt(v)];
  }

  lemma AddsConstants(env: Env, c: int, regs: Regs, m: Mem)
    requires InRange(c, I32) && !env.checkRanges
    ensures Step(env, Assigning(c)[1], regs, {}, m) == Next(regs[X := VInt(c)], {}, m)
  {
    hide Wrap;
    ZeroStays();
    var ins := Assigning(c)[1];
    TwoValues(regs, ins.args);
    assert ins.args[..2] == ins.args;
    assert ConstVal(c, I32) == VInt(c) && ConstVal(0, I32) == VInt(0);
    assert IntBin(Add, I32, c, 0) == Value(VInt(Wrap(c + 0, I32)));
  }

  lemma AssignedRuns(fl: Floats, c: int, v: int)
    requires InRange(c, I32)
    ensures var r := RunProgram(Program(fl, Whole([X], Assigned(c))), 1, map[], MAIN, [VInt(v)]);
            r.Done? && r.Out() == [PrintedInt(c)]
  {
    hide Step, Exec, Wrap;
    var f := Whole([X], Assigned(c));
    var env, k, s := Program(fl, f), f.blocks[0], Assigned(c);
    var m := Mem(map[], map[], 0, []);
    var m' := m.(out := m.out + [PrintedInt(c)]);
    var r1: Regs := map[X := VInt(v)];
    OneArgument(X, v);
    assert s[1..][0] == s[1];
    assert ConstVal(c, I32) == VInt(c);
    Prints(env, s[0], r1, m, c);
    ExecCompute(env, 0, f, k, s, r1, {}, m);
    ExecReturn(env, 0, f, k, s[1..], r1, {}, m');
    assert m.out + [PrintedInt(c)] == [PrintedInt(c)];
  }

  /** The one definition of the parameter folds to a constant, which then stands for the value the
      caller passed as well. */
  lemma ParameterFolds(fl: Floats, c: int, v: int)
    requires InRange(c, I32) && c != v
    ensures CountDefs(Whole([X], Assigning(c)).blocks, X) == 1
        && FoldInstr(fl, Assigning(c)[1]) == Some(ConstInt(c, I32))
    ensures var f := Whole([X], Assigning(c));
            var f' := RewriteFunction(map[X := ConstInt(c, I32)], true, f);
            RunProgram(Program(fl, f), 1, map[], MAIN, [VInt(v)]).Out() !=
            RunProgram(Program(fl, f'), 1, map[], MAIN, [VInt(v)]).Out()
  {
    hide RunProgram, RewriteFunction, CountDefs, FoldInstr;
    AssignFolds(fl, c);
    AssignRewrites(c);
    AssigningRuns(fl, c, v);
    AssignedRuns(fl, c, v);
    assert [PrintedInt(c)][0] != [PrintedInt(v)][0];
  }

  // ----- neither is refused before the passes see it -----

  lemma OneBlock(f: Function)
    requires |f.blocks| == 1
    ensures BlockMap(f.blocks) == map[f.blocks[0].id := f.blocks[0]]
  {
    assert f.blocks[..0] == [] && BlockMap([]) == map[];
  }

  predicate DefinedAbove(instrs: seq<Instr>, i: nat, r: Name)
    requires i <= |instrs|
  {
    exists j :: 0 <= j < i && instrs[j].dest == Some(r)
  }

  predicate ReadsDefinedAbove(f: Function, i: nat, k: nat)
    requires |f.blocks| == 1
  {
    var s := f.blocks[0].instrs;
    i < |s| && k < |s[i].args| && s[i].args[k].Reg? ==>
      s[i].args[k].name in f.params || DefinedAbove(s, i, s[i].args[k].name)
  }

  /** In a single block that defines before it uses, every use is defined on every path. */
  lemma StraightDefined(f: Function)
    requires |f.blocks| == 1 && f.blocks[0].instrs != []
    requires forall i, k :: ReadsDefinedAbove(f, i, k)
    ensures UsesDefined(f)
  {
    hide Available, BlockMap;
    OneBlock(f);
    var b := f.blocks[0];
    forall q: Pos, k: nat ensures UseDefined(f, q, k) {
      if InCode(f, q) && k < |InstrAt(f, q).args| && InstrAt(f, q).args[k].Reg? {
        var r := InstrAt(f, q).args[k].name;
        assert ReadsDefinedAbove(f, q.index, k);
        AvailableWithin(f, b.id, q.index, r);
        if r in f.params {
          ParamAvailable(f, q, r);
        } else {
          var j :| 0 <= j < q.index && b.instrs[j].dest == Some(r);
          assert DefinesAt(f, Pos(b.id, j), r);
        }
      }
    }
  }

  lemma ParamAvailable(f: Function, q: Pos, r: Name)
    requires f.blocks != [] && r in f.params
    ensures Available(f, q, r)
  {}

  lemma BothAccepted(c: int)
    ensures SoundCfg(Whole([], COPYING)) && UsesDefined(Whole([], COPYING))
    ensures SoundCfg(Whole([X], Assigning(c))) && UsesDefined(Whole([X], Assigning(c)))
  {
    hide UsesDefined;
    Straight(Whole([], COPYING));
    Straight(Whole([X], Assigning(c)));
    var s := COPYING;
    assert s[0].dest == Some(X) && s[1].dest == Some(T);
    assert DefinedAbove(s, 1, X) && DefinedAbove(s, 3, T);
    StraightDefined(Whole([], COPYING));
    StraightDefined(Whole([X], Assigning(c)));
  }

  lemma Straight(f: Function)
    requires |f.blocks| == 1 && f.blocks[0].instrs != [] && f.blocks[0].instrs[|f.blocks[0].instrs| - 1].op.Ret?
    requires forall k :: 0 <= k < |f.blocks[0].instrs| - 1 ==> !f.blocks[0].instrs[k].op.IsTerminator()
    ensures SoundCfg(f)
  {
    assert f.blocks[0].Successors() == [];
  }

  // ----- a definition that comes later in the text -----

  const Z := Name("z")
  const USE := Label("use")
  const DEF := Label("def")

  const START: BasicBlock := BasicBlock(BEGIN, [Instr(Br(DEF), Void, None, [])])

  /** Copies `x`, which the block after it in the text copies from `z`. */
  const USING: seq<Instr> := [
    Instr(Bin(Add), I32, Some(T), [Reg(X, I32), ConstInt(0, I32)]),
    Instr(PrintI32, Void, None, [Reg(T, I32)]),
    Instr(Ret, Void, None, [])]

  const DEFINING: seq<Instr> := [
    Instr(Bin(Add), I32, Some(X), [Reg(Z, I32), ConstInt(0, I32)]),
    Instr(Br(USE), Void, None, [])]

  const USED: seq<Instr> := [
    Instr(PrintI32, Void, None, [Reg(X, I32)]),
    Instr(Ret, Void, None, [])]

  const DEFINED: seq<Instr> := [Instr(Br(USE), Void, None, [])]

  const BACKWARD: Function :=
    Function(MAIN, [Z], [START, BasicBlock(USE, USING), BasicBlock(DEF, DEFINING)])

  const LOST: Function :=
    Function(MAIN, [Z], [START, BasicBlock(USE, USED), BasicBlock(DEF, DEFINED)])

  /** What a search in text order finds: `x` is not yet known to be a copy when `t` is met. */
  const FOUND: Sub := map[T := Reg(X, I32), X := Reg(Z, I32)]

  lemma BackwardOnce()
    ensures AtMostOnce(BACKWARD, {T, X})
  {
    var f, u, d := BACKWARD, USING, DEFINING;
    var b := f.blocks;
    forall r | r in {T, X} ensures CountDefs(b, r) <= 1 {
      assert b[..3] == b && b[..3][..2] == b[..2] && b[..2][..1] == b[..1] && b[..1][..0] == [];
      assert u[..3] == u && u[..3][..2] == u[..2] && u[..2][..1] == u[..1] && u[..1][..0] == [];
      assert d[..2] == d && d[..2][..1] == d[..1] && d[..1][..0] == [];
      assert CountIn(u[..1], r) == (if r == T then 1 else 0) && CountIn(u[..2], r) == CountIn(u[..1], r);
      assert CountIn(d[..1], r) == (if r == X then 1 else 0);
      assert CountDefs(b[..1], r) == 0 && CountDefs(b[..2], r) == CountIn(u, r);
    }
  }

  lemma BackwardCopies()
    ensures CopySource(USING[0]) == Some(Reg(X, I32)) && CopySource(DEFINING[0]) == Some(Reg(Z, I32))
  {}

  lemma BackwardFound()
    ensures AtMostOnce(BACKWARD, {T, X}) && AliasesOf(BACKWARD, {T, X}) == FOUND
  {
    hide AliasesAt, AliasesOf, AtMostOnce, CopySource;
    BackwardOnce();
    BackwardCopies();
    var f, single := BACKWARD, {T, X};
    AliasesStart(f, single);
    AliasesNext(f, single, 0, 0);
    AliasesOn(f, single, 0);
    AliasesNext(f, single, 1, 0);
    AliasesNext(f, single, 1, 1);
    AliasesNext(f, single, 1, 2);
    AliasesOn(f, single, 1);
    assert AliasesAt(f, single, 2, 0) == map[T := Reg(X, I32)];
    AliasesNext(f, single, 2, 0);
    AliasesNext(f, single, 2, 1);
    AliasesOn(f, single, 2);
  }

  lemma LostRewrites()
    ensures RewriteFunction(FOUND, false, BACKWARD) == LOST
  {
    var u, d := USING, DEFINING;
    assert u[1..][1..] == u[2..] && u[2..][1..] == [] && d[1..][1..] == [] && START.instrs[1..] == [];
    assert SubstArgs(FOUND, u[1].args) == [Reg(X, I32)] && SubstArgs(FOUND, u[2].args) == [];
    assert SubstArgs(FOUND, d[1].args) == [] && SubstArgs(FOUND, START.instrs[0].args) == [];
    assert Rewrite(FOUND, false, u[2..]) == [u[2]];
    assert Rewrite(FOUND, false, u[1..]) == USED;
    assert Rewrite(FOUND, false, u) == USED;
    assert Rewrite(FOUND, false, d[1..]) == DEFINED;
    assert Rewrite(FOUND, false, d) == DEFINED;
    assert Rewrite(FOUND, false, START.instrs) == START.instrs;
  }

  lemma ThreeBlocks(a: BasicBlock, b: BasicBlock, c: BasicBlock)
    requires a.id == BEGIN && b.id == USE && c.id == DEF
    ensures var m := BlockMap([a, b, c]); USE in m && m[USE] == b && DEF in m && m[DEF] == c
  {
    var s := [a, b, c];
    assert s[..2] == [a, b] && s[..2][..1] == [a] && s[..2][..1][..0] == [];
  }

  lemma CopiesReg(env: Env, ins: Instr, t: Name, x: Name, regs: Regs, m: Mem, v: int)
    requires ins == Instr(Bin(Add), I32, Some(t), [Reg(x, I32), ConstInt(0, I32)])
    requires x in regs && regs[x] == VInt(v) && InRange(v, I32) && !env.checkRanges
    ensures Step(env, ins, regs, {}, m) == Next(regs[t := VInt(v)], {}, m)
  {
    hide Wrap;
    ZeroStays();
    TwoValues(regs, ins.args);
    assert ins.args[..2] == ins.args && ConstVal(0, I32) == VInt(0);
    assert IntBin(Add, I32, v, 0) == Value(VInt(Wrap(v + 0, I32)));
  }

  lemma OneArgument(z: Name, v: int)
    ensures Bind([z], [VInt(v)]) == map[z := VInt(v)]
  {
    assert [z][..0] == [] && [VInt(v)][..0] == [] && Bind([], []) == map[];
  }

  /** From the start to the block that uses `x`. */
  lemma BackwardStarts(env: Env, v: int, m: Mem)
    requires InRange(v, I32) && !env.checkRanges
    ensures var r0: Regs := map[Z := VInt(v)];
            Exec(env, 2, BACKWARD, START, START.instrs, r0, {}, m) ==
            Exec(env, 0, BACKWARD, BACKWARD.blocks[1], USING, r0[X := VInt(v)], {}, m)
  {
    hide Step, Exec, BlockMap;
    var f := BACKWARD;
    var r0: Regs := map[Z := VInt(v)];
    ThreeBlocks(f.blocks[0], f.blocks[1], f.blocks[2]);
    CopiesReg(env, DEFINING[0], X, Z, r0, m, v);
    assert DEFINING[1..][0] == DEFINING[1];
    ExecTransfer(env, 2, f, START, START.instrs, r0, {}, m);
    ExecCompute(env, 1, f, f.blocks[2], DEFINING, r0, {}, m);
    ExecTransfer(env, 1, f, f.blocks[2], DEFINING[1..], r0[X := VInt(v)], {}, m);
  }

  lemma BackwardEnds(env: Env, v: int, regs: Regs, m: Mem)
    requires InRange(v, I32) && !env.checkRanges && X in regs && regs[X] == VInt(v)
    ensures Exec(env, 0, BACKWARD, BACKWARD.blocks[1], USING, regs, {}, m).Out() == m.out + [PrintedInt(v)]
  {
    hide Step, Exec;
    var f, u, r := BACKWARD, USING, regs[T := VInt(v)];
    CopiesReg(env, u[0], T, X, regs, m, v);
    Prints(env, u[1], r, m, v);
    assert u[1..][0] == u[1] && u[1..][1..] == u[2..] && u[2..][0] == u[2];
    ExecCompute(env, 0, f, f.blocks[1], u, regs, {}, m);
    ExecCompute(env, 0, f, f.blocks[1], u[1..], r, {}, m);
    ExecReturn(env, 0, f, f.blocks[1], u[2..], r, {}, m.(out := m.out + [PrintedInt(v)]));
  }

  lemma BackwardRuns(fl: Floats, v: int)
    requires InRange(v, I32)
    ensures RunProgram(Program(fl, BACKWARD), 3, map[], MAIN, [VInt(v)]).Out() == [PrintedInt(v)]
  {
    hide Exec;
    var env, m := Program(fl, BACKWARD), Mem(map[], map[], 0, []);
    OneArgument(Z, v);
    BackwardStarts(env, v, m);
    BackwardEnds(env, v, map[Z := VInt(v)][X := VInt(v)], m);
    assert m.out + [PrintedInt(v)] == [PrintedInt(v)];
  }

  lemma LostFails(fl: Floats, v: int)
    ensures RunProgram(Program(fl, LOST), 3, map[], MAIN, [VInt(v)]).Failed?
  {
    hide Step, Exec, BlockMap;
    var f, env, m := LOST, Program(fl, LOST), Mem(map[], map[], 0, []);
    var r0: Regs := map[Z := VInt(v)];
    ThreeBlocks(f.blocks[0], f.blocks[1], f.blocks[2]);
    OneArgument(Z, v);
    NothingToPrint(env, r0, m);
    ExecTransfer(env, 2, f, f.blocks[0], START.instrs, r0, {}, m);
    ExecTransfer(env, 1, f, f.blocks[2], DEFINED, r0, {}, m);
    ExecCompute(env, 0, f, f.blocks[1], USED, r0, {}, m);
  }

  lemma NothingToPrint(env: Env, regs: Regs, m: Mem)
    requires X !in regs
    ensures Step(env, USED[0], regs, {}, m).StepFails?
  {
    hide EvalPure;
    var ins := USED[0];
    OneValue(regs, ins.args);
    assert ins.args[..1] == ins.args;
  }

  /** The copy of `x` is read through a register whose definition the same sweep drops. */
  lemma AliasLost(fl: Floats, v: int)
    requires InRange(v, I32)
    ensures CopySource(USING[0]) == Some(FOUND[T]) && CopySource(DEFINING[0]) == Some(FOUND[X])
    ensures AtMostOnce(BACKWARD, {T, X}) && FOUND == AliasesOf(BACKWARD, {T, X})
        && !TextCopiesOrdered(BACKWARD, {T, X})
    ensures RunProgram(Program(fl, BACKWARD), 3, map[], MAIN, [VInt(v)]).Out() == [PrintedInt(v)]
    ensures RunProgram(Program(fl, RewriteFunction(FOUND, false, BACKWARD)), 3, map[], MAIN, [VInt(v)]).Failed?
  {
    hide RunProgram, RewriteFunction, TextCopiesOrdered, AliasesOf, AtMostOnce;
    BackwardFound();
    SweepLosesIff(BACKWARD, {T, X});
    assert Loose(FOUND, T);
    LostRewrites();
    BackwardRuns(fl, v);
    LostFails(fl, v);
  }
}
