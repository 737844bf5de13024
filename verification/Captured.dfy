/** What happens to a parameter that has the name of a temporary. */
module Captured {
  import opened Cir
  import opened Arith
  import opened Interp
  import opened TypedFunctions
  import opened Fold
  import opened MiniLang
  import opened Labels
  import opened BytecodeProof
  import opened BuilderNames
  import opened BuilderTemps
  import opened BuilderLines
  import opened Builder
  import opened Building
  import opened EndToEnd
  import Compiler

  /** `fn main(p: int) -> int { return (p + 1) * p; }` */
  function Product(p: string): FnDecl {
    FnDecl("main", [Param(p, TypeNode(IntName, None))], TypeNode(IntName, None), Block([ReturnProduct(p)]))
  }

  function ReturnProduct(p: string): Stmt {
    Stmt.Return(Some(Binary(Times, Binary(Plus, VarRef(p), IntLit(1)), VarRef(p))))
  }

  /** Its code, with `p` for the parameter. */
  function ProductCode(p: Name): seq<Instr> {
    [Instr(Bin(Add), I32, Some(TempName(0)), [Reg(p, I32), ConstInt(1, I32)]),
     Instr(Bin(Mul), I32, Some(TempName(1)), [Reg(TempName(0), I32), Reg(p, I32)]),
     Instr(Ret, I32, None, [Reg(TempName(1), I32)])]
  }

  function ProductFunction(p: Name): Function {
    Function(Name("main"), [p], [BasicBlock(ENTRY, ProductCode(p))])
  }

  lemma FirstTemps()
    ensures TempName(0) == Name("t0") && TempName(1) == Name("t1")
  {
    assert Digits(0) == ["0123456789"[0]] == "0" && Digits(1) == ["0123456789"[1]] == "1";
  }

  lemma SmallInt(v: nat)
    requires v < 16
    ensures Wrap(v, I32) == v
  {
    hide Pow2;
    SmallPower(31);
    SmallPower(32);
    SmallMod(v, Pow2(32));
  }

  lemma SmallMod(v: nat, p: nat)
    requires v < p
    ensures v % p == v
  {}

  lemma SmallPower(n: nat)
    requires n >= 5
    ensures Pow2(n) >= 32
  {
    PowSum(n - 5, 5);
    SmallPowers();
    assert Pow2(n - 5) * 32 >= 32;
  }

  lemma ProductScope(p: string)
    ensures ParamScope(Product(p).params) == map[p := InRegister(I32, Name(p))]
    ensures Lookup([map[], ParamScope(Product(p).params)], p) == Some(InRegister(I32, Name(p)))
  {
    var ps := Product(p).params;
    assert ps[..0] == [] && ParamScope([]) == map[];
    assert map[][p := InRegister(I32, Name(p))] == map[p := InRegister(I32, Name(p))];
    var s := ParamScope(ps);
    assert p in s && [map[], s][1] == s;
  }

  lemma LeafLines(sc: Scopes, p: string, n: nat)
    requires Lookup(sc, p) == Some(InRegister(I32, Name(p)))
    ensures Arithmetic(sc, VarRef(p)) && LineOf(sc, VarRef(p), n) == Line([], Reg(Name(p), I32))
    ensures Arithmetic(sc, IntLit(1)) && LineOf(sc, IntLit(1), n) == Line([], ConstInt(1, I32))
  {
    hide Lookup, Wrap;
    SmallInt(1);
  }

  lemma SumLine(sc: Scopes, p: string)
    requires Lookup(sc, p) == Some(InRegister(I32, Name(p)))
    ensures var e := Binary(Plus, VarRef(p), IntLit(1));
            Arithmetic(sc, e) && LineOf(sc, e, 0) == Line([ProductCode(Name(p))[0]], Reg(TempName(0), I32))
  {
    hide Lookup, TempName, Wrap;
    var e, c := Binary(Plus, VarRef(p), IntLit(1)), ProductCode(Name(p));
    LeafLines(sc, p, 0);
    assert Arithmetic(sc, e);
    LineParts(sc, e, 0);
    assert [] + [] + [c[0]] == [c[0]];
  }

  lemma ProductLine(sc: Scopes, p: string)
    requires Lookup(sc, p) == Some(InRegister(I32, Name(p)))
    ensures ReturnsArithmetic(sc, ReturnProduct(p)) && ReturnCode(sc, ReturnProduct(p), 0) == ProductCode(Name(p))
  {
    hide Lookup, TempName, Wrap, LineOf;
    var e, whole, c := Binary(Plus, VarRef(p), IntLit(1)), ReturnProduct(p).result.value, ProductCode(Name(p));
    SumLine(sc, p);
    LeafLines(sc, p, 1);
    assert Arithmetic(sc, whole);
    LineParts(sc, whole, 0);
    assert [c[0]] + [] + [c[1]] == [c[0], c[1]];
    assert LineOf(sc, whole, 0) == Line([c[0], c[1]], Reg(TempName(1), I32));
    assert [c[0], c[1]] + [c[2]] == c;
  }

  /** What the declaration becomes. */
  lemma ProductBuilt(p: string)
    ensures OnlyComputes(Product(p), map[]) && Computation(Product(p), map[]) == ProductFunction(Name(p))
  {
    hide Lookup, TempName, ParamScope, ProductCode, ReturnProduct;
    ProductScope(p);
    var sc, s := [map[], ParamScope(Product(p).params)], ReturnProduct(p);
    ProductLine(sc, p);
    ReturnIsReturn(p);
    assert ReturnsArithmetic(sc, Product(p).body) && ReturnCode(sc, Product(p).body, 0) == ReturnCode(sc, s, 0);
    assert ParamNames(Product(p).params) == [Name(p)];
  }

  lemma ReturnIsReturn(p: string)
    ensures ReturnProduct(p).Return?
  {}

  // ----- running it -----

  lemma Operates(env: Env, ins: Instr, op: BinOp, t: Name, regs: Regs, m: Mem, a: int, b: int, v: nat)
    requires (op.Add? || op.Mul?) && v == (if op.Add? then a + b else a * b) && v < 16 && 0 <= a < 16 && 0 <= b < 16
    requires ins.op == Bin(op) && ins.ty == I32 && ins.dest == Some(t) && |ins.args| == 2
    requires OperandVal(regs, ins.args[0]) == Some(VInt(a)) && OperandVal(regs, ins.args[1]) == Some(VInt(b))
    ensures Step(env, ins, regs, {}, m) == Next(regs[t := VInt(v)], {}, m)
  {
    hide Wrap, OperandVal;
    SmallInt(v);
    SmallInt(a);
    SmallInt(b);
    TwoValues(regs, ins.args);
    assert ins.args[..2] == ins.args;
    assert IntBin(op, I32, a, b) == Value(VInt(Wrap(v, I32)));
  }

  /** A program of one function, with the interpreter's checks on or off. */
  function Main(fl: Floats, f: Function, checks: bool): Env {
    Env(fl, map[f.name := f], checks, checks)
  }

  function Returns(v: int): Outcome {
    Done(VInt(v), Mem(map[], map[], 0, []))
  }

  /** The registers before each instruction, run on 1. */
  function RegsAt(p: Name, k: nat): Regs {
    var r0: Regs := map[p := VInt(1)];
    if k == 0 then r0
    else if k == 1 then r0[TempName(0) := VInt(2)]
    else r0[TempName(0) := VInt(2)][TempName(1) := VInt(if p == TempName(0) then 4 else 2)]
  }

  lemma ProductSteps(env: Env, p: Name, m: Mem)
    requires p != TempName(1)
    ensures Step(env, ProductCode(p)[0], RegsAt(p, 0), {}, m) == Next(RegsAt(p, 1), {}, m)
    ensures Step(env, ProductCode(p)[1], RegsAt(p, 1), {}, m) == Next(RegsAt(p, 2), {}, m)
  {
    hide Step, TempName, Wrap;
    SmallInt(1);
    var c, n := ProductCode(p), if p == TempName(0) then 2 else 1;
    Operates(env, c[0], Add, TempName(0), RegsAt(p, 0), m, 1, 1, 2);
    Operates(env, c[1], Mul, TempName(1), RegsAt(p, 1), m, 2, n, 2 * n);
  }

  /** The second operand is read after the first result was written. */
  lemma ProductRuns(fl: Floats, p: Name, checks: bool)
    requires p != TempName(1)
    ensures RunProgram(Main(fl, ProductFunction(p), checks), 1, map[], Name("main"), [VInt(1)])
         == Returns(if p == TempName(0) then 4 else 2)
  {
    hide Step, Exec, TempName, RegsAt;
    var f, c := ProductFunction(p), ProductCode(p);
    var env, b, m := Main(fl, f, checks), f.blocks[0], Mem(map[], map[], 0, []);
    ProductSteps(env, p, m);
    assert c[1..][0] == c[1] && c[1..][1..] == c[2..] && c[2..][0] == c[2];
    ExecCompute(env, 0, f, b, c, RegsAt(p, 0), {}, m);
    ExecCompute(env, 0, f, b, c[1..], RegsAt(p, 1), {}, m);
    ProductReturns(p);
    ExecReturn(env, 0, f, b, c[2..], RegsAt(p, 2), {}, m);
    BindsOne(p);
  }

  lemma ProductReturns(p: Name)
    ensures Decode(ProductCode(p)[2], RegsAt(p, 2)) == Action.Return(VInt(if p == TempName(0) then 4 else 2))
  {
    hide TempName;
  }

  lemma BindsOne(p: Name)
    ensures Bind([p], [VInt(1)]) == RegsAt(p, 0)
  {
    assert [p][..0] == [] && [VInt(1)][..0] == [];
  }

  /** Renaming a parameter to `t0` changes what the built function returns: it is assigned the
      first temporary's value. */
  method TempsTakeNames(fl: Floats) returns (plain: Function, captured: Function)
    ensures TempName(0) == Name("t0") && !PlainName("t0")
    ensures plain == ProductFunction(Name("x")) && captured == ProductFunction(Name("t0"))
    ensures ParamsFixed(plain) && !ParamsFixed(captured)
    ensures RunProgram(Main(fl, plain, false), 1, map[], Name("main"), [VInt(1)]) == Returns(2)
    ensures RunProgram(Main(fl, captured, false), 1, map[], Name("main"), [VInt(1)]) == Returns(4)
  {
    hide RunProgram, ProductFunction, OnlyComputes, Computation, Product;
    ProductBuilt("x");
    ProductBuilt("t0");
    var r, types := BuildFunction(fl, Product("x"), map[], map[]);
    plain := r.value;
    r, types := BuildFunction(fl, Product("t0"), map[], map[]);
    captured := r.value;
    FirstTemps();
    TempIsNotPlain(0);
    ProductRuns(fl, Name("x"), false);
    ProductRuns(fl, Name("t0"), false);
    ProductParams(Name("x"));
    ProductParams(Name("t0"));
  }

  lemma ProductParams(p: Name)
    ensures ParamsFixed(ProductFunction(p)) <==> p != TempName(0) && p != TempName(1)
  {
    hide TempName;
    var f := ProductFunction(p);
    var b := f.blocks[0];
    assert b in f.blocks && b.instrs[0] in b.instrs && b.instrs[1] in b.instrs;
  }

  /** The conditions on a run of built functions can be met. */
  lemma ProductIsSteady(fl: Floats)
    ensures Compiler.Steady(Main(fl, ProductFunction(Name("x")), true), [], Name("main"), [VInt(1)])
  {
    hide RunProgram, ProductFunction, TempName;
    FirstTemps();
    var env := Main(fl, ProductFunction(Name("x")), true);
    assert InterpGlobals([]) == map[];
    forall n: nat ensures Compiler.RunsOn(RunProgram(env, n, map[], Name("main"), [VInt(1)])) {
      ProductRuns(fl, Name("x"), true);
      RunsLonger(env, n);
    }
  }

  lemma RunsLonger(env: Env, n: nat)
    ensures n == 0 ==> RunProgram(env, n, map[], Name("main"), [VInt(1)]).OutOfFuel?
    ensures n > 0 ==> Interp.Extends(RunProgram(env, 1, map[], Name("main"), [VInt(1)]),
        RunProgram(env, n, map[], Name("main"), [VInt(1)]))
  {
    hide Exec;
    if n > 0 { CallMoreFuel(env, 1, n, Name("main"), [VInt(1)], Mem(map[], map[], 0, [])); }
  }
}
