/** What the builder emits for arithmetic over int parameters, instruction by instruction. */
module BuilderLines {
  import opened Cir
  import opened Arith
  import opened MiniLang
  import opened BuilderBlocks
  import opened BuilderNames

  /** Where the builder stands. */
  datatype Place = Place(blocks: seq<BasicBlock>, isOpen: bool, temps: nat)

  function BinOf(op: BinaryOp): Option<BinOp> {
    match op
    case Plus => Some(Add)
    case Minus => Some(Sub)
    case Times => Some(Mul)
    case _ => None
  }

  /** Sums, differences and products of int literals and int parameters in registers. */
  predicate Arithmetic(scopes: Scopes, e: Expr) {
    match e
    case IntLit(v) => InRange(v, I32)
    case VarRef(x) => Lookup(scopes, x).Some? && Lookup(scopes, x).value.InRegister? && Lookup(scopes, x).value.ty.I32?
    case Binary(op, a, b) => BinOf(op).Some? && Arithmetic(scopes, a) && Arithmetic(scopes, b)
    case _ => false
  }

  datatype Line = Line(code: seq<Instr>, value: Operand)

  /** Its code and where the result is, when `n` temporaries were made before. */
  function LineOf(scopes: Scopes, e: Expr, n: nat): Line
    requires Arithmetic(scopes, e)
  {
    match e
    case IntLit(v) => Line([], ConstInt(v, I32))
    case VarRef(x) => Line([], Reg(Lookup(scopes, x).value.reg, I32))
    case Binary(op, a, b) =>
      var l := LineOf(scopes, a, n);
      var r := LineOf(scopes, b, n + |l.code|);
      Operation(l, r, BinOf(op).value, TempName(n + |l.code| + |r.code|))
  }

  function Operation(l: Line, r: Line, op: BinOp, t: Name): Line {
    Line(l.code + r.code + [Instr(Bin(op), I32, Some(t), [l.value, r.value])], Reg(t, I32))
  }

  lemma {:induction false} LineIsInt(scopes: Scopes, e: Expr, n: nat)
    requires Arithmetic(scopes, e)
    ensures TypeOf(LineOf(scopes, e, n).value) == I32
  {}

  function WithInstrs(blocks: seq<BasicBlock>, code: seq<Instr>): (r: seq<BasicBlock>)
    requires blocks != []
    ensures |r| == |blocks|
  {
    var n := |blocks| - 1;
    blocks[n := BasicBlock(blocks[n].id, blocks[n].instrs + code)]
  }

  lemma WithNone(blocks: seq<BasicBlock>)
    requires blocks != []
    ensures WithInstrs(blocks, []) == blocks
  {
    var b := blocks[|blocks| - 1];
    assert b.instrs + [] == b.instrs && BasicBlock(b.id, b.instrs) == b;
  }

  lemma WithMore(blocks: seq<BasicBlock>, code: seq<Instr>, ins: Instr)
    requires blocks != []
    ensures WithInstr(WithInstrs(blocks, code), ins) == WithInstrs(blocks, code + [ins])
  {
    var b := blocks[|blocks| - 1];
    assert b.instrs + code + [ins] == b.instrs + (code + [ins]);
  }

  lemma WithBoth(blocks: seq<BasicBlock>, s: seq<Instr>, t: seq<Instr>)
    requires blocks != []
    ensures WithInstrs(WithInstrs(blocks, s), t) == WithInstrs(blocks, s + t)
  {
    var b := blocks[|blocks| - 1];
    assert b.instrs + s + t == b.instrs + (s + t);
  }

  /** Arithmetic, and a block to emit it into. */
  predicate Expected(scopes: Scopes, e: Expr, before: Place) {
    Arithmetic(scopes, e) && before.isOpen && before.blocks != []
  }

  /** From `before`, with result `v`, exactly the line of `e` was emitted, if it is arithmetic. */
  ghost predicate LineEmitted(scopes: Scopes, e: Expr, before: Place, v: Option<Operand>, after: Place) {
    Expected(scopes, e, before) ==>
      var line := LineOf(scopes, e, before.temps);
      v == Some(line.value) && after == Place(WithInstrs(before.blocks, line.code), true, before.temps + |line.code|)
  }

  /** Nothing is emitted for a leaf. */
  lemma LeafEmitted(scopes: Scopes, e: Expr, at: Place, v: Operand)
    requires e.IntLit? ==> v == ConstInt(e.value, I32)
    requires e.VarRef? && Arithmetic(scopes, e) ==> v == Reg(Lookup(scopes, e.name).value.reg, I32)
    requires e.IntLit? || e.VarRef?
    ensures LineEmitted(scopes, e, at, Some(v), at)
  {
    if at.blocks != [] { WithNone(at.blocks); }
  }

  lemma LineParts(scopes: Scopes, e: Expr, n: nat)
    requires e.Binary? && Arithmetic(scopes, e)
    ensures Arithmetic(scopes, e.lhs) && Arithmetic(scopes, e.rhs) && BinOf(e.bop).Some?
    ensures var l := LineOf(scopes, e.lhs, n); var r := LineOf(scopes, e.rhs, n + |l.code|);
            LineOf(scopes, e, n) == Operation(l, r, BinOf(e.bop).value, TempName(n + |l.code| + |r.code|))
  {
    hide Lookup, TempName, BinOf;
  }

  /** On int operands, exactly the operation and its temporary. */
  ghost predicate OperationEmitted(op: BinaryOp, x: Operand, y: Operand, p: Place, v: Option<Operand>, p': Place) {
    BinOf(op).Some? && TypeOf(x) == I32 && TypeOf(y) == I32 && p.isOpen && p.blocks != [] ==>
      && v == Some(Reg(TempName(p.temps), I32))
      && p' == Place(WithInstr(p.blocks, Instr(Bin(BinOf(op).value), I32, Some(TempName(p.temps)), [x, y])), true,
                     p.temps + 1)
  }

  /** Both operands, and the operation on them. */
  lemma BinaryEmitted(scopes: Scopes, e: Expr, p0: Place, p1: Place, p2: Place, p3: Place, x: Operand, y: Operand,
                      v: Option<Operand>)
    requires e.Binary? && LineEmitted(scopes, e.lhs, p0, Some(x), p1) && LineEmitted(scopes, e.rhs, p1, Some(y), p2)
    requires OperationEmitted(e.bop, x, y, p2, v, p3)
    ensures LineEmitted(scopes, e, p0, v, p3)
  {
    hide LineEmitted, OperationEmitted;
    if Expected(scopes, e, p0) {
      LeftExpected(scopes, e, p0, Some(x), p1);
      RightExpected(scopes, e.rhs, p1, Some(y), p2);
      LineGoesOn(scopes, e, p0, p1, p2, p3, x, y, v);
    } else {
      Unexpected(scopes, e, p0);
    }
  }

  lemma Unexpected(scopes: Scopes, e: Expr, at: Place)
    ensures !Expected(scopes, e, at) ==> forall v, after :: LineEmitted(scopes, e, at, v, after)
  {}

  lemma LineGoesOn(scopes: Scopes, e: Expr, p0: Place, p1: Place, p2: Place, p3: Place, x: Operand, y: Operand,
                   v: Option<Operand>)
    requires e.Binary? && Expected(scopes, e, p0) && Expected(scopes, e.rhs, p1) && p2.isOpen && p2.blocks != []
    requires TypeOf(x) == I32 && TypeOf(y) == I32 && BinOf(e.bop).Some?
    requires LineEmitted(scopes, e.lhs, p0, Some(x), p1) && LineEmitted(scopes, e.rhs, p1, Some(y), p2)
    requires OperationEmitted(e.bop, x, y, p2, v, p3)
    ensures LineEmitted(scopes, e, p0, v, p3)
  {
    hide TempName, WithInstrs, WithInstr, Lookup, LineOf, Arithmetic, BinOf;
    LineParts(scopes, e, p0.temps);
    var l := LineOf(scopes, e.lhs, p0.temps);
    var r := LineOf(scopes, e.rhs, p0.temps + |l.code|);
    WithBoth(p0.blocks, l.code, r.code);
    WithMore(p0.blocks, l.code + r.code, Instr(Bin(BinOf(e.bop).value), I32, Some(TempName(p2.temps)), [x, y]));
  }

  /** The left operand of arithmetic is an int, and there is still a block to emit into. */
  lemma LeftExpected(scopes: Scopes, e: Expr, p0: Place, x: Option<Operand>, p1: Place)
    requires e.Binary? && Expected(scopes, e, p0) && LineEmitted(scopes, e.lhs, p0, x, p1)
    ensures x.Some? && TypeOf(x.value) == I32 && Expected(scopes, e.rhs, p1) && BinOf(e.bop).Some?
  {
    hide LineOf, BinOf;
    LineIsInt(scopes, e.lhs, p0.temps);
  }

  lemma RightExpected(scopes: Scopes, e: Expr, p1: Place, y: Option<Operand>, p2: Place)
    requires Expected(scopes, e, p1) && LineEmitted(scopes, e, p1, y, p2)
    ensures y.Some? && TypeOf(y.value) == I32 && p2.isOpen && p2.blocks != []
  {
    hide LineOf, Arithmetic;
    LineIsInt(scopes, e, p1.temps);
  }

  // ----- functions that only compute -----

  /** The body is the one statement `return e`. */
  predicate ReturnsArithmetic(scopes: Scopes, s: Stmt) {
    match s
    case Return(v) => v.Some? && Arithmetic(scopes, v.value)
    case Block(stmts) => |stmts| == 1 && stmts[0].Return? && ReturnsArithmetic(scopes, stmts[0])
    case _ => false
  }

  function ReturnCode(scopes: Scopes, s: Stmt, n: nat): seq<Instr>
    requires ReturnsArithmetic(scopes, s)
  {
    match s
    case Return(v) =>
      var line := LineOf(scopes, v.value, n);
      line.code + [Instr(Ret, I32, None, [line.value])]
    case Block(stmts) => ReturnCode(scopes, stmts[0], n)
  }

  predicate ReturnExpected(scopes: Scopes, retTy: Ty, s: Stmt, before: Place) {
    ReturnsArithmetic(scopes, s) && retTy == I32 && before.isOpen && before.blocks != []
  }

  /** Exactly the code of `s` was emitted and the block closed, if `s` returns arithmetic. */
  ghost predicate ReturnEmitted(scopes: Scopes, retTy: Ty, s: Stmt, before: Place, ok: bool, after: Place) {
    ReturnExpected(scopes, retTy, s, before) ==>
      && ok && !after.isOpen
      && after.blocks == WithInstrs(before.blocks, ReturnCode(scopes, s, before.temps))
  }

  lemma {:induction false} InnerArithmetic(scopes: Scopes, e: Expr)
    ensures Arithmetic(scopes + [map[]], e) <==> Arithmetic(scopes, e)
  {
    hide Lookup;
    if e.VarRef? {
      InnerLookup(scopes, e.name);
    } else if e.Binary? {
      InnerArithmetic(scopes, e.lhs);
      InnerArithmetic(scopes, e.rhs);
    }
  }

  lemma ArithmeticKinds(scopes: Scopes, e: Expr)
    requires Arithmetic(scopes, e)
    ensures e.IntLit? || e.VarRef? || e.Binary?
  {}

  lemma {:induction false} InnerLine(scopes: Scopes, e: Expr, n: nat)
    requires Arithmetic(scopes, e) && Arithmetic(scopes + [map[]], e)
    ensures LineOf(scopes + [map[]], e, n) == LineOf(scopes, e, n)
  {
    hide Lookup, TempName, Arithmetic, BinOf, Operation;
    ArithmeticKinds(scopes, e);
    if e.VarRef? {
      InnerLookup(scopes, e.name);
    } else if e.Binary? {
      LineParts(scopes, e, n);
      LineParts(scopes + [map[]], e, n);
      InnerLine(scopes, e.lhs, n);
      InnerLine(scopes, e.rhs, n + |LineOf(scopes, e.lhs, n).code|);
    }
  }

  lemma InnerLookup(scopes: Scopes, name: string)
    ensures Lookup(scopes + [map[]], name) == Lookup(scopes, name)
  {
    assert (scopes + [map[]])[..|scopes|] == scopes;
  }

  lemma ReturnUnexpected(scopes: Scopes, retTy: Ty, s: Stmt, at: Place)
    ensures !ReturnExpected(scopes, retTy, s, at) ==> forall ok, after :: ReturnEmitted(scopes, retTy, s, at, ok, after)
    ensures ReturnExpected(scopes, retTy, s, at) ==> retTy == I32 && (s.Return? || (s.Block? && |s.stmts| == 1))
    ensures ReturnExpected(scopes, retTy, s, at) && s.Return? ==>
        s.result.Some? && Expected(scopes, s.result.value, at)
  {
    hide Arithmetic;
  }

  lemma ReturnDone(scopes: Scopes, s: Stmt, p0: Place, v: Operand, p1: Place, p2: Place)
    requires s.Return? && s.result.Some? && LineEmitted(scopes, s.result.value, p0, Some(v), p1)
    requires p1.isOpen && p1.blocks != [] ==>
        !p2.isOpen && p2.blocks == WithInstr(p1.blocks, Instr(Ret, I32, None, [v]))
    ensures ReturnEmitted(scopes, I32, s, p0, true, p2)
  {
    hide Arithmetic, LineOf, WithInstrs, WithInstr;
    if ReturnExpected(scopes, I32, s, p0) {
      var line := LineOf(scopes, s.result.value, p0.temps);
      WithMore(p0.blocks, line.code, Instr(Ret, I32, None, [v]));
      assert ReturnCode(scopes, s, p0.temps) == line.code + [Instr(Ret, I32, None, [v])];
    }
  }

  /** A block of one statement. */
  lemma BlockEmitted(scopes: Scopes, retTy: Ty, s: Stmt, before: Place, ok: bool, after: Place)
    requires s.Block? && |s.stmts| == 1 && ReturnEmitted(scopes + [map[]], retTy, s.stmts[0], before, ok, after)
    ensures ReturnEmitted(scopes, retTy, s, before, ok, after)
  {
    hide Arithmetic, LineOf, WithInstrs;
    assert ReturnsArithmetic(scopes, s) ==> ReturnsArithmetic(scopes, s.stmts[0]);
    if ReturnsArithmetic(scopes, s) {
      assert ReturnCode(scopes, s, before.temps) == ReturnCode(scopes, s.stmts[0], before.temps);
      var e := s.stmts[0].result.value;
      InnerArithmetic(scopes, e);
      if Arithmetic(scopes, e) { InnerLine(scopes, e, before.temps); }
    }
  }
}
