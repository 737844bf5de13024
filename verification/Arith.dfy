/** Values and arithmetic shared by the interpreter, the stack machine and the
    constant folder.  Integers are kept in the signed range of their type, i1 as
    0 or 1.  Operations on floats are parameters. */
module Arith {
  import opened Cir

  datatype Val =
    | VInt(i: int)
    | VFloat(f: Float)
    | VPtr(slot: nat, idx: int)
    | VGlob(name: Name)

  /** What one operation yields.  `Wrong` is a failure outside the language's
      own semantics: an ill-typed or malformed operation. */
  datatype Eval = Value(v: Val) | Traps | Wrong

  /** Float arithmetic, left open. */
  datatype Floats = Floats(
    zero: Float,
    bin: (BinOp, Float, Float) -> Float,
    neg: Float -> Float,
    cmp: (FloatPred, Float, Float) -> bool,
    ofInt: int -> Float,
    toInt: (Float, Ty) -> Option<int>,     // None when out of range or NaN
    isNan: Float -> bool)

  predicate IsInt(ty: Ty) {
    ty.I1? || ty.I32? || ty.I64?
  }

  function Width(ty: Ty): (w: nat)
    ensures IsInt(ty) ==> w > 0
  {
    match ty
    case I1 => 1
    case I32 => 32
    case I64 => 64
    case _ => 0
  }

  function Pow2(n: nat): (p: nat)
    ensures p > 0
  {
    if n == 0 then 1 else 2 * Pow2(n - 1)
  }

  /** Two's-complement reduction to the signed range. */
  function WrapInt(v: int, ty: Ty): int
    requires IsInt(ty)
  {
    var u := v % Pow2(Width(ty));
    if u >= Pow2(Width(ty) - 1) then u - Pow2(Width(ty)) else u
  }

  /** The same, except that i1 stays 0 or 1. */
  function Wrap(v: int, ty: Ty): int
    requires IsInt(ty)
  {
    if ty.I1? then v % 2 else WrapInt(v, ty)
  }

  function Unsigned(v: int, ty: Ty): nat
    requires IsInt(ty)
  {
    v % Pow2(Width(ty))
  }

  predicate InRange(v: int, ty: Ty) {
    IsInt(ty) && Wrap(v, ty) == v
  }

  function Abs(v: int): nat {
    if v < 0 then -v else v
  }

  /** Division rounding toward zero. */
  function DivTrunc(a: int, b: int): int
    requires b != 0
  {
    var q := Abs(a) / Abs(b);
    if (a < 0) == (b < 0) then q else -q
  }

  // ----- bitwise operations, one bit at a time -----

  function Bit(op: BinOp, a: bool, b: bool): bool {
    match op
    case And => a && b
    case Or => a || b
    case _ => a != b
  }

  /** The low `w` bits of `a op b`. */
  function Bits(op: BinOp, a: int, b: int, w: nat): nat
    decreases w
  {
    if w == 0 then 0
    else (if Bit(op, a % 2 == 1, b % 2 == 1) then 1 else 0) + 2 * Bits(op, a / 2, b / 2, w - 1)
  }

  predicate IsFloatOp(op: BinOp) {
    op.Fadd? || op.Fsub? || op.Fmul? || op.Fdiv?
  }

  /** A number as a float; an integer is converted. */
  function AsFloat(fl: Floats, v: Val): Option<Float> {
    match v
    case VFloat(f) => Some(f)
    case VInt(i) => Some(fl.ofInt(i))
    case _ => None
  }

  function MinInt(ty: Ty): int
    requires IsInt(ty)
  {
    0 - Pow2(Width(ty) - 1)
  }

  function IntBin(op: BinOp, ty: Ty, a: int, b: int): Eval
    requires IsInt(ty) && !IsFloatOp(op)
  {
    match op
    case Sdiv =>
      if b == 0 || (a == MinInt(ty) && b == -1) then Traps else Value(VInt(Wrap(DivTrunc(a, b), ty)))
    case Srem =>
      if b == 0 || (a == MinInt(ty) && b == -1) then Traps else Value(VInt(Wrap(a - DivTrunc(a, b) * b, ty)))
    case Udiv =>
      if b == 0 then Traps
      else if Unsigned(b, ty) == 0 then Wrong
      else Value(VInt(Wrap(Unsigned(a, ty) / Unsigned(b, ty), ty)))
    case Urem =>
      if b == 0 then Traps
      else if Unsigned(b, ty) == 0 then Wrong
      else Value(VInt(Wrap(Unsigned(a, ty) % Unsigned(b, ty), ty)))
    case Shl => Value(VInt(Wrap(a * Pow2(Unsigned(b, ty) % Width(ty)), ty)))
    case Ashr => Value(VInt(Wrap(a / Pow2(Unsigned(b, ty) % Width(ty)), ty)))
    case Lshr => Value(VInt(Wrap(Unsigned(a, ty) / Pow2(Unsigned(b, ty) % Width(ty)), ty)))
    case Add => Value(VInt(Wrap(a + b, ty)))
    case Sub => Value(VInt(Wrap(a - b, ty)))
    case Mul => Value(VInt(Wrap(a * b, ty)))
    case _ => Value(VInt(Wrap(Bits(op, a, b, Width(ty)), ty)))
  }

  /** Two integers that meet in a float operation stay an integer, except under division. */
  function FloatBin(fl: Floats, op: BinOp, a: Val, b: Val): Eval {
    if a.VInt? && b.VInt? && !op.Fdiv? then
      Value(VInt(match op case Fadd => a.i + b.i case Fsub => a.i - b.i case _ => a.i * b.i))
    else match (AsFloat(fl, a), AsFloat(fl, b))
      case (Some(x), Some(y)) => Value(VFloat(fl.bin(op, x, y)))
      case _ => Wrong
  }

  function EvalBin(fl: Floats, op: BinOp, ty: Ty, a: Val, b: Val): Eval {
    if IsFloatOp(op) then FloatBin(fl, op, a, b)
    else if IsInt(ty) && a.VInt? && b.VInt? then IntBin(op, ty, a.i, b.i)
    else Wrong
  }

  function EvalNeg(fl: Floats, ty: Ty, v: Val): Eval {
    if ty.F64? then
      match v
      case VFloat(f) => Value(VFloat(fl.neg(f)))
      case VInt(i) => Value(VInt(-i))
      case _ => Wrong
    else if IsInt(ty) && v.VInt? then Value(VInt(Wrap(-v.i, ty)))
    else Wrong
  }

  function EvalNot(ty: Ty, v: Val): Eval {
    if IsInt(ty) && v.VInt? then Value(VInt(Wrap(-v.i - 1, ty))) else Wrong
  }

  predicate IsUnsignedPred(p: IntPred) {
    p.Ult? || p.Ule? || p.Ugt? || p.Uge?
  }

  predicate Compare(p: IntPred, a: int, b: int) {
    match p
    case Eq => a == b
    case Ne => a != b
    case Slt => a < b
    case Ult => a < b
    case Sle => a <= b
    case Ule => a <= b
    case Sgt => a > b
    case Ugt => a > b
    case Sge => a >= b
    case Uge => a >= b
  }

  function OfBool(b: bool): Val {
    VInt(if b then 1 else 0)
  }

  function EvalIcmp(p: IntPred, ty: Ty, a: Val, b: Val): Eval {
    if !a.VInt? || !b.VInt? then Wrong
    else if !IsUnsignedPred(p) then Value(OfBool(Compare(p, a.i, b.i)))
    else if IsInt(ty) then Value(OfBool(Compare(p, Unsigned(a.i, ty), Unsigned(b.i, ty))))
    else Wrong
  }

  function EvalFcmp(fl: Floats, p: FloatPred, a: Val, b: Val): Eval {
    match (AsFloat(fl, a), AsFloat(fl, b))
    case (Some(x), Some(y)) => Value(OfBool(fl.cmp(p, x, y)))
    case _ => Wrong
  }

  function EvalConv(fl: Floats, op: ConvOp, ty: Ty, v: Val, src: Ty): Eval {
    match op
    case Sext => if IsInt(ty) && v.VInt? then Value(VInt(Wrap(if src.I1? then -v.i else v.i, ty))) else Wrong
    case Trunc => if IsInt(ty) && v.VInt? then Value(VInt(Wrap(v.i, ty))) else Wrong
    case Zext => if IsInt(ty) && IsInt(src) && v.VInt? then Value(VInt(Wrap(Unsigned(v.i, src), ty))) else Wrong
    case Sitofp => (match AsFloat(fl, v) case Some(f) => Value(VFloat(f)) case None => Wrong)
    case Fptosi =>
      if !IsInt(ty) then Wrong
      else match AsFloat(fl, v)
        case None => Wrong
        case Some(f) => (match fl.toInt(f, ty) case Some(i) => Value(VInt(Wrap(i, ty))) case None => Traps)
  }

  /** The static type of an operand, as the conversions read it. */
  function TypeOf(x: Operand): Ty {
    match x
    case Reg(_, ty) => ty
    case ConstInt(_, ty) => ty
    case ConstFloat(_) => F64
    case GlobalRef(_) => Ptr
  }

  /** How many elements a slot of that count has. */
  function Elements(count: int): nat {
    if count < 0 then 0 else count
  }

  /** As many elements with the count reduced to its type as with the count as written. */
  predicate CountKept(count: int, ty: Ty) {
    Elements(ConstVal(count, ty).i) == Elements(count)
  }

  /** A constant reduced to the range of its type. */
  function ConstVal(value: int, ty: Ty): Val {
    VInt(if IsInt(ty) then Wrap(value, ty) else value)
  }
}
