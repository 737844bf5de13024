/** Folding one instruction on constants, against what the interpreter computes. */
module Fold {
  import opened Cir
  import opened Arith
  import opened Interp

  predicate IsConst(x: Operand) {
    x.ConstInt? || x.ConstFloat?
  }

  /** A constant reduced to the range of its own type. */
  function Reduced(x: Operand): Operand {
    if x.ConstInt? && IsInt(x.ty) then ConstInt(Wrap(x.value, x.ty), x.ty) else x
  }

  function FoldDivRem(op: BinOp, lhs: int, rhs: int, ty: Ty): Option<Operand>
    requires IsInt(ty)
  {
    if rhs == 0 then None
    else if (op.Sdiv? || op.Srem?) && lhs == MinInt(ty) && rhs == -1 then None
    else if op.Udiv? || op.Urem? then
      var l, r := Unsigned(lhs, ty), Unsigned(rhs, ty);
      if r == 0 then None else Some(ConstInt(Wrap(if op.Udiv? then l / r else l % r, ty), ty))
    else
      var q := Abs(lhs) / Abs(rhs);
      var quotient := if (lhs < 0) != (rhs < 0) then -q else q;
      Some(ConstInt(Wrap(if op.Sdiv? then quotient else lhs - quotient * rhs, ty), ty))
  }

  function FoldInt(op: BinOp, ty: Ty, a: int, b: int): Option<Operand>
    requires IsInt(ty) && !IsFloatOp(op)
  {
    match op
    case Add => Some(ConstInt(Wrap(a + b, ty), ty))
    case Sub => Some(ConstInt(Wrap(a - b, ty), ty))
    case Mul => Some(ConstInt(Wrap(a * b, ty), ty))
    case And => Some(ConstInt(Wrap(Bits(op, a, b, Width(ty)), ty), ty))
    case Or => Some(ConstInt(Wrap(Bits(op, a, b, Width(ty)), ty), ty))
    case Xor => Some(ConstInt(Wrap(Bits(op, a, b, Width(ty)), ty), ty))
    case Shl => Some(ConstInt(Wrap(a * Pow2(b % Width(ty)), ty), ty))
    case Ashr => Some(ConstInt(Wrap(a / Pow2(b % Width(ty)), ty), ty))
    case Lshr => Some(ConstInt(Wrap(Unsigned(a, ty) / Pow2(b % Width(ty)), ty), ty))
    case _ => FoldDivRem(op, a, b, ty)
  }

  /** A constant as a float. */
  function FloatOfConst(fl: Floats, x: Operand): Option<Float> {
    match x
    case ConstFloat(f) => Some(f)
    case ConstInt(v, _) => Some(fl.ofInt(v))
    case _ => None
  }

  function Bit1(b: bool): Operand {
    ConstInt(if b then 1 else 0, I1)
  }

  function FoldBin(fl: Floats, op: BinOp, ty: Ty, x: Operand, y: Operand): Option<Operand> {
    if IsFloatOp(op) then
      match (FloatOfConst(fl, x), FloatOfConst(fl, y))
      case (Some(a), Some(b)) => if op.Fdiv? then None else Some(ConstFloat(fl.bin(op, a, b)))
      case _ => None
    else if IsInt(ty) && x.ConstInt? && y.ConstInt? then FoldInt(op, ty, x.value, y.value)
    else None
  }

  function FoldConv(fl: Floats, op: ConvOp, ty: Ty, x: Operand): Option<Operand> {
    match op
    case Sext => if IsInt(ty) && x.ConstInt? then Some(ConstInt(Wrap(x.value, ty), ty)) else None
    case Trunc => if IsInt(ty) && x.ConstInt? then Some(ConstInt(Wrap(x.value, ty), ty)) else None
    case Zext =>
      if IsInt(ty) && x.ConstInt? && IsInt(x.ty) then Some(ConstInt(Wrap(Unsigned(x.value, x.ty), ty), ty)) else None
    case Sitofp => (match FloatOfConst(fl, x) case Some(f) => Some(ConstFloat(f)) case None => None)
    case Fptosi => None
  }

  predicate IsNanConst(fl: Floats, x: Operand) {
    x.ConstFloat? && fl.isNan(x.float)
  }

  /** The constant an instruction computes, if it can be folded. */
  function FoldInstr(fl: Floats, ins: Instr): Option<Operand> {
    var xs := ins.args;
    if exists k :: 0 <= k < |xs| && (!IsConst(xs[k]) || IsNanConst(fl, xs[k])) then None
    else
      match ins.op
      case Bin(op) => if |xs| == 2 then FoldBin(fl, op, ins.ty, Reduced(xs[0]), Reduced(xs[1])) else None
      case Not =>
        if |xs| == 1 && xs[0].ConstInt? && IsInt(ins.ty)
        then Some(ConstInt(Wrap(-Reduced(xs[0]).value - 1, ins.ty), ins.ty)) else None
      case Neg =>
        if |xs| != 1 then None
        else if ins.ty.F64? then
          if xs[0].ConstFloat? then Some(ConstFloat(fl.neg(xs[0].float))) else None
        else if xs[0].ConstInt? && IsInt(ins.ty) then Some(ConstInt(Wrap(-Reduced(xs[0]).value, ins.ty), ins.ty))
        else None
      case Icmp(p) =>
        if |xs| != 2 || !xs[0].ConstInt? || !xs[1].ConstInt? then None
        else
          var a, b := Reduced(xs[0]).value, Reduced(xs[1]).value;
          if !IsUnsignedPred(p) then Some(Bit1(Compare(p, a, b)))
          else if IsInt(ins.ty) then Some(Bit1(Compare(p, Unsigned(a, ins.ty), Unsigned(b, ins.ty))))
          else None
      case Fcmp(p) => (
        if |xs| != 2 then None
        else match (FloatOfConst(fl, Reduced(xs[0])), FloatOfConst(fl, Reduced(xs[1])))
          case (Some(a), Some(b)) => Some(Bit1(fl.cmp(p, a, b)))
          case _ => None)
      case Conv(c) => if |xs| == 1 then FoldConv(fl, c, ins.ty, Reduced(xs[0])) else None
      case _ => None
  }

  // ----- types -----

  /** The type of the register an instruction defines. */
  function ResultTy(ins: Instr): Ty {
    match ins.op
    case Icmp(_) => I1
    case Fcmp(_) => I1
    case Alloca => Ptr
    case Gep => Ptr
    case _ => ins.ty
  }

  predicate ArgsHave(ins: Instr, n: nat, ty: Ty) {
    |ins.args| == n && forall k :: 0 <= k < n ==> TypeOf(ins.args[k]) == ty
  }

  /** The operand types the operation calls for. */
  predicate WellTyped(ins: Instr) {
    match ins.op
    case Bin(op) => if IsFloatOp(op) then ins.ty.F64? && ArgsHave(ins, 2, F64)
        else IsInt(ins.ty) && ArgsHave(ins, 2, ins.ty)
    case Neg => (IsInt(ins.ty) || ins.ty.F64?) && ArgsHave(ins, 1, ins.ty)
    case Not => IsInt(ins.ty) && ArgsHave(ins, 1, ins.ty)
    case Icmp(_) => ArgsHave(ins, 2, ins.ty)
    case Fcmp(_) => ArgsHave(ins, 2, F64)
    case Conv(c) =>
      && |ins.args| == 1
      && (if c.Sitofp? then ins.ty.F64? else IsInt(ins.ty))
      && (if c.Fptosi? then TypeOf(ins.args[0]).F64? else IsInt(TypeOf(ins.args[0])))
    case BrCond(_, _) => ArgsHave(ins, 1, I1)
    case _ => true
  }

  /** Sign extension from i1 to a wider type, which the folder gets wrong. */
  predicate ExtendsBool(ins: Instr) {
    ins.op == Conv(Sext) && |ins.args| == 1 && TypeOf(ins.args[0]).I1? && !ins.ty.I1?
  }

  // ----- arithmetic -----

  lemma ModShift(u: int, p: int)
    requires 0 <= u < p
    ensures (u - p) % p == u && u % p == u
  {
    assert (u - p) == (-1) * p + u;
  }

  lemma {:induction false} ModAdd(b: int, w: int, k: nat)
    requires w > 0
    ensures (b + w * k) % w == b % w
  {
    if k == 0 {
      assert w * k == 0;
    } else {
      ModAdd(b, w, k - 1);
      assert b + w * k == (b + w * (k - 1)) + w;
      ModPlus(b + w * (k - 1), w);
    }
  }

  lemma ModPlus(b: int, w: int)
    requires w > 0
    ensures (b + w) % w == b % w
  {
    var q, r := b / w, b % w;
    assert b + w == (q + 1) * w + r;
    Quotient(b + w, w, q + 1, r);
  }

  lemma Quotient(x: int, w: int, q: int, r: int)
    requires w > 0 && 0 <= r < w && x == q * w + r
    ensures x % w == r
  {
    var d := q - x / w;
    assert x == (x / w) * w + x % w;
    assert d * w == x % w - r;
    assert d >= 1 ==> d * w >= w;
    assert d <= -1 ==> d * w <= -w;
  }

  lemma HalfPow(n: nat)
    requires n > 0
    ensures Pow2(n) == 2 * Pow2(n - 1)
  {}

  /** Reduction to a type is idempotent. */
  lemma WrapTwice(v: int, ty: Ty)
    requires IsInt(ty)
    ensures Wrap(Wrap(v, ty), ty) == Wrap(v, ty)
  {
    hide Pow2;
    if !ty.I1? {
      var p := Pow2(Width(ty));
      HalfPow(Width(ty));
      var u := v % p;
      ModShift(u, p);
    }
  }

  /** A shift count taken modulo the width is the same before and after the wrap to unsigned. */
  lemma ShiftCount(v: int, ty: Ty)
    requires InRange(v, ty)
    ensures Unsigned(v, ty) % Width(ty) == v % Width(ty)
  {
    hide Pow2;
    HalfPow(Width(ty));
    var p := Pow2(Width(ty));
    var u := v % p;
    if !ty.I1? {
      if u != v {
        assert v == u - p;
        var k := WidthDivides(ty);
        ModAdd(v, Width(ty), k);
      }
    } else {
      assert v % 1 == 0 && Unsigned(v, ty) % 1 == 0;
    }
  }

  lemma SmallPowers()
    ensures Pow2(5) == 32 && Pow2(6) == 64
  {}

  lemma WidthDivides(ty: Ty) returns (k: nat)
    requires ty.I32? || ty.I64?
    ensures Pow2(Width(ty)) == Width(ty) * k
  {
    hide Pow2;
    SmallPowers();
    if ty.I32? {
      k := Pow2(27);
      PowSum(27, 5);
    } else {
      k := Pow2(58);
      PowSum(58, 6);
    }
  }

  lemma {:induction false} PowSum(a: nat, b: nat)
    ensures Pow2(a + b) == Pow2(a) * Pow2(b)
  {
    if b > 0 {
      PowSum(a, b - 1);
      assert Pow2(a) * (2 * Pow2(b - 1)) == 2 * (Pow2(a) * Pow2(b - 1));
    }
  }

  // ----- folding agrees with the interpreter -----

  predicate FoldsTo(e: Eval, c: Option<Operand>) {
    c.Some? ==> IsConst(c.value) && e == Value(ConstValue(c.value))
  }

  function ConstValue(c: Operand): Val
    requires IsConst(c)
  {
    match c
    case ConstInt(v, ty) => ConstVal(v, ty)
    case ConstFloat(f) => VFloat(f)
  }

  lemma FoldIntAgrees(op: BinOp, ty: Ty, a: int, b: int)
    requires InRange(a, ty) && InRange(b, ty) && !IsFloatOp(op)
    ensures FoldsTo(IntBin(op, ty, a, b), FoldInt(op, ty, a, b))
    ensures FoldInt(op, ty, a, b).Some? ==> TypeOf(FoldInt(op, ty, a, b).value) == ty
  {
    hide Wrap; hide Pow2; hide Bits; hide Unsigned; hide Abs; hide MinInt;
    ShiftCount(b, ty);
    var c := FoldInt(op, ty, a, b);
    if c.Some? {
      FoldIntRange(op, ty, a, b);
    }
  }

  lemma FoldIntRange(op: BinOp, ty: Ty, a: int, b: int)
    requires IsInt(ty) && !IsFloatOp(op)
    ensures var c := FoldInt(op, ty, a, b);
        c.Some? ==> c.value.ConstInt? && c.value.ty == ty && InRange(c.value.value, ty)
  {
    hide Wrap; hide Pow2; hide Bits; hide Unsigned; hide Abs; hide MinInt;
    forall v ensures Wrap(Wrap(v, ty), ty) == Wrap(v, ty) { WrapTwice(v, ty); }
  }

  /** Sign-extending a true i1: the interpreter gives -1, the folder 1. */
  predicate ExtendsTrue(ins: Instr) {
    && ins.op == Conv(Sext) && |ins.args| == 1 && ins.args[0].ConstInt? && ins.args[0].ty.I1?
    && !ins.ty.I1? && ins.args[0].value % 2 == 1
  }

  /** The values of constant operands. */
  function ConstValues(xs: seq<Operand>): (vs: seq<Val>)
    requires forall k :: 0 <= k < |xs| ==> IsConst(xs[k])
    ensures |vs| == |xs| && forall k :: 0 <= k < |xs| ==> vs[k] == ConstValue(xs[k])
  {
    seq(|xs|, k requires 0 <= k < |xs| => ConstValue(xs[k]))
  }

  lemma ReducedValue(x: Operand)
    requires IsConst(x)
    ensures IsConst(Reduced(x)) && TypeOf(Reduced(x)) == TypeOf(x)
    ensures x.ConstInt? ==> Reduced(x).ConstInt? && ConstValue(x) == VInt(Reduced(x).value)
    ensures x.ConstInt? && IsInt(x.ty) ==> InRange(Reduced(x).value, x.ty)
    ensures x.ConstFloat? ==> Reduced(x) == x
  {
    hide Wrap;
    if x.ConstInt? && IsInt(x.ty) { WrapTwice(x.value, x.ty); }
  }

  lemma BitValue(b: bool)
    ensures ConstValue(Bit1(b)) == OfBool(b)
  {}

  /** Constants as the printed form has them: an f64 constant is not an integer. */
  predicate PlainConst(x: Operand) {
    x.ConstInt? ==> !x.ty.F64?
  }

  lemma FoldBinAgrees(env: Env, ins: Instr)
    requires ins.op.Bin? && WellTyped(ins) && FoldInstr(env.fl, ins).Some?
    requires forall k :: 0 <= k < |ins.args| ==> IsConst(ins.args[k]) && PlainConst(ins.args[k])
    ensures FoldsTo(EvalPure(env, ins.op, ins.ty, SourceType(ins), ConstValues(ins.args)), FoldInstr(env.fl, ins))
    ensures TypeOf(FoldInstr(env.fl, ins).value) == ResultTy(ins)
  {
    hide Wrap, FoldInt, IntBin;
    var x, y := ins.args[0], ins.args[1];
    ReducedValue(x);
    ReducedValue(y);
    if !IsFloatOp(ins.op.bin) {
      FoldIntAgrees(ins.op.bin, ins.ty, Reduced(x).value, Reduced(y).value);
    }
  }

  lemma FoldUnaryAgrees(env: Env, ins: Instr)
    requires (ins.op.Neg? || ins.op.Not?) && WellTyped(ins) && FoldInstr(env.fl, ins).Some?
    requires forall k :: 0 <= k < |ins.args| ==> IsConst(ins.args[k]) && PlainConst(ins.args[k])
    ensures FoldsTo(EvalPure(env, ins.op, ins.ty, SourceType(ins), ConstValues(ins.args)), FoldInstr(env.fl, ins))
    ensures TypeOf(FoldInstr(env.fl, ins).value) == ResultTy(ins)
  {
    hide Wrap;
    var x := ins.args[0];
    ReducedValue(x);
    if x.ConstInt? {
      var v := Reduced(x).value;
      WrapTwice(-v, ins.ty);
      WrapTwice(-v - 1, ins.ty);
    }
  }

  lemma FoldCmpAgrees(env: Env, ins: Instr)
    requires (ins.op.Icmp? || ins.op.Fcmp?) && WellTyped(ins) && FoldInstr(env.fl, ins).Some?
    requires forall k :: 0 <= k < |ins.args| ==> IsConst(ins.args[k]) && PlainConst(ins.args[k])
    ensures FoldsTo(EvalPure(env, ins.op, ins.ty, SourceType(ins), ConstValues(ins.args)), FoldInstr(env.fl, ins))
    ensures TypeOf(FoldInstr(env.fl, ins).value) == ResultTy(ins)
  {
    hide Wrap; hide Compare; hide Unsigned; hide Bit1;
    ReducedValue(ins.args[0]);
    ReducedValue(ins.args[1]);
    BitValue(true);
    BitValue(false);
    BitType(true);
    BitType(false);
  }

  lemma BitType(b: bool)
    ensures Bit1(b).ConstInt? && TypeOf(Bit1(b)) == I1
  {}

  lemma FoldConvAgrees(env: Env, ins: Instr)
    requires ins.op.Conv? && WellTyped(ins) && FoldInstr(env.fl, ins).Some? && !ExtendsTrue(ins)
    requires forall k :: 0 <= k < |ins.args| ==> IsConst(ins.args[k]) && PlainConst(ins.args[k])
    ensures FoldsTo(EvalPure(env, ins.op, ins.ty, SourceType(ins), ConstValues(ins.args)), FoldInstr(env.fl, ins))
    ensures TypeOf(FoldInstr(env.fl, ins).value) == ResultTy(ins)
  {
    hide WrapInt;
    var x := ins.args[0];
    ReducedValue(x);
    if IsInt(ins.ty) && x.ConstInt? {
      var v := Reduced(x).value;
      WrapTwice(v, ins.ty);
      WrapTwice(Unsigned(v, x.ty), ins.ty);
      if x.ty.I1? && ins.op.conv.Sext? { ExtendBit(v, ins.ty); }
    }
  }

  lemma ExtendBit(v: int, ty: Ty)
    requires IsInt(ty) && (v == 0 || (v == 1 && ty.I1?))
    ensures Wrap(-v, ty) == Wrap(v, ty)
  {}

  /** A folded instruction is one whose operation the interpreter carries out without a
      trap, with the very value and type of the constant; the one exception is
      sign-extending a true i1. */
  lemma FoldAgrees(env: Env, ins: Instr)
    requires WellTyped(ins) && !ExtendsTrue(ins) && FoldInstr(env.fl, ins).Some?
    requires forall k :: 0 <= k < |ins.args| ==> PlainConst(ins.args[k])
    ensures forall k :: 0 <= k < |ins.args| ==> IsConst(ins.args[k])
    ensures IsPure(ins.op) && |ins.args| == Arity(ins.op)
    ensures FoldsTo(EvalPure(env, ins.op, ins.ty, SourceType(ins), ConstValues(ins.args)), FoldInstr(env.fl, ins))
    ensures TypeOf(FoldInstr(env.fl, ins).value) == ResultTy(ins)
  {
    hide Wrap, EvalPure, FoldBin, FoldConv, Compare, FoldsTo, TypeOf;
    match ins.op
    case Bin(_) => FoldBinAgrees(env, ins);
    case Neg => FoldUnaryAgrees(env, ins);
    case Not => FoldUnaryAgrees(env, ins);
    case Icmp(_) => FoldCmpAgrees(env, ins);
    case Fcmp(_) => FoldCmpAgrees(env, ins);
    case Conv(_) => FoldConvAgrees(env, ins);
    case _ =>
  }

  /** The exception is real, and it is the only one: a folded sign extension agrees exactly
      when it does not extend a true i1 to a wider type. */
  lemma FoldSextIff(env: Env, ins: Instr)
    requires ins.op == Conv(Sext) && WellTyped(ins) && ins.args[0].ConstInt?
    ensures FoldsTo(EvalPure(env, ins.op, ins.ty, SourceType(ins), ConstValues(ins.args)), FoldInstr(env.fl, ins)) <==>
        !ExtendsTrue(ins)
  {
    if ExtendsTrue(ins) {
      SextDiffers(ins.ty);
    } else {
      FoldConvAgrees(env, ins);
    }
  }

  lemma SextDiffers(ty: Ty)
    requires ty.I32? || ty.I64?
    ensures Wrap(-1, ty) != Wrap(1, ty) && Wrap(Wrap(1, ty), ty) == Wrap(1, ty)
  {
    hide Pow2;
    var p := Pow2(Width(ty));
    WrapTwice(1, ty);
    AtLeastFour(Width(ty));
    ModShift(p - 1, p);
    ModShift(1, p);
  }

  lemma AtLeastFour(n: nat)
    requires n >= 2
    ensures Pow2(n) >= 4
  {
    PowSum(n - 2, 2);
    assert Pow2(2) == 4;
    assert Pow2(n - 2) * 4 >= 4;
  }
}
