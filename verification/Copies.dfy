/** Identity arithmetic: instructions that copy one of their operands. */
module Copies {
  import opened Cir
  import opened Arith
  import opened Interp
  import opened Fold

  datatype Identity = Identity(unit: int, either: bool)

  /** The unit of an operation, and whether it may stand on the left as well. */
  function IdentityOf(op: BinOp): Option<Identity> {
    match op
    case Add => Some(Identity(0, true))
    case Or => Some(Identity(0, true))
    case Xor => Some(Identity(0, true))
    case Sub => Some(Identity(0, false))
    case Shl => Some(Identity(0, false))
    case Ashr => Some(Identity(0, false))
    case Lshr => Some(Identity(0, false))
    case Mul => Some(Identity(1, true))
    case Sdiv => Some(Identity(1, false))
    case Udiv => Some(Identity(1, false))
    case And => Some(Identity(-1, true))
    case _ => None
  }

  predicate IsUnit(x: Operand, ty: Ty, unit: int)
    requires IsInt(ty)
  {
    x.ConstInt? && WrapInt(x.value, ty) == WrapInt(unit, ty)
  }

  /** The position of the operand the instruction copies. */
  function CopiedSide(ins: Instr): Option<nat> {
    if ins.dest.None? || !ins.op.Bin? || |ins.args| != 2 || !IsInt(ins.ty) then None
    else
      match IdentityOf(ins.op.bin)
      case None => None
      case Some(id) =>
        if IsUnit(ins.args[1], ins.ty, id.unit) then Some(0)
        else if id.either && IsUnit(ins.args[0], ins.ty, id.unit) then Some(1)
        else None
  }

  /** The value the instruction is a copy of. */
  function CopySource(ins: Instr): Option<Operand> {
    match CopiedSide(ins)
    case Some(k) => Some(ins.args[k])
    case None => None
  }

  /** An integer instruction whose operation has a unit: it may become a copy. */
  predicate MayCopy(ins: Instr) {
    ins.dest.Some? && ins.op.Bin? && |ins.args| == 2 && IsInt(ins.ty) && IdentityOf(ins.op.bin).Some?
  }

  // ----- the arithmetic -----

  lemma PowPositive(ty: Ty)
    requires IsInt(ty)
    ensures Pow2(Width(ty)) >= 2 && Pow2(Width(ty)) == 2 * Pow2(Width(ty) - 1)
  {
    hide Pow2;
    HalfPow(Width(ty));
  }

  /** Equal reductions to the signed range are equal values. */
  lemma SameWrap(v: int, w: int, ty: Ty)
    requires IsInt(ty) && WrapInt(v, ty) == WrapInt(w, ty)
    ensures Wrap(v, ty) == Wrap(w, ty)
  {
    hide Pow2;
    if ty.I1? {
      BitMod(v);
      BitMod(w);
    }
  }

  lemma OnePow()
    ensures Pow2(1) == 2
  {}

  lemma BitMod(v: int)
    ensures WrapInt(v, I1) == if v % 2 == 1 then -1 else 0
  {
    assert Pow2(1) == 2 && Pow2(0) == 1;
  }

  /** Going through the unsigned reading loses nothing. */
  lemma WrapUnsigned(v: int, ty: Ty)
    requires InRange(v, ty)
    ensures Wrap(Unsigned(v, ty), ty) == v
  {
    hide Pow2;
    PowPositive(ty);
    var p := Pow2(Width(ty));
    ModBounds(v, p);
    ModShift(v % p, p);
    OnePow();
  }

  lemma ModBounds(v: int, p: int)
    requires p > 0
    ensures 0 <= v % p < p
  {}

  lemma {:induction false} BitsZero(op: BinOp, v: int, w: nat)
    requires op.Or? || op.Xor?
    ensures Bits(op, v, 0, w) == v % Pow2(w) && Bits(op, 0, v, w) == v % Pow2(w)
    decreases w
  {
    if w == 0 {
      assert v % 1 == 0;
    } else {
      BitsZero(op, v / 2, w - 1);
      ModHalf(v, Pow2(w - 1));
    }
  }

  lemma {:induction false} BitsOnes(v: int, w: nat)
    ensures Bits(And, v, -1, w) == v % Pow2(w) && Bits(And, -1, v, w) == v % Pow2(w)
    decreases w
  {
    if w == 0 {
      assert v % 1 == 0;
    } else {
      BitsOnes(v / 2, w - 1);
      ModHalf(v, Pow2(w - 1));
      assert -1 / 2 == -1 && -1 % 2 == 1;
    }
  }

  lemma ModHalf(v: int, p: int)
    requires p > 0
    ensures v % (2 * p) == v % 2 + 2 * ((v / 2) % p)
  {
    var h := v / 2;
    var q, r := h / p, h % p;
    assert h == q * p + r;
    assert v == 2 * h + v % 2;
    assert v == q * (2 * p) + (v % 2 + 2 * r);
    Quotient(v, 2 * p, q, v % 2 + 2 * r);
  }

  lemma BitsCopy(op: BinOp, ty: Ty, v: int)
    requires InRange(v, ty) && (op.Or? || op.Xor? || op.And?)
    ensures var u := if op.And? then Wrap(-1, ty) else 0;
            Wrap(Bits(op, v, u, Width(ty)), ty) == v && Wrap(Bits(op, u, v, Width(ty)), ty) == v
  {
    hide Pow2; hide Wrap; hide Bits;
    WrapUnsigned(v, ty);
    if op.And? {
      MinusOne(ty);
      if ty.I1? { AndBit(v); } else { BitsOnes(v, Width(ty)); }
    } else {
      BitsZero(op, v, Width(ty));
    }
  }

  lemma MinusOne(ty: Ty)
    requires IsInt(ty)
    ensures Wrap(-1, ty) == if ty.I1? then 1 else -1
  {
    hide Pow2;
    PowPositive(ty);
    var p := Pow2(Width(ty));
    ModShift(p - 1, p);
  }

  lemma AndBit(v: int)
    requires InRange(v, I1)
    ensures Wrap(Bits(And, v, 1, 1), I1) == v && Wrap(Bits(And, 1, v, 1), I1) == v
  {
    assert v == 0 || v == 1;
    assert Bits(And, 0, 0, 0) == 0;
  }

  lemma SmallUnits(ty: Ty)
    requires IsInt(ty)
    ensures Wrap(0, ty) == 0 && Wrap(1, ty) == 1 && Unsigned(0, ty) == 0 && Unsigned(1, ty) == 1
  {
    hide Pow2;
    PowPositive(ty);
    var p := Pow2(Width(ty));
    ModShift(0, p);
    ModShift(1, p);
    if !ty.I1? { AtLeastFour(Width(ty)); }
  }

  lemma DivOne(v: int)
    ensures DivTrunc(v, 1) == v
  {}

  lemma PowZero()
    ensures Pow2(0) == 1
  {}

  lemma ZeroMod(w: int)
    requires w > 0
    ensures 0 % w == 0
  {}

  /** The unit on the right, or on either side, leaves the other operand. */
  lemma UnitCopies(op: BinOp, ty: Ty, v: int, u: int)
    requires IsInt(ty) && IdentityOf(op).Some? && !IsFloatOp(op)
    requires u == Wrap(IdentityOf(op).value.unit, ty)
    requires InRange(v, ty)
    ensures IntBin(op, ty, v, u) == Value(VInt(v))
    ensures IdentityOf(op).value.either ==> IntBin(op, ty, u, v) == Value(VInt(v))
  {
    hide Pow2; hide Wrap; hide Bits; hide Unsigned; hide DivTrunc;
    SmallUnits(ty);
    PowZero();
    WrapUnsigned(v, ty);
    match op
    case Or => BitsCopy(op, ty, v);
    case Xor => BitsCopy(op, ty, v);
    case And => BitsCopy(op, ty, v);
    case Sdiv => DivOne(v);
    case Udiv =>
    case Add =>
    case Sub =>
    case Mul =>
    case _ => ZeroMod(Width(ty));
  }
}
