/** Stack bytecode and its emission from CIR. */
module Bytecode {
  import opened Cir
  import opened Arith
  import opened Interp

  datatype IntMnemonic = ADD | SUB | MUL | DIV_S | DIV_U | REM_S | REM_U | AND | OR | XOR | SHL | SHR_S | SHR_U
  datatype FloatMnemonic = FADD | FSUB | FMUL | FDIV
  datatype CmpMnemonic = EQ | NE | LT_S | LE_S | GT_S | GE_S | LT_U | LE_U | GT_U | GE_U
  datatype FcmpMnemonic = FEQ | FNE | FLT | FLE | FGT | FGE

  /** Which integer type an opcode works on; without a suffix it is i32. */
  datatype Suffix = Plain | Dot64 | Dot1

  datatype StackOp =
    | PushI(n: int)
    | PushF(f: Float)
    | LoadL(l: Name)
    | StoreL(l: Name)
    | LoadG(g: Name)
    | StoreG(g: Name)
    | Drop
    | IntOp(im: IntMnemonic, suffix: Suffix)
    | FloatOp(fm: FloatMnemonic)
    | NegOp(suffix: Suffix)
    | NotOp(suffix: Suffix)
    | FNegOp
    | CmpOp(cm: CmpMnemonic, suffix: Suffix)
    | FcmpOp(fc: FcmpMnemonic)
    | Convert(conv: ConvOp, src: Ty, dst: Ty)
    | AllocaOp(count: int)
    | LoadOp
    | StoreOp
    | GepOp
    | Jmp(target: Label)
    | Jz(target: Label)
    | CallOp(callee: Name, nargs: nat)
    | RetOp
    | PrintIOp
    | PrintFOp
    | TrapOp

  // ----- opcode tables of the emitter -----

  function IntTable(op: BinOp): Option<IntMnemonic> {
    match op
    case Add => Some(ADD)
    case Sub => Some(SUB)
    case Mul => Some(MUL)
    case Sdiv => Some(DIV_S)
    case Udiv => Some(DIV_U)
    case Srem => Some(REM_S)
    case Urem => Some(REM_U)
    case And => Some(AND)
    case Or => Some(OR)
    case Xor => Some(XOR)
    case Shl => Some(SHL)
    case Ashr => Some(SHR_S)
    case Lshr => Some(SHR_U)
    case _ => None
  }

  function FloatTable(op: BinOp): Option<FloatMnemonic> {
    match op
    case Fadd => Some(FADD)
    case Fsub => Some(FSUB)
    case Fmul => Some(FMUL)
    case Fdiv => Some(FDIV)
    case _ => None
  }

  function CmpTable(p: IntPred): CmpMnemonic {
    match p
    case Eq => EQ
    case Ne => NE
    case Slt => LT_S
    case Sle => LE_S
    case Sgt => GT_S
    case Sge => GE_S
    case Ult => LT_U
    case Ule => LE_U
    case Ugt => GT_U
    case Uge => GE_U
  }

  function FcmpTable(p: FloatPred): FcmpMnemonic {
    match p
    case Oeq => FEQ
    case One => FNE
    case Olt => FLT
    case Ole => FLE
    case Ogt => FGT
    case Oge => FGE
  }

  function SuffixTable(ty: Ty): Option<Suffix> {
    match ty
    case I32 => Some(Plain)
    case I64 => Some(Dot64)
    case I1 => Some(Dot1)
    case Ptr => Some(Plain)
    case Void => Some(Plain)
    case F64 => None
  }

  // ----- lowering one instruction; None where the emitter raises -----

  function PushValue(x: Operand, locals: set<Name>): Option<StackOp> {
    match x
    case Reg(name, _) => if name in locals then Some(LoadL(name)) else None
    case ConstFloat(f) => Some(PushF(f))
    case ConstInt(value, ty) => Some(PushI(if IsInt(ty) then Wrap(value, ty) else value))
    case GlobalRef(_) => None
  }

  function PushAll(xs: seq<Operand>, locals: set<Name>): (r: Option<seq<StackOp>>)
    ensures r.Some? ==> |r.value| == |xs|
  {
    if xs == [] then Some([])
    else match (PushAll(xs[..|xs| - 1], locals), PushValue(xs[|xs| - 1], locals))
      case (Some(ops), Some(op)) => Some(ops + [op])
      case _ => None
  }

  function Suffixed(ty: Ty, make: Suffix -> StackOp): Option<StackOp> {
    match SuffixTable(ty)
    case Some(s) => Some(make(s))
    case None => None
  }

  /** The opcode that consumes the pushed operands. */
  function Opcode(ins: Instr): Option<StackOp> {
    match ins.op
    case Load => Some(LoadOp)
    case Store => Some(StoreOp)
    case Gep => Some(GepOp)
    case PrintI32 => Some(PrintIOp)
    case PrintF64 => Some(PrintFOp)
    case Trap => Some(TrapOp)
    case Icmp(p) => Suffixed(ins.ty, s => CmpOp(CmpTable(p), s))
    case Fcmp(p) => Some(FcmpOp(FcmpTable(p)))
    case Conv(c) => if ins.args == [] then None else Some(Convert(c, SourceType(ins), ins.ty))
    case Bin(b) =>
      if ins.ty.F64? && FloatTable(b).Some? then Some(FloatOp(FloatTable(b).value))
      else if IntTable(b).Some? then Suffixed(ins.ty, s => IntOp(IntTable(b).value, s))
      else None
    case Neg => if ins.ty.F64? then Some(FNegOp) else Suffixed(ins.ty, s => NegOp(s))
    case Not => Suffixed(ins.ty, s => NotOp(s))
    case _ => None
  }

  /** Operands left to right, then the opcode, then the result parked in its local. */
  function Sequence(pushes: Option<seq<StackOp>>, op: Option<StackOp>,
                    tail: Option<seq<StackOp>>): Option<seq<StackOp>> {
    match (pushes, op, tail)
    case (Some(ps), Some(o), Some(t)) => Some(ps + [o] + t)
    case _ => None
  }

  function Park(ins: Instr): Option<seq<StackOp>> {
    match ins.dest
    case Some(d) => Some([StoreL(d)])
    case None => None
  }

  /** A jump is left out when its target is the next block anyway. */
  function JumpTo(l: Label, next: Option<Label>): seq<StackOp> {
    if next == Some(l) then [] else [Jmp(l)]
  }

  function LowerInstr(ins: Instr, locals: set<Name>, next: Option<Label>): Option<seq<StackOp>> {
    var args := ins.args;
    match ins.op
    case Br(l) => Some(JumpTo(l, next))
    case BrCond(t, e) => (
      match PushAll(args, locals)
      case Some(ps) => Some(ps + [Jz(e)] + JumpTo(t, next))
      case None => None)
    case Ret => (
      match PushAll(args, locals)
      case Some(ps) => Some(ps + [RetOp])
      case None => None)
    case Call(callee) =>
      Sequence(PushAll(args, locals), Some(CallOp(callee, |args|)), if ins.dest.Some? then Park(ins) else Some([Drop]))
    case Alloca =>
      if args == [] then Sequence(Some([]), Some(AllocaOp(1)), Park(ins))
      else if args[0].ConstInt? then Sequence(Some([]), Some(AllocaOp(args[0].value)), Park(ins))
      else None
    case Load =>
      if args == [] then None
      else if args[0].GlobalRef? then Sequence(Some([]), Some(LoadG(args[0].name)), Park(ins))
      else Sequence(PushAll(args, locals), Some(LoadOp), Park(ins))
    case Store =>
      if |args| < 2 then None
      else if args[1].GlobalRef? then Sequence(PushAll(args[..1], locals), Some(StoreG(args[1].name)), Some([]))
      else Sequence(PushAll(args, locals), Some(StoreOp), if ins.dest.Some? then Park(ins) else Some([]))
    case _ =>
      Sequence(PushAll(args, locals), Opcode(ins), if ins.dest.Some? then Park(ins) else Some([]))
  }

  function LowerInstrs(instrs: seq<Instr>, locals: set<Name>, next: Option<Label>): Option<seq<StackOp>> {
    if instrs == [] then Some([])
    else match (LowerInstr(instrs[0], locals, next), LowerInstrs(instrs[1..], locals, next))
      case (Some(ops), Some(rest)) => Some(ops + rest)
      case _ => None
  }

  // ----- locals, use counts, liveness -----

  /** Every parameter and defined register has a local. */
  function LocalTable(f: Function): set<Name> {
    (set p | p in f.params) + (set b, i | b in f.blocks && i in b.instrs && i.dest.Some? :: i.dest.value)
  }

  /** How many operands of `xs` read register `l`. */
  function Reads(xs: seq<Operand>, l: Name): nat {
    if xs == [] then 0
    else Reads(xs[..|xs| - 1], l) + (if xs[|xs| - 1].Reg? && xs[|xs| - 1].name == l then 1 else 0)
  }

  /** How many times a block reads register `l`. */
  function UseCount(instrs: seq<Instr>, l: Name): nat {
    if instrs == [] then 0 else Reads(instrs[0].args, l) + UseCount(instrs[1..], l)
  }

  /** Is `l` read by some block other than number `n`? */
  predicate LiveOut(f: Function, n: nat, l: Name) {
    exists k :: 0 <= k < |f.blocks| && k != n && UseCount(f.blocks[k].instrs, l) > 0
  }

  /** The peephole may keep `l` on the stack within block `n`. */
  predicate OneRead(f: Function, n: nat, l: Name)
    requires n < |f.blocks|
  {
    UseCount(f.blocks[n].instrs, l) == 1 && !LiveOut(f, n, l)
  }

  /** Delete each `StoreL l; LoadL l` whose local is in `dead`. */
  function Peephole(s: seq<StackOp>, dead: Name -> bool): seq<StackOp> {
    if |s| >= 2 && s[0].StoreL? && s[1].LoadL? && s[0].l == s[1].l && dead(s[0].l) then Peephole(s[2..], dead)
    else if s == [] then []
    else [s[0]] + Peephole(s[1..], dead)
  }

  /** The scan with an index and an output list. */
  method PeepholeScan(s: seq<StackOp>, dead: Name -> bool) returns (out: seq<StackOp>)
    ensures out == Peephole(s, dead)
  {
    out := [];
    var i := 0;
    while i < |s|
      invariant 0 <= i <= |s|
      invariant Peephole(s, dead) == out + Peephole(s[i..], dead)
      decreases |s| - i
    {
      if i + 1 < |s| && s[i].StoreL? && s[i + 1].LoadL? && s[i].l == s[i + 1].l && dead(s[i].l) {
        assert s[i..][2..] == s[i + 2..];
        i := i + 2;
      } else {
        assert s[i..][1..] == s[i + 1..];
        out := out + [s[i]];
        i := i + 1;
      }
    }
  }

  // ----- layout: blocks in order, labels as positions -----

  datatype Code = Code(params: seq<Name>, code: seq<StackOp>, labels: map<Label, nat>)

  /** One line of bytecode text. */
  datatype Line = Mark(name: Label) | Ins(op: StackOp)

  function OpLines(ops: seq<StackOp>): (ls: seq<Line>)
    ensures |ls| == |ops|
  {
    seq(|ops|, i requires 0 <= i < |ops| => Ins(ops[i]))
  }

  /** The first `n` blocks; the first block carries no label. */
  function BlockLines(ids: seq<Label>, codes: seq<seq<StackOp>>, n: nat): seq<Line>
    requires |ids| == |codes| && n <= |codes|
  {
    if n == 0 then []
    else BlockLines(ids, codes, n - 1) + (if n > 1 then [Mark(ids[n - 1])] else []) + OpLines(codes[n - 1])
  }

  /** Reading lines: an operation takes the next position, a label names it. */
  function Parse(lines: seq<Line>): (seq<StackOp>, map<Label, nat>) {
    if lines == [] then ([], map[])
    else
      var (code, labels) := Parse(lines[..|lines| - 1]);
      match lines[|lines| - 1]
      case Mark(l) => (code, labels[l := |code|])
      case Ins(op) => (code + [op], labels)
  }

  method ParseLines(lines: seq<Line>) returns (code: seq<StackOp>, labels: map<Label, nat>)
    ensures (code, labels) == Parse(lines)
  {
    code, labels := [], map[];
    for i := 0 to |lines|
      invariant (code, labels) == Parse(lines[..i])
    {
      assert lines[..i + 1][..i] == lines[..i];
      match lines[i]
      case Mark(l) => labels := labels[l := |code|];
      case Ins(op) => code := code + [op];
    }
    assert lines[..|lines|] == lines;
  }

  function Assemble(params: seq<Name>, ids: seq<Label>, codes: seq<seq<StackOp>>): Code
    requires |ids| == |codes|
  {
    var (code, labels) := Parse(BlockLines(ids, codes, |codes|));
    Code(params, code, labels)
  }

  function Ids(f: Function): (r: seq<Label>)
    ensures |r| == |f.blocks|
  {
    seq(|f.blocks|, i requires 0 <= i < |f.blocks| => f.blocks[i].id)
  }

  function NextLabel(f: Function, n: nat): Option<Label> {
    if n + 1 < |f.blocks| then Some(f.blocks[n + 1].id) else None
  }

  /** The unoptimised code of block `n`. */
  function NaiveBlock(f: Function, n: nat): Option<seq<StackOp>>
    requires n < |f.blocks|
  {
    LowerInstrs(f.blocks[n].instrs, LocalTable(f), NextLabel(f, n))
  }

  /** Can every instruction be lowered? */
  predicate Emits(f: Function) {
    forall n :: 0 <= n < |f.blocks| ==> NaiveBlock(f, n).Some?
  }

  function NaiveBlocks(f: Function): (r: seq<seq<StackOp>>)
    requires Emits(f)
    ensures |r| == |f.blocks|
  {
    seq(|f.blocks|, n requires 0 <= n < |f.blocks| => NaiveBlock(f, n).value)
  }

  function TunedBlocks(f: Function): (r: seq<seq<StackOp>>)
    requires Emits(f)
    ensures |r| == |f.blocks|
  {
    seq(|f.blocks|, n requires 0 <= n < |f.blocks| => Peephole(NaiveBlock(f, n).value, l => OneRead(f, n, l)))
  }

  function NaiveCode(f: Function): Code
    requires Emits(f)
  {
    Assemble(f.params, Ids(f), NaiveBlocks(f))
  }

  /** What the emitter produces for `f`. */
  function EmittedCode(f: Function): Code
    requires Emits(f)
  {
    Assemble(f.params, Ids(f), TunedBlocks(f))
  }

  /** The emitter's loop over the blocks: lower, tune, label, append.  It raises exactly
      when some instruction cannot be lowered. */
  method EmitFunction(f: Function) returns (lines: Option<seq<Line>>)
    ensures lines.Some? <==> Emits(f)
    ensures lines.Some? ==> lines.value == BlockLines(Ids(f), TunedBlocks(f), |f.blocks|)
  {
    hide LowerInstrs, LocalTable, Peephole, UseCount;
    var out: seq<Line> := [];
    ghost var codes: seq<seq<StackOp>> := [];
    for n := 0 to |f.blocks|
      invariant |codes| == n && forall k :: 0 <= k < n ==> NaiveBlock(f, k).Some?
      invariant forall k :: 0 <= k < n ==> codes[k] == Peephole(NaiveBlock(f, k).value, l => OneRead(f, k, l))
      invariant out == BlockLines(Ids(f)[..n], codes, n)
    {
      var ops := NaiveBlock(f, n);
      if ops.None? {
        return None;
      }
      var tuned := PeepholeScan(ops.value, l => OneRead(f, n, l));
      BlockLinesPrefix(Ids(f)[..n], Ids(f)[..n + 1], codes, codes + [tuned], n);
      out := out + (if n > 0 then [Mark(f.blocks[n].id)] else []) + OpLines(tuned);
      codes := codes + [tuned];
    }
    assert codes == TunedBlocks(f) && Ids(f)[..|f.blocks|] == Ids(f);
    return Some(out);
  }

  lemma {:induction false} BlockLinesPrefix(ids: seq<Label>, ids': seq<Label>, codes: seq<seq<StackOp>>,
                                            codes': seq<seq<StackOp>>, n: nat)
    requires |ids| == |codes| && |ids'| == |codes'| && n <= |codes| && n <= |codes'|
    requires ids[..n] == ids'[..n] && codes[..n] == codes'[..n]
    ensures BlockLines(ids, codes, n) == BlockLines(ids', codes', n)
  {
    if n > 0 {
      assert ids[n - 1] == ids[..n][n - 1] && ids'[n - 1] == ids'[..n][n - 1];
      assert codes[n - 1] == codes[..n][n - 1] && codes'[n - 1] == codes'[..n][n - 1];
      assert ids[..n - 1] == ids[..n][..n - 1] && ids'[..n - 1] == ids'[..n][..n - 1];
      assert codes[..n - 1] == codes[..n][..n - 1] && codes'[..n - 1] == codes'[..n][..n - 1];
      BlockLinesPrefix(ids, ids', codes, codes', n - 1);
    }
  }
}
