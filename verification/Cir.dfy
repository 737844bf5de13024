/** The common intermediate representation: typed three-address instructions
    in basic blocks, with explicit control flow and no SSA form. */
module Cir {

  /** Block labels and register, function and global names, told apart by their text. */
  datatype Label = Label(text: string)
  datatype Name = Name(text: string)

  datatype Option<+T> = None | Some(value: T)

  datatype Ty = I1 | I32 | I64 | F64 | Ptr | Void

  /** An f64 value.  Its bits are never inspected: every operation on floats is
      a parameter of the semantics. */
  datatype Float = Float(bits: nat)

  datatype Operand =
    | Reg(name: Name, ty: Ty)
    | ConstInt(value: int, ty: Ty)
    | ConstFloat(float: Float)
    | GlobalRef(name: Name)

  datatype BinOp =
    | Add | Sub | Mul | Sdiv | Udiv | Srem | Urem
    | And | Or | Xor | Shl | Ashr | Lshr
    | Fadd | Fsub | Fmul | Fdiv

  datatype IntPred = Eq | Ne | Slt | Sle | Sgt | Sge | Ult | Ule | Ugt | Uge

  datatype FloatPred = Oeq | One | Olt | Ole | Ogt | Oge

  datatype ConvOp = Sext | Zext | Trunc | Sitofp | Fptosi

  datatype Op =
    | Bin(bin: BinOp)
    | Neg
    | Not
    | Icmp(ipred: IntPred)
    | Fcmp(fpred: FloatPred)
    | Conv(conv: ConvOp)
    | Alloca
    | Load
    | Store
    | Gep
    | Call(callee: Name)
    | PrintI32
    | PrintF64
    | Trap
    | Br(target: Label)
    | BrCond(thenTarget: Label, elseTarget: Label)
    | Ret
  {
    predicate IsTerminator() {
      Br? || BrCond? || Ret?
    }

    /** What an unread result is no reason to drop. */
    predicate SideEffecting() {
      Store? || Call? || PrintI32? || PrintF64? || Trap?
    }

    function Targets(): seq<Label> {
      match this
      case Br(l) => [l]
      case BrCond(t, e) => [t, e]
      case _ => []
    }
  }

  datatype Instr = Instr(op: Op, ty: Ty, dest: Option<Name>, args: seq<Operand>)

  datatype BasicBlock = BasicBlock(id: Label, instrs: seq<Instr>) {
    function Terminator(): Option<Instr> {
      if instrs != [] && instrs[|instrs| - 1].op.IsTerminator()
      then Some(instrs[|instrs| - 1]) else None
    }

    function Successors(): seq<Label> {
      match Terminator()
      case Some(t) => t.op.Targets()
      case None => []
    }

    /** A conditional branch at the end has a condition. */
    predicate HasCondition() {
      Terminator().Some? && Terminator().value.op.BrCond? ==> Terminator().value.args != []
    }
  }

  datatype Function = Function(name: Name, params: seq<Name>, blocks: seq<BasicBlock>) {
    /** Is there a block with this label? */
    predicate HasBlock(l: Label) {
      exists i :: 0 <= i < |blocks| && blocks[i].id == l
    }

    ghost predicate UniqueLabels() {
      forall i, j :: 0 <= i < j < |blocks| ==> blocks[i].id != blocks[j].id
    }

    /** The structural rules of the control-flow graph: unique labels, exactly
        one terminator per block and in last place, existing targets. */
    ghost predicate GoodCfg() {
      && blocks != []
      && UniqueLabels()
      && (forall i :: 0 <= i < |blocks| ==>
            && blocks[i].Terminator().Some?
            && (forall k :: 0 <= k < |blocks[i].instrs| - 1 ==> !blocks[i].instrs[k].op.IsTerminator()))
      && (forall i, l :: 0 <= i < |blocks| && l in blocks[i].Successors() ==> HasBlock(l))
    }

    ghost predicate ConditionsGiven() {
      forall i :: 0 <= i < |blocks| ==> blocks[i].HasCondition()
    }
  }

  ghost predicate NoDuplicates(labels: seq<Label>) {
    forall i, j :: DistinctAt(labels, i, j)
  }

  predicate DistinctAt(labels: seq<Label>, i: int, j: int) {
    0 <= i < j < |labels| ==> labels[i] != labels[j]
  }

  ghost predicate NoGlobals(xs: seq<Operand>) {
    forall k :: 0 <= k < |xs| ==> !xs[k].GlobalRef?
  }

  /** Blocks by label; a later block with the same label would win. */
  function BlockMap(blocks: seq<BasicBlock>): map<Label, BasicBlock> {
    if blocks == [] then map[]
    else BlockMap(blocks[..|blocks| - 1])[blocks[|blocks| - 1].id := blocks[|blocks| - 1]]
  }
}
