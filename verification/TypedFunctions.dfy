/** What the optimiser takes for granted of its input: types, and parameters that are
    never assigned. */
module TypedFunctions {
  import opened Cir
  import opened Fold
  import opened Definitions

  type Typing = map<Name, Ty>

  predicate TypedOperand(types: Typing, x: Operand) {
    PlainConst(x) && (x.Reg? ==> x.name in types && types[x.name] == x.ty)
  }

  predicate TypedInstr(types: Typing, ins: Instr) {
    && WellTyped(ins)
    && (forall k :: 0 <= k < |ins.args| ==> TypedOperand(types, ins.args[k]))
    && (ins.dest.Some? ==> ins.dest.value in types && types[ins.dest.value] == ResultTy(ins))
  }

  ghost predicate TypedFunction(types: Typing, f: Function) {
    forall b, ins :: b in f.blocks && ins in b.instrs ==> TypedInstr(types, ins)
  }

  /** No instruction assigns a parameter. */
  ghost predicate ParamsFixed(f: Function) {
    forall b, ins :: b in f.blocks && ins in b.instrs && ins.dest.Some? ==> ins.dest.value !in f.params
  }

  /** No instruction extends an i1 by its sign. */
  ghost predicate NoBoolExtension(f: Function) {
    forall b, ins :: b in f.blocks && ins in b.instrs ==> !ExtendsBool(ins)
  }

  ghost predicate AtMostOnce(f: Function, single: set<Name>) {
    forall r :: r in single ==> CountDefs(f.blocks, r) <= 1
  }
}
