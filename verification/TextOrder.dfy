/** Definitions before uses, in the order of the text. */
module TextOrder {
  import opened Cir

  function Named(dest: Option<Name>): set<Name> {
    if dest.Some? then {dest.value} else {}
  }

  ghost predicate OperandsSeen(xs: seq<Operand>, seen: set<Name>) {
    forall k :: 0 <= k < |xs| && xs[k].Reg? ==> xs[k].name in seen
  }

  ghost function AfterIn(instrs: seq<Instr>, seen: set<Name>): set<Name> {
    if instrs == [] then seen else AfterIn(instrs[1..], seen + Named(instrs[0].dest))
  }

  ghost predicate OrderedIn(instrs: seq<Instr>, seen: set<Name>) {
    instrs != [] ==> OperandsSeen(instrs[0].args, seen) && OrderedIn(instrs[1..], seen + Named(instrs[0].dest))
  }

  ghost predicate OrderedBlocks(blocks: seq<BasicBlock>, seen: set<Name>) {
    blocks != [] ==> OrderedIn(blocks[0].instrs, seen) && OrderedBlocks(blocks[1..], AfterIn(blocks[0].instrs, seen))
  }

  ghost function Params(f: Function): set<Name> {
    set p | p in f.params
  }

  /** In the text of the function every use comes after a definition, or reads a parameter. */
  ghost predicate TextOrdered(f: Function) {
    OrderedBlocks(f.blocks, Params(f))
  }
}
