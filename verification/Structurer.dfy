/** From a control-flow graph to nested block/loop/if regions: Ramsey's
    dominator-tree translation. */
module Structurer {
  import opened Cir
  import opened Graphs
  import opened DomTree

  datatype BranchKind = ToBlock | ToLoop

  datatype Node =
    | Block(name: Label, body: seq<Node>)      // a branch to it leaves it
    | Loop(name: Label, body: seq<Node>)       // a branch to it re-enters it
    | Code(block: BasicBlock)                  // all but the terminator of one block
    | If(cond: Operand, thenNodes: seq<Node>, elseNodes: seq<Node>)
    | Branch(dest: Label, kind: BranchKind)
    | Return(instr: Instr)

  /** What the translation is driven by. */
  datatype Plan = Plan(
    size: nat, index: Index, blocks: map<Label, BasicBlock>,
    headers: set<Label>, merges: set<Label>, children: map<Label, seq<Label>>)

  /** Every numbered label has a terminated block whose targets are numbered,
      and children are numbered higher than their parents. */
  ghost predicate PlanOk(pl: Plan) {
    && (forall v :: BlockOk(pl, v))
    && (forall v, y :: ChildOk(pl, v, y))
  }

  ghost predicate BlockOk(pl: Plan, v: Label) {
    v in pl.index ==>
      && pl.index[v] < pl.size
      && v in pl.blocks && v in pl.children && pl.blocks[v].Terminator().Some?
      && pl.blocks[v].HasCondition()
      && forall t :: t in pl.blocks[v].Successors() ==> t in pl.index
  }

  ghost predicate ChildOk(pl: Plan, v: Label, y: Label) {
    v in pl.index && v in pl.children && y in pl.children[v] ==> y in pl.index && pl.index[v] < pl.index[y]
  }

  // ----- the dominator-tree children that are merge nodes, highest number first -----

  ghost predicate HigherFirst(index: Index, ys: seq<Label>) {
    ys != [] ==>
      (forall z :: z in ys[1..] && z in index && ys[0] in index ==> index[ys[0]] >= index[z])
          && HigherFirst(index, ys[1..])
  }

  function Insert(index: Index, y: Label, ys: seq<Label>): (r: seq<Label>)
    requires y in index && forall z :: z in ys ==> z in index
    requires HigherFirst(index, ys)
    ensures multiset(r) == multiset(ys) + multiset{y}
    ensures forall z :: z in r <==> z == y || z in ys
    ensures HigherFirst(index, r)
  {
    if ys == [] then [y]
    else
      assert ys == [ys[0]] + ys[1..];
      if index[ys[0]] > index[y] then
        var rest := Insert(index, y, ys[1..]);
        assert ([ys[0]] + rest)[1..] == rest;
        [ys[0]] + rest
      else
        assert ([y] + ys)[1..] == ys;
        [y] + ys
  }

  function SortHigherFirst(index: Index, ys: seq<Label>): (r: seq<Label>)
    requires forall z :: z in ys ==> z in index
    ensures multiset(r) == multiset(ys)
    ensures forall z :: z in r <==> z in ys
    ensures HigherFirst(index, r)
  {
    if ys == [] then []
    else
      assert ys == ys[..|ys| - 1] + [ys[|ys| - 1]];
      Insert(index, ys[|ys| - 1], SortHigherFirst(index, ys[..|ys| - 1]))
  }

  function Select(ys: seq<Label>, keep: set<Label>): (r: seq<Label>)
    ensures forall z :: z in r <==> z in ys && z in keep
    ensures forall z :: multiset(r)[z] <= multiset(ys)[z]
  {
    if ys == [] then []
    else
      assert ys == ys[..|ys| - 1] + [ys[|ys| - 1]];
      Select(ys[..|ys| - 1], keep) + (if ys[|ys| - 1] in keep then [ys[|ys| - 1]] else [])
  }

  function MergeChildren(pl: Plan, x: Label): (ys: seq<Label>)
    requires PlanOk(pl) && x in pl.index
    ensures x in pl.children
    ensures forall y :: y in ys <==> y in pl.children[x] && y in pl.merges
    ensures forall y :: y in ys ==> y in pl.index && pl.index[x] < pl.index[y]
    ensures HigherFirst(pl.index, ys)
  {
    assert BlockOk(pl, x);
    assert forall y :: y in Select(pl.children[x], pl.merges) ==> ChildOk(pl, x, y);
    SortHigherFirst(pl.index, Select(pl.children[x], pl.merges))
  }

  // ----- the translation -----

  /** The region of `x` and everything it dominates. */
  function DoTree(pl: Plan, x: Label): seq<Node>
    requires PlanOk(pl) && x in pl.index
    decreases pl.size - pl.index[x], 2, 0
  {
    assert BlockOk(pl, x);
    var body := NodeWithin(pl, x, MergeChildren(pl, x));
    if x in pl.headers then [Loop(x, body)] else body
  }

  function NodeWithin(pl: Plan, x: Label, ys: seq<Label>): seq<Node>
    requires PlanOk(pl) && x in pl.index
    requires forall y :: y in ys ==> y in pl.index && pl.index[x] < pl.index[y]
    decreases pl.size - pl.index[x], 1, |ys|
  {
    assert BlockOk(pl, x);
    if ys != [] then
      assert ys[0] in ys && BlockOk(pl, ys[0]);
      [Block(ys[0], NodeWithin(pl, x, ys[1..]))] + DoTree(pl, ys[0])
    else
      var b := pl.blocks[x];
      var t := b.Terminator().value;
      match t.op
      case Br(l) => assert l in b.Successors(); [Code(b)] + BranchTo(pl, x, l)
      case BrCond(l, m) =>
        assert l in b.Successors() && m in b.Successors();
        [Code(b), If(t.args[0], BranchTo(pl, x, l), BranchTo(pl, x, m))]
      case _ => [Code(b), Return(t)]
  }

  function BranchTo(pl: Plan, src: Label, dst: Label): seq<Node>
    requires PlanOk(pl) && src in pl.index && dst in pl.index
    decreases pl.size - pl.index[src], 0, 0
  {
    assert BlockOk(pl, src) && BlockOk(pl, dst);
    if pl.index[dst] <= pl.index[src] then [Branch(dst, ToLoop)]
    else if dst in pl.merges then [Branch(dst, ToBlock)]
    else DoTree(pl, dst)
  }
}
