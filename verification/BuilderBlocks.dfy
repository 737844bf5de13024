/** The builder's blocks: which are closed, and their sketch. */
module BuilderBlocks {
  import opened Cir
  import opened Cfg
  import opened Labels
  import opened BuilderGraph

  ghost predicate Straight(instrs: seq<Instr>) {
    forall k :: 0 <= k < |instrs| ==> !instrs[k].op.IsTerminator()
  }

  ghost predicate Closed(b: BasicBlock) {
    TerminatesOnce(b) && b.HasCondition()
  }

  ghost predicate ShapeAt(blocks: seq<BasicBlock>, isOpen: bool, i: nat)
    requires i < |blocks|
  {
    if isOpen && i == |blocks| - 1 then Straight(blocks[i].instrs) else Closed(blocks[i])
  }

  /** Only the last block may be open. */
  ghost predicate ShapeOk(blocks: seq<BasicBlock>, isOpen: bool) {
    blocks != [] && forall i :: 0 <= i < |blocks| ==> ShapeAt(blocks, isOpen, i)
  }

  /** The entry starts with `n` instructions that are not terminators. */
  ghost predicate StartsWith(blocks: seq<BasicBlock>, n: nat) {
    blocks != [] && n <= |blocks[0].instrs| && Straight(blocks[0].instrs[..n])
  }

  function IdsOf(blocks: seq<BasicBlock>): (r: seq<Label>)
    ensures |r| == |blocks|
  {
    seq(|blocks|, i requires 0 <= i < |blocks| => blocks[i].id)
  }

  function SuccsOf(blocks: seq<BasicBlock>): (r: seq<seq<Label>>)
    ensures |r| == |blocks|
  {
    seq(|blocks|, i requires 0 <= i < |blocks| => blocks[i].Successors())
  }

  function WithInstr(blocks: seq<BasicBlock>, ins: Instr): (r: seq<BasicBlock>)
    requires blocks != []
    ensures |r| == |blocks|
  {
    var n := |blocks| - 1;
    blocks[n := BasicBlock(blocks[n].id, blocks[n].instrs + [ins])]
  }

  lemma AppendedBlock(b: BasicBlock, ins: Instr)
    requires Straight(b.instrs)
    ensures var b' := BasicBlock(b.id, b.instrs + [ins]);
            && (!ins.op.IsTerminator() ==> Straight(b'.instrs) && b'.Successors() == b.Successors())
            && (ins.op.IsTerminator() && (ins.op.BrCond? ==> ins.args != []) ==>
                Closed(b') && b'.Successors() == ins.op.Targets())
  {
    var b' := BasicBlock(b.id, b.instrs + [ins]);
    assert b'.instrs[|b'.instrs| - 1] == ins;
    assert forall k :: 0 <= k < |b.instrs| ==> b'.instrs[k] == b.instrs[k];
  }

  lemma EmitShape(blocks: seq<BasicBlock>, ins: Instr, n: nat)
    requires ShapeOk(blocks, true) && StartsWith(blocks, n) && !ins.op.IsTerminator()
    ensures var r := WithInstr(blocks, ins);
            ShapeOk(r, true) && StartsWith(r, n) && IdsOf(r) == IdsOf(blocks) && SuccsOf(r) == SuccsOf(blocks)
  {
    hide Closed, Straight, BasicBlock.Successors;
    var r, last := WithInstr(blocks, ins), |blocks| - 1;
    assert ShapeAt(blocks, true, last);
    AppendedBlock(blocks[last], ins);
    forall i | 0 <= i < |r| ensures ShapeAt(r, true, i) { assert ShapeAt(blocks, true, i); }
    if last == 0 { assert r[0].instrs[..n] == blocks[0].instrs[..n]; }
    assert SuccsOf(r) == SuccsOf(blocks);
  }

  lemma CloseShape(blocks: seq<BasicBlock>, ins: Instr, n: nat)
    requires ShapeOk(blocks, true) && StartsWith(blocks, n) && ins.op.IsTerminator()
        && (ins.op.BrCond? ==> ins.args != [])
    ensures var r := WithInstr(blocks, ins);
            && ShapeOk(r, false) && StartsWith(r, n) && IdsOf(r) == IdsOf(blocks)
            && SuccsOf(r) == SuccsOf(blocks)[|blocks| - 1 := ins.op.Targets()]
  {
    hide Closed, Straight, BasicBlock.Successors;
    var r, last := WithInstr(blocks, ins), |blocks| - 1;
    assert ShapeAt(blocks, true, last);
    AppendedBlock(blocks[last], ins);
    forall i | 0 <= i < |r| ensures ShapeAt(r, false, i) { assert ShapeAt(blocks, true, i); }
    if last == 0 { assert r[0].instrs[..n] == blocks[0].instrs[..n]; }
    assert SuccsOf(r) == SuccsOf(blocks)[last := ins.op.Targets()];
  }

  lemma OpenShape(blocks: seq<BasicBlock>, l: Label, n: nat)
    requires ShapeOk(blocks, false) && StartsWith(blocks, n)
    ensures var r := blocks + [BasicBlock(l, [])];
            ShapeOk(r, true) && StartsWith(r, n) && IdsOf(r) == IdsOf(blocks) + [l]
                && SuccsOf(r) == SuccsOf(blocks) + [[]]
  {
    hide Closed;
    var r := blocks + [BasicBlock(l, [])];
    forall i | 0 <= i < |r| ensures ShapeAt(r, true, i) { if i < |blocks| { assert ShapeAt(blocks, false, i); } }
    EmptyBlock(l);
    assert SuccsOf(r) == SuccsOf(blocks) + [[]];
  }

  lemma EmptyBlock(l: Label)
    ensures BasicBlock(l, []).Successors() == []
  {}

  /** An instruction inserted among the first ones of the entry. */
  function WithSlot(blocks: seq<BasicBlock>, n: nat, ins: Instr): (r: seq<BasicBlock>)
    requires blocks != [] && n <= |blocks[0].instrs|
    ensures |r| == |blocks|
  {
    blocks[0 := BasicBlock(blocks[0].id, blocks[0].instrs[..n] + [ins] + blocks[0].instrs[n..])]
  }

  lemma InsertedBlock(b: BasicBlock, n: nat, ins: Instr)
    requires n <= |b.instrs| && Straight(b.instrs[..n]) && !ins.op.IsTerminator()
    ensures var b' := BasicBlock(b.id, b.instrs[..n] + [ins] + b.instrs[n..]);
            && Straight(b'.instrs[..n + 1])
            && (Straight(b.instrs) ==> Straight(b'.instrs) && b'.Successors() == b.Successors())
            && (Closed(b) ==> Closed(b') && b'.Successors() == b.Successors())
  {
    var s := b.instrs;
    var b' := BasicBlock(b.id, s[..n] + [ins] + s[n..]);
    var t := b'.instrs;
    assert forall k :: 0 <= k < n ==> t[k] == s[..n][k];
    assert t[n] == ins;
    assert forall k :: n < k < |t| ==> t[k] == s[k - 1];
    assert Closed(b) ==> s[|s| - 1].op.IsTerminator();
    assert n == |s| ==> s[..n] == s;
    assert n < |s| ==> t[|t| - 1] == s[|s| - 1];
  }

  lemma SlotShape(blocks: seq<BasicBlock>, isOpen: bool, n: nat, ins: Instr)
    requires ShapeOk(blocks, isOpen) && StartsWith(blocks, n) && !ins.op.IsTerminator()
    ensures var r := WithSlot(blocks, n, ins);
            ShapeOk(r, isOpen) && StartsWith(r, n + 1) && IdsOf(r) == IdsOf(blocks) && SuccsOf(r) == SuccsOf(blocks)
  {
    hide Closed, Straight, BasicBlock.Successors;
    var r := WithSlot(blocks, n, ins);
    assert ShapeAt(blocks, isOpen, 0);
    InsertedBlock(blocks[0], n, ins);
    forall i | 0 <= i < |r| ensures ShapeAt(r, isOpen, i) { assert ShapeAt(blocks, isOpen, i); }
    assert SuccsOf(r) == SuccsOf(blocks);
  }
}
