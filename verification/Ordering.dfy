/** A rewriting keeps definitions before uses when what replaces a register was there
    wherever the register was. */
module Ordering {
  import opened Cir
  import opened Interp
  import opened Substitution
  import opened TextOrder

  /** What has been seen of the source has been seen of the rewritten text, or stands for it. */
  ghost predicate Follows(s: Sub, seen: set<Name>, seen': set<Name>) {
    && (forall r :: r in seen && r !in s ==> r in seen')
    && (forall r :: r in seen && r in s && s[r].Reg? ==> s[r].name in seen')
  }

  lemma FollowsOperand(s: Sub, seen: set<Name>, seen': set<Name>, xs: seq<Operand>, k: nat)
    requires Follows(s, seen, seen') && OperandsSeen(xs, seen) && k < |xs| && SubstOperand(s, xs[k]).Reg?
    ensures SubstOperand(s, xs[k]).name in seen'
  {}

  lemma FollowsArgs(s: Sub, seen: set<Name>, seen': set<Name>, xs: seq<Operand>)
    requires Follows(s, seen, seen') && OperandsSeen(xs, seen)
    ensures OperandsSeen(SubstArgs(s, xs), seen')
  {
    forall k | 0 <= k < |xs| && SubstArgs(s, xs)[k].Reg? ensures SubstArgs(s, xs)[k].name in seen' {
      FollowsOperand(s, seen, seen', xs, k);
    }
  }

  lemma KeptFollows(s: Sub, ins: Instr, seen: set<Name>, seen': set<Name>)
    requires Follows(s, seen, seen') && !Dropped(s, ins)
    ensures Follows(s, seen + Named(ins.dest), seen' + Named(ins.dest))
  {}

  /** What replaces a dropped definition's register is one of its operands, or a constant. */
  ghost predicate StandsFor(s: Sub, ins: Instr) {
    Dropped(s, ins) && s[ins.dest.value].Reg? ==> exists k ::
        0 <= k < |ins.args| && SubstOperand(s, ins.args[k]) == s[ins.dest.value]
  }

  lemma DroppedFollows(s: Sub, ins: Instr, seen: set<Name>, seen': set<Name>)
    requires Follows(s, seen, seen') && Dropped(s, ins) && OperandsSeen(ins.args, seen) && StandsFor(s, ins)
    ensures Follows(s, seen + Named(ins.dest), seen')
  {
    hide OperandsSeen;
    if s[ins.dest.value].Reg? {
      var k :| 0 <= k < |ins.args| && SubstOperand(s, ins.args[k]) == s[ins.dest.value];
      FollowsOperand(s, seen, seen', ins.args, k);
    }
  }

  lemma RewrittenArgs(s: Sub, branches: bool, ins: Instr, seen: set<Name>, seen': set<Name>)
    requires Follows(s, seen, seen') && OperandsSeen(ins.args, seen)
    ensures var r := RewriteInstr(s, branches, ins);
        OperandsSeen(r.args, seen') && (r.dest == ins.dest || r.dest == None)
    ensures !(branches && ins.op.BrCond?) ==> RewriteInstr(s, branches, ins).dest == ins.dest
  {
    hide Follows, SubstArgs;
    FollowsArgs(s, seen, seen', ins.args);
  }

  lemma {:induction false} RewriteOrdered(s: Sub, branches: bool, instrs: seq<Instr>, seen: set<Name>, seen': set<Name>)
    requires (forall ins :: ins in instrs ==> StandsFor(s, ins) && (branches && ins.op.BrCond? ==> ins.dest.None?))
    requires OrderedIn(instrs, seen) && Follows(s, seen, seen')
    ensures OrderedIn(Rewrite(s, branches, instrs), seen')
    ensures Follows(s, AfterIn(instrs, seen), AfterIn(Rewrite(s, branches, instrs), seen'))
    decreases |instrs|
  {
    hide StandsFor, OperandsSeen, Follows, SubstArgs, RewriteInstr;
    if instrs != [] {
      var ins := instrs[0];
      if Dropped(s, ins) {
        DroppedFollows(s, ins, seen, seen');
        RewriteOrdered(s, branches, instrs[1..], seen + Named(ins.dest), seen');
      } else {
        RewrittenArgs(s, branches, ins, seen, seen');
        KeptFollows(s, ins, seen, seen');
        RewriteOrdered(s, branches, instrs[1..], seen + Named(ins.dest), seen' + Named(ins.dest));
        var rest := Rewrite(s, branches, instrs[1..]);
        assert ([RewriteInstr(s, branches, ins)] + rest)[1..] == rest;
      }
    }
  }

  /** No register replaced is a parameter, and every replacement was there. */
  ghost predicate KeepsOrder(s: Sub, branches: bool, f: Function) {
    && (forall p :: p in f.params ==> p !in s)
    && forall b, ins :: b in f.blocks && ins in b.instrs ==>
        StandsFor(s, ins) && (branches && ins.op.BrCond? ==> ins.dest.None?)
  }

  lemma {:induction false} BlocksOrdered(s: Sub, branches: bool, f: Function, blocks: seq<BasicBlock>,
                                         blocks': seq<BasicBlock>,
                                         seen: set<Name>, seen': set<Name>)
    requires |blocks'| == |blocks| && forall n ::
        0 <= n < |blocks| ==> blocks'[n] == RewriteBlock(s, branches, blocks[n])
    requires (forall b :: b in blocks ==> b in f.blocks) && OrderedBlocks(blocks, seen) && Follows(s, seen, seen')
        && KeepsOrder(s, branches, f)
    ensures OrderedBlocks(blocks', seen')
    decreases |blocks|
  {
    hide Follows, Rewrite, OrderedIn, AfterIn, StandsFor;
    if blocks != [] {
      assert blocks[0] in f.blocks;
      RewriteOrdered(s, branches, blocks[0].instrs, seen, seen');
      assert blocks'[0] == RewriteBlock(s, branches, blocks[0]);
      BlocksOrdered(s, branches, f, blocks[1..], blocks'[1..], AfterIn(blocks[0].instrs, seen),
          AfterIn(blocks'[0].instrs, seen'));
    }
  }

  /** Rewriting keeps the text order. */
  lemma RewriteTextOrdered(s: Sub, branches: bool, f: Function)
    requires TextOrdered(f) && KeepsOrder(s, branches, f)
    ensures TextOrdered(RewriteFunction(s, branches, f))
  {
    hide Rewrite, OrderedBlocks, RewriteBlock, StandsFor;
    BlocksOrdered(s, branches, f, f.blocks, RewriteFunction(s, branches, f).blocks, Params(f), Params(f));
  }
}
