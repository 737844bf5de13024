/** No pass invents an instruction: what it leaves is an instruction of its input, with
    registers replaced by registers or constants of the same type, or a conditional branch
    made plain. */
module Provenance {
  import opened Cir
  import opened Arith
  import opened Interp
  import opened Substitution
  import opened Passes

  predicate ArgFrom(x: Operand, x': Operand) {
    x' == x || (x.Reg? && !x'.GlobalRef? && TypeOf(x') == TypeOf(x))
  }

  predicate ComesFrom(ins: Instr, ins': Instr) {
    || (ins.op.BrCond? && ins'.op.Br? && ins'.args == [] && ins'.dest.None?)
    || (&& ins'.op == ins.op && ins'.ty == ins.ty && ins'.dest == ins.dest && |ins'.args| == |ins.args|
        && forall k :: 0 <= k < |ins.args| ==> ArgFrom(ins.args[k], ins'.args[k]))
  }

  ghost predicate HasOrigin(f: Function, ins': Instr) {
    exists b, ins :: b in f.blocks && ins in b.instrs && ComesFrom(ins, ins')
  }

  ghost predicate MadeFrom(f: Function, f': Function) {
    forall b', ins' :: b' in f'.blocks && ins' in b'.instrs ==> HasOrigin(f, ins')
  }

  lemma ComesFromSelf(ins: Instr)
    ensures ComesFrom(ins, ins)
  {}

  lemma MadeSelf(f: Function)
    ensures MadeFrom(f, f)
  {
    hide ComesFrom;
    forall b, ins | b in f.blocks && ins in b.instrs ensures HasOrigin(f, ins) { ComesFromSelf(ins); }
  }

  lemma ComesFromJoins(a: Instr, b: Instr, c: Instr)
    requires ComesFrom(a, b) && ComesFrom(b, c)
    ensures ComesFrom(a, c)
  {
    if |a.args| == |b.args| == |c.args| {
      forall k | 0 <= k < |a.args| ensures ArgFrom(a.args[k], b.args[k]) && ArgFrom(b.args[k], c.args[k]) ==>
          ArgFrom(a.args[k], c.args[k]) {}
    }
  }

  lemma MadeTransitive(f: Function, f1: Function, f2: Function)
    requires MadeFrom(f, f1) && MadeFrom(f1, f2)
    ensures MadeFrom(f, f2)
  {
    hide ComesFrom;
    forall b2, i2 | b2 in f2.blocks && i2 in b2.instrs ensures HasOrigin(f, i2) {
      assert HasOrigin(f1, i2);
      var b1, i1 :| b1 in f1.blocks && i1 in b1.instrs && ComesFrom(i1, i2);
      assert HasOrigin(f, i1);
      var b, i :| b in f.blocks && i in b.instrs && ComesFrom(i, i1);
      ComesFromJoins(i, i1, i2);
    }
  }

  /** No replacement is the address of a global. */
  ghost predicate NoAddresses(s: Sub) {
    forall t :: t in s ==> !s[t].GlobalRef?
  }

  lemma RewriteComesFrom(s: Sub, branches: bool, ins: Instr)
    requires NoAddresses(s) && KeepsTypes(s, ins)
    ensures ComesFrom(ins, RewriteInstr(s, branches, ins))
  {
    forall k | 0 <= k < |ins.args| ensures ArgFrom(ins.args[k], SubstOperand(s, ins.args[k])) {}
  }

  ghost predicate AllKeepTypes(f: Function, s: Sub) {
    forall b, ins :: b in f.blocks && ins in b.instrs ==> KeepsTypes(s, ins)
  }

  lemma RewriteMade(s: Sub, branches: bool, f: Function)
    requires NoAddresses(s) && AllKeepTypes(f, s)
    ensures MadeFrom(f, RewriteFunction(s, branches, f))
  {
    hide ComesFrom, RewriteInstr, NoAddresses, KeepsTypes, Rewrite, Dropped;
    var f' := RewriteFunction(s, branches, f);
    forall b', ins' | b' in f'.blocks && ins' in b'.instrs ensures HasOrigin(f, ins') {
      var n :| 0 <= n < |f'.blocks| && f'.blocks[n] == b';
      RewriteMembers(s, branches, f.blocks[n].instrs, ins');
      var ins :| ins in f.blocks[n].instrs && !Dropped(s, ins) && ins' == RewriteInstr(s, branches, ins);
      assert f.blocks[n] in f.blocks;
      RewriteComesFrom(s, branches, ins);
    }
  }

  lemma SoundKeepsTypes(fl: Floats, f: Function, s: Sub, branches: bool)
    requires f.blocks != [] && SoundSub(Env(fl, map[], true, false), f, s, branches)
    ensures AllKeepTypes(f, s)
  {
    hide Justified, KeepsTypes, BranchesOnBits, Anchored;
    var env := Env(fl, map[], true, false);
    forall b, ins | b in f.blocks && ins in b.instrs
      ensures KeepsTypes(s, ins) { assert GoodInstr(env, s, branches, ins); }
  }
}
