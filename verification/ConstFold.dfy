/** Constant folding and propagation over a function. */
module ConstFold {
  import opened Cir
  import opened Arith
  import opened Interp
  import opened FlowGraph
  import opened Walks
  import opened Fold
  import opened Substitution
  import opened SubstitutionProof
  import opened Definitions
  import opened TypedFunctions
  import opened Passes
  import opened Provenance
  import opened Narrowing
  import opened TextOrder
  import opened Ordering
  import opened Discipline
  import CopyFacts

  // ----- the analysis -----

  /** The folder's reason for knowing `t`: with what is known put in, its one definition folds. */
  ghost predicate Reason(fl: Floats, known: Sub, t: Name, ins: Instr) {
    t in known && ins.dest == Some(t) && FoldInstr(fl, SubstInstr(known, ins)) == Some(known[t])
  }

  ghost predicate HasReason(fl: Floats, f: Function, known: Sub, t: Name) {
    exists b, ins :: b in f.blocks && ins in b.instrs && Reason(fl, known, t, ins)
  }

  ghost predicate KnownOk(fl: Floats, f: Function, single: set<Name>, known: Sub) {
    forall t :: t in known ==> t in single && HasReason(fl, f, known, t)
  }

  /** A fold does not change when more becomes known. */
  lemma FoldStays(fl: Floats, known: Sub, known': Sub, ins: Instr)
    requires known.Keys <= known'.Keys && forall t :: t in known ==> known'[t] == known[t]
    requires forall t :: t in known ==> IsConst(known[t])
    requires FoldInstr(fl, SubstInstr(known, ins)).Some?
    ensures SubstInstr(known', ins) == SubstInstr(known, ins)
  {
    var xs := SubstArgs(known, ins.args);
    forall k | 0 <= k < |ins.args| ensures SubstOperand(known', ins.args[k]) == SubstOperand(known, ins.args[k]) {
      assert IsConst(xs[k]);
    }
    assert SubstArgs(known', ins.args) == xs;
  }

  lemma KnownConst(fl: Floats, f: Function, single: set<Name>, known: Sub, t: Name)
    requires KnownOk(fl, f, single, known) && t in known
    ensures IsConst(known[t]) && PlainConst(known[t])
  {
    assert HasReason(fl, f, known, t);
    var b, ins :| b in f.blocks && ins in b.instrs && Reason(fl, known, t, ins);
    FoldsToConst(fl, SubstInstr(known, ins));
  }

  lemma FoldsToConst(fl: Floats, ins: Instr)
    requires FoldInstr(fl, ins).Some?
    ensures IsConst(FoldInstr(fl, ins).value) && PlainConst(FoldInstr(fl, ins).value)
    ensures IsPure(ins.op) && |ins.args| == Arity(ins.op)
    ensures forall k :: 0 <= k < |ins.args| ==> IsConst(ins.args[k])
  {
    hide Wrap; hide Pow2; hide Bits; hide Abs; hide MinInt; hide Unsigned; hide Compare;
  }

  lemma LearnKeeps(fl: Floats, f: Function, single: set<Name>, known: Sub, t: Name, b: BasicBlock, ins: Instr,
                   c: Operand)
    requires KnownOk(fl, f, single, known) && t in single && t !in known
    requires b in f.blocks && ins in b.instrs && ins.dest == Some(t) && FoldInstr(fl, SubstInstr(known, ins)) == Some(c)
    ensures KnownOk(fl, f, single, known[t := c])
  {
    hide FoldInstr, SubstInstr;
    var known' := known[t := c];
    forall u | u in known ensures IsConst(known[u]) { KnownConst(fl, f, single, known, u); }
    forall u | u in known' ensures u in single && HasReason(fl, f, known', u) {
      if u == t {
        FoldStays(fl, known, known', ins);
        assert Reason(fl, known', t, ins);
      } else {
        assert HasReason(fl, f, known, u);
        var b0, ins0 :| b0 in f.blocks && ins0 in b0.instrs && Reason(fl, known, u, ins0);
        FoldStays(fl, known, known', ins0);
        assert Reason(fl, known', u, ins0);
      }
    }
  }

  /** Phase A: what is known, found in text order. */
  method Analyse(fl: Floats, f: Function, single: set<Name>) returns (known: Sub)
    requires AtMostOnce(f, single)
    ensures KnownOk(fl, f, single, known)
    ensures known == map[] ==> NothingFolds(fl, f, single)
  {
    hide FoldInstr, SubstInstr, KnownOk, CountDefs;
    known := map[];
    assert KnownOk(fl, f, single, known) by { KnownNothing(fl, f, single); }
    for n := 0 to |f.blocks|
      invariant KnownOk(fl, f, single, known)
      invariant known == map[] ==> forall k :: 0 <= k < n ==> BlockFoldsNothing(fl, f.blocks[k].instrs, single)
    {
      var instrs := f.blocks[n].instrs;
      for i := 0 to |instrs|
        invariant KnownOk(fl, f, single, known)
        invariant known == map[] ==> forall k :: 0 <= k < n ==> BlockFoldsNothing(fl, f.blocks[k].instrs, single)
        invariant known == map[] ==> BlockFoldsNothing(fl, instrs[..i], single)
      {
        var ins := instrs[i];
        assert instrs[..i + 1] == instrs[..i] + [ins];
        if ins.dest.None? || ins.dest.value !in single {
          continue;
        }
        var c := FoldInstr(fl, SubstInstr(known, ins));
        if c.Some? {
          if ins.dest.value in known {
            SameFold(fl, f, single, known, f.blocks[n], ins);
          } else {
            LearnKeeps(fl, f, single, known, ins.dest.value, f.blocks[n], ins, c.value);
          }
          known := known[ins.dest.value := c.value];
        } else {
          SubstNothing(ins);
        }
      }
      assert instrs[..|instrs|] == instrs;
    }
  }

  lemma KnownNothing(fl: Floats, f: Function, single: set<Name>)
    ensures KnownOk(fl, f, single, map[])
  {}

  lemma SubstNothing(ins: Instr)
    ensures SubstInstr(map[], ins) == ins
  {
    assert SubstArgs(map[], ins.args) == ins.args;
  }

  /** Meeting a known definition again teaches nothing new. */
  lemma SameFold(fl: Floats, f: Function, single: set<Name>, known: Sub, b: BasicBlock, ins: Instr)
    requires KnownOk(fl, f, single, known) && AtMostOnce(f, single)
    requires b in f.blocks && ins in b.instrs && ins.dest.Some? && ins.dest.value in known
    ensures FoldInstr(fl, SubstInstr(known, ins)) == Some(known[ins.dest.value])
    ensures known[ins.dest.value := known[ins.dest.value]] == known
  {
    hide FoldInstr, SubstInstr, CountDefs;
    var t := ins.dest.value;
    assert HasReason(fl, f, known, t);
    var b0, ins0 :| b0 in f.blocks && ins0 in b0.instrs && Reason(fl, known, t, ins0);
    OnlyInstr(f, t, b, ins, b0, ins0);
  }

  ghost predicate BlockFoldsNothing(fl: Floats, instrs: seq<Instr>, single: set<Name>) {
    forall ins :: ins in instrs && ins.dest.Some? && ins.dest.value in single ==> FoldInstr(fl, ins).None?
  }

  ghost predicate NothingFolds(fl: Floats, f: Function, single: set<Name>) {
    forall k :: 0 <= k < |f.blocks| ==> BlockFoldsNothing(fl, f.blocks[k].instrs, single)
  }

  // ----- sign extension of a known true -----

  /** The definition is not the sign extension of a bit known to be true. */
  ghost predicate NoTrueAt(known: Sub, ins: Instr) {
    Dropped(known, ins) ==> !ExtendsTrue(SubstInstr(known, ins))
  }

  /** Whatever is recorded, no sign extension of a bit is recorded for a true one. */
  ghost predicate NoTrueExtension(fl: Floats, f: Function, single: set<Name>) {
    forall known, b, ins :: KnownOk(fl, f, single, known) && b in f.blocks && ins in b.instrs ==> NoTrueAt(known, ins)
  }

  /** In particular if no bit is extended by its sign at all. */
  lemma NoneMeansNoTrue(fl: Floats, types: Typing, f: Function, single: set<Name>)
    requires TypedFunction(types, f) && NoBoolExtension(f)
    ensures NoTrueExtension(fl, f, single)
  {
    hide FoldInstr, KnownOk, SubstInstr, TypedInstr, ExtendsBool, ExtendsTrue;
    forall known, b, ins | KnownOk(fl, f, single, known) && b in f.blocks && ins in b.instrs
      ensures NoTrueAt(known, ins) {
      assert TypedInstr(types, ins);
      SubstTyped(fl, types, f, single, known, ins);
      SubstExtends(known, ins);
      TrueExtendsBool(SubstInstr(known, ins));
    }
  }

  lemma TrueExtendsBool(ins: Instr)
    ensures ExtendsTrue(ins) ==> ExtendsBool(ins)
  {}

  /** What a later round records was recordable from the start. */
  lemma RoundsCompose(fl: Floats, f: Function, single: set<Name>, known: Sub, more: Sub)
    requires KnownOk(fl, f, single, known) && KnownOk(fl, RewriteFunction(known, true, f), single, more)
    ensures KnownOk(fl, f, single, CopyFacts.Compose(known, more))
  {
    hide FoldInstr, SubstInstr, Rewrite, KnownOk, CopyFacts.Compose;
    var both := CopyFacts.Compose(known, more);
    CopyFacts.ComposeKeys(known, more);
    forall t | t in both ensures t in single && HasReason(fl, f, both, t) {
      if t in known { StaysKnown(fl, f, single, known, more, t); } else { LaterKnown(fl, f, single, known, more, t); }
    }
    MeansKnown(fl, f, single, both);
  }

  lemma MeansKnown(fl: Floats, f: Function, single: set<Name>, known: Sub)
    requires forall t :: t in known ==> t in single && HasReason(fl, f, known, t)
    ensures KnownOk(fl, f, single, known)
  {
    hide HasReason;
  }

  lemma StaysKnown(fl: Floats, f: Function, single: set<Name>, known: Sub, more: Sub, t: Name)
    requires KnownOk(fl, f, single, known) && t in known
    ensures t in single && HasReason(fl, f, CopyFacts.Compose(known, more), t)
  {
    hide FoldInstr, SubstInstr;
    var both := CopyFacts.Compose(known, more);
    assert HasReason(fl, f, known, t);
    var b, ins :| b in f.blocks && ins in b.instrs && Reason(fl, known, t, ins);
    forall u | u in known ensures IsConst(known[u]) && u in both && both[u] == known[u] {
      KnownConst(fl, f, single, known, u);
    }
    FoldStays(fl, known, both, ins);
    assert Reason(fl, both, t, ins);
  }

  lemma LaterKnown(fl: Floats, f: Function, single: set<Name>, known: Sub, more: Sub, t: Name)
    requires KnownOk(fl, RewriteFunction(known, true, f), single, more) && t in more && t !in known
    ensures t in single && HasReason(fl, f, CopyFacts.Compose(known, more), t)
  {
    hide FoldInstr, SubstInstr, Rewrite;
    var f', both := RewriteFunction(known, true, f), CopyFacts.Compose(known, more);
    assert HasReason(fl, f', more, t);
    var b', ins' :| b' in f'.blocks && ins' in b'.instrs && Reason(fl, more, t, ins');
    var n :| 0 <= n < |f'.blocks| && f'.blocks[n] == b';
    RewriteMembers(known, true, f.blocks[n].instrs, ins');
    var ins :| ins in f.blocks[n].instrs && !Dropped(known, ins) && ins' == RewriteInstr(known, true, ins);
    DefinesItself(known, ins);
    SubstKeeps(known, ins);
    CopyFacts.ComposeInstr(known, more, ins);
    assert Reason(fl, both, t, ins);
  }

  /** A folded branch defines nothing. */
  lemma DefinesItself(known: Sub, ins: Instr)
    ensures RewriteInstr(known, true, ins).dest.Some? ==> RewriteInstr(known, true, ins) == SubstInstr(known, ins)
  {}

  lemma RoundNoTrue(fl: Floats, f: Function, single: set<Name>, known: Sub)
    requires KnownOk(fl, f, single, known)
    requires NoTrueExtension(fl, f, single)
    ensures NoTrueExtension(fl, RewriteFunction(known, true, f), single)
  {
    hide FoldInstr, SubstInstr, Rewrite, KnownOk, CopyFacts.Compose, ExtendsTrue;
    var f' := RewriteFunction(known, true, f);
    forall more, b, ins' | KnownOk(fl, f', single, more) && b in f'.blocks && ins' in b.instrs
      ensures NoTrueAt(more, ins') {
      var n :| 0 <= n < |f'.blocks| && f'.blocks[n] == b;
      RewriteMembers(known, true, f.blocks[n].instrs, ins');
      var ins :| ins in f.blocks[n].instrs && !Dropped(known, ins) && ins' == RewriteInstr(known, true, ins);
      RoundsCompose(fl, f, single, known, more);
      assert NoTrueAt(CopyFacts.Compose(known, more), ins);
      DefinesItself(known, ins);
      CopyFacts.ComposeInstr(known, more, ins);
    }
  }

  // ----- why substituting what is known is sound -----

  lemma KnownTyped(fl: Floats, types: Typing, f: Function, single: set<Name>, known: Sub, t: Name)
    requires KnownOk(fl, f, single, known) && TypedFunction(types, f) && t in known
    ensures t in types && TypeOf(known[t]) == types[t]
    decreases 0
  {
    hide FoldInstr;
    assert HasReason(fl, f, known, t);
    var b, ins :| b in f.blocks && ins in b.instrs && Reason(fl, known, t, ins);
    assert TypedInstr(types, ins);
    FoldResultTy(fl, SubstInstr(known, ins));
  }

  /** A fold has the result type of its instruction, float or not. */
  lemma FoldResultTy(fl: Floats, ins: Instr)
    requires FoldInstr(fl, ins).Some? && (ins.op.Bin? && IsFloatOp(ins.op.bin) ==> ins.ty.F64?)
        && (ins.op == Conv(Sitofp) ==> ins.ty.F64?)
    ensures TypeOf(FoldInstr(fl, ins).value) == ResultTy(ins)
  {
    hide Wrap; hide Pow2; hide Bits; hide Abs; hide MinInt; hide Unsigned; hide Compare;
  }

  lemma SubstTyped(fl: Floats, types: Typing, f: Function, single: set<Name>, known: Sub, ins: Instr)
    requires KnownOk(fl, f, single, known) && TypedFunction(types, f) && TypedInstr(types, ins)
    ensures TypedInstr(types, SubstInstr(known, ins)) && KeepsTypes(known, ins) && BranchesOnBits(known, ins)
  {
    hide FoldInstr, KnownOk, TypedFunction;
    forall k | 0 <= k < |ins.args|
      ensures TypeOf(SubstOperand(known, ins.args[k])) == TypeOf(ins.args[k])
      ensures TypedOperand(types, SubstOperand(known, ins.args[k]))
    {
      assert TypedOperand(types, ins.args[k]);
      var x := ins.args[k];
      if x.Reg? && x.name in known {
        KnownTyped(fl, types, f, single, known, x.name);
        KnownConst(fl, f, single, known, x.name);
      }
    }
    assert ins.op.BrCond? ==> |ins.args| == 1 && TypeOf(ins.args[0]).I1?;
    SubstWellTyped(known, ins);
  }

  /** A dropped definition evaluates to the constant that replaces it, and does not trap. */
  lemma KnownJustified(env: Env, types: Typing, f: Function, single: set<Name>, known: Sub, b: BasicBlock, ins: Instr)
    requires KnownOk(env.fl, f, single, known) && TypedFunction(types, f) && AtMostOnce(f, single)
    requires b in f.blocks && ins in b.instrs && NoTrueAt(known, ins)
    ensures Justified(env, known, ins)
  {
    hide FoldInstr, Step, CountDefs, SubstInstr;
    if Dropped(known, ins) {
      var t := ins.dest.value;
      SameFold(env.fl, f, single, known, b, ins);
      assert TypedInstr(types, ins);
      SubstTyped(env.fl, types, f, single, known, ins);
      var i := SubstInstr(known, ins);
      FoldsToConst(env.fl, i);
      SubstKeeps(known, ins);
      forall regs, owned, m ensures DropsClean(env, known, ins, regs, owned, m) {
        FoldedStep(env, i, regs, owned, m);
      }
    }
  }

  lemma SubstKeeps(known: Sub, ins: Instr)
    ensures SubstInstr(known, ins).op == ins.op && SubstInstr(known, ins).dest == ins.dest
  {}

  lemma FoldedStep(env: Env, ins: Instr, regs: Regs, owned: set<nat>, m: Mem)
    requires WellTyped(ins) && !ExtendsTrue(ins) && FoldInstr(env.fl, ins).Some? && ins.dest.Some?
    requires forall k :: 0 <= k < |ins.args| ==> PlainConst(ins.args[k])
    ensures IsConst(FoldInstr(env.fl, ins).value)
    ensures Step(env, ins, regs, owned, m) == Next(regs[ins.dest.value := ConstValue(FoldInstr(env.fl, ins).value)],
        owned, m)
    ensures OperandVal(regs, FoldInstr(env.fl, ins).value) == Some(ConstValue(FoldInstr(env.fl, ins).value))
  {
    hide FoldInstr, EvalPure, OperandVals;
    FoldAgrees(env, ins);
    assert ins.args[..Arity(ins.op)] == ins.args;
    ConstOperands(regs, ins.args);
  }

  lemma {:induction false} ConstOperands(regs: Regs, xs: seq<Operand>)
    requires forall k :: 0 <= k < |xs| ==> IsConst(xs[k])
    ensures OperandVals(regs, xs) == Some(ConstValues(xs))
  {
    hide ConstVal;
    if xs == [] {
      assert ConstValues(xs) == [];
    } else {
      var n := |xs| - 1;
      ConstOperands(regs, xs[..n]);
      assert ConstValues(xs) == ConstValues(xs[..n]) + [ConstValue(xs[n])];
    }
  }

  lemma KnownSound(env: Env, types: Typing, f: Function, single: set<Name>, known: Sub)
    requires f.blocks != [] && TypedFunction(types, f) && ParamsFixed(f) && AtMostOnce(f, single)
    requires NoTrueExtension(env.fl, f, single)
    requires KnownOk(env.fl, f, single, known)
    ensures SoundSub(env, f, known, true) && KeepsTerminators(known, f)
  {
    hide FoldInstr, Justified, KeepsTypes, BranchesOnBits, CountDefs, NoTrueAt;
    forall t | t in known ensures IsConst(known[t]) && t !in f.params && Anchored(f, known, t) {
      KnownConst(env.fl, f, single, known, t);
      assert HasReason(env.fl, f, known, t);
    }
    forall b, ins | b in f.blocks && ins in b.instrs ensures GoodInstr(env, known, true, ins) {
      assert TypedInstr(types, ins);
      SubstTyped(env.fl, types, f, single, known, ins);
      KnownJustified(env, types, f, single, known, b, ins);
    }
    forall b, ins | b in f.blocks && ins in b.instrs && ins.op.IsTerminator() ensures !Dropped(known, ins) {
      KnownJustified(env, types, f, single, known, b, ins);
      JustifiedKeeps(env, known, ins);
    }
  }

  lemma JustifiedKeeps(env: Env, s: Sub, ins: Instr)
    requires Justified(env, s, ins) && ins.op.IsTerminator()
    ensures !Dropped(s, ins)
  {
    hide DropsClean;
  }

  // ----- the rewriting -----

  ghost predicate OneTerminator(instrs: seq<Instr>) {
    && instrs != [] && instrs[|instrs| - 1].op.IsTerminator()
    && forall k :: 0 <= k < |instrs| - 1 ==> !instrs[k].op.IsTerminator()
  }

  function FoldLast(instrs: seq<Instr>): seq<Instr> {
    if instrs == [] then [] else instrs[..|instrs| - 1] + [FoldBranch(instrs[|instrs| - 1])]
  }

  /** Branches are folded at the end of the block, where the terminator is. */
  lemma {:induction false} FoldingLast(known: Sub, instrs: seq<Instr>)
    requires OneTerminator(instrs) && !Dropped(known, instrs[|instrs| - 1])
    ensures Rewrite(known, true, instrs) == FoldLast(Rewrite(known, false, instrs))
  {
    hide SubstInstr, FoldBranch, Dropped, FoldLast;
    if |instrs| == 1 {
      assert Rewrite(known, true, instrs[1..]) == [] && Rewrite(known, false, instrs[1..]) == [];
      var last := SubstInstr(known, instrs[0]);
      LastFolds([], last);
      assert [] + [last] == [last] && [] + [FoldBranch(last)] == [FoldBranch(last)];
      assert Rewrite(known, false, instrs) == [last];
      assert Rewrite(known, true, instrs) == [FoldBranch(last)];
    } else {
      var rest := Rewrite(known, false, instrs[1..]);
      FoldingLast(known, instrs[1..]);
      if !Dropped(known, instrs[0]) {
        RewriteTerminates(known, false, instrs[1..]);
        SubstKeeps(known, instrs[0]);
        NotABranch(SubstInstr(known, instrs[0]));
        LastStays(SubstInstr(known, instrs[0]), rest);
        assert Rewrite(known, false, instrs) == [SubstInstr(known, instrs[0])] + rest;
        assert Rewrite(known, true, instrs) == [SubstInstr(known, instrs[0])] + FoldLast(rest);
      } else {
        assert Rewrite(known, true, instrs) == FoldLast(rest);
      }
    }
  }

  lemma LastFolds(s: seq<Instr>, ins: Instr)
    ensures FoldLast(s + [ins]) == s + [FoldBranch(ins)]
  {
    assert (s + [ins])[..|s|] == s;
  }

  lemma LastStays(ins: Instr, rest: seq<Instr>)
    requires rest != []
    ensures FoldLast([ins] + rest) == [ins] + FoldLast(rest)
  {
    assert ([ins] + rest)[..|rest|] == [ins] + rest[..|rest| - 1];
  }

  lemma NotABranch(ins: Instr)
    requires !ins.op.IsTerminator()
    ensures FoldBranch(ins) == ins
  {}

  lemma {:induction false} WeightLast(instrs: seq<Instr>)
    requires instrs != []
    ensures SizeIn(instrs) == SizeIn(instrs[..|instrs| - 1]) + Weight(instrs[|instrs| - 1])
  {
    if |instrs| == 1 {
      assert instrs[1..] == [] && instrs[..0] == [];
    } else {
      WeightLast(instrs[1..]);
      assert instrs[1..][..|instrs| - 2] == instrs[..|instrs| - 1][1..];
    }
  }

  /** Phase B on one block: rewrite uses, drop definitions, fold the branch. */
  method RewriteInPlace(b: BasicBlock, known: Sub) returns (res: BasicBlock, changed: bool)
    requires OneTerminator(b.instrs) && !Dropped(known, b.instrs[|b.instrs| - 1])
    ensures res == RewriteBlock(known, true, b)
    ensures changed ==> known != map[] || SizeIn(res.instrs) < SizeIn(b.instrs)
    ensures !changed ==> res == b
  {
    hide SubstInstr, SizeIn, Rewrite, Dropped;
    var kept, substituted := KeepUses(b.instrs, known);
    FoldingLast(known, b.instrs);
    RewriteTerminates(known, false, b.instrs);
    var last := kept[|kept| - 1];
    var folded := FoldBranch(last);
    changed := substituted || folded != last;
    res := BasicBlock(b.id, kept[..|kept| - 1] + [folded]);
    if folded != last {
      SmallerBranch(last);
      WeightLast(kept);
      RewriteShrinks(known, false, b.instrs);
      assert res.instrs[..|kept| - 1] == kept[..|kept| - 1];
      WeightLast(res.instrs);
    } else {
      assert res.instrs == kept;
    }
  }

  lemma SmallerBranch(ins: Instr)
    requires FoldBranch(ins) != ins
    ensures Weight(FoldBranch(ins)) < Weight(ins)
  {}

  lemma BlockTerminates(f: Function, known: Sub, n: nat)
    requires Good(f) && KeepsTerminators(known, f) && n < |f.blocks|
    ensures OneTerminator(f.blocks[n].instrs) && !Dropped(known, f.blocks[n].instrs[|f.blocks[n].instrs| - 1])
  {
    var b := f.blocks[n];
    assert b.Terminator().Some?;
    assert b in f.blocks && b.instrs[|b.instrs| - 1] in b.instrs;
  }

  // ----- one round keeps what the next one needs -----

  lemma RoundTyped(fl: Floats, types: Typing, f: Function, single: set<Name>, known: Sub)
    requires KnownOk(fl, f, single, known) && TypedFunction(types, f) && ParamsFixed(f)
    ensures TypedFunction(types, RewriteFunction(known, true, f))
    ensures NoBoolExtension(f) ==> NoBoolExtension(RewriteFunction(known, true, f))
    ensures ParamsFixed(RewriteFunction(known, true, f))
  {
    hide FoldInstr, KnownOk, Rewrite, RewriteInstr, TypedInstr;
    var f' := RewriteFunction(known, true, f);
    forall b, ins | b in f'.blocks && ins in b.instrs
      ensures TypedInstr(types, ins) && (NoBoolExtension(f) ==> !ExtendsBool(ins))
      ensures ins.dest.Some? ==> ins.dest.value !in f'.params
    {
      var n :| 0 <= n < |f.blocks| && f'.blocks[n] == b;
      RewriteMembers(known, true, f.blocks[n].instrs, ins);
      var i :| i in f.blocks[n].instrs && !Dropped(known, i) && ins == RewriteInstr(known, true, i);
      assert f.blocks[n] in f.blocks && TypedInstr(types, i) && (NoBoolExtension(f) ==> !ExtendsBool(i));
      SubstTyped(fl, types, f, single, known, i);
      FoldedTyped(types, known, i);
      SubstExtends(known, i);
    }
  }

  lemma FoldedTyped(types: Typing, s: Sub, ins: Instr)
    requires TypedInstr(types, SubstInstr(s, ins))
    ensures TypedInstr(types, RewriteInstr(s, true, ins))
    ensures RewriteInstr(s, true, ins).dest.Some? ==> RewriteInstr(s, true, ins).dest == ins.dest
    ensures ExtendsBool(RewriteInstr(s, true, ins)) ==> ExtendsBool(SubstInstr(s, ins))
  {
    hide SubstArgs;
  }

  lemma RoundOnce(f: Function, single: set<Name>, known: Sub)
    requires AtMostOnce(f, single)
    ensures AtMostOnce(RewriteFunction(known, true, f), single)
  {
    hide CountDefs, Rewrite;
    var f' := RewriteFunction(known, true, f);
    forall r | r in single ensures CountDefs(f'.blocks, r) <= 1 {
      RewriteBlocksCount(known, true, f.blocks, f'.blocks, r);
    }
  }

  lemma KnownShrinks(fl: Floats, f: Function, single: set<Name>, known: Sub)
    requires KnownOk(fl, f, single, known) && known != map[]
    ensures SizeOf(RewriteFunction(known, true, f).blocks) < SizeOf(f.blocks)
  {
    hide FoldInstr, SizeOf, RewriteFunction;
    var t :| t in known;
    assert HasReason(fl, f, known, t);
    var b, ins :| b in f.blocks && ins in b.instrs && Reason(fl, known, t, ins);
    DropShrinks(known, true, f, b, ins);
  }

  /** Phase B over the blocks. */
  method RewriteRound(fl: Floats, f: Function, single: set<Name>, known: Sub) returns (res: Function, changed: bool)
    requires Good(f) && KeepsTerminators(known, f)
    requires KnownOk(fl, f, single, known)
    ensures res == RewriteFunction(known, true, f)
    ensures changed ==> SizeOf(res.blocks) < SizeOf(f.blocks)
    ensures !changed ==> res == f && known == map[]
  {
    hide FoldInstr, KnownOk, Good, KeepsTerminators, SizeIn, Rewrite, RewriteBlock;
    var blocks: seq<BasicBlock> := [];
    changed := false;
    for n := 0 to |f.blocks|
      invariant |blocks| == n && forall k :: 0 <= k < n ==> blocks[k] == RewriteBlock(known, true, f.blocks[k])
      invariant changed ==> known != map[] || exists k ::
          0 <= k < n && SizeIn(blocks[k].instrs) < SizeIn(f.blocks[k].instrs)
      invariant !changed ==> blocks == f.blocks[..n]
    {
      BlockTerminates(f, known, n);
      var b, more := RewriteInPlace(f.blocks[n], known);
      ghost var before := blocks;
      blocks := blocks + [b];
      assert forall k :: 0 <= k < n ==> blocks[k] == before[k];
      changed := changed || more;
      assert blocks[n] == b;
    }
    res := f.(blocks := blocks);
    assert blocks == RewriteFunction(known, true, f).blocks;
    assert f.blocks[..|f.blocks|] == f.blocks;
    BlocksShrink(known, true, f.blocks, blocks);
    if known != map[] { KnownShrinks(fl, f, single, known); }
  }

  // ----- the pass -----

  /** A typed function with a sound graph that assigns no parameter. */
  ghost predicate Plain(types: Typing, f: Function) {
    Good(f) && TypedFunction(types, f) && ParamsFixed(f)
  }

  /** What the pass asks of a function: no known true bit is extended by its sign. */
  ghost predicate Foldable(fl: Floats, types: Typing, f: Function) {
    Plain(types, f) && forall single :: OnlySingle(f, single) ==> NoTrueExtension(fl, f, single)
  }

  ghost predicate OnlySingle(f: Function, single: set<Name>) {
    forall r :: r in single <==> CountDefs(f.blocks, r) == 1
  }

  lemma RoundPreserves(fl: Floats, types: Typing, f: Function, single: set<Name>, known: Sub)
    requires Plain(types, f) && AtMostOnce(f, single) && NoTrueExtension(fl, f, single)
    requires KnownOk(fl, f, single, known)
    ensures KeepsTerminators(known, f)
    ensures Preserves(fl, false, f, RewriteFunction(known, true, f)) && MadeFrom(f, RewriteFunction(known, true, f))
    ensures Plain(types, RewriteFunction(known, true, f)) && AtMostOnce(RewriteFunction(known, true, f), single)
    ensures NoTrueExtension(fl, RewriteFunction(known, true, f), single)
    ensures NoBoolExtension(f) ==> NoBoolExtension(RewriteFunction(known, true, f))
  {
    hide FoldInstr, TypedFunction, NoBoolExtension, ParamsFixed, AtMostOnce, RewriteFunction, SoundSub, Preserves,
         Function.GoodCfg, KeepsTerminators, KnownOk, MadeFrom, AllKeepTypes, NoTrueExtension;
    forall env: Env | env.fl == fl ensures SoundSub(env, f, known, true) && KeepsTerminators(known, f) {
      KnownSound(env, types, f, single, known);
    }
    var env := Env(fl, map[], true, false);
    assert SoundSub(env, f, known, true);
    RewriteKeepsGood(known, true, f);
    SoundPreserves(fl, false, f, Change(known, true));
    SoundKeepsTypes(fl, f, known, true);
    forall t | t in known ensures !known[t].GlobalRef? { KnownConst(fl, f, single, known, t); }
    RewriteMade(known, true, f);
    RoundTyped(fl, types, f, single, known);
    RoundNoTrue(fl, f, single, known);
    RoundOnce(f, single, known);
  }

  /** Fold to a fixed point.  The result runs like the source in every program, for every
      run that does not fail, traps included; and nothing foldable is left. */
  method FoldFunction(fl: Floats, ghost types: Typing, f: Function) returns (res: Function, changed: bool)
    requires Foldable(fl, types, f)
    ensures Preserves(fl, false, f, res) && Plain(types, res) && Narrowed(f, res)
        && (Disciplined(f) ==> Disciplined(res))
    ensures NoBoolExtension(f) ==> NoBoolExtension(res)
    ensures MadeFrom(f, res)
    ensures !changed ==> res == f
    ensures forall single :: OnlySingle(f, single) ==>
        NothingFolds(fl, res, single)
    ensures RewriteFunction(map[], true, res) == res
  {
    hide Plain, NoBoolExtension, NoTrueExtension, AtMostOnce, CountDefs, NothingFolds, Preserves, RewriteFunction,
         KnownOk, SizeOf, Narrowed, Disciplined, MadeFrom;
    var single := SingleDefs(f);
    OnceAtStart(f, single);
    PlainGood(types, f);
    assert OnlySingle(f, single);
    PreservesSelf(fl, false, f);
    NarrowedSelf(f);
    MadeSelf(f);
    res, changed := f, false;
    var going := true;
    while going
      invariant Preserves(fl, false, f, res) && Plain(types, res) && AtMostOnce(res, single) && Narrowed(f, res)
      invariant NoTrueExtension(fl, res, single) && (NoBoolExtension(f) ==> NoBoolExtension(res))
      invariant MadeFrom(f, res)
      invariant Disciplined(f) ==> Disciplined(res)
      invariant !changed ==> res == f
      invariant !going ==> NothingFolds(fl, res, single) && RewriteFunction(map[], true, res) == res
      decreases SizeOf(res.blocks), going
    {
      var known := Analyse(fl, res, single);
      RoundPreserves(fl, types, res, single, known);
      PlainGood(types, res);
      var next, more := RewriteRound(fl, res, single, known);
      PreservesTransitive(fl, false, f, res, next);
      RewriteNarrows(known, true, res);
      if Disciplined(res) {
        KnownKeepsOrder(fl, types, res, single, known);
        RewriteKeepsDiscipline(known, true, res);
      }
      NarrowedTransitive(f, res, next);
      MadeTransitive(f, res, next);
      res, going, changed := next, more, changed || more;
    }
    forall s: set<Name> | OnlySingle(f, s) ensures NothingFolds(fl, res, s) {
      assert s == single;
    }
  }

  /** Constants stand for registers without needing anything. */
  lemma KnownKeepsOrder(fl: Floats, types: Typing, f: Function, single: set<Name>, known: Sub)
    requires KnownOk(fl, f, single, known) && Plain(types, f) && Disciplined(f)
    ensures KeepsOrder(known, true, f)
  {
    hide FoldInstr, Function.GoodCfg, TypedFunction, NoBoolExtension, Once, UsesDefined, TextOrdered;
    forall t | t in known ensures t !in f.params {
      assert HasReason(fl, f, known, t);
      var b, ins :| b in f.blocks && ins in b.instrs && Reason(fl, known, t, ins);
      assert ins.dest.value !in f.params;
    }
    forall b, ins | b in f.blocks && ins in b.instrs ensures StandsFor(known, ins) {
      if Dropped(known, ins) { KnownConst(fl, f, single, known, ins.dest.value); }
    }
  }

  lemma OnceAtStart(f: Function, single: set<Name>)
    requires forall r :: r in single <==> CountDefs(f.blocks, r) == 1
    ensures AtMostOnce(f, single)
  {}

  lemma PlainGood(types: Typing, f: Function)
    requires Plain(types, f)
    ensures Good(f)
  {}
}
