/** What makes replacing copies by their sources sound. */
module CopyFacts {
  import opened Cir
  import opened Arith
  import opened Interp
  import opened FlowGraph
  import opened Walks
  import opened Fold
  import opened Copies
  import opened Substitution
  import opened SubstitutionProof
  import opened Definitions
  import opened TypedFunctions
  import opened Passes

  // ----- reasons -----

  /** With `s` put in, `ins` copies operand `k`, and that is what stands for `t`. */
  predicate CopiesSide(s: Sub, ins: Instr, t: Name, k: nat)
    requires t in s && MayCopy(ins) && k < 2
  {
    var id := IdentityOf(ins.op.bin).value;
    && IsUnit(SubstOperand(s, ins.args[1 - k]), ins.ty, id.unit)
    && (k == 1 ==> id.either)
    && s[t] == SubstOperand(s, ins.args[k])
  }

  predicate CopyReason(s: Sub, ins: Instr, t: Name) {
    t in s && ins.dest == Some(t) && MayCopy(ins) && (CopiesSide(s, ins, t, 0) || CopiesSide(s, ins, t, 1))
  }

  ghost predicate HasCopy(f: Function, s: Sub, t: Name) {
    exists b, ins :: b in f.blocks && ins in b.instrs && CopyReason(s, ins, t)
  }

  /** An operand of an instruction that may become a copy is never reassigned. */
  ghost predicate OperandsFixed(f: Function, single: set<Name>) {
    forall b, ins, k ::
        b in f.blocks && ins in b.instrs && MayCopy(ins) && ins.dest.value in single && 0 <= k < 2
            && ins.args[k].Reg? ==>
      CountDefs(f.blocks, ins.args[k].name) <= 1
  }

  /** What copy propagation asks of a function. */
  ghost predicate Copyable(types: Typing, f: Function, single: set<Name>) {
    && Good(f) && TypedFunction(types, f) && ParamsFixed(f) && UsesDefined(f)
    && AtMostOnce(f, single) && OperandsFixed(f, single)
  }

  ghost predicate SubTyped(types: Typing, s: Sub) {
    forall t :: t in s ==> t in types && TypeOf(s[t]) == types[t] && TypedOperand(types, s[t])
  }

  ghost predicate CopiesOk(types: Typing, f: Function, single: set<Name>, s: Sub)
    requires f.blocks != []
  {
    && Settled(s) && SubTyped(types, s)
    && (forall t :: t in s ==> t in single && t !in f.params && HasCopy(f, s, t))
    && (forall t :: t in s ==> Anchored(f, s, t))
  }

  // ----- the reasons are reasons -----

  lemma CopyTyped(types: Typing, s: Sub, ins: Instr)
    requires SubTyped(types, s) && TypedInstr(types, ins)
    ensures KeepsTypes(s, ins)
  {
    forall k | 0 <= k < |ins.args| ensures TypeOf(SubstOperand(s, ins.args[k])) == TypeOf(ins.args[k]) {
      assert TypedOperand(types, ins.args[k]);
    }
  }

  lemma UnitValue(regs: Regs, x: Operand, ty: Ty, unit: int)
    requires IsInt(ty) && IsUnit(x, ty, unit) && TypeOf(x) == ty
    ensures OperandVal(regs, x) == Some(VInt(Wrap(unit, ty)))
  {
    hide Wrap, WrapInt;
    SameWrap(x.value, unit, ty);
  }

  /** Where the operands are in range, the instruction yields the copied operand's value. */
  lemma CopyStep(env: Env, s: Sub, ins: Instr, t: Name, k: nat, regs: Regs, owned: set<nat>, m: Mem)
    requires env.checkRanges && t in s && ins.dest == Some(t) && MayCopy(ins) && k < 2 && CopiesSide(s, ins, t, k)
    requires WellTyped(ins) && KeepsTypes(s, ins)
    ensures DropsClean(env, s, ins, regs, owned, m)
  {
    hide Wrap, WrapInt, IntBin, SubstOperand, InRange, OperandVal, OperandVals;
    var i := SubstInstr(s, ins);
    var id := IdentityOf(ins.op.bin).value;
    assert TypeOf(SubstOperand(s, ins.args[1 - k])) == ins.ty;
    UnitValue(regs, SubstOperand(s, ins.args[1 - k]), ins.ty, id.unit);
    TwoValues(regs, i.args);
    assert i.args[..2] == i.args;
    if OperandVal(regs, i.args[k]).Some? {
      var v := OperandVal(regs, i.args[k]).value;
      if v.VInt? && InRange(v.i, ins.ty) {
        UnitCopies(ins.op.bin, ins.ty, v.i, Wrap(id.unit, ins.ty));
      }
    }
  }

  lemma CopyJustified(env: Env, types: Typing, f: Function, single: set<Name>, s: Sub, b: BasicBlock, ins: Instr)
    requires env.checkRanges && Copyable(types, f, single) && b in f.blocks && ins in b.instrs
    requires CopiesOk(types, f, single, s)
    ensures GoodInstr(env, s, false, ins) && (ins.op.IsTerminator() ==> !Dropped(s, ins))
  {
    hide CountDefs, Step, SubstOperand, Anchored, Good, UsesDefined, OperandsFixed, CopiesSide, WellTyped, KeepsTypes;
    assert TypedInstr(types, ins);
    CopyTyped(types, s, ins);
    if Dropped(s, ins) {
      var t := ins.dest.value;
      assert HasCopy(f, s, t);
      var b0, ins0 :| b0 in f.blocks && ins0 in b0.instrs && CopyReason(s, ins0, t);
      OnlyInstr(f, t, b, ins, b0, ins0);
      forall regs, owned, m ensures DropsClean(env, s, ins, regs, owned, m) {
        CopyStep(env, s, ins, t, if CopiesSide(s, ins, t, 0) then 0 else 1, regs, owned, m);
      }
    }
  }

  lemma CopiesSound(env: Env, types: Typing, f: Function, single: set<Name>, s: Sub)
    requires env.checkRanges && Copyable(types, f, single)
    requires CopiesOk(types, f, single, s)
    ensures SoundSub(env, f, s, false) && KeepsTerminators(s, f)
  {
    hide Copyable, GoodInstr, Dropped, HasCopy, Anchored, Settled, SubTyped;
    CopyableGood(types, f, single);
    forall b, ins | b in f.blocks && ins in b.instrs
      ensures GoodInstr(env, s, false, ins) && (ins.op.IsTerminator() ==> !Dropped(s, ins))
    {
      CopyJustified(env, types, f, single, s, b, ins);
    }
  }

  lemma CopyableGood(types: Typing, f: Function, single: set<Name>)
    requires Copyable(types, f, single)
    ensures Good(f) && f.blocks != []
  {}

  // ----- paths -----

  /** If every path to `q` defines `y`, and every path to a definition of `y` defines `x`,
      every path to `q` defines `x`. */
  lemma PassesThrough(f: Function, q: Pos, y: Name, x: Name)
    requires f.blocks != [] && PassesBefore(f, q, y)
    requires forall p :: DefinesAt(f, p, y) ==> PassesBefore(f, p, x)
    ensures PassesBefore(f, q, x)
  {
    hide InCode, StepsTo, DefinesAt;
    forall w | WalksTo(f, w, q) ensures DefinedOn(f, w, x) {
      assert DefinedOn(f, w, y);
      var j :| 0 <= j < |w| - 1 && DefinesAt(f, w[j], y);
      WalkPrefix(f, w, j + 1);
      assert PassesBefore(f, w[j], x);
      DefinedOnLonger(f, w[..j + 1], w[j + 1..], x);
      assert w[..j + 1] + w[j + 1..] == w;
    }
  }

  /** A used register that some instruction defines is defined on every path to the use. */
  lemma UsePasses(types: Typing, f: Function, single: set<Name>, q: Pos, k: nat, p: Pos)
    requires Copyable(types, f, single) && InCode(f, q) && k < |InstrAt(f, q).args| && InstrAt(f, q).args[k].Reg?
    requires DefinesAt(f, p, InstrAt(f, q).args[k].name)
    ensures PassesBefore(f, q, InstrAt(f, q).args[k].name)
  {
    hide InCode, WalksTo, Good, TypedFunction, OperandsFixed, AtMostOnce;
    var r := InstrAt(f, q).args[k].name;
    var n := PlaceOf(f, p, r);
    assert f.blocks[n] in f.blocks && f.blocks[n].instrs[p.index] in f.blocks[n].instrs;
    assert UseDefined(f, q, k);
  }

  ghost predicate OnePoint(f: Function, x: Name) {
    forall p, q :: DefinesAt(f, p, x) && DefinesAt(f, q, x) ==> p == q
  }

  ghost predicate PointPasses(f: Function, q: Pos, x: Name)
    requires f.blocks != []
  {
    OnePoint(f, x) && forall p :: DefinesAt(f, p, x) ==> PassesBefore(f, q, x)
  }

  /** An operand that is not replaced is anchored at its use. */
  lemma DirectAnchor(types: Typing, f: Function, single: set<Name>, q: Pos, k: nat)
    requires f.blocks != [] && InCode(f, q) && MayCopy(InstrAt(f, q)) && InstrAt(f, q).dest.value in single && k < 2
    requires InstrAt(f, q).args[k].Reg?
    requires Copyable(types, f, single)
    ensures PointPasses(f, q, InstrAt(f, q).args[k].name)
  {
    hide PassesBefore, CountDefs, InCode, Good, TypedFunction, UsesDefined, DefinesAt;
    var x := InstrAt(f, q).args[k].name;
    FixedOperand(f, single, q, k);
    forall a, b | DefinesAt(f, a, x) && DefinesAt(f, b, x) ensures a == b { OnlyPoint(f, x, a, b); }
    forall p | DefinesAt(f, p, x) ensures PassesBefore(f, q, x) { UsePasses(types, f, single, q, k, p); }
  }

  /** What stands for a replaced operand is anchored at the use. */
  lemma AliasAnchor(types: Typing, f: Function, single: set<Name>, s: Sub, q: Pos, k: nat)
    requires f.blocks != [] && InCode(f, q) && k < |InstrAt(f, q).args| && InstrAt(f, q).args[k].Reg?
    requires InstrAt(f, q).args[k].name in s && s[InstrAt(f, q).args[k].name].Reg?
    requires Copyable(types, f, single)
    requires CopiesOk(types, f, single, s)
    ensures PointPasses(f, q, s[InstrAt(f, q).args[k].name].name)
  {
    hide PassesBefore, Settled, SubTyped, InCode, Copyable, DefinesAt, HasCopy;
    CopyableGood(types, f, single);
    var y := InstrAt(f, q).args[k].name;
    var x := s[y].name;
    assert Anchored(f, s, y);
    var d := CopyPoint(f, s, y);
    UsePasses(types, f, single, q, k, d);
    forall p | DefinesAt(f, p, x) ensures PassesBefore(f, q, x) { PassesThrough(f, q, y, x); }
  }

  /** Either way, what an operand stands for is anchored. */
  lemma OperandAnchor(types: Typing, f: Function, single: set<Name>, s: Sub, q: Pos, k: nat)
    requires f.blocks != [] && InCode(f, q) && MayCopy(InstrAt(f, q)) && InstrAt(f, q).dest.value in single && k < 2
    requires SubstOperand(s, InstrAt(f, q).args[k]).Reg?
    requires Copyable(types, f, single)
    requires CopiesOk(types, f, single, s)
    ensures PointPasses(f, q, SubstOperand(s, InstrAt(f, q).args[k]).name)
  {
    hide PointPasses, InCode, Copyable, CopiesOk;
    if InstrAt(f, q).args[k].name in s {
      AliasAnchor(types, f, single, s, q, k);
    } else {
      DirectAnchor(types, f, single, q, k);
    }
  }

  lemma PointMember(f: Function, q: Pos)
    requires InCode(f, q)
    ensures BlockMap(f.blocks)[q.block] in f.blocks && InstrAt(f, q) in BlockMap(f.blocks)[q.block].instrs
  {
    BlockMapHas(f.blocks, q.block);
  }

  lemma FixedOperand(f: Function, single: set<Name>, q: Pos, k: nat)
    requires InCode(f, q) && MayCopy(InstrAt(f, q)) && InstrAt(f, q).dest.value in single && k < 2
        && InstrAt(f, q).args[k].Reg?
    requires OperandsFixed(f, single)
    ensures CountDefs(f.blocks, InstrAt(f, q).args[k].name) <= 1
  {
    hide CountDefs;
    PointMember(f, q);
  }

  /** A replaced register is defined somewhere. */
  lemma CopyPoint(f: Function, s: Sub, t: Name) returns (p: Pos)
    requires f.blocks != [] && HasCopy(f, s, t) && f.GoodCfg()
    ensures DefinesAt(f, p, t)
  {
    hide CopiesSide;
    var b, ins :| b in f.blocks && ins in b.instrs && CopyReason(s, ins, t);
    p := MemberPoint(f, b, ins);
  }

  lemma MemberPoint(f: Function, b: BasicBlock, ins: Instr) returns (p: Pos)
    requires f.blocks != [] && b in f.blocks && ins in b.instrs && f.GoodCfg()
    ensures InCode(f, p) && InstrAt(f, p) == ins && p.block == b.id
  {
    BlockMapHas(f.blocks, b.id);
    var n :| 0 <= n < |f.blocks| && f.blocks[n] == b;
    var k :| 0 <= k < |f.blocks| && f.blocks[k] == BlockMap(f.blocks)[b.id];
    assert n == k;
    var i :| 0 <= i < |b.instrs| && b.instrs[i] == ins;
    p := Pos(b.id, i);
  }

  // ----- composing substitutions -----

  /** First `s`, then `t`. */
  function Compose(s: Sub, t: Sub): Sub {
    map r | r in s.Keys + t.Keys :: if r in s then SubstOperand(t, s[r]) else t[r]
  }

  lemma ComposeOperand(s: Sub, t: Sub, x: Operand)
    ensures SubstOperand(Compose(s, t), x) == SubstOperand(t, SubstOperand(s, x))
  {}

  lemma ComposeInstr(s: Sub, t: Sub, ins: Instr)
    ensures SubstInstr(Compose(s, t), ins) == SubstInstr(t, SubstInstr(s, ins))
    ensures Dropped(Compose(s, t), ins) <==> Dropped(s, ins) || Dropped(t, SubstInstr(s, ins))
  {
    hide SubstOperand, Compose;
    forall k | 0 <= k < |ins.args|
      ensures SubstArgs(Compose(s, t), ins.args)[k] == SubstArgs(t, SubstArgs(s, ins.args))[k] {
      ComposeOperand(s, t, ins.args[k]);
    }
    assert SubstArgs(Compose(s, t), ins.args) == SubstArgs(t, SubstArgs(s, ins.args));
    ComposeKeys(s, t);
  }

  lemma ComposeKeys(s: Sub, t: Sub)
    ensures forall r :: r in Compose(s, t) <==> r in s || r in t
  {}

  lemma {:induction false} ComposeRewrite(s: Sub, t: Sub, instrs: seq<Instr>)
    ensures Rewrite(t, false, Rewrite(s, false, instrs)) == Rewrite(Compose(s, t), false, instrs)
  {
    hide SubstInstr, Dropped, Compose;
    if instrs != [] {
      ComposeRewrite(s, t, instrs[1..]);
      ComposeInstr(s, t, instrs[0]);
      if !Dropped(s, instrs[0]) {
        var rest := Rewrite(s, false, instrs[1..]);
        assert ([SubstInstr(s, instrs[0])] + rest)[1..] == rest;
      }
    }
  }

  lemma ComposeFunction(s: Sub, t: Sub, f: Function)
    ensures RewriteFunction(t, false, RewriteFunction(s, false, f)) == RewriteFunction(Compose(s, t), false, f)
  {
    hide Rewrite, Compose;
    var f1 := RewriteFunction(s, false, f);
    forall n | 0 <= n < |f.blocks|
      ensures RewriteBlock(t, false, f1.blocks[n]) == RewriteBlock(Compose(s, t), false, f.blocks[n])
    {
      ComposeRewrite(s, t, f.blocks[n].instrs);
    }
    assert RewriteFunction(t, false, f1).blocks == RewriteFunction(Compose(s, t), false, f).blocks;
  }

  // ----- one more alias -----

  /** `t` now goes to `x`, also where something went to `t` before. */
  function Insert(s: Sub, t: Name, x: Operand): Sub {
    Compose(s, map[t := x])
  }

  /** A new alias found at an instruction of `f`, read through `s`. */
  ghost predicate NewAlias(f: Function, single: set<Name>, s: Sub, b: BasicBlock, ins: Instr, t: Name, k: nat,
                           x: Operand) {
    && b in f.blocks && ins in b.instrs && ins.dest == Some(t) && t in single && t !in s && MayCopy(ins) && k < 2
    && IsUnit(SubstOperand(s, ins.args[1 - k]), ins.ty, IdentityOf(ins.op.bin).value.unit)
    && (k == 1 ==> IdentityOf(ins.op.bin).value.either)
    && x == SubstOperand(s, ins.args[k]) && (x.Reg? ==> x.name != t && x.name !in s)
  }

  lemma InsertSettled(s: Sub, t: Name, x: Operand)
    requires Settled(s) && t !in s && (x.Reg? ==> x.name != t && x.name !in s)
    ensures Settled(Insert(s, t, x))
    ensures forall u :: u in Insert(s, t, x) <==> u in s || u == t
    ensures Insert(s, t, x)[t] == x
    ensures forall u :: u in s ==> Insert(s, t, x)[u] == if s[u].Reg? && s[u].name == t then x else s[u]
  {}

  lemma InsertTyped(types: Typing, s: Sub, t: Name, x: Operand)
    requires SubTyped(types, s) && t !in s && t in types && TypeOf(x) == types[t] && TypedOperand(types, x)
    ensures SubTyped(types, Insert(s, t, x))
  {}

  lemma SubstTypedOperand(types: Typing, s: Sub, x: Operand)
    requires SubTyped(types, s) && TypedOperand(types, x)
    ensures TypedOperand(types, SubstOperand(s, x)) && TypeOf(SubstOperand(s, x)) == TypeOf(x)
  {}

  /** Reasons survive: they are read through the larger substitution. */
  lemma ReasonKeeps(s: Sub, t: Name, x: Operand, ins: Instr, u: Name)
    requires CopyReason(s, ins, u)
    ensures CopyReason(Insert(s, t, x), ins, u)
  {
    hide WrapInt;
    var one := map[t := x];
    ComposeOperand(s, one, ins.args[0]);
    ComposeOperand(s, one, ins.args[1]);
    ComposeKeys(s, one);
  }

  lemma NewReason(f: Function, single: set<Name>, s: Sub, b: BasicBlock, ins: Instr, t: Name, k: nat, x: Operand)
    requires NewAlias(f, single, s, b, ins, t, k, x)
    ensures CopyReason(Insert(s, t, x), ins, t)
  {
    hide WrapInt;
    var one := map[t := x];
    ComposeOperand(s, one, ins.args[0]);
    ComposeOperand(s, one, ins.args[1]);
    ComposeKeys(s, one);
    assert CopiesSide(Insert(s, t, x), ins, t, k);
  }

  /** Every use of a replaced register comes after its definition on every path. */
  ghost predicate UsesPassed(f: Function, t: Name)
    requires f.blocks != []
  {
    forall q: Pos, k: nat :: Uses(f, q, k, t) ==> PassesBefore(f, q, t)
  }

  lemma DefinedUses(types: Typing, f: Function, single: set<Name>, t: Name, p: Pos)
    requires Copyable(types, f, single) && DefinesAt(f, p, t)
    ensures UsesPassed(f, t)
  {
    hide Copyable, PassesBefore, InCode, DefinesAt;
    CopyableGood(types, f, single);
    forall q: Pos, k: nat | Uses(f, q, k, t) ensures PassesBefore(f, q, t) { UsePasses(types, f, single, q, k, p); }
  }

  lemma NewAnchor(types: Typing, f: Function, single: set<Name>, s: Sub, b: BasicBlock, ins: Instr, t: Name, k: nat,
                  x: Operand)
    requires NewAlias(f, single, s, b, ins, t, k, x)
    requires Copyable(types, f, single)
    requires CopiesOk(types, f, single, s)
    ensures Anchored(f, Insert(s, t, x), t)
    ensures x.Reg? ==> forall q :: DefinesAt(f, q, t) ==> PointPasses(f, q, x.name)
    ensures UsesPassed(f, t)
  {
    hide PassesBefore, CountDefs, Settled, SubTyped, InCode, Copyable, IsUnit, SubstOperand, HasCopy, CopiesOk;
    CopyableGood(types, f, single);
    InsertHas(s, t, x);
    var p := MemberPoint(f, b, ins);
    assert DefinesAt(f, p, t);
    DefinedUses(types, f, single, t, p);
    if x.Reg? {
      forall q | DefinesAt(f, q, t) ensures PointPasses(f, q, x.name) {
        SinglePoint(types, f, single, t, p, q);
        OperandAnchor(types, f, single, s, q, k);
      }
      PointAnchors(f, Insert(s, t, x), t, x.name, p);
    }
  }

  lemma InsertHas(s: Sub, t: Name, x: Operand)
    requires t !in s
    ensures t in Insert(s, t, x) && Insert(s, t, x)[t] == x
  {}

  lemma SinglePoint(types: Typing, f: Function, single: set<Name>, t: Name, p: Pos, q: Pos)
    requires Copyable(types, f, single) && t in single && DefinesAt(f, p, t) && DefinesAt(f, q, t)
    ensures p == q
  {
    hide CountDefs, InCode;
    OnlyPoint(f, t, p, q);
  }

  lemma PointAnchors(f: Function, s: Sub, t: Name, x: Name, p: Pos)
    requires f.blocks != [] && t in s && s[t].Reg? && s[t].name == x && UsesPassed(f, t)
    requires DefinesAt(f, p, t) && forall q :: DefinesAt(f, q, t) ==> PointPasses(f, q, x)
    ensures Anchored(f, s, t)
  {
    hide PassesBefore, DefinesAt, Uses;
    assert PointPasses(f, p, x);
  }

  /** An older alias stays anchored, also when what stood for it is replaced in turn. */
  lemma OldAnchor(types: Typing, f: Function, single: set<Name>, s: Sub, t: Name, x: Operand, u: Name)
    requires f.blocks != [] && u in s && t !in s && Anchored(f, s, u) && UsesPassed(f, u)
    requires x.Reg? ==> forall q :: DefinesAt(f, q, t) ==> PointPasses(f, q, x.name)
    requires Copyable(types, f, single) && HasCopy(f, s, u) && (exists p :: DefinesAt(f, p, t))
    ensures u in Insert(s, t, x) && Anchored(f, Insert(s, t, x), u)
  {
    hide PassesBefore, DefinesAt, Copyable, HasCopy, Uses;
    CopyableGood(types, f, single);
    InsertOld(s, t, x, u);
    if s[u].Reg? && s[u].name == t && x.Reg? {
      var p :| DefinesAt(f, p, t);
      forall q | DefinesAt(f, q, u) ensures PointPasses(f, q, x.name) {
        assert PointPasses(f, p, x.name);
        forall a | DefinesAt(f, a, x.name) ensures PassesBefore(f, q, x.name) {
          assert PassesBefore(f, q, t);
          forall b | DefinesAt(f, b, t) ensures PassesBefore(f, b, x.name) { assert PointPasses(f, b, x.name); }
          PassesThrough(f, q, t, x.name);
        }
      }
      var d := CopyPoint(f, s, u);
      PointAnchors(f, Insert(s, t, x), u, x.name, d);
    }
  }

  lemma InsertOld(s: Sub, t: Name, x: Operand, u: Name)
    requires u in s && t !in s
    ensures u in Insert(s, t, x) && Insert(s, t, x)[u] == if s[u].Reg? && s[u].name == t then x else s[u]
  {}

  lemma OldUses(types: Typing, f: Function, single: set<Name>, s: Sub, u: Name)
    requires Copyable(types, f, single) && HasCopy(f, s, u)
    ensures UsesPassed(f, u)
  {
    hide Copyable, HasCopy;
    CopyableGood(types, f, single);
    var d := CopyPoint(f, s, u);
    DefinedUses(types, f, single, u, d);
  }

  /** Adding an alias keeps everything the soundness of the substitution needs. */
  lemma InsertOk(types: Typing, f: Function, single: set<Name>, s: Sub, b: BasicBlock, ins: Instr, t: Name, k: nat,
                 x: Operand)
    requires NewAlias(f, single, s, b, ins, t, k, x)
    requires Copyable(types, f, single)
    requires CopiesOk(types, f, single, s)
    ensures CopiesOk(types, f, single, Insert(s, t, x))
  {
    hide Settled, SubTyped, Anchored, CountDefs, CopyReason, SubstOperand, IsUnit, WellTyped, UsesDefined,
         OperandsFixed, Insert, Good, DefinesAt;
    CopyableGood(types, f, single);
    assert TypedInstr(types, ins);
    assert TypedOperand(types, ins.args[k]);
    SubstTypedOperand(types, s, ins.args[k]);
    CopyOperandTy(types, ins, k);
    InsertSettled(s, t, x);
    InsertTyped(types, s, t, x);
    NewReason(f, single, s, b, ins, t, k, x);
    NewAnchor(types, f, single, s, b, ins, t, k, x);
    var p := MemberPoint(f, b, ins);
    AtPoint(f, p, ins, t);
    forall u | u in Insert(s, t, x)
      ensures u in single && u !in f.params && HasCopy(f, Insert(s, t, x), u) && Anchored(f, Insert(s, t, x), u)
    {
      if u == t {
        assert HasCopy(f, Insert(s, t, x), t);
      } else {
        var b0, ins0 :| b0 in f.blocks && ins0 in b0.instrs && CopyReason(s, ins0, u);
        ReasonKeeps(s, t, x, ins0, u);
        OldUses(types, f, single, s, u);
        OldAnchor(types, f, single, s, t, x, u);
      }
    }
  }

  lemma AtPoint(f: Function, p: Pos, ins: Instr, t: Name)
    requires InCode(f, p) && InstrAt(f, p) == ins && ins.dest == Some(t)
    ensures DefinesAt(f, p, t)
  {}

  lemma CopyOperandTy(types: Typing, ins: Instr, k: nat)
    requires TypedInstr(types, ins) && MayCopy(ins) && k < 2
    ensures ins.dest.value in types && types[ins.dest.value] == ins.ty && TypeOf(ins.args[k]) == ins.ty
  {}
}
