/** Replacing registers by other operands and dropping their definitions: when that
    changes no run.  Constant folding and copy propagation are both instances. */
module Substitution {
  import opened Cir
  import opened Arith
  import opened Interp
  import opened Walks
  import opened Trails

  /** Which registers go, and what stands for each. */
  type Sub = map<Name, Operand>

  function SubstOperand(s: Sub, x: Operand): Operand {
    if x.Reg? && x.name in s then s[x.name] else x
  }

  function SubstArgs(s: Sub, xs: seq<Operand>): (ys: seq<Operand>)
    ensures |ys| == |xs|
    ensures forall k :: 0 <= k < |xs| ==> ys[k] == SubstOperand(s, xs[k])
  {
    seq(|xs|, k requires 0 <= k < |xs| => SubstOperand(s, xs[k]))
  }

  function SubstInstr(s: Sub, ins: Instr): Instr {
    ins.(args := SubstArgs(s, ins.args))
  }

  /** A conditional branch on a constant is a plain branch. */
  function FoldBranch(ins: Instr): Instr {
    if ins.op.BrCond? && ins.args != [] && ins.args[0].ConstInt? then
      Instr(Br(if ins.args[0].value % 2 == 1 then ins.op.thenTarget else ins.op.elseTarget), Void, None, [])
    else ins
  }

  function Dropped(s: Sub, ins: Instr): bool {
    ins.dest.Some? && ins.dest.value in s
  }

  /** Every use replaced, every definition of a replaced register dropped, and, for a
      pass that asks for it, branches on constants folded. */
  function Rewrite(s: Sub, branches: bool, instrs: seq<Instr>): seq<Instr> {
    if instrs == [] then []
    else
      var rest := Rewrite(s, branches, instrs[1..]);
      if Dropped(s, instrs[0]) then rest else [RewriteInstr(s, branches, instrs[0])] + rest
  }

  function RewriteInstr(s: Sub, branches: bool, ins: Instr): Instr {
    if branches then FoldBranch(SubstInstr(s, ins)) else SubstInstr(s, ins)
  }

  function RewriteBlock(s: Sub, branches: bool, b: BasicBlock): BasicBlock {
    BasicBlock(b.id, Rewrite(s, branches, b.instrs))
  }

  function RewriteFunction(s: Sub, branches: bool, f: Function): Function {
    f.(blocks := seq(|f.blocks|, n requires 0 <= n < |f.blocks| => RewriteBlock(s, branches, f.blocks[n])))
  }

  // ----- when a substitution is sound for a function -----

  /** Dropping `ins` is harmless: it never traps, touches no memory, and computes the
      value of what replaces its result. */
  ghost predicate Justified(env: Env, s: Sub, ins: Instr) {
    Dropped(s, ins) ==>
      && !ins.op.IsTerminator() && !ins.op.Call?
      && forall regs, owned, m :: DropsClean(env, s, ins, regs, owned, m)
  }

  ghost predicate DropsClean(env: Env, s: Sub, ins: Instr, regs: Regs, owned: set<nat>, m: Mem)
    requires Dropped(s, ins)
  {
    var x := OperandVal(regs, s[ins.dest.value]);
    match Step(env, SubstInstr(s, ins), regs, owned, m)
    case Next(regs', owned', m') => x.Some? && regs' == regs[ins.dest.value := x.value] && owned' == owned && m' == m
    case StepTraps => false
    case StepFails => true
  }

  /** Replacements keep the static type of the operand ... */
  predicate KeepsTypes(s: Sub, ins: Instr) {
    forall k :: 0 <= k < |ins.args| ==> TypeOf(SubstOperand(s, ins.args[k])) == TypeOf(ins.args[k])
  }

  /** ... and a branch is folded only on an i1. */
  predicate BranchesOnBits(s: Sub, ins: Instr) {
    ins.op.BrCond? && ins.args != [] && SubstOperand(s, ins.args[0]).ConstInt? ==> SubstOperand(s, ins.args[0]).ty.I1?
  }

  ghost predicate GoodInstr(env: Env, s: Sub, branches: bool, ins: Instr) {
    Justified(env, s, ins) && KeepsTypes(s, ins) && (branches ==> BranchesOnBits(s, ins))
  }

  /** What stands for a register is not itself replaced. */
  ghost predicate Settled(s: Sub) {
    forall t :: t in s && s[t].Reg? ==> s[t].name !in s
  }

  /** A register standing for `t` is assigned at most at one point, and on every path to
      a definition of `t`; and `t` is defined on every path to each use. */
  ghost predicate Anchored(f: Function, s: Sub, t: Name)
    requires f.blocks != [] && t in s
  {
    s[t].Reg? ==>
      && (forall p, q :: DefinesAt(f, p, s[t].name) && DefinesAt(f, q, s[t].name) ==> p == q)
      && (forall p, q :: DefinesAt(f, p, s[t].name) && DefinesAt(f, q, t) ==> PassesBefore(f, q, s[t].name))
      && (forall q: Pos, k: nat :: Uses(f, q, k, t) ==> PassesBefore(f, q, t))
  }

  ghost predicate PassesBefore(f: Function, q: Pos, r: Name)
    requires f.blocks != []
  {
    forall w :: WalksTo(f, w, q) ==> DefinedOn(f, w, r)
  }

  ghost predicate Uses(f: Function, q: Pos, k: nat, t: Name) {
    InCode(f, q) && k < |InstrAt(f, q).args| && InstrAt(f, q).args[k].Reg? && InstrAt(f, q).args[k].name == t
  }

  ghost predicate GoodInstrs(env: Env, f: Function, s: Sub, branches: bool) {
    forall b, ins :: b in f.blocks && ins in b.instrs ==> GoodInstr(env, s, branches, ins)
  }

  ghost predicate SoundSub(env: Env, f: Function, s: Sub, branches: bool)
    requires f.blocks != []
  {
    && Settled(s)
    && (forall t :: t in s ==> t !in f.params)
    && (forall t :: t in s ==> Anchored(f, s, t))
    && GoodInstrs(env, f, s, branches)
  }

  // ----- what links the two runs -----

  /** Outside the replaced registers both hold the same. */
  ghost predicate AgreeOutside(s: Sub, a: Regs, b: Regs) {
    forall r :: r !in s ==> (r in a <==> r in b) && (r in a && r in b ==> a[r] == b[r])
  }

  /** Since the last definition of `x` the walk has not defined `t` again. */
  ghost predicate Stale(f: Function, w: seq<Pos>, t: Name, x: Name) {
    exists j :: 0 <= j < |w| - 1 && DefinesAt(f, w[j], x) && forall k :: j < k < |w| - 1 ==> !DefinesAt(f, w[k], t)
  }

  ghost predicate Equal(s: Sub, regs: Regs, t: Name)
    requires t in s
  {
    t in regs ==> OperandVal(regs, s[t]) == Some(regs[t])
  }

  /** A replaced register holds the value of its replacement, unless that has been
      assigned since. */
  ghost predicate Linked(f: Function, s: Sub, w: seq<Pos>, regs: Regs) {
    forall t :: t in s ==> Equal(s, regs, t) || (s[t].Reg? && Stale(f, w, t, s[t].name))
  }

  ghost predicate UsesLinked(s: Sub, regs: Regs, xs: seq<Operand>) {
    forall k :: 0 <= k < |xs| && xs[k].Reg? && xs[k].name in s ==> Equal(s, regs, xs[k].name)
  }

  /** At a use that every path defines, the value cannot be stale: otherwise the walk could
      be cut short to one that never defines the register. */
  lemma NotStale(f: Function, s: Sub, w: seq<Pos>, t: Name, q: Pos, k: nat)
    requires f.blocks != [] && t in s && s[t].Reg? && s[t].name != t && WalksTo(f, w, q) && Uses(f, q, k, t)
    requires Anchored(f, s, t)
    ensures !Stale(f, w, t, s[t].name)
  {
    hide InCode, StepsTo;
    var x := s[t].name;
    if j :| 0 <= j < |w| - 1 && DefinesAt(f, w[j], x) && forall k :: j < k < |w| - 1 ==> !DefinesAt(f, w[k], t) {
      var i := FirstDefinition(f, w, x, j);
      assert w[i] == w[j];
      forall k | 0 <= k < i ensures !DefinesAt(f, w[k], t) {
        if DefinesAt(f, w[k], t) { var h := EarlierAnchor(f, s, w, t, i, k); }
      }
      var v := ShortWalk(f, w, i, j, t, x);
    }
  }

  /** A definition of `t` on a walk comes after one of what stands for it. */
  lemma EarlierAnchor(f: Function, s: Sub, w: seq<Pos>, t: Name, i: nat, k: nat) returns (h: nat)
    requires f.blocks != [] && t in s && s[t].Reg? && IsWalk(f, w) && k < i < |w|
    requires DefinesAt(f, w[i], s[t].name) && DefinesAt(f, w[k], t)
    requires Anchored(f, s, t)
    ensures h < k && DefinesAt(f, w[h], s[t].name)
  {
    WalkPrefix(f, w, k + 1);
    assert PassesBefore(f, w[k], s[t].name);
    assert DefinedOn(f, w[..k + 1], s[t].name);
    h :| 0 <= h < |w[..k + 1]| - 1 && DefinesAt(f, w[..k + 1][h], s[t].name);
  }

  /** Cutting a walk from the first to a later visit of a definition of `x`. */
  lemma ShortWalk(f: Function, w: seq<Pos>, i: nat, j: nat, t: Name, x: Name) returns (v: seq<Pos>)
    requires f.blocks != [] && IsWalk(f, w) && i <= j < |w| - 1 && w[i] == w[j] && DefinesAt(f, w[j], x) && x != t
    requires forall k :: 0 <= k < i ==> !DefinesAt(f, w[k], t)
    requires forall k :: j < k < |w| - 1 ==> !DefinesAt(f, w[k], t)
    ensures WalksTo(f, v, w[|w| - 1]) && !DefinedOn(f, v, t)
  {
    hide InCode, StepsTo;
    OneResult(f, w[j], x, t);
    WalkSplices(f, w, i, j);
    v := w[..i] + w[j..];
    forall h | 0 <= h < |v| - 1 ensures !DefinesAt(f, v[h], t) {
      if h < i { assert v[h] == w[h]; } else { assert v[h] == w[h - i + j]; }
    }
  }

  lemma OneResult(f: Function, q: Pos, x: Name, t: Name)
    requires DefinesAt(f, q, x) && x != t
    ensures !DefinesAt(f, q, t)
  {}

  lemma {:induction false} FirstDefinition(f: Function, w: seq<Pos>, x: Name, j: nat) returns (i: nat)
    requires j < |w| && DefinesAt(f, w[j], x)
    ensures i <= j && DefinesAt(f, w[i], x) && forall k :: 0 <= k < i ==> !DefinesAt(f, w[k], x)
  {
    i := 0;
    while !DefinesAt(f, w[i], x)
      invariant i <= j && forall k :: 0 <= k < i ==> !DefinesAt(f, w[k], x)
      decreases j - i
    {
      i := i + 1;
    }
  }

  /** At every instruction the replaced operands hold the values of their replacements. */
  lemma LinkedUses(f: Function, s: Sub, w: seq<Pos>, b: BasicBlock, rest: seq<Instr>, regs: Regs)
    requires f.blocks != [] && Settled(s) && OnTrail(f, w, b, rest) && Linked(f, s, w, regs)
    requires forall t :: t in s ==> Anchored(f, s, t)
    requires f.GoodCfg()
    ensures UsesLinked(s, regs, rest[0].args)
  {
    hide Function.GoodCfg, BlockMap, Anchored, Equal, Stale;
    TrailInstr(f, w, b, rest);
    var xs, q := rest[0].args, w[|w| - 1];
    forall k | 0 <= k < |xs| && xs[k].Reg? && xs[k].name in s ensures Equal(s, regs, xs[k].name) {
      var t := xs[k].name;
      if s[t].Reg? {
        assert Uses(f, q, k, t);
        NotStale(f, s, w, t, q, k);
      }
    }
  }

  /** Nothing but the result register is assigned. */
  predicate WritesOnly(regs: Regs, regs': Regs, dest: Option<Name>) {
    regs' == regs || (dest.Some? && dest.value in regs' && regs' == regs[dest.value := regs'[dest.value]])
  }

  /** The link survives an instruction, whether it writes its result or not. */
  lemma LinkedGrows(f: Function, s: Sub, w: seq<Pos>, w': seq<Pos>, regs: Regs, regs': Regs, ins: Instr)
    requires w != [] && |w'| == |w| + 1 && w'[..|w|] == w && Settled(s) && Linked(f, s, w, regs)
    requires InCode(f, w[|w| - 1]) && InstrAt(f, w[|w| - 1]) == ins
    requires WritesOnly(regs, regs', ins.dest)
    requires Dropped(s, ins) ==> ins.dest.value in regs' && Equal(s, regs', ins.dest.value)
    ensures Linked(f, s, w', regs')
  {
    hide InCode;
    forall t | t in s ensures Equal(s, regs', t) || (s[t].Reg? && Stale(f, w', t, s[t].name)) {
      if ins.dest != Some(t) {
        if s[t].Reg? && ins.dest == Some(s[t].name) {
          StaleNow(f, w, w', t, s[t].name);
        } else if !Equal(s, regs, t) {
          StaleGrows(f, w, w', t, s[t].name);
        }
      }
    }
  }

  lemma StaleNow(f: Function, w: seq<Pos>, w': seq<Pos>, t: Name, x: Name)
    requires w != [] && |w'| == |w| + 1 && w'[..|w|] == w && DefinesAt(f, w[|w| - 1], x)
    ensures Stale(f, w', t, x)
  {
    assert w'[|w| - 1] == w'[..|w|][|w| - 1];
  }

  lemma StaleGrows(f: Function, w: seq<Pos>, w': seq<Pos>, t: Name, x: Name)
    requires w != [] && |w'| == |w| + 1 && w'[..|w|] == w && Stale(f, w, t, x) && !DefinesAt(f, w[|w| - 1], t)
    ensures Stale(f, w', t, x)
  {
    hide DefinesAt;
    assert forall i :: 0 <= i < |w| ==> w'[i] == w'[..|w|][i];
    var j :| 0 <= j < |w| - 1 && DefinesAt(f, w[j], x) && forall k :: j < k < |w| - 1 ==> !DefinesAt(f, w[k], t);
    assert DefinesAt(f, w'[j], x);
  }
}
