/** What it means for a pass to preserve a function, in whatever program it stands. */
module Passes {
  import opened Cir
  import opened Arith
  import opened Interp
  import opened FlowGraph
  import opened Walks
  import opened Substitution
  import opened SubstitutionProof

  /** The program with function `g` replaced. */
  function Swap(env: Env, g: Name, f: Function): Env {
    env.(funcs := env.funcs[g := f])
  }

  ghost predicate Good(f: Function) {
    f.blocks != [] && f.GoodCfg()
  }

  ghost predicate AllGood(env: Env) {
    forall g :: g in env.funcs ==> Good(env.funcs[g])
  }

  /** `f` is function `g` of a well-formed program over these floats; `ranges` asks that
      the run is one whose integer operands stay in the range of their type. */
  ghost predicate Hosts(env: Env, g: Name, f: Function, fl: Floats, ranges: bool) {
    g in env.funcs && env.funcs[g] == f && env.fl == fl && (ranges ==> env.checkRanges) && AllGood(env)
  }

  ghost predicate SwapSame(env: Env, g: Name, f: Function, fuel: nat, name: Name, args: seq<Val>, m: Mem) {
    Same(CallFn(env, fuel, name, args, m), CallFn(Swap(env, g, f), fuel, name, args, m))
  }

  /** Replacing `f` by `f'` in any program changes no run of it that does not fail. */
  ghost predicate Preserves(fl: Floats, ranges: bool, f: Function, f': Function) {
    && Good(f') && f'.params == f.params
    && forall env, g, fuel: nat, name, args, m ::
        Hosts(env, g, f, fl, ranges) ==> SwapSame(env, g, f', fuel, name, args, m)
  }

  lemma PreservesSelf(fl: Floats, ranges: bool, f: Function)
    requires Good(f)
    ensures Preserves(fl, ranges, f, f)
  {
    hide CallFn;
    forall env, g, fuel: nat, name, args, m | Hosts(env, g, f, fl, ranges)
      ensures SwapSame(env, g, f, fuel, name, args, m) {
      assert Swap(env, g, f) == env;
    }
  }

  lemma PreservesTransitive(fl: Floats, ranges: bool, f: Function, f1: Function, f2: Function)
    requires Preserves(fl, ranges, f, f1) && Preserves(fl, ranges, f1, f2)
    ensures Preserves(fl, ranges, f, f2)
  {
    hide CallFn, Good;
    forall env, g, fuel: nat, name, args, m | Hosts(env, g, f, fl, ranges)
      ensures SwapSame(env, g, f2, fuel, name, args, m) {
      var mid := Swap(env, g, f1);
      assert SwapSame(env, g, f1, fuel, name, args, m);
      assert Hosts(mid, g, f1, fl, ranges);
      assert SwapSame(mid, g, f2, fuel, name, args, m);
      assert Swap(mid, g, f2) == Swap(env, g, f2);
    }
  }

  /** Every function of a program replaced by one that preserves it. */
  ghost predicate Replaced(env: Env, env': Env, names: set<Name>, ranges: bool) {
    && env' == env.(funcs := env'.funcs) && env'.funcs.Keys == env.funcs.Keys && names <= env.funcs.Keys
    && (ranges ==> env.checkRanges) && AllGood(env)
    && (forall g :: g in env.funcs && g !in names ==> env'.funcs[g] == env.funcs[g])
    && forall g :: g in names ==> FunctionPreserved(env, env', g, ranges)
  }

  ghost predicate FunctionPreserved(env: Env, env': Env, g: Name, ranges: bool) {
    g in env.funcs && g in env'.funcs && Preserves(env.fl, ranges, env.funcs[g], env'.funcs[g])
  }

  /** A whole program runs as before. */
  lemma {:induction false} ProgramPreserved(env: Env, env': Env, names: set<Name>, ranges: bool, fuel: nat, name: Name,
                                            args: seq<Val>, m: Mem)
    requires Replaced(env, env', names, ranges)
    ensures Same(CallFn(env, fuel, name, args, m), CallFn(env', fuel, name, args, m))
    decreases names
  {
    hide CallFn, Good;
    if names == {} {
      assert env'.funcs == env.funcs;
    } else {
      var g :| g in names;
      assert FunctionPreserved(env, env', g, ranges);
      var mid := Swap(env, g, env'.funcs[g]);
      assert SwapSame(env, g, env'.funcs[g], fuel, name, args, m) by {
        assert Hosts(env, g, env.funcs[g], env.fl, ranges);
      }
      SwappedReplaced(env, env', names, ranges, g);
      ProgramPreserved(mid, env', names - {g}, ranges, fuel, name, args, m);
    }
  }

  lemma SwappedReplaced(env: Env, env': Env, names: set<Name>, ranges: bool, g: Name)
    requires Replaced(env, env', names, ranges) && g in names
    ensures Replaced(Swap(env, g, env'.funcs[g]), env', names - {g}, ranges)
  {
    hide Preserves, Good;
    assert FunctionPreserved(env, env', g, ranges);
    PreservedGood(env.fl, ranges, env.funcs[g], env'.funcs[g]);
    var mid := Swap(env, g, env'.funcs[g]);
    forall h | h in names - {g} ensures FunctionPreserved(mid, env', h, ranges) {
        assert FunctionPreserved(env, env', h, ranges); }
  }

  lemma PreservedGood(fl: Floats, ranges: bool, f: Function, f': Function)
    requires Preserves(fl, ranges, f, f')
    ensures Good(f')
  {}

  // ----- a sound substitution preserves its function -----

  lemma {:induction false} IdentityRewrite(instrs: seq<Instr>)
    ensures Rewrite(map[], false, instrs) == instrs
  {
    if instrs != [] {
      IdentityRewrite(instrs[1..]);
      assert SubstArgs(map[], instrs[0].args) == instrs[0].args;
    }
  }

  lemma IdentityFunction(f: Function)
    ensures RewriteFunction(map[], false, f) == f
  {
    hide Rewrite;
    forall n | 0 <= n < |f.blocks| ensures RewriteBlock(map[], false, f.blocks[n]) == f.blocks[n] {
      IdentityRewrite(f.blocks[n].instrs);
    }
    assert RewriteFunction(map[], false, f).blocks == f.blocks;
  }

  lemma IdentitySound(env: Env, f: Function)
    requires f.blocks != []
    ensures SoundSub(env, f, map[], false)
  {
    forall b, ins | b in f.blocks && ins in b.instrs ensures GoodInstr(env, map[], false, ins) {
      hide Step;
    }
  }

  ghost function ChangesOf(env: Env, g: Name, c: Change): map<Name, Change> {
    map h | h in env.funcs :: if h == g then c else Change(map[], false)
  }

  lemma SwapRewritten(env: Env, g: Name, c: Change)
    requires g in env.funcs && AllGood(env) && Good(env.funcs[g]) && SoundSub(env, env.funcs[g], c.sub, c.branches)
    ensures Rewritten(env, Swap(env, g, RewriteFunction(c.sub, c.branches, env.funcs[g])), ChangesOf(env, g, c))
  {
    hide SoundSub, RewriteFunction, Function.GoodCfg;
    var env' := Swap(env, g, RewriteFunction(c.sub, c.branches, env.funcs[g]));
    var ch := ChangesOf(env, g, c);
    assert env'.funcs.Keys == env.funcs.Keys;
    forall h | h in env.funcs ensures FunctionRewritten(env, env', ch, h) {
      assert Good(env.funcs[h]);
      if h != g {
        IdentityFunction(env.funcs[h]);
        IdentitySound(env, env.funcs[h]);
      }
    }
  }

  lemma SoundPreserves(fl: Floats, ranges: bool, f: Function, c: Change)
    requires Good(f) && Good(RewriteFunction(c.sub, c.branches, f))
    requires forall env: Env :: env.fl == fl && (ranges ==> env.checkRanges) ==> SoundSub(env, f, c.sub, c.branches)
    ensures Preserves(fl, ranges, f, RewriteFunction(c.sub, c.branches, f))
  {
    hide CallFn, SoundSub, Good, AllGood;
    var f' := RewriteFunction(c.sub, c.branches, f);
    forall env, g, fuel: nat, name, args, m | Hosts(env, g, f, fl, ranges)
      ensures SwapSame(env, g, f', fuel, name, args, m) {
      GoodOf(env, g);
      SwapRewritten(env, g, c);
      CallAlike(env, Swap(env, g, f'), ChangesOf(env, g, c), fuel, name, args, m);
    }
  }

  lemma GoodOf(env: Env, g: Name)
    requires g in env.funcs && AllGood(env)
    ensures Good(env.funcs[g]) && env.funcs[g].blocks != []
  {}

  // ----- the control-flow graph stays well formed -----

  /** No terminator is dropped. */
  ghost predicate KeepsTerminators(s: Sub, f: Function) {
    forall b, ins :: b in f.blocks && ins in b.instrs && ins.op.IsTerminator() ==> !Dropped(s, ins)
  }

  lemma RewrittenTerminator(s: Sub, branches: bool, ins: Instr)
    ensures var r := RewriteInstr(s, branches, ins);
            && (r.op.IsTerminator() <==> ins.op.IsTerminator())
            && (forall l :: l in r.op.Targets() ==> l in ins.op.Targets())
            && (r.op.BrCond? ==> ins.op.BrCond? && |r.args| == |ins.args|)
  {
    var r := RewriteInstr(s, branches, ins);
    if ins.op.BrCond? && r.op.Br? {
      var t, e := ins.op.thenTarget, ins.op.elseTarget;
      assert [t, e][0] == t && [t, e][1] == e;
    }
  }

  lemma {:induction false} RewriteTerminates(s: Sub, branches: bool, instrs: seq<Instr>)
    requires instrs != [] && instrs[|instrs| - 1].op.IsTerminator() && !Dropped(s, instrs[|instrs| - 1])
    requires forall k :: 0 <= k < |instrs| - 1 ==> !instrs[k].op.IsTerminator()
    ensures var r := Rewrite(s, branches, instrs);
            && r != [] && r[|r| - 1] == RewriteInstr(s, branches, instrs[|instrs| - 1])
            && forall k :: 0 <= k < |r| - 1 ==> !r[k].op.IsTerminator()
  {
    hide RewriteInstr, Dropped;
    if |instrs| == 1 {
      assert Rewrite(s, branches, instrs[1..]) == [];
    } else {
      RewriteTerminates(s, branches, instrs[1..]);
      RewrittenTerminator(s, branches, instrs[0]);
    }
  }

  lemma RewriteKeepsGood(s: Sub, branches: bool, f: Function)
    requires Good(f) && KeepsTerminators(s, f)
    ensures Good(RewriteFunction(s, branches, f))
  {
    hide Rewrite, RewriteInstr, Dropped;
    var f' := RewriteFunction(s, branches, f);
    forall n | 0 <= n < |f.blocks|
      ensures f'.blocks[n].id == f.blocks[n].id && f'.blocks[n].Terminator().Some?
      ensures forall k :: 0 <= k < |f'.blocks[n].instrs| - 1 ==> !f'.blocks[n].instrs[k].op.IsTerminator()
      ensures forall l :: l in f'.blocks[n].Successors() ==> f'.HasBlock(l)
    {
      var b := f.blocks[n];
      assert b.Terminator().Some?;
      var last := b.instrs[|b.instrs| - 1];
      assert b in f.blocks && last in b.instrs;
      RewriteTerminates(s, branches, b.instrs);
      RewrittenTerminator(s, branches, last);
      forall l | l in f'.blocks[n].Successors() ensures f'.HasBlock(l) {
        assert f.HasBlock(l);
        var k :| 0 <= k < |f.blocks| && f.blocks[k].id == l;
        assert f'.blocks[k].id == l;
      }
    }
  }

  lemma {:induction false} RewriteMembers(s: Sub, branches: bool, instrs: seq<Instr>, ins: Instr)
    requires ins in Rewrite(s, branches, instrs)
    ensures exists i :: i in instrs && !Dropped(s, i) && ins == RewriteInstr(s, branches, i)
  {
    hide RewriteInstr;
    if instrs != [] {
      if !Dropped(s, instrs[0]) && ins == RewriteInstr(s, branches, instrs[0]) {
        assert instrs[0] in instrs;
      } else {
        RewriteMembers(s, branches, instrs[1..], ins);
        var i :| i in instrs[1..] && !Dropped(s, i) && ins == RewriteInstr(s, branches, i);
        assert i in instrs;
      }
    }
  }

  // ----- rewriting instructions in place -----

  /** Put what stands for them in place of replaced registers, one operand at a time. */
  method Substitute(ins: Instr, s: Sub) returns (res: Instr, changed: bool)
    ensures res == SubstInstr(s, ins)
    ensures changed ==> s != map[]
    ensures !changed ==> res == ins
  {
    var args := ins.args;
    changed := false;
    for k := 0 to |ins.args|
      invariant |args| == |ins.args| && args[..k] == SubstArgs(s, ins.args)[..k] && args[k..] == ins.args[k..]
      invariant changed ==> s != map[]
      invariant !changed ==> args == ins.args
    {
      assert args[k] == args[k..][0] == ins.args[k];
      ghost var before := args;
      if args[k].Reg? && args[k].name in s {
        args := args[k := s[args[k].name]];
        changed := true;
      }
      assert args[..k + 1] == before[..k] + [SubstOperand(s, ins.args[k])];
      assert SubstArgs(s, ins.args)[..k + 1] == SubstArgs(s, ins.args)[..k] + [SubstOperand(s, ins.args[k])];
      assert args[k + 1..] == before[k..][1..];
    }
    assert args[..|args|] == args;
    assert SubstArgs(s, ins.args)[..|args|] == SubstArgs(s, ins.args);
    res := ins.(args := args);
  }

  /** The instructions that stay, with their uses rewritten. */
  method KeepUses(instrs: seq<Instr>, s: Sub) returns (kept: seq<Instr>, changed: bool)
    ensures kept == Rewrite(s, false, instrs)
    ensures changed ==> s != map[]
    ensures !changed ==> kept == instrs
  {
    hide SubstInstr;
    kept := [];
    changed := false;
    for i := 0 to |instrs|
      invariant Rewrite(s, false, instrs) == kept + Rewrite(s, false, instrs[i..])
      invariant changed ==> s != map[]
      invariant !changed ==> kept == instrs[..i]
    {
      assert instrs[i..][1..] == instrs[i + 1..] && instrs[..i + 1] == instrs[..i] + [instrs[i]];
      var ins, substituted := Substitute(instrs[i], s);
      changed := changed || substituted;
      if Dropped(s, instrs[i]) {
        changed := true;
      } else {
        kept := kept + [ins];
      }
    }
    assert instrs[|instrs|..] == [] && instrs[..|instrs|] == instrs;
  }
}
