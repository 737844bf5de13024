/** The walk a running function has made, and what it says about the registers. */
module Trails {
  import opened Cir
  import opened Arith
  import opened Interp
  import opened Graphs
  import opened FlowGraph
  import opened Walks

  /** The run is at `rest` of block `b`, having made walk `w`. */
  ghost predicate OnTrail(f: Function, w: seq<Pos>, b: BasicBlock, rest: seq<Instr>)
    requires f.blocks != []
  {
    && rest != [] && |rest| <= |b.instrs| && rest == b.instrs[|b.instrs| - |rest|..]
    && b.id in BlockMap(f.blocks) && BlockMap(f.blocks)[b.id] == b
    && WalksTo(f, w, Pos(b.id, |b.instrs| - |rest|))
  }

  lemma TrailStart(f: Function)
    requires f.blocks != [] && f.GoodCfg()
    ensures OnTrail(f, [Pos(f.blocks[0].id, 0)], f.blocks[0], f.blocks[0].instrs)
  {
    FirstBlock(f);
    assert f.blocks[0].instrs[0..] == f.blocks[0].instrs;
  }

  lemma FirstBlock(f: Function)
    requires f.blocks != [] && f.GoodCfg()
    ensures var l := f.blocks[0].id;
        l in BlockMap(f.blocks) && BlockMap(f.blocks)[l] == f.blocks[0] && f.blocks[0].instrs != []
  {
    BlockMapHas(f.blocks, f.blocks[0].id);
    var i :| 0 <= i < |f.blocks| && f.blocks[i] == BlockMap(f.blocks)[f.blocks[0].id];
    assert i == 0;
    assert f.blocks[0].Terminator().Some?;
  }

  /** The instruction at the end of the trail; only the last of a block is a terminator. */
  lemma TrailInstr(f: Function, w: seq<Pos>, b: BasicBlock, rest: seq<Instr>)
    requires f.blocks != [] && OnTrail(f, w, b, rest) && f.GoodCfg()
    ensures InCode(f, w[|w| - 1]) && InstrAt(f, w[|w| - 1]) == rest[0]
    ensures rest[0].op.IsTerminator() <==> |rest| == 1
  {
    hide BlockMap;
    WalkInCode(f, w, |w| - 1);
    BlockMapHas(f.blocks, b.id);
    var i :| 0 <= i < |f.blocks| && f.blocks[i] == b;
    assert b.Terminator().Some?;
    var k := |b.instrs| - |rest|;
    assert rest[0] == b.instrs[k];
  }

  lemma TrailStep(f: Function, w: seq<Pos>, b: BasicBlock, rest: seq<Instr>) returns (w': seq<Pos>)
    requires f.blocks != [] && OnTrail(f, w, b, rest) && |rest| > 1
    ensures |w'| == |w| + 1 && w'[..|w|] == w && OnTrail(f, w', b, rest[1..])
  {
    hide BlockMap;
    var q := Pos(b.id, |b.instrs| - |rest| + 1);
    WalkExtends(f, w, q);
    w' := w + [q];
  }

  lemma TrailJump(f: Function, w: seq<Pos>, b: BasicBlock, rest: seq<Instr>, l: Label) returns (w': seq<Pos>)
    requires f.blocks != [] && OnTrail(f, w, b, rest) && f.GoodCfg() && rest[0].op.IsTerminator()
        && l in rest[0].op.Targets()
    ensures |w'| == |w| + 1 && w'[..|w|] == w && l in BlockMap(f.blocks)
    ensures OnTrail(f, w', BlockMap(f.blocks)[l], BlockMap(f.blocks)[l].instrs)
  {
    hide BlockMap;
    TrailInstr(f, w, b, rest);
    FunctionGraph(f);
    assert rest[0] == b.instrs[|b.instrs| - 1];
    assert Edge(GraphOf(f), b.id, l);
    var to := BlockMap(f.blocks)[l];
    assert to.instrs[0..] == to.instrs;
    WalkExtends(f, w, Pos(l, 0));
    w' := w + [Pos(l, 0)];
  }

  /** The targets a run may transfer to. */
  lemma TransferTargets(ins: Instr, regs: Regs)
    requires Decode(ins, regs).Transfer?
    ensures ins.op.IsTerminator() && Decode(ins, regs).target in ins.op.Targets()
  {
    var l := Decode(ins, regs).target;
    if ins.op.Br? {
      assert [ins.op.target][0] == l;
    } else {
      var t, e := ins.op.thenTarget, ins.op.elseTarget;
      assert [t, e][0] == t && [t, e][1] == e;
    }
  }

  /** A longer trail defines one more instruction's result. */
  lemma DefinedGrows(f: Function, w: seq<Pos>, w': seq<Pos>, r: Name)
    requires w != [] && |w'| == |w| + 1 && w'[..|w|] == w
    ensures DefinedOn(f, w', r) <==> DefinedOn(f, w, r) || DefinesAt(f, w[|w| - 1], r)
  {
    assert forall j :: 0 <= j < |w| ==> w'[j] == w'[..|w|][j];
    if DefinesAt(f, w[|w| - 1], r) { assert DefinesAt(f, w'[|w| - 1], r); }
    if DefinedOn(f, w, r) {
      var j :| 0 <= j < |w| - 1 && DefinesAt(f, w[j], r);
      assert DefinesAt(f, w'[j], r);
    }
  }

  // ----- every register the walk has defined holds a value -----

  ghost predicate Filled(f: Function, w: seq<Pos>, regs: Regs) {
    forall r :: r in f.params || DefinedOn(f, w, r) ==> r in regs
  }

  lemma FilledGrows(f: Function, w: seq<Pos>, w': seq<Pos>, regs: Regs, regs': Regs)
    requires w != [] && |w'| == |w| + 1 && w'[..|w|] == w && Filled(f, w, regs)
    requires regs.Keys <= regs'.Keys
    requires InCode(f, w[|w| - 1]) && (InstrAt(f, w[|w| - 1]).dest.Some? ==> InstrAt(f, w[|w| - 1]).dest.value in regs')
    ensures Filled(f, w', regs')
  {
    forall r | r in f.params || DefinedOn(f, w', r) ensures r in regs' {
      DefinedGrows(f, w, w', r);
    }
  }

  predicate OperandsDefined(regs: Regs, xs: seq<Operand>) {
    forall k :: 0 <= k < |xs| && xs[k].Reg? ==> xs[k].name in regs
  }

  /** Where uses are defined on every path, a run finds its operands. */
  lemma OperandsFilled(f: Function, w: seq<Pos>, b: BasicBlock, rest: seq<Instr>, regs: Regs)
    requires f.blocks != [] && OnTrail(f, w, b, rest) && Filled(f, w, regs)
    requires f.GoodCfg() && UsesDefined(f)
    ensures OperandsDefined(regs, rest[0].args)
  {
    hide Function.GoodCfg, BlockMap;
    TrailInstr(f, w, b, rest);
    var q := w[|w| - 1];
    forall k | 0 <= k < |rest[0].args| && rest[0].args[k].Reg? ensures rest[0].args[k].name in regs {
      assert UseDefined(f, q, k);
    }
  }

  lemma {:induction false} BindFills(params: seq<Name>, args: seq<Val>)
    requires |params| <= |args|
    ensures forall p :: p in params ==> p in Bind(params, args)
  {
    if params != [] {
      var n := |params|;
      BindFirst(params, args);
      BindFills(params[..n - 1], args[..n - 1]);
      assert forall p :: p in params ==> p in params[..n - 1] || p == params[n - 1];
    }
  }

  lemma BindFirst(params: seq<Name>, args: seq<Val>)
    requires 0 < |params| <= |args|
    ensures Bind(params, args) == Bind(params[..|params| - 1],
        args[..|params| - 1])[params[|params| - 1] := args[|params| - 1]]
  {}

  // ----- a run never reads an undefined register -----

  /** Every operand is defined at every instruction the run comes to, callees included. */
  ghost predicate ReadsDefined(env: Env, fuel: nat, f: Function, b: BasicBlock, rest: seq<Instr>,
                               regs: Regs, owned: set<nat>, m: Mem)
    decreases fuel, |rest| + 1
  {
    if rest == [] then fuel > 0 ==> ReadsDefined(env, fuel - 1, f, b, b.instrs, regs, owned, m)
    else
      && OperandsDefined(regs, rest[0].args)
      && match Decode(rest[0], regs)
         case Transfer(l) =>
           var blocks := BlockMap(f.blocks);
           fuel > 0 && l in blocks ==> ReadsDefined(env, fuel - 1, f, blocks[l], blocks[l].instrs, regs, owned, m)
         case Return(_) => true
         case Invoke(callee, vs) =>
           && CallReadsDefined(env, fuel, callee, vs, m)
           && var r := CallFn(env, fuel, callee, vs, m);
              r.Done? ==> ReadsDefined(env, fuel, f, b, rest[1..], Receive(regs, rest[0].dest, r.v), owned, r.m)
         case Compute =>
           var r := Step(env, rest[0], regs, owned, m);
           r.Next? ==> ReadsDefined(env, fuel, f, b, rest[1..], r.regs, r.owned, r.m)
         case Broken => true
  }

  ghost predicate CallReadsDefined(env: Env, fuel: nat, name: Name, args: seq<Val>, m: Mem)
    decreases fuel, 0
  {
    fuel > 0 && name in env.funcs && env.funcs[name].blocks != [] ==>
      var f := env.funcs[name];
      ReadsDefined(env, fuel - 1, f, f.blocks[0], f.blocks[0].instrs, Bind(f.params, args), {}, m)
  }

  /** Calls pass an argument for every parameter. */
  ghost predicate CallsSupply(env: Env, f: Function) {
    forall b, i :: b in f.blocks && i in b.instrs && i.op.Call? && i.op.callee in env.funcs ==>
      |env.funcs[i.op.callee].params| <= |i.args|
  }

  /** Instructions that produce no value name no result. */
  predicate NamesResult(ins: Instr) {
    ins.op.Store? || ins.op.PrintI32? || ins.op.PrintF64? || ins.op.IsTerminator() ==> ins.dest.None?
  }

  ghost predicate ResultsNamed(f: Function) {
    forall b, i :: b in f.blocks && i in b.instrs ==> NamesResult(i)
  }

  ghost predicate Accepted(env: Env, f: Function) {
    f.blocks != [] && f.GoodCfg() && ResultsNamed(f) && UsesDefined(f) && CallsSupply(env, f)
  }

  ghost predicate AllAccepted(env: Env) {
    forall g :: g in env.funcs ==> Accepted(env, env.funcs[g])
  }

  lemma StepDefines(env: Env, ins: Instr, regs: Regs, owned: set<nat>, m: Mem)
    ensures var r := Step(env, ins, regs, owned, m);
            && (r.Next? ==> regs.Keys <= r.regs.Keys)
            && (r.Next? && ins.dest.Some? && !ins.op.Store? && !ins.op.PrintI32? && !ins.op.PrintF64? ==>
                  ins.dest.value in r.regs)
  {
    hide EvalPure, LoadFrom, StoreTo, OperandVals;
  }

  lemma TrailMember(f: Function, w: seq<Pos>, b: BasicBlock, rest: seq<Instr>)
    requires f.blocks != [] && OnTrail(f, w, b, rest)
    ensures b in f.blocks && rest[0] in b.instrs
  {
    hide BlockMap;
    BlockMapHas(f.blocks, b.id);
    assert rest[0] == b.instrs[|b.instrs| - |rest|];
  }

  lemma DefinesResult(env: Env, f: Function, w: seq<Pos>, b: BasicBlock, rest: seq<Instr>, w': seq<Pos>, regs: Regs,
                      regs': Regs)
    requires f.blocks != [] && OnTrail(f, w, b, rest) && |w'| == |w| + 1 && w'[..|w|] == w
    requires Filled(f, w, regs) && regs.Keys <= regs'.Keys && (rest[0].dest.Some? ==> rest[0].dest.value in regs')
    requires f.GoodCfg()
    ensures Filled(f, w', regs')
  {
    hide Function.GoodCfg, BlockMap;
    TrailInstr(f, w, b, rest);
    FilledGrows(f, w, w', regs, regs');
  }

  /** No run of accepted functions reads an undefined register. */
  lemma {:induction false} RunReadsDefined(env: Env, fuel: nat, f: Function, w: seq<Pos>, b: BasicBlock,
                                           rest: seq<Instr>,
                                           regs: Regs, owned: set<nat>, m: Mem)
    requires f.blocks != [] && OnTrail(f, w, b, rest) && Filled(f, w, regs)
    requires AllAccepted(env) && Accepted(env, f)
    ensures ReadsDefined(env, fuel, f, b, rest, regs, owned, m)
    decreases fuel, |rest| + 1
  {
    hide Function.GoodCfg, BlockMap, AllAccepted, UsesDefined, CallsSupply, ResultsNamed, Step, Decode, OnTrail, Filled,
         CallFn;
    TrailSome(f, w, b, rest);
    OperandsFilled(f, w, b, rest, regs);
    TrailInstr(f, w, b, rest);
    TrailMember(f, w, b, rest);
    ResultsFor(f, b, rest[0]);
    ActionKinds(rest[0], regs);
    match Decode(rest[0], regs)
    case Transfer(l) =>
      TransferTargets(rest[0], regs);
      var w' := TrailJump(f, w, b, rest, l);
      DefinesResult(env, f, w, b, rest, w', regs, regs);
      if fuel > 0 {
        var to := BlockMap(f.blocks)[l];
        RunReadsDefined(env, fuel - 1, f, w', to, to.instrs, regs, owned, m);
      }
    case Return(_) =>
    case Invoke(callee, vs) =>
      CallSupplied(env, f, b, rest[0], regs);
      CallReadsDefinedAlways(env, fuel, callee, vs, m);
      var r := CallFn(env, fuel, callee, vs, m);
      if r.Done? {
        var regs' := Receive(regs, rest[0].dest, r.v);
        var w' := TrailStep(f, w, b, rest);
        DefinesResult(env, f, w, b, rest, w', regs, regs');
        RunReadsDefined(env, fuel, f, w', b, rest[1..], regs', owned, r.m);
      }
    case Compute =>
      StepDefines(env, rest[0], regs, owned, m);
      var r := Step(env, rest[0], regs, owned, m);
      if r.Next? {
        var w' := TrailStep(f, w, b, rest);
        DefinesResult(env, f, w, b, rest, w', regs, r.regs);
        RunReadsDefined(env, fuel, f, w', b, rest[1..], r.regs, r.owned, r.m);
      }
    case Broken =>
  }

  lemma TrailSome(f: Function, w: seq<Pos>, b: BasicBlock, rest: seq<Instr>)
    requires f.blocks != [] && OnTrail(f, w, b, rest)
    ensures rest != [] && w != []
  {}

  lemma ResultsFor(f: Function, b: BasicBlock, ins: Instr)
    requires ResultsNamed(f) && b in f.blocks && ins in b.instrs
    ensures NamesResult(ins)
  {}

  lemma ActionKinds(ins: Instr, regs: Regs)
    ensures Decode(ins, regs).Invoke? <==> ins.op.Call? && OperandVals(regs, ins.args).Some?
    ensures Decode(ins, regs).Invoke? ==>
        Decode(ins, regs).callee == ins.op.callee && |Decode(ins, regs).args| == |ins.args|
    ensures Decode(ins, regs).Compute? ==> !ins.op.IsTerminator() && !ins.op.Call?
  {}

  lemma CallSupplied(env: Env, f: Function, b: BasicBlock, ins: Instr, regs: Regs)
    requires CallsSupply(env, f) && b in f.blocks && ins in b.instrs && Decode(ins, regs).Invoke?
    ensures Decode(ins, regs).callee in env.funcs ==>
              |env.funcs[Decode(ins, regs).callee].params| <= |Decode(ins, regs).args|
  {}

  lemma {:induction false} CallReadsDefinedAlways(env: Env, fuel: nat, name: Name, args: seq<Val>, m: Mem)
    requires name in env.funcs ==> |env.funcs[name].params| <= |args|
    requires AllAccepted(env)
    ensures CallReadsDefined(env, fuel, name, args, m)
    decreases fuel, 0
  {
    hide Function.GoodCfg, BlockMap, UsesDefined, CallsSupply, ResultsNamed, OnTrail, ReadsDefined;
    if fuel > 0 && name in env.funcs && env.funcs[name].blocks != [] {
      var f := env.funcs[name];
      assert Accepted(env, f);
      TrailStart(f);
      BindFills(f.params, args);
      RunReadsDefined(env, fuel - 1, f, [Pos(f.blocks[0].id, 0)], f.blocks[0], f.blocks[0].instrs,
          Bind(f.params, args), {}, m);
    }
  }
}
