/** A sound substitution changes no run: same result, output, memory and trap, on the
    same fuel. */
module SubstitutionProof {
  import opened Cir
  import opened Arith
  import opened Interp
  import opened FlowGraph
  import opened Walks
  import opened Trails
  import opened Substitution

  // ----- operands -----

  lemma SubstValue(s: Sub, regs: Regs, x: Operand)
    requires x.Reg? && x.name in s ==> Equal(s, regs, x.name)
    ensures OperandVal(regs, x).Some? ==> OperandVal(regs, SubstOperand(s, x)) == OperandVal(regs, x)
  {}

  /** The same operands in the other registers. */
  lemma AgreeValue(s: Sub, a: Regs, b: Regs, x: Operand)
    requires Settled(s) && AgreeOutside(s, a, b)
    ensures OperandVal(b, SubstOperand(s, x)) == OperandVal(a, SubstOperand(s, x))
  {}

  lemma {:induction false} SubstValues(s: Sub, regs: Regs, xs: seq<Operand>)
    requires UsesLinked(s, regs, xs)
    ensures OperandVals(regs, xs).Some? ==> OperandVals(regs, SubstArgs(s, xs)) == OperandVals(regs, xs)
  {
    hide OperandVal, SubstOperand, Equal;
    if xs != [] {
      var n := |xs| - 1;
      assert SubstArgs(s, xs)[..n] == SubstArgs(s, xs[..n]);
      SubstValues(s, regs, xs[..n]);
      SubstValue(s, regs, xs[n]);
    }
  }

  lemma {:induction false} AgreeValues(s: Sub, a: Regs, b: Regs, xs: seq<Operand>)
    requires Settled(s) && AgreeOutside(s, a, b)
    ensures OperandVals(b, SubstArgs(s, xs)) == OperandVals(a, SubstArgs(s, xs))
  {
    hide OperandVal, SubstOperand, AgreeOutside, Settled;
    if xs != [] {
      var n := |xs| - 1;
      assert SubstArgs(s, xs)[..n] == SubstArgs(s, xs[..n]);
      AgreeValues(s, a, b, xs[..n]);
      AgreeValue(s, a, b, xs[n]);
    }
  }

  lemma SubstTake(s: Sub, xs: seq<Operand>, n: nat)
    requires n <= |xs|
    ensures SubstArgs(s, xs)[..n] == SubstArgs(s, xs[..n])
  {}

  // ----- one instruction -----

  lemma LinkedTake(s: Sub, regs: Regs, xs: seq<Operand>, n: nat)
    requires n <= |xs| && UsesLinked(s, regs, xs)
    ensures UsesLinked(s, regs, xs[..n])
  {}

  /** Replacing operands by equal ones does not change a step. */
  lemma SubstStep(env: Env, s: Sub, ins: Instr, regs: Regs, owned: set<nat>, m: Mem)
    requires UsesLinked(s, regs, ins.args) && KeepsTypes(s, ins)
    ensures Step(env, ins, regs, owned, m).StepFails?
        || Step(env, SubstInstr(s, ins), regs, owned, m) == Step(env, ins, regs, owned, m)
  {
    hide OperandVals, OperandVal, EvalPure, StepMemory, SubstOperand, Equal;
    var n := Arity(ins.op);
    if |ins.args| >= n {
      SubstTake(s, ins.args, n);
      LinkedTake(s, regs, ins.args, n);
      SubstValues(s, regs, ins.args[..n]);
      SameSource(s, ins);
      if ins.args != [] { SubstValue(s, regs, ins.args[0]); }
      MemoryIgnoresArgs(env, s, ins, regs, owned, m);
    }
  }

  lemma SameSource(s: Sub, ins: Instr)
    requires KeepsTypes(s, ins)
    ensures SourceType(SubstInstr(s, ins)) == SourceType(ins)
  {
    hide SubstOperand;
    assert ins.args == [] <==> SubstArgs(s, ins.args) == [];
  }

  lemma MemoryIgnoresArgs(env: Env, s: Sub, ins: Instr, regs: Regs, owned: set<nat>, m: Mem)
    ensures forall vs :: |vs| == Arity(ins.op) ==>
              StepMemory(env, SubstInstr(s, ins), vs, regs, owned, m) == StepMemory(env, ins, vs, regs, owned, m)
  {
    hide LoadFrom, StoreTo;
  }

  /** A step of the same instruction on agreeing registers. */
  ghost predicate SameStep(s: Sub, ra: StepResult, rb: StepResult) {
    match ra
    case Next(a', o', m') => rb.Next? && AgreeOutside(s, a', rb.regs) && rb.owned == o' && rb.m == m'
    case _ => rb == ra
  }

  lemma DefineAgrees(s: Sub, dest: Option<Name>, v: Val, a: Regs, b: Regs, owned: set<nat>, m: Mem)
    requires AgreeOutside(s, a, b)
    ensures SameStep(s, Define(dest, v, a, owned, m), Define(dest, v, b, owned, m))
  {}

  lemma AgreeStep(env: Env, s: Sub, ins: Instr, a: Regs, b: Regs, owned: set<nat>, m: Mem)
    requires Settled(s) && AgreeOutside(s, a, b)
    ensures SameStep(s, Step(env, SubstInstr(s, ins), a, owned, m), Step(env, SubstInstr(s, ins), b, owned, m))
  {
    hide OperandVals, OperandVal, EvalPure, LoadFrom, StoreTo, SubstOperand, Settled, AgreeOutside, Define;
    forall v, o, m' ensures SameStep(s, Define(ins.dest, v, a, o, m'), Define(ins.dest, v, b, o, m')) {
      DefineAgrees(s, ins.dest, v, a, b, o, m');
    }
    var n := Arity(ins.op);
    if |ins.args| >= n {
      SubstTake(s, ins.args, n);
      AgreeValues(s, a, b, ins.args[..n]);
      if ins.args != [] { AgreeValue(s, a, b, ins.args[0]); }
    }
  }

  /** What is asked for, calls and control included, is the same. */
  lemma SameDecode(s: Sub, branches: bool, ins: Instr, a: Regs, b: Regs)
    requires Settled(s) && AgreeOutside(s, a, b) && UsesLinked(s, a, ins.args)
    requires branches ==> BranchesOnBits(s, ins)
    ensures Decode(ins, a).Broken? || Decode(RewriteInstr(s, branches, ins), b) == Decode(ins, a)
  {
    hide OperandVals, Settled, AgreeOutside, UsesLinked;
    SubstValues(s, a, ins.args);
    AgreeValues(s, a, b, ins.args);
    if ins.args != [] {
      FirstLinked(s, a, ins.args);
      AgreeValue(s, a, b, ins.args[0]);
    }
  }

  lemma FirstLinked(s: Sub, regs: Regs, xs: seq<Operand>)
    requires xs != [] && UsesLinked(s, regs, xs)
    ensures OperandVal(regs, xs[0]).Some? ==> OperandVal(regs, SubstOperand(s, xs[0])) == OperandVal(regs, xs[0])
  {
    SubstValue(s, regs, xs[0]);
  }

  lemma RewriteKinds(s: Sub, branches: bool, ins: Instr, regs: Regs)
    ensures !ins.op.IsTerminator() ==> RewriteInstr(s, branches, ins) == SubstInstr(s, ins)
    ensures RewriteInstr(s, branches, ins).dest == if ins.op.IsTerminator() then RewriteInstr(s, branches, ins).dest
        else ins.dest
    ensures Decode(ins, regs).Compute? ==> !ins.op.IsTerminator() && !ins.op.Call?
    ensures Decode(ins, regs).Invoke? ==> ins.op.Call?
  {}

  // ----- blocks -----

  lemma {:induction false} RewriteLookup(s: Sub, branches: bool, blocks: seq<BasicBlock>, blocks': seq<BasicBlock>,
                                         l: Label)
    requires |blocks'| == |blocks| && forall n ::
        0 <= n < |blocks| ==> blocks'[n] == RewriteBlock(s, branches, blocks[n])
    ensures l in BlockMap(blocks') <==> l in BlockMap(blocks)
    ensures l in BlockMap(blocks) ==> BlockMap(blocks')[l] == RewriteBlock(s, branches, BlockMap(blocks)[l])
  {
    hide RewriteBlock;
    if blocks != [] {
      var n := |blocks| - 1;
      RewriteLookup(s, branches, blocks[..n], blocks'[..n], l);
      assert blocks'[n] == RewriteBlock(s, branches, blocks[n]);
      SameId(s, branches, blocks[n]);
    }
  }

  lemma SameId(s: Sub, branches: bool, b: BasicBlock)
    ensures RewriteBlock(s, branches, b).id == b.id
  {}

  // ----- whole runs -----

  /** What a pass does to one function. */
  datatype Change = Change(sub: Sub, branches: bool)

  /** The same program with each function's substitution applied. */
  ghost predicate Rewritten(env: Env, env': Env, ch: map<Name, Change>) {
    && env'.funcs.Keys == env.funcs.Keys == ch.Keys && env' == env.(funcs := env'.funcs)
    && forall g :: g in env.funcs ==> FunctionRewritten(env, env', ch, g)
  }

  ghost predicate FunctionRewritten(env: Env, env': Env, ch: map<Name, Change>, g: Name) {
    && g in env.funcs && g in env'.funcs && g in ch && env.funcs[g].blocks != []
    && env'.funcs[g] == RewriteFunction(ch[g].sub, ch[g].branches, env.funcs[g])
    && env.funcs[g].GoodCfg() && SoundSub(env, env.funcs[g], ch[g].sub, ch[g].branches)
  }

  /** The two runs side by side. */
  ghost predicate InStep(env: Env, ch: map<Name, Change>, g: Name, w: seq<Pos>, b: BasicBlock, rest: seq<Instr>,
                         a: Regs, a': Regs) {
    && g in env.funcs && g in ch && env.funcs[g].blocks != []
    && OnTrail(env.funcs[g], w, b, rest)
    && Linked(env.funcs[g], ch[g].sub, w, a) && AgreeOutside(ch[g].sub, a, a')
  }

  lemma UseFunction(env: Env, env': Env, ch: map<Name, Change>, g: Name)
    requires g in env.funcs
    requires Rewritten(env, env', ch)
    ensures FunctionRewritten(env, env', ch, g)
  {}

  /** Everything one instruction needs. */
  lemma InstrFacts(env: Env, env': Env, ch: map<Name, Change>, g: Name, w: seq<Pos>, b: BasicBlock, rest: seq<Instr>,
                   a: Regs, a': Regs)
    requires InStep(env, ch, g, w, b, rest, a, a')
    requires FunctionRewritten(env, env', ch, g)
    ensures Settled(ch[g].sub) && UsesLinked(ch[g].sub, a, rest[0].args) && KeepsTypes(ch[g].sub, rest[0])
        && Justified(env, ch[g].sub, rest[0])
    ensures ch[g].branches ==> BranchesOnBits(ch[g].sub, rest[0])
    ensures rest != [] && w != [] && InCode(env.funcs[g], w[|w| - 1]) && InstrAt(env.funcs[g], w[|w| - 1]) == rest[0]
    ensures rest[0].op.IsTerminator() <==> |rest| == 1
  {
    hide Function.GoodCfg, BlockMap, Anchored, Linked, AgreeOutside, UsesLinked, KeepsTypes, BranchesOnBits, Justified;
    var f := env.funcs[g];
    LinkedUses(f, ch[g].sub, w, b, rest, a);
    TrailMember(f, w, b, rest);
    assert GoodInstr(env, ch[g].sub, ch[g].branches, rest[0]);
    TrailInstr(f, w, b, rest);
  }

  lemma OtherFunctions(env: Env, env': Env, ins: Instr, regs: Regs, owned: set<nat>, m: Mem)
    requires env' == env.(funcs := env'.funcs)
    ensures Step(env', ins, regs, owned, m) == Step(env, ins, regs, owned, m)
  {
    hide OperandVals, EvalBin, EvalConv, EvalIcmp, EvalFcmp, EvalNeg, EvalNot, InRange;
  }

  lemma StepWrites(env: Env, ins: Instr, regs: Regs, owned: set<nat>, m: Mem)
    ensures var r := Step(env, ins, regs, owned, m); r.Next? ==> WritesOnly(regs, r.regs, ins.dest)
  {
    hide OperandVals, EvalPure, LoadFrom, StoreTo;
  }

  /** After an instruction that stays. */
  lemma KeptGrows(env: Env, ch: map<Name, Change>, g: Name, w: seq<Pos>, b: BasicBlock, rest: seq<Instr>, a: Regs,
                  a': Regs,
                  w': seq<Pos>, b': BasicBlock, rest': seq<Instr>, r: Regs, r': Regs)
    requires rest != [] && w != [] && InStep(env, ch, g, w, b, rest, a, a') && !Dropped(ch[g].sub, rest[0])
        && Settled(ch[g].sub)
    requires |w'| == |w| + 1 && w'[..|w|] == w && OnTrail(env.funcs[g], w', b', rest')
    requires WritesOnly(a, r, rest[0].dest) && AgreeOutside(ch[g].sub, r, r')
    requires InCode(env.funcs[g], w[|w| - 1]) && InstrAt(env.funcs[g], w[|w| - 1]) == rest[0]
    ensures InStep(env, ch, g, w', b', rest', r, r')
  {
    hide OnTrail, Linked, AgreeOutside;
    LinkedGrows(env.funcs[g], ch[g].sub, w, w', a, r, rest[0]);
  }

  /** After an instruction that is dropped. */
  lemma DroppedGrows(env: Env, ch: map<Name, Change>, g: Name, w: seq<Pos>, b: BasicBlock, rest: seq<Instr>, a: Regs,
                     a': Regs,
                     w': seq<Pos>, rest': seq<Instr>, owned: set<nat>, m: Mem)
    requires rest != [] && w != [] && InStep(env, ch, g, w, b, rest, a, a') && Dropped(ch[g].sub, rest[0])
        && Settled(ch[g].sub)
    requires |w'| == |w| + 1 && w'[..|w|] == w && OnTrail(env.funcs[g], w', b, rest')
    requires InCode(env.funcs[g], w[|w| - 1]) && InstrAt(env.funcs[g], w[|w| - 1]) == rest[0]
    requires UsesLinked(ch[g].sub, a, rest[0].args) && KeepsTypes(ch[g].sub, rest[0])
        && Justified(env, ch[g].sub, rest[0])
    requires Step(env, rest[0], a, owned, m).Next?
    ensures var r := Step(env, rest[0], a, owned, m);
            r.owned == owned && r.m == m && InStep(env, ch, g, w', b, rest', r.regs, a')
  {
    hide OnTrail, Linked, UsesLinked, KeepsTypes, BranchesOnBits, Step;
    var s, t := ch[g].sub, rest[0].dest.value;
    SubstStep(env, s, rest[0], a, owned, m);
    assert DropsClean(env, s, rest[0], a, owned, m);
    var r := Step(env, rest[0], a, owned, m);
    var x := OperandVal(a, s[t]).value;
    assert r.regs == a[t := x];
    assert Equal(s, r.regs, t);
    LinkedGrows(env.funcs[g], s, w, w', a, r.regs, rest[0]);
  }

  /** Same outcome; where the source run fails, at least its output. */
  predicate Same(r: Outcome, r': Outcome) {
    if r.Failed? then r.printed <= r'.Out() else r' == r
  }

  lemma {:induction false} RunsAlike(env: Env, env': Env, ch: map<Name, Change>, fuel: nat, g: Name, w: seq<Pos>,
                                     b: BasicBlock, b': BasicBlock, rest: seq<Instr>, a: Regs, a': Regs,
                                         owned: set<nat>, m: Mem)
    requires InStep(env, ch, g, w, b, rest, a, a') && g in env'.funcs
    requires Rewritten(env, env', ch)
    ensures Same(Exec(env, fuel, env.funcs[g], b, rest, a, owned, m),
                 Exec(env', fuel, env'.funcs[g], b', Rewrite(ch[g].sub, ch[g].branches, rest), a', owned, m))
    decreases fuel, 2 * |rest| + 1
  {
    hide Function.GoodCfg, BlockMap, Rewritten, FunctionRewritten, Step, Decode, OnTrail, Linked, AgreeOutside,
         UsesLinked, KeepsTypes, BranchesOnBits, Justified, Settled, CallFn, RewriteInstr, SubstInstr;
    UseFunction(env, env', ch, g);
    InstrFacts(env, env', ch, g, w, b, rest, a, a');
    RewriteUnfolds(ch[g].sub, ch[g].branches, rest);
    RewriteKinds(ch[g].sub, ch[g].branches, rest[0], a);
    if Dropped(ch[g].sub, rest[0]) {
      DroppedAlike(env, env', ch, fuel, g, w, b, b', rest, a, a', owned, m);
    } else {
      SameDecode(ch[g].sub, ch[g].branches, rest[0], a, a');
      ExecOutGrows(env', fuel, env'.funcs[g], b', Rewrite(ch[g].sub, ch[g].branches, rest), a', owned, m);
      match Decode(rest[0], a)
      case Transfer(l) => GotoAlike(env, env', ch, fuel, g, w, b, rest, l, a, a', owned, m);
      case Return(v) =>
      case Invoke(callee, vs) =>
        CallAlike(env, env', ch, fuel, callee, vs, m);
        InvokeOut(env', fuel, env'.funcs[g], b', Rewrite(ch[g].sub, ch[g].branches, rest), a', owned, m);
        match CallFn(env, fuel, callee, vs, m) {
          case Done(v, m') =>
            var w' := TrailStep(env.funcs[g], w, b, rest);
            var r, r' := Receive(a, rest[0].dest, v), Receive(a', rest[0].dest, v);
            ReceiveAgrees(ch[g].sub, rest[0].dest, v, a, a');
            KeptGrows(env, ch, g, w, b, rest, a, a', w', b, rest[1..], r, r');
            RunsAlike(env, env', ch, fuel, g, w', b, b', rest[1..], r, r', owned, m');
          case _ =>
        }
      case Compute =>
        SubstStep(env, ch[g].sub, rest[0], a, owned, m);
        AgreeStep(env, ch[g].sub, rest[0], a, a', owned, m);
        SameExceptFunctions(env, env', ch);
        OtherFunctions(env, env', SubstInstr(ch[g].sub, rest[0]), a', owned, m);
        match Step(env, rest[0], a, owned, m) {
          case Next(r, owned', m') =>
            var w' := TrailStep(env.funcs[g], w, b, rest);
            StepWrites(env, rest[0], a, owned, m);
            var r' := Step(env', SubstInstr(ch[g].sub, rest[0]), a', owned, m).regs;
            KeptGrows(env, ch, g, w, b, rest, a, a', w', b, rest[1..], r, r');
            RunsAlike(env, env', ch, fuel, g, w', b, b', rest[1..], r, r', owned', m');
          case _ =>
        }
      case Broken =>
    }
  }

  lemma SameExceptFunctions(env: Env, env': Env, ch: map<Name, Change>)
    requires Rewritten(env, env', ch)
    ensures env' == env.(funcs := env'.funcs) && env'.funcs.Keys == env.funcs.Keys
  {}

  lemma RewriteUnfolds(s: Sub, branches: bool, rest: seq<Instr>)
    requires rest != []
    ensures Dropped(s, rest[0]) ==> Rewrite(s, branches, rest) == Rewrite(s, branches, rest[1..])
    ensures !Dropped(s, rest[0]) ==>
              Rewrite(s, branches, rest) != [] && Rewrite(s, branches, rest)[0] == RewriteInstr(s, branches, rest[0])
              && Rewrite(s, branches, rest)[1..] == Rewrite(s, branches, rest[1..])
  {}

  lemma ReceiveAgrees(s: Sub, dest: Option<Name>, v: Val, a: Regs, b: Regs)
    requires AgreeOutside(s, a, b)
    ensures AgreeOutside(s, Receive(a, dest, v), Receive(b, dest, v)) && WritesOnly(a, Receive(a, dest, v), dest)
  {}

  lemma {:induction false} DroppedAlike(env: Env, env': Env, ch: map<Name, Change>, fuel: nat, g: Name, w: seq<Pos>,
                                        b: BasicBlock, b': BasicBlock, rest: seq<Instr>, a: Regs, a': Regs,
                                            owned: set<nat>, m: Mem)
    requires g in ch && rest != [] && Dropped(ch[g].sub, rest[0])
    requires InStep(env, ch, g, w, b, rest, a, a') && g in env'.funcs
    requires Rewritten(env, env', ch)
    ensures Same(Exec(env, fuel, env.funcs[g], b, rest, a, owned, m),
                 Exec(env', fuel, env'.funcs[g], b', Rewrite(ch[g].sub, ch[g].branches, rest[1..]), a', owned, m))
    decreases fuel, 2 * |rest|
  {
    hide Function.GoodCfg, BlockMap, Rewritten, FunctionRewritten, Step, Decode, OnTrail, Linked, AgreeOutside,
         UsesLinked, KeepsTypes, BranchesOnBits, Settled, CallFn, RewriteInstr, SubstInstr;
    UseFunction(env, env', ch, g);
    InstrFacts(env, env', ch, g, w, b, rest, a, a');
    PureDecode(rest[0], a);
    var w' := TrailStep(env.funcs[g], w, b, rest);
    if Step(env, rest[0], a, owned, m).Next? {
      DroppedGrows(env, ch, g, w, b, rest, a, a', w', rest[1..], owned, m);
      var r := Step(env, rest[0], a, owned, m);
      RunsAlike(env, env', ch, fuel, g, w', b, b', rest[1..], r.regs, a', owned, m);
    } else {
      ExecOutGrows(env', fuel, env'.funcs[g], b', Rewrite(ch[g].sub, ch[g].branches, rest[1..]), a', owned, m);
      DroppedNeverTraps(env, ch[g].sub, rest[0], a, owned, m);
    }
  }

  lemma PureDecode(ins: Instr, regs: Regs)
    requires !ins.op.IsTerminator() && !ins.op.Call?
    ensures Decode(ins, regs) == Compute
  {}

  lemma DroppedNeverTraps(env: Env, s: Sub, ins: Instr, regs: Regs, owned: set<nat>, m: Mem)
    requires Dropped(s, ins) && UsesLinked(s, regs, ins.args) && KeepsTypes(s, ins) && Justified(env, s, ins)
    ensures !Step(env, ins, regs, owned, m).StepTraps?
  {
    hide UsesLinked, KeepsTypes, BranchesOnBits, Step;
    SubstStep(env, s, ins, regs, owned, m);
    assert DropsClean(env, s, ins, regs, owned, m);
  }

  lemma {:induction false} GotoAlike(env: Env, env': Env, ch: map<Name, Change>, fuel: nat, g: Name, w: seq<Pos>,
                                     b: BasicBlock, rest: seq<Instr>, l: Label, a: Regs, a': Regs, owned: set<nat>,
                                         m: Mem)
    requires g in ch && rest != [] && !Dropped(ch[g].sub, rest[0]) && Decode(rest[0], a) == Transfer(l)
    requires InStep(env, ch, g, w, b, rest, a, a') && g in env'.funcs
    requires Rewritten(env, env', ch)
    ensures Same(Goto(env, fuel, env.funcs[g], l, a, owned, m), Goto(env', fuel, env'.funcs[g], l, a', owned, m))
    decreases fuel, 1
  {
    hide Function.GoodCfg, BlockMap, Rewritten, FunctionRewritten, Step, Decode, OnTrail, Linked, AgreeOutside,
         UsesLinked, KeepsTypes, BranchesOnBits, Justified, Settled, CallFn, RewriteInstr, SubstInstr;
    UseFunction(env, env', ch, g);
    InstrFacts(env, env', ch, g, w, b, rest, a, a');
    TransferTargets(rest[0], a);
    GoodFunction(env, env', ch, g);
    var f, s, branches := env.funcs[g], ch[g].sub, ch[g].branches;
    var w' := TrailJump(f, w, b, rest, l);
    RewriteLookup(s, branches, f.blocks, env'.funcs[g].blocks, l);
    if fuel > 0 {
      var to, to' := BlockMap(f.blocks)[l], BlockMap(env'.funcs[g].blocks)[l];
      KeptGrows(env, ch, g, w, b, rest, a, a', w', to, to.instrs, a, a');
      RunsAlike(env, env', ch, fuel - 1, g, w', to, to', to.instrs, a, a', owned, m);
    }
  }

  lemma GoodFunction(env: Env, env': Env, ch: map<Name, Change>, g: Name)
    requires FunctionRewritten(env, env', ch, g)
    ensures env.funcs[g].GoodCfg() && env.funcs[g].blocks != [] && env'.funcs[g].params == env.funcs[g].params
    ensures |env'.funcs[g].blocks| == |env.funcs[g].blocks|
    ensures forall n ::
        0 <= n < |env.funcs[g].blocks| ==>
            env'.funcs[g].blocks[n] == RewriteBlock(ch[g].sub, ch[g].branches, env.funcs[g].blocks[n])
  {}

  lemma {:induction false} CallAlike(env: Env, env': Env, ch: map<Name, Change>, fuel: nat, g: Name, args: seq<Val>,
                                     m: Mem)
    requires Rewritten(env, env', ch)
    ensures Same(CallFn(env, fuel, g, args, m), CallFn(env', fuel, g, args, m))
    decreases fuel, 0
  {
    hide Function.GoodCfg, BlockMap, FunctionRewritten, OnTrail, Linked, AgreeOutside, Exec, SoundSub;
    SameExceptFunctions(env, env', ch);
    CallOutGrows(env', fuel, g, args, m);
    if fuel > 0 && g in env.funcs {
      UseFunction(env, env', ch, g);
      GoodFunction(env, env', ch, g);
      var f, s, branches := env.funcs[g], ch[g].sub, ch[g].branches;
      var regs := Bind(f.params, args);
      TrailStart(f);
      StartLinked(env, f, s, branches, args);
      SameBlocks(s, branches, f, env'.funcs[g]);
      RunsAlike(env, env', ch, fuel - 1, g, [Pos(f.blocks[0].id, 0)], f.blocks[0], env'.funcs[g].blocks[0],
          f.blocks[0].instrs,
                regs, regs, {}, m);
    }
  }

  lemma SameBlocks(s: Sub, branches: bool, f: Function, f': Function)
    requires f.blocks != [] && |f'.blocks| == |f.blocks| && f'.blocks[0] == RewriteBlock(s, branches, f.blocks[0])
    ensures f'.blocks[0].instrs == Rewrite(s, branches, f.blocks[0].instrs)
  {}

  lemma {:induction false} BindsOnly(params: seq<Name>, args: seq<Val>, r: Name)
    requires r in Bind(params, args)
    ensures r in params
  {
    var n := if |params| < |args| then |params| else |args|;
    if r != params[n - 1] {
      BindsOnly(params[..n - 1], args[..n - 1], r);
      assert r in params[..n - 1];
    }
  }

  lemma StartLinked(env: Env, f: Function, s: Sub, branches: bool, args: seq<Val>)
    requires f.blocks != [] && SoundSub(env, f, s, branches)
    ensures Linked(f, s, [Pos(f.blocks[0].id, 0)], Bind(f.params, args))
    ensures AgreeOutside(s, Bind(f.params, args), Bind(f.params, args))
  {
    hide Anchored, GoodInstrs, Bind;
    forall t | t in s ensures t !in Bind(f.params, args) {
      if t in Bind(f.params, args) { BindsOnly(f.params, args, t); }
    }
  }
}
