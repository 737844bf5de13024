/** Deleting a store and the load right after it changes nothing a program can
    observe, as long as the deleted locals are loaded nowhere else. */
module PeepholeProof {
  import opened Cir
  import opened Arith
  import opened Interp
  import opened Bytecode
  import opened StackVm
  import opened Layout

  predicate IsPair(s: seq<StackOp>) {
    |s| >= 2 && s[0].StoreL? && s[1].LoadL? && s[0].l == s[1].l
  }

  /** `t` is `s` without some adjacent store/load pairs on locals in `gone`, and
      `t` loads no local in `gone`. */
  ghost predicate Tuning(s: seq<StackOp>, t: seq<StackOp>, gone: set<Name>)
    decreases |s|
  {
    || (s == [] && t == [])
    || DropsPair(s, t, gone)
    || KeepsOp(s, t, gone)
  }

  ghost predicate DropsPair(s: seq<StackOp>, t: seq<StackOp>, gone: set<Name>)
    decreases |s|, 0
  {
    IsPair(s) && s[0].l in gone && Tuning(s[2..], t, gone)
  }

  ghost predicate KeepsOp(s: seq<StackOp>, t: seq<StackOp>, gone: set<Name>)
    decreases |s|, 0
  {
    s != [] && t != [] && s[0] == t[0] && !(s[0].LoadL? && s[0].l in gone) && Tuning(s[1..], t[1..], gone)
  }

  /** A function before and after. */
  datatype Tuned = Tuned(
    params: seq<Name>, ids: seq<Label>, naive: seq<seq<StackOp>>, tuned: seq<seq<StackOp>>, gone: set<Name>)
  {
    ghost predicate Ok() {
      && |ids| == |naive| == |tuned| && NoDuplicates(ids)
      && forall n :: 0 <= n < |naive| ==> Tuning(naive[n], tuned[n], gone)
    }

    function Before(): Code
      requires |ids| == |naive|
    {
      Assemble(params, ids, naive)
    }

    function After(): Code
      requires |ids| == |tuned|
    {
      Assemble(params, ids, tuned)
    }
  }

  ghost predicate EnvsTuned(a: VEnv, b: VEnv, info: map<Name, Tuned>) {
    && a.fl == b.fl && a.funcs.Keys == info.Keys && b.funcs.Keys == info.Keys
    && forall g :: g in info ==> FunctionTuned(a, b, info, g)
  }

  ghost predicate FunctionTuned(a: VEnv, b: VEnv, info: map<Name, Tuned>, g: Name) {
    g in info && g in a.funcs && g in b.funcs && info[g].Ok() && info[g].ids != []
    && a.funcs[g] == info[g].Before() && b.funcs[g] == info[g].After()
  }

  ghost predicate AgreeOff(gone: set<Name>, a: Regs, b: Regs) {
    forall l :: l !in gone ==> (l in a <==> l in b) && (l in a && l in b ==> a[l] == b[l])
  }

  // ----- where the two machines are -----

  /** In block `n`, with `s` of the naive and `t` of the tuned code to go. */
  datatype Spot = Spot(n: nat, s: seq<StackOp>, t: seq<StackOp>, pa: nat, pb: nat)

  ghost predicate Here(x: Tuned, h: Spot) {
    && x.Ok() && h.n < |x.naive| && Tuning(h.s, h.t, x.gone)
    && Tail(x.naive, h.n, h.s, h.pa) && Tail(x.tuned, h.n, h.t, h.pb)
  }

  /** `s` ends block `n` and starts at `pc`. */
  ghost predicate Tail(codes: seq<seq<StackOp>>, n: nat, s: seq<StackOp>, pc: nat)
    requires n < |codes|
  {
    |s| <= |codes[n]| && s == codes[n][|codes[n]| - |s|..] && pc == Start(codes, n) + |codes[n]| - |s|
  }

  lemma HereStart(x: Tuned, n: nat) returns (h: Spot)
    requires x.Ok() && n < |x.naive|
    ensures h == Spot(n, x.naive[n], x.tuned[n], Start(x.naive, n), Start(x.tuned, n)) && Here(x, h)
  {
    assert x.naive[n][0..] == x.naive[n] && x.tuned[n][0..] == x.tuned[n];
    h := Spot(n, x.naive[n], x.tuned[n], Start(x.naive, n), Start(x.tuned, n));
  }

  /** The operations of a tail are in the code. */
  lemma TailOp(params: seq<Name>, ids: seq<Label>, codes: seq<seq<StackOp>>, n: nat, s: seq<StackOp>, pc: nat, k: nat)
    requires |ids| == |codes| && NoDuplicates(ids) && n < |codes| && Tail(codes, n, s, pc) && k < |s|
    ensures pc + k < |Assemble(params, ids, codes).code| && Assemble(params, ids, codes).code[pc + k] == s[k]
  {
    hide Assemble, Start, NoDuplicates;
    Assembled(params, ids, codes, n);
    HoldsAt(Assemble(params, ids, codes).code, Start(codes, n), codes[n], |codes[n]| - |s| + k);
  }

  /** The operations at the two positions. */
  lemma HereOp(x: Tuned, h: Spot)
    requires Here(x, h)
    ensures h.s != [] ==> h.pa < |x.Before().code| && x.Before().code[h.pa] == h.s[0]
    ensures |h.s| >= 2 ==> h.pa + 1 < |x.Before().code| && x.Before().code[h.pa + 1] == h.s[1]
    ensures h.t != [] ==> h.pb < |x.After().code| && x.After().code[h.pb] == h.t[0]
  {
    hide Assemble, Tail, Tuning, NoDuplicates;
    if h.s != [] { TailOp(x.params, x.ids, x.naive, h.n, h.s, h.pa, 0); }
    if |h.s| >= 2 { TailOp(x.params, x.ids, x.naive, h.n, h.s, h.pa, 1); }
    if h.t != [] { TailOp(x.params, x.ids, x.tuned, h.n, h.t, h.pb, 0); }
  }

  /** Past the last operation of a block both are at the start of the next, or off the end. */
  lemma HereOver(x: Tuned, h: Spot) returns (h': Spot)
    requires Here(x, h) && h.s == []
    ensures h.n + 1 < |x.naive| ==> Here(x, h') && h'.n == h.n + 1 && h'.pa == h.pa && h'.pb == h.pb
    ensures h.n + 1 == |x.naive| ==> h.pa == |x.Before().code| && h.pb == |x.After().code|
  {
    assert !DropsPair(h.s, h.t, x.gone) && !KeepsOp(h.s, h.t, x.gone);
    assert h.t == [];
    assert Start(x.naive, h.n + 1) == h.pa && Start(x.tuned, h.n + 1) == h.pb;
    if h.n + 1 < |x.naive| {
      h' := HereStart(x, h.n + 1);
    } else {
      h' := h;
      Assembled(x.params, x.ids, x.naive, h.n);
      Assembled(x.params, x.ids, x.tuned, h.n);
    }
  }

  lemma HerePair(x: Tuned, h: Spot) returns (h': Spot)
    requires Here(x, h) && DropsPair(h.s, h.t, x.gone)
    ensures h' == Spot(h.n, h.s[2..], h.t, h.pa + 2, h.pb) && Here(x, h')
  {
    h' := Spot(h.n, h.s[2..], h.t, h.pa + 2, h.pb);
  }

  lemma HereNext(x: Tuned, h: Spot) returns (h': Spot)
    requires Here(x, h) && KeepsOp(h.s, h.t, x.gone)
    ensures h' == Spot(h.n, h.s[1..], h.t[1..], h.pa + 1, h.pb + 1) && Here(x, h')
  {
    h' := Spot(h.n, h.s[1..], h.t[1..], h.pa + 1, h.pb + 1);
  }

  // ----- one operation -----

  lemma StepIgnoresLocals(fl: Floats, op: StackOp, st: seq<Val>, la: Regs, lb: Regs, owned: set<nat>, m: Mem)
    requires !op.LoadL? && !op.StoreL?
    ensures match StackStep(fl, op, st, la, owned, m)
            case VNext(st', l, owned', m') => l == la
                && StackStep(fl, op, st, lb, owned, m) == VNext(st', lb, owned', m')
            case stop => StackStep(fl, op, st, lb, owned, m) == stop
  {
    hide EvalBin, EvalNeg, EvalNot, EvalIcmp, EvalFcmp, EvalConv, StoreTo, ZeroCells;
  }

  /** An operation both machines perform treats agreeing locals alike. */
  lemma StepAlike(fl: Floats, op: StackOp, st: seq<Val>, la: Regs, lb: Regs, owned: set<nat>, m: Mem, gone: set<Name>)
    requires AgreeOff(gone, la, lb) && !(op.LoadL? && op.l in gone)
    ensures var a, b := StackStep(fl, op, st, la, owned, m), StackStep(fl, op, st, lb, owned, m);
            match a
            case VNext(st', la', owned', m') =>
              b.VNext? && b == VNext(st', b.local, owned', m') && AgreeOff(gone, la', b.local)
            case _ => b == a
  {
    if !op.LoadL? && !op.StoreL? {
      hide StackStep;
      StepIgnoresLocals(fl, op, st, la, lb, owned, m);
    } else if |st| >= Pops(op) && op.StoreL? {
      var la', lb' := la[op.l := Top(st)], lb[op.l := Top(st)];
      assert AgreeOff(gone, la', lb');
    }
  }

  lemma AgreeOffDead(gone: set<Name>, la: Regs, lb: Regs, l: Name, v: Val)
    requires AgreeOff(gone, la, lb) && l in gone
    ensures AgreeOff(gone, la[l := v], lb)
  {}

  /** Jumps land on the same block of both. */
  lemma JumpAlike(x: Tuned, h: Spot, st: seq<Val>) returns (h': Spot)
    requires Here(x, h) && KeepsOp(h.s, h.t, x.gone)
    requires VDecode(x.Before(), h.pa, st).VJump?
    ensures var a, b := VDecode(x.Before(), h.pa, st), VDecode(x.After(), h.pb, st);
            b.VJump? && a.st == b.st && Here(x, h') && h'.pa == a.pc && h'.pb == b.pc
  {
    hide Assemble;
    HereOp(x, h);
    var op := h.s[0];
    if op.Jmp? || (op.Jz? && Top(st).i == 0) {
      var l := op.target;
      var n' := LabelsNameBlocks(x.params, x.ids, x.naive, l);
      Assembled(x.params, x.ids, x.tuned, n');
      h' := HereStart(x, n');
    } else {
      h' := HereNext(x, h);
    }
  }

  /** Any other action is the same in both. */
  lemma DecodeAlike(x: Tuned, h: Spot, st: seq<Val>)
    requires Here(x, h) && KeepsOp(h.s, h.t, x.gone)
    ensures var a, b := VDecode(x.Before(), h.pa, st), VDecode(x.After(), h.pb, st);
            a == b || (a.VJump? && b.VJump?)
    ensures VDecode(x.Before(), h.pa, st).VCompute? ==> h.pa < |x.Before().code| && h.pb < |x.After().code|
  {
    hide Assemble;
    HereOp(x, h);
    var op := h.s[0];
    if op.Jmp? || op.Jz? {
      var l := op.target;
      if l in x.Before().labels {
        var k := LabelsNameBlocks(x.params, x.ids, x.naive, l);
        Assembled(x.params, x.ids, x.tuned, k);
      }
      if l in x.After().labels {
        var k := LabelsNameBlocks(x.params, x.ids, x.tuned, l);
        Assembled(x.params, x.ids, x.naive, k);
      }
    }
  }

  /** A deleted pair leaves the stack as it was and changes only the deleted local. */
  lemma PairRuns(a: VEnv, fuel: nat, x: Tuned, h: Spot, st: seq<Val>, la: Regs, owned: set<nat>, m: Mem)
    requires Here(x, h) && IsPair(h.s) && fuel > 0
    ensures var r := VExec(a, fuel, x.Before(), h.pa, st, la, owned, m);
            if st == [] then r == Failed(m.out)
            else if fuel == 1 then r == OutOfFuel(m.out)
            else r == VExec(a, fuel - 2, x.Before(), h.pa + 2, st, la[h.s[0].l := Top(st)], owned, m)
  {
    hide Assemble;
    HereOp(x, h);
    var c := x.Before();
    if st != [] {
      var la', below := la[h.s[0].l := Top(st)], Pop(st, 1);
      assert StackStep(a.fl, h.s[0], st, la, owned, m) == VNext(below, la', owned, m);
      assert VExec(a, fuel, c, h.pa, st, la, owned, m) == VExec(a, fuel - 1, c, h.pa + 1, below, la', owned, m);
      if fuel >= 2 {
        assert below + [Top(st)] == st;
        assert StackStep(a.fl, h.s[1], below, la', owned, m) == VNext(below + [la'[h.s[0].l]], la', owned, m);
      }
    }
  }

  lemma OffTheEnd(env: VEnv, fuel: nat, c: Code, st: seq<Val>, local: Regs, owned: set<nat>, m: Mem)
    requires fuel > 0
    ensures VExec(env, fuel, c, |c.code|, st, local, owned, m) == Done(VInt(0), Release(m, owned))
  {}

  // ----- whole runs -----

  predicate Known(r: Outcome, s: Outcome) {
    r.Failed? || Extends(r, s)
  }

  /** The tuned code gets at least as far as the naive code on the same fuel. */
  lemma {:induction false} TunedKeepsUp(a: VEnv, b: VEnv, info: map<Name, Tuned>, fuel: nat, g: Name, h: Spot,
                                        st: seq<Val>, la: Regs, lb: Regs, owned: set<nat>, m: Mem)
    requires g in info && Here(info[g], h) && AgreeOff(info[g].gone, la, lb)
    requires EnvsTuned(a, b, info)
    ensures Known(VExec(a, fuel, info[g].Before(), h.pa, st, la, owned, m),
                  VExec(b, fuel, info[g].After(), h.pb, st, lb, owned, m))
    decreases fuel, 1, |info[g].naive| - h.n, |h.s|
  {
    hide EnvsTuned, Assemble, StackStep, AgreeOff, VDecode, VExec, Tail, Tuned.Before, Tuned.After;
    var x := info[g];
    if fuel == 0 {
      NoFuel(a, x.Before(), h.pa, st, la, owned, m);
      VExecOutGrows(b, 0, x.After(), h.pb, st, lb, owned, m);
    } else if h.s == [] {
      var h' := HereOver(x, h);
      if h.n + 1 < |x.naive| {
        TunedKeepsUp(a, b, info, fuel, g, h', st, la, lb, owned, m);
      } else {
        OffTheEnd(a, fuel, x.Before(), st, la, owned, m);
        OffTheEnd(b, fuel, x.After(), st, lb, owned, m);
      }
    } else if DropsPair(h.s, h.t, x.gone) {
      PairRuns(a, fuel, x, h, st, la, owned, m);
      VExecOutGrows(b, fuel, x.After(), h.pb, st, lb, owned, m);
      if st != [] && fuel >= 2 {
        var la' := la[h.s[0].l := Top(st)];
        var h' := HerePair(x, h);
        AgreeOffDead(x.gone, la, lb, h.s[0].l, Top(st));
        TunedKeepsUp(a, b, info, fuel - 2, g, h', st, la', lb, owned, m);
        VExecMoreFuel(b, fuel - 2, fuel, x.After(), h.pb, st, lb, owned, m);
      }
    } else {
      KeepsUpOp(a, b, info, fuel, g, h, st, la, lb, owned, m);
    }
  }

  lemma NoFuel(env: VEnv, c: Code, pc: nat, st: seq<Val>, local: Regs, owned: set<nat>, m: Mem)
    ensures VExec(env, 0, c, pc, st, local, owned, m) == OutOfFuel(m.out)
  {}

  lemma {:induction false} KeepsUpOp(a: VEnv, b: VEnv, info: map<Name, Tuned>, fuel: nat, g: Name, h: Spot,
                                     st: seq<Val>, la: Regs, lb: Regs, owned: set<nat>, m: Mem)
    requires fuel > 0 && g in info && AgreeOff(info[g].gone, la, lb)
    requires KeepsOp(h.s, h.t, info[g].gone) && Here(info[g], h)
    requires EnvsTuned(a, b, info)
    ensures Known(VExec(a, fuel, info[g].Before(), h.pa, st, la, owned, m),
                  VExec(b, fuel, info[g].After(), h.pb, st, lb, owned, m))
    decreases fuel, 0
  {
    hide EnvsTuned, Assemble, StackStep, AgreeOff, VDecode, Tail, Tuning, VCall, Tuned.Before, Tuned.After;
    var x := info[g];
    DecodeAlike(x, h, st);
    match VDecode(x.Before(), h.pa, st)
    case VJump(pc, st') =>
      var h' := JumpAlike(x, h, st);
      TunedKeepsUp(a, b, info, fuel - 1, g, h', st', la, lb, owned, m);
    case VReturn(v) =>
    case VInvoke(callee, args, st') =>
      CallKeepsUp(a, b, info, fuel - 1, callee, args, m);
      var h' := HereNext(x, h);
      match VCall(a, fuel - 1, callee, args, m) {
        case Done(v, m') =>
          TunedKeepsUp(a, b, info, fuel - 1, g, h', st' + [v], la, lb, owned, m');
        case OutOfFuel(p) =>
          VAfterCall(b, fuel, x.After(), h.pb, st, lb, owned, m);
        case _ =>
      }
    case VCompute =>
      SameOp(x, h);
      StepAlike(a.fl, h.s[0], st, la, lb, owned, m, x.gone);
      SameFloats(a, b, info);
      var h' := HereNext(x, h);
      match StackStep(a.fl, h.s[0], st, la, owned, m) {
        case VNext(st', la', owned', m') =>
          var lb' := StackStep(b.fl, h.s[0], st, lb, owned, m).local;
          TunedKeepsUp(a, b, info, fuel - 1, g, h', st', la', lb', owned', m');
        case _ =>
      }
    case VBroken =>
  }

  lemma SameOp(x: Tuned, h: Spot)
    requires KeepsOp(h.s, h.t, x.gone) && Here(x, h)
    ensures h.pa < |x.Before().code| && x.Before().code[h.pa] == h.s[0]
    ensures h.pb < |x.After().code| && x.After().code[h.pb] == h.s[0]
    ensures !(h.s[0].LoadL? && h.s[0].l in x.gone)
  {
    HereOp(x, h);
  }

  lemma SameFloats(a: VEnv, b: VEnv, info: map<Name, Tuned>)
    requires EnvsTuned(a, b, info)
    ensures a.fl == b.fl
  {}

  /** What the whole run prints covers what the call in it prints. */
  lemma VAfterCall(env: VEnv, fuel: nat, c: Code, pc: nat, st: seq<Val>, local: Regs, owned: set<nat>, m: Mem)
    requires fuel > 0 && VDecode(c, pc, st).VInvoke?
    ensures var d := VDecode(c, pc, st);
            VCall(env, fuel - 1, d.callee, d.args, m).Out() <= VExec(env, fuel, c, pc, st, local, owned, m).Out()
  {
    var d := VDecode(c, pc, st);
    match VCall(env, fuel - 1, d.callee, d.args, m)
    case Done(v, m') => VExecOutGrows(env, fuel - 1, c, pc + 1, d.st + [v], local, owned, m');
    case _ =>
  }

  lemma {:induction false} CallKeepsUp(a: VEnv, b: VEnv, info: map<Name, Tuned>, fuel: nat, g: Name, args: seq<Val>,
                                       m: Mem)
    requires EnvsTuned(a, b, info)
    ensures Known(VCall(a, fuel, g, args, m), VCall(b, fuel, g, args, m))
    decreases fuel, 2
  {
    hide Assemble, VExec, Here, Tuning;
    if g in info {
      assert FunctionTuned(a, b, info, g);
      var x := info[g];
      var h := HereStart(x, 0);
      TunedKeepsUp(a, b, info, fuel, g, h, [], Bind(x.params, args), Bind(x.params, args), {}, m);
      SameParams(x);
    }
  }

  lemma SameParams(x: Tuned)
    requires |x.ids| == |x.naive| == |x.tuned|
    ensures x.Before().params == x.params && x.After().params == x.params
  {}

  // ----- and back: on enough fuel the naive code gets as far as the tuned code -----

  predicate Covered(r: Outcome, s: Outcome) {
    s.Failed? || Extends(r, s)
  }

  lemma {:induction false} NaiveCatchesUp(a: VEnv, b: VEnv, info: map<Name, Tuned>, fuel: nat, g: Name, h: Spot,
                                          st: seq<Val>, la: Regs, lb: Regs, owned: set<nat>, m: Mem)
      returns (more: nat)
    requires g in info && Here(info[g], h) && AgreeOff(info[g].gone, la, lb)
    requires EnvsTuned(a, b, info)
    ensures Covered(VExec(b, fuel, info[g].After(), h.pb, st, lb, owned, m),
                    VExec(a, more, info[g].Before(), h.pa, st, la, owned, m))
    decreases fuel, 1, |info[g].naive| - h.n, |h.s|
  {
    hide EnvsTuned, Assemble, StackStep, AgreeOff, VDecode, VExec, Tail, Tuned.Before, Tuned.After;
    var x := info[g];
    if fuel == 0 {
      more := 0;
      NoFuel(b, x.After(), h.pb, st, lb, owned, m);
      NoFuel(a, x.Before(), h.pa, st, la, owned, m);
    } else if h.s == [] {
      var h' := HereOver(x, h);
      if h.n + 1 < |x.naive| {
        more := NaiveCatchesUp(a, b, info, fuel, g, h', st, la, lb, owned, m);
      } else {
        more := 1;
        OffTheEnd(a, 1, x.Before(), st, la, owned, m);
        OffTheEnd(b, fuel, x.After(), st, lb, owned, m);
      }
    } else if DropsPair(h.s, h.t, x.gone) {
      if st == [] {
        more := 1;
        PairRuns(a, 1, x, h, st, la, owned, m);
      } else {
        var la' := la[h.s[0].l := Top(st)];
        var h' := HerePair(x, h);
        AgreeOffDead(x.gone, la, lb, h.s[0].l, Top(st));
        more := NaiveCatchesUp(a, b, info, fuel, g, h', st, la', lb, owned, m);
        more := more + 2;
        PairRuns(a, more, x, h, st, la, owned, m);
      }
    } else {
      more := CatchesUpOp(a, b, info, fuel, g, h, st, la, lb, owned, m);
    }
  }

  lemma {:induction false} CatchesUpOp(a: VEnv, b: VEnv, info: map<Name, Tuned>, fuel: nat, g: Name, h: Spot,
                                       st: seq<Val>, la: Regs, lb: Regs, owned: set<nat>, m: Mem)
      returns (more: nat)
    requires fuel > 0 && g in info && AgreeOff(info[g].gone, la, lb)
    requires KeepsOp(h.s, h.t, info[g].gone) && Here(info[g], h)
    requires EnvsTuned(a, b, info)
    ensures Covered(VExec(b, fuel, info[g].After(), h.pb, st, lb, owned, m),
                    VExec(a, more, info[g].Before(), h.pa, st, la, owned, m))
    decreases fuel, 0
  {
    hide EnvsTuned, Assemble, StackStep, AgreeOff, VDecode, Tail, Tuning, VCall, Tuned.Before, Tuned.After;
    var x := info[g];
    DecodeAlike(x, h, st);
    match VDecode(x.Before(), h.pa, st)
    case VJump(pc, st') =>
      var h' := JumpAlike(x, h, st);
      more := NaiveCatchesUp(a, b, info, fuel - 1, g, h', st', la, lb, owned, m);
      more := more + 1;
    case VReturn(v) => more := 1;
    case VInvoke(callee, args, st') =>
      more := CatchesUpCall(a, b, info, fuel, g, h, st, la, lb, owned, m);
    case VCompute =>
      SameOp(x, h);
      StepAlike(a.fl, h.s[0], st, la, lb, owned, m, x.gone);
      SameFloats(a, b, info);
      var h' := HereNext(x, h);
      match StackStep(a.fl, h.s[0], st, la, owned, m) {
        case VNext(st', la', owned', m') =>
          var lb' := StackStep(b.fl, h.s[0], st, lb, owned, m).local;
          more := NaiveCatchesUp(a, b, info, fuel - 1, g, h', st', la', lb', owned', m');
          more := more + 1;
        case _ => more := 1;
      }
    case VBroken => more := 1;
  }

  lemma {:induction false} CatchesUpCall(a: VEnv, b: VEnv, info: map<Name, Tuned>, fuel: nat, g: Name, h: Spot,
                                         st: seq<Val>, la: Regs, lb: Regs, owned: set<nat>, m: Mem)
      returns (more: nat)
    requires fuel > 0 && g in info && AgreeOff(info[g].gone, la, lb)
    requires KeepsOp(h.s, h.t, info[g].gone) && Here(info[g], h)
    requires VDecode(info[g].Before(), h.pa, st).VInvoke?
    requires VDecode(info[g].Before(), h.pa, st) == VDecode(info[g].After(), h.pb, st)
    requires EnvsTuned(a, b, info)
    ensures Covered(VExec(b, fuel, info[g].After(), h.pb, st, lb, owned, m),
                    VExec(a, more, info[g].Before(), h.pa, st, la, owned, m))
    decreases fuel - 1, 3
  {
    hide EnvsTuned, Assemble, StackStep, AgreeOff, VDecode, Tail, Tuning, VCall, Tuned.Before, Tuned.After;
    var x := info[g];
    var d := VDecode(x.Before(), h.pa, st);
    var more0 := CallCatchesUp(a, b, info, fuel - 1, d.callee, d.args, m);
    match VCall(b, fuel - 1, d.callee, d.args, m)
    case Done(v, m') =>
      if VCall(a, more0, d.callee, d.args, m).Failed? {
        more := more0 + 1;
      } else {
        var h' := HereNext(x, h);
        var more1 := NaiveCatchesUp(a, b, info, fuel - 1, g, h', d.st + [v], la, lb, owned, m');
        var top := if more0 < more1 then more1 else more0;
        VCallMoreFuel(a, more0, top, d.callee, d.args, m);
        VExecMoreFuel(a, more1, top, x.Before(), h.pa + 1, d.st + [v], la, owned, m');
        more := top + 1;
      }
    case OutOfFuel(p) =>
      more := more0 + 1;
      VAfterCall(a, more, x.Before(), h.pa, st, la, owned, m);
    case _ => more := more0 + 1;
  }

  lemma {:induction false} CallCatchesUp(a: VEnv, b: VEnv, info: map<Name, Tuned>, fuel: nat, g: Name, args: seq<Val>,
                                         m: Mem)
      returns (more: nat)
    requires EnvsTuned(a, b, info)
    ensures Covered(VCall(b, fuel, g, args, m), VCall(a, more, g, args, m))
    decreases fuel, 2
  {
    hide Assemble, VExec, Here, Tuning;
    more := 0;
    if g in info {
      assert FunctionTuned(a, b, info, g);
      var x := info[g];
      var h := HereStart(x, 0);
      more := NaiveCatchesUp(a, b, info, fuel, g, h, [], Bind(x.params, args), Bind(x.params, args), {}, m);
      SameParams(x);
    }
  }
}
