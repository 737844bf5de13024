/** The read counts of the whole function justify every deletion of the peephole:
    a deleted local has no load left in any block. */
module PeepholeCorrect {
  import opened Cir
  import opened Arith
  import opened Interp
  import opened Bytecode
  import opened StackVm
  import opened Layout
  import opened PeepholeProof

  /** How often `l` is loaded. */
  function Loads(s: seq<StackOp>, l: Name): nat {
    if s == [] then 0 else (if s[0] == LoadL(l) then 1 else 0) + Loads(s[1..], l)
  }

  lemma {:induction false} LoadsConcat(s: seq<StackOp>, t: seq<StackOp>, l: Name)
    ensures Loads(s + t, l) == Loads(s, l) + Loads(t, l)
  {
    if s == [] {
      assert s + t == t;
    } else {
      assert (s + t)[1..] == s[1..] + t;
      LoadsConcat(s[1..], t, l);
    }
  }

  // ----- a lowered block loads a register at most as often as the block reads it -----

  lemma {:induction false} PushLoads(xs: seq<Operand>, locals: set<Name>, l: Name)
    requires PushAll(xs, locals).Some?
    ensures Loads(PushAll(xs, locals).value, l) == Reads(xs, l)
  {
    if xs != [] {
      PushLoads(xs[..|xs| - 1], locals, l);
      LoadsConcat(PushAll(xs[..|xs| - 1], locals).value, [PushValue(xs[|xs| - 1], locals).value], l);
    }
  }

  lemma {:induction false} ReadsFirst(xs: seq<Operand>, l: Name, k: nat)
    requires k <= |xs|
    ensures Reads(xs[..k], l) <= Reads(xs, l)
  {
    if k == |xs| {
      assert xs[..k] == xs;
    } else {
      assert xs[..|xs| - 1][..k] == xs[..k];
      ReadsFirst(xs[..|xs| - 1], l, k);
    }
  }

  lemma SequenceLoads(pushes: Option<seq<StackOp>>, op: Option<StackOp>, tail: Option<seq<StackOp>>, l: Name)
    requires Sequence(pushes, op, tail).Some? && !op.value.LoadL?
    requires tail.value == [] || (|tail.value| == 1 && !tail.value[0].LoadL?)
    ensures Loads(Sequence(pushes, op, tail).value, l) == Loads(pushes.value, l)
  {
    LoadsConcat(pushes.value, [op.value], l);
    LoadsConcat(pushes.value + [op.value], tail.value, l);
  }

  lemma BranchLoads(ps: seq<StackOp>, op: StackOp, tail: seq<StackOp>, l: Name)
    requires !op.LoadL? && (tail == [] || (|tail| == 1 && !tail[0].LoadL?))
    ensures Loads(ps + [op] + tail, l) == Loads(ps, l)
  {
    LoadsConcat(ps, [op], l);
    LoadsConcat(ps + [op], tail, l);
  }

  lemma LowerLoads(ins: Instr, locals: set<Name>, next: Option<Label>, l: Name)
    requires LowerInstr(ins, locals, next).Some?
    ensures Loads(LowerInstr(ins, locals, next).value, l) <= Reads(ins.args, l)
  {
    hide Loads, Reads, Sequence;
    var args := ins.args;
    var all := PushAll(args, locals);
    if all.Some? { PushLoads(args, locals, l); }
    match ins.op
    case Br(t) => NoLoads(JumpTo(t, next), l);
    case BrCond(t, e) => BranchLoads(all.value, Jz(e), JumpTo(t, next), l);
    case Ret => BranchLoads(all.value, RetOp, [], l); assert all.value + [RetOp] + [] == all.value + [RetOp];
    case Call(callee) =>
      LowerSeq(all, Some(CallOp(callee, |args|)), if ins.dest.Some? then Park(ins) else Some([Drop]), l);
    case Alloca =>
      NoLoads([], l);
      LowerSeq(Some([]), Some(AllocaOp(if args == [] then 1 else args[0].value)), Park(ins), l);
    case Load =>
      NoLoads([], l);
      if args[0].GlobalRef? {
        LowerSeq(Some([]), Some(LoadG(args[0].name)), Park(ins), l);
      } else {
        LowerSeq(all, Some(LoadOp), Park(ins), l);
      }
    case Store =>
      if args[1].GlobalRef? {
        SequenceParts(PushAll(args[..1], locals), Some(StoreG(args[1].name)), Some([]));
        PushLoads(args[..1], locals, l);
        ReadsFirst(args, l, 1);
        LowerSeq(PushAll(args[..1], locals), Some(StoreG(args[1].name)), Some([]), l);
      } else {
        LowerSeq(all, Some(StoreOp), if ins.dest.Some? then Park(ins) else Some([]), l);
      }
    case _ =>
      LowerSeq(all, Opcode(ins), if ins.dest.Some? then Park(ins) else Some([]), l);
  }

  lemma NoLoads(s: seq<StackOp>, l: Name)
    requires s == [] || (|s| == 1 && !s[0].LoadL?)
    ensures Loads(s, l) == 0
  {}

  lemma SequenceParts(pushes: Option<seq<StackOp>>, op: Option<StackOp>, tail: Option<seq<StackOp>>)
    requires Sequence(pushes, op, tail).Some?
    ensures pushes.Some? && op.Some? && tail.Some?
  {}

  lemma LowerSeq(pushes: Option<seq<StackOp>>, op: Option<StackOp>, tail: Option<seq<StackOp>>, l: Name)
    requires op.Some? ==> !op.value.LoadL?
    requires tail.Some? ==> tail.value == [] || (|tail.value| == 1 && !tail.value[0].LoadL?)
    ensures Sequence(pushes, op, tail).Some? ==>
              pushes.Some? && Loads(Sequence(pushes, op, tail).value, l) == Loads(pushes.value, l)
  {
    if Sequence(pushes, op, tail).Some? { SequenceLoads(pushes, op, tail, l); }
  }

  lemma {:induction false} BlockLoads(instrs: seq<Instr>, locals: set<Name>, next: Option<Label>, l: Name)
    requires LowerInstrs(instrs, locals, next).Some?
    ensures Loads(LowerInstrs(instrs, locals, next).value, l) <= UseCount(instrs, l)
  {
    hide LowerInstr;
    if instrs != [] {
      LowerLoads(instrs[0], locals, next, l);
      BlockLoads(instrs[1..], locals, next, l);
      LoadsConcat(LowerInstr(instrs[0], locals, next).value, LowerInstrs(instrs[1..], locals, next).value, l);
    }
  }

  // ----- what the peephole deletes -----

  /** The locals whose store and load are deleted. */
  ghost function Deleted(s: seq<StackOp>, dead: Name -> bool): set<Name> {
    if IsPair(s) && dead(s[0].l) then {s[0].l} + Deleted(s[2..], dead)
    else if s == [] then {}
    else Deleted(s[1..], dead)
  }

  lemma {:induction false} DeletedLoads(s: seq<StackOp>, dead: Name -> bool, l: Name)
    ensures Loads(Peephole(s, dead), l) + (if l in Deleted(s, dead) then 1 else 0) <= Loads(s, l)
    ensures l in Deleted(s, dead) ==> dead(l)
  {
    if IsPair(s) && dead(s[0].l) {
      assert s[1..][1..] == s[2..];
      DeletedLoads(s[2..], dead, l);
    } else if s != [] {
      DeletedLoads(s[1..], dead, l);
      assert ([s[0]] + Peephole(s[1..], dead))[1..] == Peephole(s[1..], dead);
    }
  }

  lemma {:induction false} PeepholeTunes(s: seq<StackOp>, dead: Name -> bool, gone: set<Name>)
    requires Deleted(s, dead) <= gone
    requires forall l :: l in gone ==> Loads(Peephole(s, dead), l) == 0
    ensures Tuning(s, Peephole(s, dead), gone)
  {
    var t := Peephole(s, dead);
    if IsPair(s) && dead(s[0].l) {
      PeepholeTunes(s[2..], dead, gone);
      assert DropsPair(s, t, gone);
    } else if s != [] {
      assert t[1..] == Peephole(s[1..], dead);
      forall l | l in gone ensures Loads(Peephole(s[1..], dead), l) == 0 && s[0] != LoadL(l) {
        assert Loads(t, l) == 0;
      }
      PeepholeTunes(s[1..], dead, gone);
      assert KeepsOp(s, t, gone);
    }
  }

  // ----- a whole function -----

  ghost function DeletedIn(f: Function, n: nat): set<Name>
    requires Emits(f) && n < |f.blocks|
  {
    Deleted(NaiveBlocks(f)[n], l => OneRead(f, n, l))
  }

  ghost function DeletedBefore(f: Function, n: nat): (r: set<Name>)
    requires Emits(f) && n <= |f.blocks|
    ensures forall l :: l in r <==> exists k :: 0 <= k < n && l in DeletedIn(f, k)
  {
    if n == 0 then {} else DeletedBefore(f, n - 1) + DeletedIn(f, n - 1)
  }

  lemma NoLoadLeft(f: Function, k: nat, n: nat, l: Name)
    requires Emits(f) && k < |f.blocks| && n < |f.blocks| && l in DeletedIn(f, k)
    ensures Loads(TunedBlocks(f)[n], l) == 0
  {
    hide Loads, UseCount, LowerInstrs, Peephole, Deleted;
    DeletedLoads(NaiveBlocks(f)[k], l => OneRead(f, k, l), l);
    DeletedLoads(NaiveBlocks(f)[n], l => OneRead(f, n, l), l);
    BlockLoads(f.blocks[n].instrs, LocalTable(f), NextLabel(f, n), l);
    assert OneRead(f, k, l);
  }

  /** The description of `f` the proof needs. */
  ghost function TunedFunction(f: Function): Tuned
    requires Emits(f)
  {
    Tuned(f.params, Ids(f), NaiveBlocks(f), TunedBlocks(f), DeletedBefore(f, |f.blocks|))
  }

  lemma FunctionTunes(f: Function)
    requires Emits(f) && f.UniqueLabels()
    ensures TunedFunction(f).Ok()
  {
    hide Loads, Peephole, Deleted, Tuning;
    var x := TunedFunction(f);
    forall n | 0 <= n < |x.naive| ensures Tuning(x.naive[n], x.tuned[n], x.gone) {
      forall l | l in DeletedIn(f, n) ensures l in x.gone {}
      forall l | l in x.gone ensures Loads(x.tuned[n], l) == 0 {
        var k :| 0 <= k < |f.blocks| && l in DeletedIn(f, k);
        NoLoadLeft(f, k, n, l);
      }
      PeepholeTunes(x.naive[n], l => OneRead(f, n, l), x.gone);
    }
  }

  // ----- a whole program -----

  ghost predicate Emitting(funcs: map<Name, Function>) {
    forall g :: g in funcs ==> CanEmit(funcs[g])
  }

  ghost predicate CanEmit(f: Function) {
    Emits(f) && f.blocks != [] && f.UniqueLabels()
  }

  /** The program without the peephole. */
  ghost function NaiveEnv(fl: Floats, funcs: map<Name, Function>): VEnv
    requires Emitting(funcs)
  {
    VEnv(fl, map g | g in funcs :: assert CanEmit(funcs[g]); NaiveCode(funcs[g]))
  }

  /** The program the emitter writes. */
  ghost function EmittedEnv(fl: Floats, funcs: map<Name, Function>): VEnv
    requires Emitting(funcs)
  {
    VEnv(fl, map g | g in funcs :: assert CanEmit(funcs[g]); EmittedCode(funcs[g]))
  }

  ghost function Info(funcs: map<Name, Function>): map<Name, Tuned>
    requires Emitting(funcs)
  {
    map g | g in funcs :: assert CanEmit(funcs[g]); TunedFunction(funcs[g])
  }

  lemma ProgramTunes(fl: Floats, funcs: map<Name, Function>)
    requires Emitting(funcs)
    ensures EnvsTuned(NaiveEnv(fl, funcs), EmittedEnv(fl, funcs), Info(funcs))
  {
    hide Assemble, Tuning, NaiveBlocks, TunedBlocks, DeletedBefore;
    var a, b, info := NaiveEnv(fl, funcs), EmittedEnv(fl, funcs), Info(funcs);
    forall g | g in info ensures FunctionTuned(a, b, info, g) {
      assert CanEmit(funcs[g]);
      FunctionTunes(funcs[g]);
    }
    assert a.funcs.Keys == info.Keys && b.funcs.Keys == info.Keys;
  }

  /** The peephole changes no run: on the same fuel the emitted code gets at least
      as far as the unoptimised code, unless that breaks down ... */
  lemma PeepholeKeepsUp(fl: Floats, funcs: map<Name, Function>, fuel: nat, g: Name, args: seq<Val>, m: Mem)
    requires Emitting(funcs)
    ensures Known(VCall(NaiveEnv(fl, funcs), fuel, g, args, m), VCall(EmittedEnv(fl, funcs), fuel, g, args, m))
  {
    hide NaiveEnv, EmittedEnv, Info, VCall, EnvsTuned;
    ProgramTunes(fl, funcs);
    CallKeepsUp(NaiveEnv(fl, funcs), EmittedEnv(fl, funcs), Info(funcs), fuel, g, args, m);
  }

  /** ... and gets no further than the unoptimised code does on enough fuel. */
  lemma PeepholeAddsNothing(fl: Floats, funcs: map<Name, Function>, fuel: nat, g: Name, args: seq<Val>, m: Mem)
      returns (more: nat)
    requires Emitting(funcs)
    ensures Covered(VCall(EmittedEnv(fl, funcs), fuel, g, args, m), VCall(NaiveEnv(fl, funcs), more, g, args, m))
  {
    hide NaiveEnv, EmittedEnv, Info, VCall, EnvsTuned;
    ProgramTunes(fl, funcs);
    more := CallCatchesUp(NaiveEnv(fl, funcs), EmittedEnv(fl, funcs), Info(funcs), fuel, g, args, m);
  }
}
