/** Sets that supply every block: they show, block by block, that every use on every path is
    preceded by a definition, and a function with that property has them. */
module Supply {
  import opened Cir
  import opened Graphs
  import opened FlowGraph
  import opened Walks
  import opened Definedness
  import opened TextOrder

  type Sets = map<Label, set<Name>>

  /** With `sets[l]` defined on entry, block `l` uses what is defined and leaves what its successors need. */
  ghost predicate SuppliedAt(f: Function, sets: Sets, l: Label) {
    && l in BlockMap(f.blocks) && l in sets
    && var b := BlockMap(f.blocks)[l];
       OrderedIn(b.instrs, sets[l]) && forall k ::
           k in b.Successors() ==> k in sets && sets[k] <= AfterIn(b.instrs, sets[l])
  }

  ghost predicate Supplied(f: Function, sets: Sets) {
    && f.blocks != [] && f.blocks[0].id in sets && sets[f.blocks[0].id] <= Params(f)
    && forall l :: Reachable(GraphOf(f), l) ==> SuppliedAt(f, sets, l)
  }

  // ----- within a block -----

  lemma {:induction false} AfterSnoc(instrs: seq<Instr>, i: nat, seen: set<Name>)
    requires i < |instrs|
    ensures AfterIn(instrs[..i + 1], seen) == AfterIn(instrs[..i], seen) + Named(instrs[i].dest)
    decreases i
  {
    if i == 0 {
      assert instrs[..1][1..] == [] && instrs[..0] == [];
    } else {
      AfterSnoc(instrs[1..], i - 1, seen + Named(instrs[0].dest));
      assert instrs[..i + 1][1..] == instrs[1..][..i] && instrs[..i][1..] == instrs[1..][..i - 1];
    }
  }

  lemma {:induction false} OrderedAt(instrs: seq<Instr>, i: nat, seen: set<Name>)
    requires i < |instrs| && OrderedIn(instrs, seen)
    ensures OperandsSeen(instrs[i].args, AfterIn(instrs[..i], seen))
    decreases i
  {
    if i > 0 {
      OrderedAt(instrs[1..], i - 1, seen + Named(instrs[0].dest));
      assert instrs[..i][1..] == instrs[1..][..i - 1];
    }
  }

  // ----- supplied, so defined -----

  ghost predicate Met(f: Function, w: seq<Pos>, r: Name) {
    r in f.params || DefinedOn(f, w, r)
  }

  lemma LongerMet(f: Function, w: seq<Pos>, q: Pos, r: Name)
    requires Met(f, w, r)
    ensures Met(f, w + [q], r)
  {
    hide DefinedOn;
    if r !in f.params { DefinedOnLonger(f, w, [q], r); }
  }

  lemma NowMet(f: Function, w: seq<Pos>, q: Pos, r: Name)
    requires w != [] && DefinesAt(f, w[|w| - 1], r)
    ensures Met(f, w + [q], r)
  {
    assert DefinesAt(f, (w + [q])[|w| - 1], r);
  }

  /** Everything defined so far has been met on the walk. */
  ghost predicate AllMet(f: Function, sets: Sets, w: seq<Pos>, q: Pos) {
    q.block in BlockMap(f.blocks) && q.block in sets && q.index <= |BlockMap(f.blocks)[q.block].instrs|
    && forall r :: r in AfterIn(BlockMap(f.blocks)[q.block].instrs[..q.index], sets[q.block]) ==> Met(f, w, r)
  }

  lemma StartMet(f: Function, sets: Sets, w: seq<Pos>)
    requires Supplied(f, sets) && IsWalk(f, w) && |w| == 1
    ensures AllMet(f, sets, w, w[0])
  {
    hide BlockMap, OrderedIn, Reachable;
    assert BlockMap(f.blocks)[w[0].block].instrs[..0] == [];
  }

  lemma {:induction false} WalkMeets(f: Function, sets: Sets, w: seq<Pos>)
    requires Supplied(f, sets) && f.GoodCfg() && IsWalk(f, w)
    ensures AllMet(f, sets, w, w[|w| - 1])
    decreases |w|
  {
    hide BlockMap, Function.GoodCfg, AfterIn, OrderedIn, Reachable, Met, Supplied, SuppliedAt;
    SuppliedStarts(f, sets);
    if |w| == 1 {
      StartMet(f, sets, w);
    } else {
      var v, p, q := w[..|w| - 1], w[|w| - 2], w[|w| - 1];
      WalkPrefix(f, w, |w| - 1);
      assert StepsTo(f, w[|w| - 2], w[|w| - 2 + 1]);
      WalkMeets(f, sets, v);
      WalkReaches(f, v, p);
      assert v + [q] == w;
      EndMet(f, sets, v, p, q);
      if q.block != p.block || q.index != p.index + 1 { AcrossMet(f, sets, w, p, q); }
    }
  }

  lemma SuppliedStarts(f: Function, sets: Sets)
    requires Supplied(f, sets)
    ensures f.blocks != []
  {}

  /** Past the instruction at `p`. */
  lemma EndMet(f: Function, sets: Sets, v: seq<Pos>, p: Pos, q: Pos)
    requires v != [] && v[|v| - 1] == p && AllMet(f, sets, v, p) && InCode(f, p)
    ensures AllMet(f, sets, v + [q], Pos(p.block, p.index + 1))
  {
    hide BlockMap, AfterIn, Met;
    var instrs := BlockMap(f.blocks)[p.block].instrs;
    AfterSnoc(instrs, p.index, sets[p.block]);
    forall r | r in AfterIn(instrs[..p.index + 1], sets[p.block]) ensures Met(f, v + [q], r) {
      if r in AfterIn(instrs[..p.index], sets[p.block]) { LongerMet(f, v, q, r); } else { NowMet(f, v, q, r); }
    }
  }

  lemma AcrossMet(f: Function, sets: Sets, w: seq<Pos>, p: Pos, q: Pos)
    requires Supplied(f, sets) && Reachable(GraphOf(f), p.block) && StepsTo(f, p, q)
    requires p.index + 1 == |BlockMap(f.blocks)[p.block].instrs| && q.index == 0
        && q.block in BlockMap(f.blocks)[p.block].Successors()
    requires AllMet(f, sets, w, Pos(p.block, p.index + 1))
    ensures AllMet(f, sets, w, q)
  {
    hide BlockMap, OrderedIn, Reachable, Met, BasicBlock.Successors;
    assert SuppliedAt(f, sets, p.block);
    var instrs := BlockMap(f.blocks)[p.block].instrs;
    assert instrs[..p.index + 1] == instrs && BlockMap(f.blocks)[q.block].instrs[..0] == [];
  }

  lemma SuppliedDefined(f: Function, sets: Sets)
    requires Supplied(f, sets) && f.GoodCfg()
    ensures UsesDefined(f)
  {
    hide BlockMap, Function.GoodCfg, AfterIn, OrderedIn, Reachable, Supplied, DefinedOn;
    SuppliedStarts(f, sets);
    forall q: Pos, k: nat ensures UseDefined(f, q, k) {
      if InCode(f, q) && k < |InstrAt(f, q).args| && InstrAt(f, q).args[k].Reg? {
        var r := InstrAt(f, q).args[k].name;
        if r !in f.params {
          forall w | WalksTo(f, w, q) ensures DefinedOn(f, w, r) {
            WalkReaches(f, w, q);
            WalkMeets(f, sets, w);
            UseMet(f, sets, w, q, k);
          }
        }
      }
    }
  }

  lemma UseMet(f: Function, sets: Sets, w: seq<Pos>, q: Pos, k: nat)
    requires Supplied(f, sets) && Reachable(GraphOf(f), q.block) && AllMet(f, sets, w, q) && InCode(f, q)
    requires k < |InstrAt(f, q).args| && InstrAt(f, q).args[k].Reg?
    ensures Met(f, w, InstrAt(f, q).args[k].name)
  {
    hide BlockMap, AfterIn, OrderedIn, Reachable, Met;
    assert SuppliedAt(f, sets, q.block);
    OrderedAt(BlockMap(f.blocks)[q.block].instrs, q.index, sets[q.block]);
  }

  // ----- defined, so supplied -----

  ghost function SetOf(f: Function, l: Label): set<Name>
    requires f.blocks != []
  {
    set r | r in AllRegs(f) && Available(f, Pos(l, 0), r)
  }

  ghost function SetsOf(f: Function): Sets
    requires f.blocks != []
  {
    map l | l in BlockMap(f.blocks) :: SetOf(f, l)
  }

  /** What is available at a reachable point has a name. */
  lemma NamedAvailable(f: Function, l: Label, r: Name)
    requires f.blocks != [] && f.GoodCfg() && Reachable(GraphOf(f), l) && l in BlockMap(f.blocks)
        && Available(f, Pos(l, 0), r)
    ensures r in SetOf(f, l)
  {
    hide BlockMap, Function.GoodCfg, Reachable, Available;
    if r !in f.params {
      var live := set k | k in BlockMap(f.blocks) && Reachable(GraphOf(f), k);
      FunctionGraph(f);
      forall k | Reachable(GraphOf(f), k) ensures k in BlockMap(f.blocks) { ReachableNode(f, k); }
      AvailableIsNamed(f, live, l, r);
    }
  }

  lemma ReachableNode(f: Function, l: Label)
    requires f.blocks != [] && Reachable(GraphOf(f), l)
    ensures l in BlockMap(f.blocks)
  {
    var p :| Connects(GraphOf(f), GraphOf(f).entry, p, l);
    assert p[|p| - 1] in GraphOf(f).succ;
  }

  /** What has been seen by instruction `i` covers what is available there. */
  lemma {:induction false} SeenCovers(f: Function, l: Label, i: nat, r: Name)
    requires f.blocks != [] && f.GoodCfg() && Reachable(GraphOf(f), l) && InCode(f, Pos(l, i)) && InCode(f, Pos(l, 0))
    requires Available(f, Pos(l, i), r)
    ensures r in AfterIn(BlockMap(f.blocks)[l].instrs[..i], SetOf(f, l))
  {
    hide BlockMap, Function.GoodCfg, Reachable, Available, SetOf, AfterIn;
    AvailableWithin(f, l, i, r);
    var instrs := BlockMap(f.blocks)[l].instrs;
    if Available(f, Pos(l, 0), r) {
      NamedAvailable(f, l, r);
      StaysSeen(instrs, 0, i, SetOf(f, l), r);
    } else {
      var k :| 0 <= k < i && DefinesAt(f, Pos(l, k), r);
      AfterSnoc(instrs, k, SetOf(f, l));
      StaysSeen(instrs, k + 1, i, SetOf(f, l), r);
    }
  }

  lemma {:induction false} StaysSeen(instrs: seq<Instr>, k: nat, i: nat, seen: set<Name>, r: Name)
    requires k <= i <= |instrs| && ((k == 0 && r in seen) || r in AfterIn(instrs[..k], seen))
    ensures r in AfterIn(instrs[..i], seen)
    decreases i - k
  {
    hide AfterIn;
    if k == 0 { NoneAfter(instrs, seen); }
    if k < i {
      AfterSnoc(instrs, k, seen);
      StaysSeen(instrs, k + 1, i, seen, r);
    }
  }

  lemma NoneAfter(instrs: seq<Instr>, seen: set<Name>)
    ensures AfterIn(instrs[..0], seen) == seen
  {}

  lemma {:induction false} OrderedFrom(instrs: seq<Instr>, k: nat, seen: set<Name>)
    requires k <= |instrs| && forall i :: k <= i < |instrs| ==> OperandsSeen(instrs[i].args, AfterIn(instrs[..i], seen))
    ensures OrderedIn(instrs[k..], AfterIn(instrs[..k], seen))
    decreases |instrs| - k
  {
    hide AfterIn, OperandsSeen;
    if k < |instrs| {
      AfterSnoc(instrs, k, seen);
      OrderedFrom(instrs, k + 1, seen);
      assert instrs[k..][1..] == instrs[k + 1..];
    }
  }

  lemma BlockSupplied(f: Function, l: Label)
    requires f.blocks != [] && f.GoodCfg() && UsesDefined(f) && Reachable(GraphOf(f), l)
    ensures SuppliedAt(f, SetsOf(f), l)
  {
    hide BlockMap, Function.GoodCfg, Reachable, Available, AfterIn, OrderedIn, SetOf, BasicBlock.Successors;
    ReachableNode(f, l);
    NonEmpty(f, l);
    var instrs, seen := BlockMap(f.blocks)[l].instrs, SetOf(f, l);
    forall i | 0 <= i < |instrs| ensures OperandsSeen(instrs[i].args, AfterIn(instrs[..i], seen)) {
      forall k | 0 <= k < |instrs[i].args| && instrs[i].args[k].Reg?
        ensures instrs[i].args[k].name in AfterIn(instrs[..i], seen) {
        assert UseDefined(f, Pos(l, i), k);
        SeenCovers(f, l, i, instrs[i].args[k].name);
      }
    }
    NoneAfter(instrs, seen);
    OrderedFrom(instrs, 0, seen);
    assert instrs[0..] == instrs;
    forall k | k in BlockMap(f.blocks)[l].Successors() ensures k in SetsOf(f) && SetsOf(f)[k] <= AfterIn(instrs, seen) {
      EdgeSupplied(f, l, k);
    }
  }

  lemma EdgeSupplied(f: Function, u: Label, v: Label)
    requires f.blocks != [] && f.GoodCfg() && Reachable(GraphOf(f), u) && Edge(GraphOf(f), u, v)
    ensures v in SetsOf(f) && SetOf(f, v) <= AfterIn(BlockMap(f.blocks)[u].instrs, SetOf(f, u))
  {
    hide BlockMap, Function.GoodCfg, Reachable, Available, AfterIn, BasicBlock.Successors, AllRegs;
    FunctionGraph(f);
    LastStep(f, u, v);
    var instrs := BlockMap(f.blocks)[u].instrs;
    var last := |instrs| - 1;
    assert instrs[..last + 1] == instrs;
    AfterSnoc(instrs, last, SetOf(f, u));
    NonEmpty(f, v);
    forall r | r in SetOf(f, v) ensures r in AfterIn(instrs, SetOf(f, u)) {
      if v == f.blocks[0].id {
        EntryOnlyParams(f, r);
        ParamAvailable(f, Pos(u, last), r);
      } else {
        AvailableAfterPred(f, u, v, r);
      }
      if Available(f, Pos(u, last), r) { SeenCovers(f, u, last, r); }
    }
  }

  lemma ParamAvailable(f: Function, q: Pos, r: Name)
    requires f.blocks != [] && r in f.params
    ensures Available(f, q, r)
  {}

  lemma DefinedSupplied(f: Function)
    requires f.blocks != [] && f.GoodCfg() && UsesDefined(f)
    ensures Supplied(f, SetsOf(f))
  {
    hide BlockMap, Function.GoodCfg, Reachable, UsesDefined, SuppliedAt, AllRegs, Available;
    FunctionGraph(f);
    var e := f.blocks[0].id;
    EntryReachable(GraphOf(f));
    ReachableNode(f, e);
    NonEmpty(f, e);
    forall r | r in SetsOf(f)[e] ensures r in Params(f) { EntryOnlyParams(f, r); }
    forall l | Reachable(GraphOf(f), l) ensures SuppliedAt(f, SetsOf(f), l) { BlockSupplied(f, l); }
  }
}
