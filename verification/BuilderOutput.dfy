/** What the builder's finished text satisfies: the checks of its graph and of its
    definitions, and everything the later stages ask of their input. */
module BuilderOutput {
  import opened Cir
  import opened Arith
  import opened Fold
  import opened Graphs
  import opened FlowGraph
  import opened Walks
  import opened Cfg
  import opened Labels
  import opened BuilderData
  import opened BuilderGraph
  import opened BuilderBlocks
  import opened BuilderCode
  import opened BuilderReducible
  import opened TextOrder
  import opened Supply

  /** The state in which the builder ends. */
  ghost predicate Finishes(d: Data, g: Sketch, f: Function, n: nat) {
    && f.blocks != [] && g.ids == IdsOf(f.blocks) && g.succ == SuccsOf(f.blocks) && ShapeOk(f.blocks, false)
    && d.params == (set p | p in f.params) && Finished(g)
    && CodeOk(d, f.blocks, false, n) && Ok(g)
  }

  lemma OutputSound(d: Data, g: Sketch, f: Function, n: nat)
    requires Finishes(d, g, f, n)
    ensures SoundCfg(f)
    ensures f.GoodCfg() && f.ConditionsGiven()
  {
    hide BasicBlock.HasCondition, EdgeFits, NestFits, Ordered, CodeOk, BasicBlock.Successors, BasicBlock.Terminator,
         EdgeTo, LabelAt, Finished;
    assert Distinct(g);
    forall i, j | 0 <= i < j < |f.blocks| ensures f.blocks[i].id != f.blocks[j].id { assert g.ids[i] != g.ids[j]; }
    forall i | 0 <= i < |f.blocks| ensures BuilderBlocks.Closed(f.blocks[i]) { assert ShapeAt(f.blocks, false, i); }
    forall i, l | 0 <= i < |f.blocks| && l in f.blocks[i].Successors() ensures f.HasBlock(l) && l != f.blocks[0].id {
      TargetThere(g, f, i, l);
    }
    assert forall i :: 0 <= i < |f.blocks| ==> TerminatesOnce(f.blocks[i]);
    forall i | 0 <= i < |f.blocks| ensures f.blocks[0].id !in f.blocks[i].Successors() {
      EntryFree(g, f, i);
    }
  }

  lemma EntryFree(g: Sketch, f: Function, i: nat)
    requires g.ids == IdsOf(f.blocks) && g.succ == SuccsOf(f.blocks) && i < |f.blocks| && Finished(g)
    requires Ok(g)
    ensures f.blocks != [] && f.blocks[0].id !in f.blocks[i].Successors()
  {
    hide Ok, Finished, BasicBlock.Successors;
    var targets := f.blocks[i].Successors();
    forall l | l in targets ensures l != f.blocks[0].id { TargetThere(g, f, i, l); }
  }

  lemma TargetThere(g: Sketch, f: Function, i: nat, l: Label)
    requires g.ids == IdsOf(f.blocks) && g.succ == SuccsOf(f.blocks) && i < |f.blocks| && l in f.blocks[i].Successors()
        && Finished(g)
    requires Ok(g)
    ensures f.HasBlock(l) && f.blocks != [] && l != f.blocks[0].id
  {
    hide NestFits, Ordered, BasicBlock.Successors, EdgePlaced, StaysInNest;
    assert EdgeTo(g, i, l);
    OkEdge(g, i, l);
    var v: nat :| At(g, v, l);
    assert f.blocks[v].id == l;
    EntryNotMade();
    assert LabelAt(g, 0);
  }

  lemma OutputReducible(d: Data, g: Sketch, f: Function, n: nat)
    requires Finishes(d, g, f, n)
    ensures Reducible(GraphOf(f))
  {
    hide Ok, CodeOk, ShapeOk, Finished, Reducible;
    SketchReducible(g, f);
  }

  // ----- definitions before uses -----

  /** What has been seen by instruction `k` covers what is known there. */
  ghost predicate KnownSeen(d: Data, b: BasicBlock, first: bool, n: nat, k: nat, seen: set<Name>)
    requires b.id in d.avail
  {
    d.avail[b.id] <= seen && (forall r :: Earlier(b.instrs, k, r) ==> r in seen)
        && ((first && k < n) || d.slots <= seen)
  }

  lemma OperandKnown(d: Data, b: BasicBlock, first: bool, n: nat, k: nat, seen: set<Name>, j: nat)
    requires BlockCode(d, b) && (first ==> SlotCode(d, b, n)) && KnownSeen(d, b, first, n, k, seen)
    requires k < |b.instrs| && j < |b.instrs[k].args| && b.instrs[k].args[j].Reg?
    ensures b.instrs[k].args[j].name in seen
  {
    hide Earlier, TypedText;
    assert InstrCode(d, b, k);
    assert ArgKnown(d, b, k, b.instrs[k].args[j]);
  }

  lemma {:induction false} OrderedBlock(d: Data, b: BasicBlock, first: bool, n: nat, k: nat, seen: set<Name>)
    requires BlockCode(d, b) && (first ==> SlotCode(d, b, n)) && k <= |b.instrs| && KnownSeen(d, b, first, n, k, seen)
    ensures OrderedIn(b.instrs[k..], seen)
    decreases |b.instrs| - k
  {
    hide InstrCode, SlotCode, Earlier, KnownSeen;
    var rest := b.instrs[k..];
    if k < |b.instrs| {
      forall j | 0 <= j < |rest[0].args| && rest[0].args[j].Reg?
        ensures rest[0].args[j].name in seen { OperandKnown(d, b, first, n, k, seen, j); }
      var more := seen + Named(rest[0].dest);
      MoreKnown(d, b, first, n, k, seen, more);
      OrderedBlock(d, b, first, n, k + 1, more);
      assert rest[1..] == b.instrs[k + 1..];
    }
  }

  lemma MoreKnown(d: Data, b: BasicBlock, first: bool, n: nat, k: nat, seen: set<Name>, more: set<Name>)
    requires b.id in d.avail && k < |b.instrs| && KnownSeen(d, b, first, n, k, seen)
        && more == seen + Named(b.instrs[k].dest)
    requires first ==> SlotCode(d, b, n)
    ensures KnownSeen(d, b, first, n, k + 1, more)
  {
    forall r | Earlier(b.instrs, k + 1, r) ensures r in more {
      var j :| 0 <= j < k + 1 && j < |b.instrs| && b.instrs[j].dest == Some(r);
      if j < k { assert Earlier(b.instrs, k, r); }
    }
  }

  lemma {:induction false} AfterHas(instrs: seq<Instr>, seen: set<Name>, r: Name)
    ensures r in AfterIn(instrs, seen) <==> r in seen || Earlier(instrs, |instrs|, r)
  {
    if instrs != [] {
      AfterHas(instrs[1..], seen + Named(instrs[0].dest), r);
      if Earlier(instrs, |instrs|, r) {
        var j :| 0 <= j < |instrs| && instrs[j].dest == Some(r);
        if j > 0 { assert instrs[1..][j - 1].dest == Some(r); }
      }
      if Earlier(instrs[1..], |instrs[1..]|, r) {
        var j :| 0 <= j < |instrs| - 1 && instrs[1..][j].dest == Some(r);
        assert instrs[j + 1].dest == Some(r);
      }
    }
  }

  lemma NothingEarlier(instrs: seq<Instr>, r: Name)
    ensures !Earlier(instrs, 0, r)
  {}

  /** A block with everything known at its start. */
  lemma WholeOrdered(d: Data, b: BasicBlock, first: bool, n: nat, seen: set<Name>)
    requires BlockCode(d, b) && (first ==> SlotCode(d, b, n)) && d.avail[b.id] <= seen && (first || d.slots <= seen)
    ensures OrderedIn(b.instrs, seen)
  {
    hide BlockCode, Earlier, OrderedIn;
    forall r ensures !Earlier(b.instrs, 0, r) { NothingEarlier(b.instrs, r); }
    if first { SlotsFromNothing(d, b, n, seen); }
    OrderedBlock(d, b, first, n, 0, seen);
    assert b.instrs[0..] == b.instrs;
  }

  lemma SlotsFromNothing(d: Data, b: BasicBlock, n: nat, seen: set<Name>)
    requires SlotCode(d, b, n)
    ensures n == 0 ==> d.slots <= seen
  {}

  // ----- on every path -----

  ghost predicate Text(d: Data, f: Function, n: nat) {
    f.blocks != [] && f.UniqueLabels() && CodeOk(d, f.blocks, false, n)
  }

  /** At the entry only the parameters are defined, elsewhere the slots too. */
  ghost function Sets(d: Data): Sets {
    map l | l in d.avail :: if l == ENTRY then d.params else d.avail[l] + d.slots
  }

  lemma FineAt(d: Data, f: Function, n: nat, l: Label)
    requires Text(d, f, n) && l in BlockMap(f.blocks)
    ensures BlockMap(f.blocks)[l].id == l && BlockFine(d, BlockMap(f.blocks)[l]) && l in d.avail
    ensures l == ENTRY ==> SlotCode(d, BlockMap(f.blocks)[l], n) && d.avail[l] == d.params
  {
    hide BlockMap, InstrCode, EdgeCode, SlotCode, TextCode;
    BlockMapHas(f.blocks, l);
    var i :| 0 <= i < |f.blocks| && f.blocks[i] == BlockMap(f.blocks)[l];
    FineBlock(d, f.blocks, false, n, i);
    assert l == ENTRY ==> f.blocks[0].id == f.blocks[i].id;
  }

  lemma EntrySet(d: Data, f: Function, n: nat)
    requires Text(d, f, n)
    ensures ENTRY in d.avail && d.avail[ENTRY] == d.params
  {
    hide BlockFine, SlotCode, TextCode;
  }

  lemma SetsAt(d: Data, f: Function, n: nat, l: Label)
    requires Text(d, f, n) && l in BlockMap(f.blocks)
    ensures SuppliedAt(f, Sets(d), l)
  {
    hide BlockMap, CodeOk, BlockCode, Earlier, OrderedIn, AfterIn, BasicBlock.Successors;
    FineAt(d, f, n, l);
    EntrySet(d, f, n);
    var b, seen := BlockMap(f.blocks)[l], Sets(d)[l];
    WholeOrdered(d, b, l == ENTRY, n, seen);
    forall k | k in b.Successors() ensures k in Sets(d) && Sets(d)[k] <= AfterIn(b.instrs, seen) {
      forall r | r in Sets(d)[k] ensures r in AfterIn(b.instrs, seen) {
        AfterHas(b.instrs, seen, r);
        if r in d.avail[k] {
          assert AtEnd(d, b, r);
        } else {
          if l == ENTRY { EarlierLonger(b.instrs, n, |b.instrs|, r); }
        }
      }
    }
  }

  /** Every use on every path is preceded by a definition. */
  lemma OutputDefined(d: Data, f: Function, n: nat)
    requires Text(d, f, n) && f.GoodCfg() && d.params == (set p | p in f.params)
    ensures UsesDefined(f)
  {
    hide BlockMap, BlockFine, SuppliedAt, Function.GoodCfg, Reachable, TextCode, SlotCode;
    forall l | Reachable(GraphOf(f), l) ensures SuppliedAt(f, Sets(d), l) {
      ReachableNode(f, l);
      SetsAt(d, f, n, l);
    }
    SuppliedDefined(f, Sets(d));
  }
}
