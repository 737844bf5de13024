/** Queries and structural checks of the control-flow graph. */
module Cfg {
  import opened Cir
  import opened Graphs
  import opened FlowGraph

  // ----- reachability -----

  ghost predicate ClosedUnder(g: Graph, seen: set<Label>) {
    forall u, v :: u in seen && Edge(g, u, v) ==> v in seen
  }

  lemma {:induction false} ClosedHoldsPaths(g: Graph, seen: set<Label>, p: seq<Label>, v: Label)
    requires g.entry in seen && ClosedUnder(g, seen) && Connects(g, g.entry, p, v)
    ensures v in seen
  {
    if |p| > 1 {
      PrefixPath(g, g.entry, p, v, |p| - 2);
      ClosedHoldsPaths(g, seen, p[..|p| - 1], p[|p| - 2]);
      assert Edge(g, p[|p| - 2], p[|p| - 2 + 1]);
    }
  }

  /** Everything met so far is reachable, and what was processed leads only to what was met. */
  ghost predicate Frontier(g: Graph, seen: set<Label>, stack: seq<Label>) {
    && (g.entry in seen || g.entry in stack)
    && (forall l :: l in seen || l in stack ==> l in g.succ && Reachable(g, l))
    && forall u, v :: u in seen && Edge(g, u, v) ==> v in seen || v in stack
  }

  lemma FrontierSkips(g: Graph, seen: set<Label>, stack: seq<Label>)
    requires Frontier(g, seen, stack) && stack != [] && stack[|stack| - 1] in seen
    ensures Frontier(g, seen, stack[..|stack| - 1])
  {
    var n := |stack| - 1;
    assert forall l :: l in stack <==> l in stack[..n] || l == stack[n];
  }

  lemma FrontierGrows(g: Graph, seen: set<Label>, stack: seq<Label>)
    requires Closed(g) && Frontier(g, seen, stack) && stack != []
    ensures var l := stack[|stack| - 1]; l in g.succ && Frontier(g, seen + {l}, stack[..|stack| - 1] + g.succ[l])
  {
    hide Reachable;
    var n := |stack| - 1;
    var l := stack[n];
    assert forall x :: x in stack <==> x in stack[..n] || x == l;
    assert forall x :: x in stack[..n] + g.succ[l] <==> x in stack[..n] || x in g.succ[l];
    forall v | v in g.succ[l] ensures v in g.succ && Reachable(g, v) {
      assert Edge(g, l, v);
      EdgeReachable(g, l, v);
    }
  }

  /** Labels reachable from the entry by following terminators. */
  method ReachableLabels(f: Function) returns (seen: set<Label>)
    requires f.blocks != [] && f.GoodCfg()
    ensures forall l :: l in seen <==> Reachable(GraphOf(f), l)
  {
    hide Function.GoodCfg, BlockMap, Reachable, Frontier;
    var blocks := BlockMap(f.blocks);
    ghost var g := GraphOf(f);
    FunctionGraph(f);
    seen := {};
    var stack := [f.blocks[0].id];
    StartFrontier(g, stack);
    while stack != []
      invariant Frontier(g, seen, stack)
      decreases blocks.Keys - seen, |stack|
    {
      var here := stack[|stack| - 1];
      FrontierGrows(g, seen, stack);
      if here in seen {
        FrontierSkips(g, seen, stack);
        stack := stack[..|stack| - 1];
      } else {
        seen := seen + {here};
        stack := stack[..|stack| - 1] + blocks[here].Successors();
      }
    }
    FrontierDone(g, seen);
  }

  lemma StartFrontier(g: Graph, stack: seq<Label>)
    requires Closed(g) && stack == [g.entry]
    ensures Frontier(g, {}, stack)
  {
    EntryReachable(g);
  }

  lemma FrontierDone(g: Graph, seen: set<Label>)
    requires Frontier(g, seen, [])
    ensures forall l :: l in seen <==> Reachable(g, l)
  {
    hide Reachable;
    forall l | Reachable(g, l) ensures l in seen {
      ReachedBy(g, seen, l);
    }
  }

  lemma ReachedBy(g: Graph, seen: set<Label>, l: Label)
    requires g.entry in seen && ClosedUnder(g, seen) && Reachable(g, l)
    ensures l in seen
  {
    var p :| Connects(g, g.entry, p, l);
    ClosedHoldsPaths(g, seen, p, l);
  }

  // ----- predecessors -----

  lemma NoneTwice()
    ensures NoDuplicates([])
  {}

  lemma OneMore(s: seq<Label>, l: Label)
    requires NoDuplicates(s) && l !in s
    ensures NoDuplicates(s + [l])
  {
    forall i, j ensures DistinctAt(s + [l], i, j) { assert DistinctAt(s, i, j); }
  }

  /** The adjacency turned around: each predecessor listed once. */
  method Predecessors(f: Function) returns (preds: map<Label, seq<Label>>)
    requires f.blocks != [] && f.UniqueLabels()
    ensures preds.Keys == BlockMap(f.blocks).Keys
    ensures forall v :: v in preds ==> NoDuplicates(preds[v])
    ensures forall u, v :: v in preds ==> (u in preds[v] <==> Edge(GraphOf(f), u, v))
  {
    hide BlockMap, NoDuplicates;
    var blocks := BlockMap(f.blocks);
    preds := map l | l in blocks :: [];
    NoneTwice();
    for n := 0 to |f.blocks|
      invariant preds.Keys == blocks.Keys && forall v :: v in preds ==> NoDuplicates(preds[v])
      invariant forall u, v ::
          v in preds ==> (u in preds[v] <==> exists k ::
              0 <= k < n && f.blocks[k].id == u && v in f.blocks[k].Successors())
    {
      var b := f.blocks[n];
      var ts := b.Successors();
      ghost var was := preds;
      for i := 0 to |ts|
        invariant preds.Keys == blocks.Keys && forall v :: v in preds ==> NoDuplicates(preds[v])
        invariant forall u, v :: v in preds ==> (u in preds[v] <==> u in was[v] || (u == b.id && v in ts[..i]))
      {
        if ts[i] in preds && b.id !in preds[ts[i]] {
          OneMore(preds[ts[i]], b.id);
          preds := preds[ts[i] := preds[ts[i]] + [b.id]];
        }
      }
      assert ts[..|ts|] == ts;
    }
    forall u, v | v in preds ensures u in preds[v] <==> Edge(GraphOf(f), u, v) {
      EdgeBlocks(f, u, v);
    }
  }

  lemma EdgeBlocks(f: Function, u: Label, v: Label)
    requires f.blocks != [] && f.UniqueLabels()
    ensures Edge(GraphOf(f), u, v) <==> exists k ::
        0 <= k < |f.blocks| && f.blocks[k].id == u && v in f.blocks[k].Successors()
  {
    BlockMapHas(f.blocks, u);
    if Edge(GraphOf(f), u, v) {
      var k :| 0 <= k < |f.blocks| && f.blocks[k] == BlockMap(f.blocks)[u];
    }
    if k :| 0 <= k < |f.blocks| && f.blocks[k].id == u && v in f.blocks[k].Successors() {
      var j :| 0 <= j < |f.blocks| && f.blocks[j] == BlockMap(f.blocks)[u];
      assert j == k;
    }
  }

  // ----- structural checks -----

  datatype CfgError =
    | NoBlocks
    | DuplicateLabel(at: Label)
    | NoTerminator(at: Label)
    | AfterTerminator(at: Label, index: nat)
    | UndefinedTarget(at: Label, to: Label)
    | EntryPredecessor(from: Label)

  ghost predicate TerminatesOnce(b: BasicBlock) {
    b.Terminator().Some? && forall k :: 0 <= k < |b.instrs| - 1 ==> !b.instrs[k].op.IsTerminator()
  }

  /** Unique labels, one terminator per block and in last place, targets that exist,
      and no edge into the entry. */
  ghost predicate SoundCfg(f: Function) {
    && f.blocks != [] && f.UniqueLabels()
    && (forall i :: 0 <= i < |f.blocks| ==> TerminatesOnce(f.blocks[i]))
    && (forall i, l :: 0 <= i < |f.blocks| && l in f.blocks[i].Successors() ==> f.HasBlock(l))
    && (forall i :: 0 <= i < |f.blocks| ==> f.blocks[0].id !in f.blocks[i].Successors())
  }

  method CheckBlock(b: BasicBlock, seen: set<Label>) returns (errors: seq<CfgError>)
    ensures errors == [] <==> TerminatesOnce(b) && forall l :: l in b.Successors() ==> l in seen
  {
    errors := if b.Terminator().None? then [NoTerminator(b.id)] else [];
    var last := if b.instrs == [] then 0 else |b.instrs| - 1;
    for k := 0 to last
      invariant errors == [] <==> b.Terminator().Some? && forall j :: 0 <= j < k ==> !b.instrs[j].op.IsTerminator()
    {
      if b.instrs[k].op.IsTerminator() {
        errors := errors + [AfterTerminator(b.id, k)];
      }
    }
    ghost var once := errors == [];
    var ts := b.Successors();
    for i := 0 to |ts|
      invariant errors == [] <==> once && forall j :: 0 <= j < i ==> ts[j] in seen
    {
      if ts[i] !in seen {
        errors := errors + [UndefinedTarget(b.id, ts[i])];
      }
    }
  }

  /** The checks report nothing exactly when the graph is sound. */
  method CheckCfg(f: Function) returns (errors: seq<CfgError>)
    ensures errors == [] <==> SoundCfg(f)
  {
    hide TerminatesOnce;
    if f.blocks == [] {
      return [NoBlocks];
    }
    errors := [];
    var seen: set<Label> := {};
    for i := 0 to |f.blocks|
      invariant forall l :: l in seen <==> exists j :: 0 <= j < i && f.blocks[j].id == l
      invariant errors == [] <==> forall j, k :: 0 <= j < k < i ==> f.blocks[j].id != f.blocks[k].id
    {
      if f.blocks[i].id in seen {
        errors := errors + [DuplicateLabel(f.blocks[i].id)];
      }
      seen := seen + {f.blocks[i].id};
    }
    ghost var unique := errors == [];
    assert forall l :: l in seen <==> f.HasBlock(l);
    for i := 0 to |f.blocks|
      invariant errors == [] <==> unique && forall j :: 0 <= j < i ==>
                  TerminatesOnce(f.blocks[j]) && forall l :: l in f.blocks[j].Successors() ==> l in seen
    {
      var more := CheckBlock(f.blocks[i], seen);
      errors := errors + more;
    }
    ghost var closed := errors == [];
    var entry := f.blocks[0].id;
    for i := 0 to |f.blocks|
      invariant errors == [] <==> closed && forall j :: 0 <= j < i ==> entry !in f.blocks[j].Successors()
    {
      if entry in f.blocks[i].Successors() {
        errors := errors + [EntryPredecessor(f.blocks[i].id)];
      }
    }
  }
}
