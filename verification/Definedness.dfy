/** The definedness check: a forward dataflow whose meet is intersection, exact for the
    paths of the function whatever order the blocks are visited in. */
module Definedness {
  import opened Cir
  import opened Graphs
  import opened FlowGraph
  import opened Cfg
  import opened Walks

  type Flow = map<Label, set<Name>>

  function DefsOf(b: BasicBlock): set<Name> {
    set i | i in b.instrs && i.dest.Some? :: i.dest.value
  }

  function ParamSet(f: Function): set<Name> {
    set p | p in f.params
  }

  /** Everything the function ever names as a parameter or result. */
  function AllRegs(f: Function): set<Name> {
    ParamSet(f) + (set b, i | b in f.blocks && i in b.instrs && i.dest.Some? :: i.dest.value)
  }

  /** What is defined at the end of block `u`. */
  function Out(blocks: map<Label, BasicBlock>, flow: Flow, u: Label): set<Name>
    requires u in blocks && u in flow
  {
    flow[u] + DefsOf(blocks[u])
  }

  // ----- walks and blocks -----

  lemma {:induction false} PathWalks(f: Function, p: seq<Label>, l: Label) returns (w: seq<Pos>)
    requires f.blocks != [] && f.GoodCfg() && Connects(GraphOf(f), GraphOf(f).entry, p, l)
    ensures WalksTo(f, w, Pos(l, 0))
  {
    hide Function.GoodCfg, BlockMap;
    FunctionGraph(f);
    NonEmpty(f, l);
    if |p| == 1 {
      w := [Pos(l, 0)];
    } else {
      var u := p[|p| - 2];
      PrefixPath(GraphOf(f), GraphOf(f).entry, p, l, |p| - 2);
      var v := PathWalks(f, p[..|p| - 1], u);
      NonEmpty(f, u);
      var last := |BlockMap(f.blocks)[u].instrs| - 1;
      var x := WalkWithin(f, v, u, last);
      assert Edge(GraphOf(f), u, p[|p| - 2 + 1]);
      WalkExtends(f, x, Pos(l, 0));
      w := x + [Pos(l, 0)];
    }
  }

  lemma NonEmpty(f: Function, l: Label)
    requires f.blocks != [] && f.GoodCfg() && l in BlockMap(f.blocks)
    ensures InCode(f, Pos(l, 0))
  {
    FunctionGraph(f);
  }

  lemma {:induction false} WalkReaches(f: Function, w: seq<Pos>, q: Pos)
    requires f.blocks != [] && f.GoodCfg() && WalksTo(f, w, q)
    ensures Reachable(GraphOf(f), q.block)
  {
    hide Function.GoodCfg, BlockMap, Reachable;
    FunctionGraph(f);
    if |w| == 1 {
      EntryReachable(GraphOf(f));
    } else {
      var a := w[|w| - 2];
      assert StepsTo(f, a, w[|w| - 2 + 1]);
      WalkPrefix(f, w, |w| - 1);
      WalkReaches(f, w[..|w| - 1], a);
      if a.block != q.block || q.index == 0 {
        assert Edge(GraphOf(f), a.block, q.block);
        EdgeReachable(GraphOf(f), a.block, q.block);
      }
    }
  }

  // ----- the dataflow equations -----

  ghost predicate IsLive(f: Function, live: set<Label>)
    requires f.blocks != []
  {
    && f.GoodCfg()
    && forall l :: l in live <==> Reachable(GraphOf(f), l)
  }

  /** `r` comes out of every live predecessor of `v`. */
  ghost predicate InMeet(f: Function, live: set<Label>, flow: Flow, v: Label, r: Name)
    requires f.blocks != [] && live <= flow.Keys && live <= BlockMap(f.blocks).Keys
  {
    forall u :: u in live && Edge(GraphOf(f), u, v) ==> r in Out(BlockMap(f.blocks), flow, u)
  }

  ghost predicate Shaped(f: Function, live: set<Label>, flow: Flow)
    requires f.blocks != []
  {
    && live <= BlockMap(f.blocks).Keys && flow.Keys == live
    && f.blocks[0].id in live && flow[f.blocks[0].id] == ParamSet(f)
  }

  /** Nothing available has been lost. */
  ghost predicate Covers(f: Function, live: set<Label>, flow: Flow)
    requires f.blocks != [] && Shaped(f, live, flow)
  {
    forall v, r :: v in live && Available(f, Pos(v, 0), r) ==> r in flow[v]
  }

  /** Another round can only shrink the sets. */
  ghost predicate Shrinking(f: Function, live: set<Label>, flow: Flow)
    requires f.blocks != [] && Shaped(f, live, flow)
  {
    forall v, r :: v in live && v != f.blocks[0].id && InMeet(f, live, flow, v, r) ==> r in flow[v]
  }

  ghost predicate FixedAt(f: Function, live: set<Label>, flow: Flow, v: Label)
    requires f.blocks != [] && Shaped(f, live, flow) && v in live
  {
    v != f.blocks[0].id ==> forall r :: r in flow[v] ==> InMeet(f, live, flow, v, r)
  }

  lemma LastStep(f: Function, u: Label, v: Label)
    requires f.blocks != [] && f.GoodCfg() && Edge(GraphOf(f), u, v)
    ensures var last := |BlockMap(f.blocks)[u].instrs| - 1;
            last >= 0 && InCode(f, Pos(u, last)) && InCode(f, Pos(u, 0)) && StepsTo(f, Pos(u, last), Pos(v, 0))
  {
    FunctionGraph(f);
    NonEmpty(f, u);
    NonEmpty(f, v);
  }

  lemma DefsAt(f: Function, u: Label, r: Name)
    requires u in BlockMap(f.blocks)
    ensures r in DefsOf(BlockMap(f.blocks)[u]) <==> DefinesBefore(f, u, |BlockMap(f.blocks)[u].instrs|, r)
  {
    var b := BlockMap(f.blocks)[u];
    if r in DefsOf(b) {
      var i :| i in b.instrs && i.dest == Some(r);
      var k :| 0 <= k < |b.instrs| && b.instrs[k] == i;
      assert DefinesAt(f, Pos(u, k), r);
    }
    if DefinesBefore(f, u, |b.instrs|, r) {
      var k :| 0 <= k < |b.instrs| && DefinesAt(f, Pos(u, k), r);
      assert b.instrs[k] in b.instrs;
    }
  }

  /** What is available at a block is in the meet of any sets that cover availability. */
  lemma AvailableInMeet(f: Function, live: set<Label>, flow: Flow, v: Label, r: Name)
    requires f.blocks != [] && Shaped(f, live, flow) && v in live && v != f.blocks[0].id
    requires Available(f, Pos(v, 0), r) && InCode(f, Pos(v, 0))
    requires f.GoodCfg() && Covers(f, live, flow)
    ensures InMeet(f, live, flow, v, r)
  {
    hide Function.GoodCfg, BlockMap, DefsOf, DefinesBefore, Available;
    forall u | u in live && Edge(GraphOf(f), u, v) ensures r in Out(BlockMap(f.blocks), flow, u) {
      LastStep(f, u, v);
      var n := |BlockMap(f.blocks)[u].instrs|;
      AvailableAfterPred(f, u, v, r);
      AvailableWithin(f, u, n - 1, r);
      DefsAt(f, u, r);
      BeforeMore(f, u, n - 1, r);
    }
  }

  lemma AvailableAfterPred(f: Function, u: Label, v: Label, r: Name)
    requires f.blocks != [] && Available(f, Pos(v, 0), r) && InCode(f, Pos(v, 0)) && v != f.blocks[0].id
    requires u in BlockMap(f.blocks) && |BlockMap(f.blocks)[u].instrs| > 0
    requires StepsTo(f, Pos(u, |BlockMap(f.blocks)[u].instrs| - 1), Pos(v, 0))
    ensures AvailableAfter(f, Pos(u, |BlockMap(f.blocks)[u].instrs| - 1), r)
  {
    hide BlockMap, StepsTo, WalksTo, InCode;
    if r !in f.params { AvailableAtStart(f, v, r); }
  }

  lemma BeforeMore(f: Function, l: Label, n: nat, r: Name)
    ensures DefinesBefore(f, l, n + 1, r) <==> DefinesBefore(f, l, n, r) || DefinesAt(f, Pos(l, n), r)
  {}

  /** One update keeps the invariants. */
  lemma UpdateKeeps(f: Function, live: set<Label>, flow: Flow, v: Label, flow': Flow)
    requires f.blocks != [] && Shaped(f, live, flow) && v in live && v != f.blocks[0].id && InCode(f, Pos(v, 0))
    requires flow'.Keys == live && (forall r :: r in flow'[v] <==> InMeet(f, live, flow, v, r))
    requires forall u :: u in live && u != v ==> flow'[u] == flow[u]
    requires f.GoodCfg() && Covers(f, live, flow) && Shrinking(f, live, flow)
    ensures Shaped(f, live, flow') && Covers(f, live, flow') && Shrinking(f, live, flow') && flow'[v] <= flow[v]
  {
    hide Function.GoodCfg, BlockMap, DefsOf, Available, InCode;
    forall r | r in flow'[v] ensures r in flow[v] {}
    forall u, r | u in live && Available(f, Pos(u, 0), r) ensures r in flow'[u] {
      if u == v { AvailableInMeet(f, live, flow, v, r); }
    }
    forall u, r | u in live && u != f.blocks[0].id && InMeet(f, live, flow', u, r) ensures r in flow'[u] {
      MeetShrinks(f, live, flow, flow', u, r);
    }
  }

  lemma MeetShrinks(f: Function, live: set<Label>, flow: Flow, flow': Flow, v: Label, r: Name)
    requires f.blocks != [] && live <= flow.Keys && live <= flow'.Keys && live <= BlockMap(f.blocks).Keys
    requires forall u :: u in live ==> flow'[u] <= flow[u]
    requires InMeet(f, live, flow', v, r)
    ensures InMeet(f, live, flow, v, r)
  {
    hide BlockMap, DefsOf;
    forall u | u in live && Edge(GraphOf(f), u, v) ensures r in Out(BlockMap(f.blocks), flow, u) {
      assert r in Out(BlockMap(f.blocks), flow', u);
    }
  }

  /** At a fixed point the sets hold only what every walk defines. */
  lemma {:induction false} FixedMeans(f: Function, live: set<Label>, flow: Flow, w: seq<Pos>, v: Label, r: Name)
    requires f.blocks != [] && Shaped(f, live, flow) && v in live && r in flow[v] && r !in f.params
    requires WalksTo(f, w, Pos(v, 0))
    requires IsLive(f, live) && forall u :: u in live ==> FixedAt(f, live, flow, u)
    ensures DefinedOn(f, w, r)
    decreases |w|
  {
    hide Function.GoodCfg, BlockMap, DefsOf, DefinesBefore, Reachable, InCode, DefinesAt;
    assert v != f.blocks[0].id;
    var q := w[|w| - 2];
    assert StepsTo(f, q, w[|w| - 2 + 1]);
    var u, last := q.block, q.index;
    WalkPrefix(f, w, |w| - 1);
    WalkReaches(f, w[..|w| - 1], q);
    assert Edge(GraphOf(f), u, v);
    assert FixedAt(f, live, flow, v) && r in Out(BlockMap(f.blocks), flow, u);
    var x := w[..|w| - 1];
    WalkFromStart(f, x, u, last);
    if r in flow[u] {
      FixedMeans(f, live, flow, x[..|x| - last], u, r);
      DefinedOnLonger(f, x[..|x| - last], w[|x| - last..], r);
      assert x[..|x| - last] + w[|x| - last..] == w;
    } else {
      DefsAt(f, u, r);
      DefinedInBlock(f, x, w, u, last, r);
    }
  }

  lemma DefinedInBlock(f: Function, x: seq<Pos>, w: seq<Pos>, u: Label, last: nat, r: Name)
    requires |w| == |x| + 1 && w[..|x|] == x && |x| > last && DefinesBefore(f, u, last + 1, r)
    requires forall k :: 0 <= k <= last ==> x[|x| - 1 - last + k] == Pos(u, k)
    ensures DefinedOn(f, w, r)
  {
    var k :| 0 <= k < last + 1 && DefinesAt(f, Pos(u, k), r);
    var j := |x| - 1 - last + k;
    assert w[..|x|][j] == x[j] && DefinesAt(f, w[j], r);
  }

  lemma FixedIsAvailable(f: Function, live: set<Label>, flow: Flow, v: Label, r: Name)
    requires f.blocks != [] && Shaped(f, live, flow) && v in live
    requires IsLive(f, live) && Covers(f, live, flow) && forall u :: u in live ==> FixedAt(f, live, flow, u)
    ensures r in flow[v] <==> Available(f, Pos(v, 0), r)
  {
    hide IsLive, FixedAt, WalksTo, DefinedOn, BlockMap;
    if r in flow[v] && r !in f.params {
      forall w | WalksTo(f, w, Pos(v, 0)) ensures DefinedOn(f, w, r) {
        FixedMeans(f, live, flow, w, v, r);
      }
    }
  }

  /** The most optimistic sets cover availability. */
  lemma StartCovers(f: Function, live: set<Label>, flow: Flow)
    requires f.blocks != [] && Shaped(f, live, flow) && IsLive(f, live)
    requires forall v :: v in live && v != f.blocks[0].id ==> flow[v] == AllRegs(f)
    ensures Covers(f, live, flow) && Shrinking(f, live, flow)
  {
    hide Function.GoodCfg, BlockMap, DefsOf, Reachable;
    forall v, r | v in live && Available(f, Pos(v, 0), r) ensures r in flow[v] {
      if r !in f.params { AvailableIsNamed(f, live, v, r); }
    }
    forall v, r | v in live && v != f.blocks[0].id && InMeet(f, live, flow, v, r) ensures r in flow[v] {
      var u := LivePred(f, live, v);
      assert r in Out(BlockMap(f.blocks), flow, u);
      DefsNamed(f, u);
    }
  }

  lemma DefsNamed(f: Function, u: Label)
    requires u in BlockMap(f.blocks)
    ensures DefsOf(BlockMap(f.blocks)[u]) <= AllRegs(f)
  {
    BlockMapHas(f.blocks, u);
  }

  lemma AvailableIsNamed(f: Function, live: set<Label>, v: Label, r: Name)
    requires f.blocks != [] && IsLive(f, live) && v in live && Available(f, Pos(v, 0), r) && r !in f.params
    ensures r in AllRegs(f) && v != f.blocks[0].id
  {
    hide Function.GoodCfg, BlockMap;
    assert Reachable(GraphOf(f), v);
    var p :| Connects(GraphOf(f), GraphOf(f).entry, p, v);
    var w := PathWalks(f, p, v);
    var j :| 0 <= j < |w| - 1 && DefinesAt(f, w[j], r);
    BlockMapHas(f.blocks, w[j].block);
    var b := BlockMap(f.blocks)[w[j].block];
    assert b in f.blocks && b.instrs[w[j].index] in b.instrs;
    if v == f.blocks[0].id {
      WalkInCode(f, w, |w| - 1);
      EntryOnlyParams(f, r);
    }
  }

  /** Only parameters are available at the entry. */
  lemma EntryOnlyParams(f: Function, r: Name)
    requires f.blocks != [] && InCode(f, Pos(f.blocks[0].id, 0))
    ensures Available(f, Pos(f.blocks[0].id, 0), r) <==> r in f.params
  {
    var q := Pos(f.blocks[0].id, 0);
    assert WalksTo(f, [q], q) && !DefinedOn(f, [q], r);
  }

  lemma LivePred(f: Function, live: set<Label>, v: Label) returns (u: Label)
    requires f.blocks != [] && IsLive(f, live) && v in live && v != f.blocks[0].id
    ensures u in live && Edge(GraphOf(f), u, v)
  {
    hide Function.GoodCfg, BlockMap;
    var g := GraphOf(f);
    assert Reachable(g, v);
    var p :| Connects(g, g.entry, p, v);
    u := p[|p| - 2];
    PrefixPath(g, g.entry, p, v, |p| - 2);
    assert Edge(g, p[|p| - 2], p[|p| - 2 + 1]);
    assert Connects(g, g.entry, p[..|p| - 1], u);
  }

  // ----- the check -----

  datatype DefError = UseBeforeDef(at: Label, reg: Name)

  /** Intersect what the live predecessors define; nothing if there is none. */
  method Meet(blocks: map<Label, BasicBlock>, preds: seq<Label>, live: set<Label>, flow: Flow) returns (met: set<Name>)
    requires live <= blocks.Keys && flow.Keys == live
    requires exists u :: u in preds && u in live
    ensures forall r :: r in met <==> forall u :: u in preds && u in live ==> r in Out(blocks, flow, u)
  {
    hide DefsOf;
    met := {};
    var first := true;
    for i := 0 to |preds|
      invariant first <==> forall u :: u in preds[..i] ==> u !in live
      invariant !first ==> forall r :: r in met <==> forall u ::
          u in preds[..i] && u in live ==> r in Out(blocks, flow, u)
    {
      assert forall u :: u in preds[..i + 1] <==> u in preds[..i] || u == preds[i];
      if preds[i] in live {
        met := if first then Out(blocks, flow, preds[i]) else met * Out(blocks, flow, preds[i]);
        first := false;
      }
    }
    assert preds[..|preds|] == preds;
  }

  function Total(order: seq<Label>, flow: Flow): nat
    requires forall l :: l in order ==> l in flow
  {
    if order == [] then 0 else Total(order[1..], flow) + |flow[order[0]]|
  }

  lemma Smaller(a: set<Name>, b: set<Name>)
    requires a <= b
    ensures |a| <= |b| && (a != b ==> |a| < |b|)
  {
    assert a + (b - a) == b;
    if a != b {
      var x :| x in b && x !in a;
      assert x in b - a;
    }
  }

  lemma {:induction false} TotalShrinks(order: seq<Label>, flow: Flow, flow': Flow)
    requires forall l :: l in order ==> l in flow && l in flow' && flow'[l] <= flow[l]
    ensures Total(order, flow') <= Total(order, flow)
    ensures (exists l :: l in order && flow'[l] != flow[l]) ==> Total(order, flow') < Total(order, flow)
  {
    if order != [] {
      TotalShrinks(order[1..], flow, flow');
      Smaller(flow'[order[0]], flow[order[0]]);
    }
  }

  ghost predicate Enumerates(order: seq<Label>, live: set<Label>) {
    forall l :: l in order <==> l in live
  }

  /** The invariants of the iteration. */
  ghost predicate Sweeping(f: Function, live: set<Label>, flow: Flow)
    requires f.blocks != []
  {
    IsLive(f, live) && Shaped(f, live, flow) && Covers(f, live, flow) && Shrinking(f, live, flow)
  }

  ghost predicate PredsMatch(f: Function, preds: map<Label, seq<Label>>)
    requires f.blocks != []
  {
    && preds.Keys == BlockMap(f.blocks).Keys
    && forall u, v :: v in preds ==> (u in preds[v] <==> Edge(GraphOf(f), u, v))
  }

  /** Visit one block: its set becomes the meet of its predecessors'. */
  method Visit(f: Function, blocks: map<Label, BasicBlock>, preds: map<Label, seq<Label>>, live: set<Label>,
               flow: Flow, v: Label)
      returns (met: set<Name>)
    requires f.blocks != [] && blocks == BlockMap(f.blocks) && v in live && v != f.blocks[0].id
    requires PredsMatch(f, preds)
    requires Sweeping(f, live, flow)
    ensures forall flow' :: flow' == flow[v := met] ==> Sweeping(f, live, flow')
    ensures met <= flow[v] && forall r :: r in met <==> InMeet(f, live, flow, v, r)
  {
    hide Function.GoodCfg, BlockMap, Covers, Shrinking, DefsOf;
    ghost var u := LivePred(f, live, v);
    assert v in preds && u in preds[v];
    met := Meet(blocks, preds[v], live, flow);
    forall r ensures r in met <==> InMeet(f, live, flow, v, r) {}
    NonEmptyLive(f, live, v);
    UpdateKeeps(f, live, flow, v, flow[v := met]);
  }

  lemma NonEmptyLive(f: Function, live: set<Label>, v: Label)
    requires f.blocks != [] && IsLive(f, live) && v in live && v in BlockMap(f.blocks)
    ensures InCode(f, Pos(v, 0))
  {
    NonEmpty(f, v);
  }

  /** One round over the blocks. */
  method Sweep(f: Function, blocks: map<Label, BasicBlock>, preds: map<Label, seq<Label>>, live: set<Label>,
               order: seq<Label>,
               start: Flow) returns (flow: Flow, changed: bool)
    requires f.blocks != [] && blocks == BlockMap(f.blocks) && Enumerates(order, live)
    requires PredsMatch(f, preds)
    requires Sweeping(f, live, start)
    ensures Sweeping(f, live, flow) && forall l :: l in live ==> flow[l] <= start[l]
    ensures changed ==> exists l :: l in order && flow[l] != start[l]
    ensures !changed ==> flow == start && forall l :: l in live ==> FixedAt(f, live, flow, l)
  {
    hide BlockMap, Covers, Shrinking, IsLive, InMeet, PredsMatch;
    flow, changed := start, false;
    for i := 0 to |order|
      invariant Sweeping(f, live, flow)
      invariant forall l :: l in live ==> flow[l] <= start[l]
      invariant changed ==> exists l :: l in order && flow[l] != start[l]
      invariant !changed ==> flow == start && forall k :: 0 <= k < i ==> FixedAt(f, live, flow, order[k])
    {
      var v := order[i];
      if v != f.blocks[0].id {
        var met := Visit(f, blocks, preds, live, flow, v);
        if met != flow[v] {
          ghost var was := flow;
          flow := flow[v := met];
          changed := true;
          assert was[v] <= start[v] && flow[v] != start[v];
        }
      }
    }
  }

  /** Iterate to a fixed point over the live blocks in the given order: the set of each
      block is exactly what is defined on every path to it, so the order does not matter. */
  method Solve(f: Function, preds: map<Label, seq<Label>>, live: set<Label>, order: seq<Label>) returns (flow: Flow)
    requires f.blocks != [] && Enumerates(order, live)
    requires PredsMatch(f, preds)
    requires IsLive(f, live)
    ensures Shaped(f, live, flow)
    ensures forall v, r :: v in live ==> (r in flow[v] <==> Available(f, Pos(v, 0), r))
  {
    hide BlockMap, Covers, Shrinking, Available, IsLive, InMeet, PredsMatch;
    LiveBlocks(f, live);
    var blocks, entry := BlockMap(f.blocks), f.blocks[0].id;
    var all := AllRegs(f);
    flow := map l | l in live :: if l == entry then ParamSet(f) else all;
    StartCovers(f, live, flow);
    var changed := true;
    while changed
      invariant Sweeping(f, live, flow)
      invariant !changed ==> forall v :: v in live ==> FixedAt(f, live, flow, v)
      decreases Total(order, flow), changed
    {
      ghost var start := flow;
      flow, changed := Sweep(f, blocks, preds, live, order, flow);
      TotalShrinks(order, start, flow);
    }
    forall v, r | v in live ensures r in flow[v] <==> Available(f, Pos(v, 0), r) {
      FixedIsAvailable(f, live, flow, v, r);
    }
  }

  lemma LiveBlocks(f: Function, live: set<Label>)
    requires f.blocks != [] && IsLive(f, live)
    ensures live <= BlockMap(f.blocks).Keys && f.blocks[0].id in live
  {
    FunctionGraph(f);
    EntryReachable(GraphOf(f));
    forall l | l in live ensures l in BlockMap(f.blocks) {
      assert Reachable(GraphOf(f), l);
    }
  }

  // ----- the report -----

  /** A use the sets do not account for. */
  predicate Missing(b: BasicBlock, incoming: set<Name>, i: nat, k: nat)
    requires i < |b.instrs| && k < |b.instrs[i].args|
  {
    var x := b.instrs[i].args[k];
    x.Reg? && x.name !in incoming + DefsOf(BasicBlock(b.id, b.instrs[..i]))
  }

  /** Operands `0..k` of instruction `i` and all earlier ones. */
  predicate Earlier(i: nat, k: nat, i': nat, k': nat) {
    i' < i || (i' == i && k' < k)
  }

  ghost predicate Reports(b: BasicBlock, incoming: set<Name>, i: nat, k: nat, errors: seq<DefError>) {
    errors == [] <==>
      forall i': nat, k': nat :: i' < |b.instrs| && k' < |b.instrs[i'].args| && Earlier(i, k, i', k') ==>
          !Missing(b, incoming, i', k')
  }

  method ScanBlock(b: BasicBlock, incoming: set<Name>) returns (errors: seq<DefError>)
    ensures errors == [] <==>
              forall i: nat, k: nat :: i < |b.instrs| && k < |b.instrs[i].args| ==> !Missing(b, incoming, i, k)
  {
    hide DefsOf;
    errors := [];
    var available := incoming;
    assert DefsOf(BasicBlock(b.id, b.instrs[..0])) == {} by { NoDefs(b); }
    for i := 0 to |b.instrs|
      invariant available == incoming + DefsOf(BasicBlock(b.id, b.instrs[..i]))
      invariant Reports(b, incoming, i, 0, errors)
    {
      var ins := b.instrs[i];
      for k := 0 to |ins.args|
        invariant Reports(b, incoming, i, k, errors)
      {
        if ins.args[k].Reg? && ins.args[k].name !in available {
          errors := errors + [UseBeforeDef(b.id, ins.args[k].name)];
          assert Missing(b, incoming, i, k);
        }
      }
      DefsGrow(b, i);
      if ins.dest.Some? {
        available := available + {ins.dest.value};
      }
    }
  }

  lemma NoDefs(b: BasicBlock)
    ensures DefsOf(BasicBlock(b.id, b.instrs[..0])) == {}
  {}

  lemma DefsGrow(b: BasicBlock, i: nat)
    requires i < |b.instrs|
    ensures DefsOf(BasicBlock(b.id, b.instrs[..i + 1])) == DefsOf(BasicBlock(b.id, b.instrs[..i]))
              + (if b.instrs[i].dest.Some? then {b.instrs[i].dest.value} else {})
  {
    assert b.instrs[..i + 1] == b.instrs[..i] + [b.instrs[i]];
  }

  lemma DefsBefore(f: Function, l: Label, i: nat, r: Name)
    requires l in BlockMap(f.blocks) && i <= |BlockMap(f.blocks)[l].instrs|
    ensures var b := BlockMap(f.blocks)[l];
            r in DefsOf(BasicBlock(b.id, b.instrs[..i])) <==> DefinesBefore(f, l, i, r)
  {
    var b := BlockMap(f.blocks)[l];
    if r in DefsOf(BasicBlock(b.id, b.instrs[..i])) {
      var ins :| ins in b.instrs[..i] && ins.dest == Some(r);
      var k :| 0 <= k < i && b.instrs[..i][k] == ins;
      assert DefinesAt(f, Pos(l, k), r);
    }
    if DefinesBefore(f, l, i, r) {
      var k :| 0 <= k < i && DefinesAt(f, Pos(l, k), r);
      assert b.instrs[..i][k] in b.instrs[..i];
    }
  }

  /** A use is missing exactly when some path reaches it without a definition. */
  lemma MissingMeans(f: Function, live: set<Label>, flow: Flow, l: Label, i: nat, k: nat)
    requires f.blocks != [] && Shaped(f, live, flow) && l in live
    requires i < |BlockMap(f.blocks)[l].instrs| && k < |BlockMap(f.blocks)[l].instrs[i].args|
    requires forall r :: r in flow[l] <==> Available(f, Pos(l, 0), r)
    ensures Missing(BlockMap(f.blocks)[l], flow[l], i, k) <==> !UseDefined(f, Pos(l, i), k)
  {
    hide Available, DefinesBefore, DefsOf, BlockMap;
    var x := BlockMap(f.blocks)[l].instrs[i].args[k];
    if x.Reg? {
      AvailableWithin(f, l, i, x.name);
      DefsBefore(f, l, i, x.name);
    }
  }

  /** In a block no path reaches, nothing can be wrong. */
  lemma DeadUse(f: Function, q: Pos, k: nat)
    requires f.blocks != [] && f.GoodCfg() && !Reachable(GraphOf(f), q.block)
    ensures UseDefined(f, q, k)
  {
    hide Function.GoodCfg, BlockMap, Reachable;
    forall w | WalksTo(f, w, q) ensures false {
      WalkReaches(f, w, q);
    }
  }

  /** The check reports nothing exactly when every use on every path from the entry is
      preceded by a definition or reads a parameter. */
  method CheckDefs(f: Function, order: seq<Label>) returns (errors: seq<DefError>)
    requires f.blocks != [] && f.GoodCfg()
    requires forall l :: l in order <==> Reachable(GraphOf(f), l)
    ensures errors == [] <==> UsesDefined(f)
  {
    hide Function.GoodCfg, Function.UniqueLabels, BlockMap, Reachable, Available, Missing, UseDefined;
    UniqueGood(f);
    var blocks := BlockMap(f.blocks);
    var live := ReachableLabels(f);
    var preds := Predecessors(f);
    var flow := Solve(f, preds, live, order);
    errors := [];
    for n := 0 to |order|
      invariant errors == [] <==> forall m :: 0 <= m < n ==> BlockClean(blocks, flow, order[m])
    {
      var more := ScanBlock(blocks[order[n]], flow[order[n]]);
      errors := errors + more;
    }
    CleanMeans(f, live, flow, order);
  }

  lemma UniqueGood(f: Function)
    requires f.GoodCfg()
    ensures f.UniqueLabels()
  {}

  ghost predicate BlockClean(blocks: map<Label, BasicBlock>, flow: Flow, l: Label) {
    && l in blocks && l in flow
    && forall i: nat, k: nat :: i < |blocks[l].instrs| && k < |blocks[l].instrs[i].args| ==>
        !Missing(blocks[l], flow[l], i, k)
  }

  lemma CleanMeans(f: Function, live: set<Label>, flow: Flow, order: seq<Label>)
    requires f.blocks != [] && f.GoodCfg() && Shaped(f, live, flow) && Enumerates(order, live)
    requires forall l :: l in live <==> Reachable(GraphOf(f), l)
    requires forall v, r :: v in live ==> (r in flow[v] <==> Available(f, Pos(v, 0), r))
    ensures (forall m :: 0 <= m < |order| ==> BlockClean(BlockMap(f.blocks), flow, order[m])) <==> UsesDefined(f)
  {
    hide Function.GoodCfg, BlockMap, Reachable, Available, Missing;
    var blocks := BlockMap(f.blocks);
    if forall m :: 0 <= m < |order| ==> BlockClean(blocks, flow, order[m]) {
      forall q: Pos, k: nat ensures UseDefined(f, q, k) {
        if q.block !in live {
          DeadUse(f, q, k);
        } else if InCode(f, q) && k < |InstrAt(f, q).args| {
          var m :| 0 <= m < |order| && order[m] == q.block;
          assert BlockClean(blocks, flow, order[m]);
          MissingMeans(f, live, flow, q.block, q.index, k);
        }
      }
    }
    if UsesDefined(f) {
      forall m | 0 <= m < |order| ensures BlockClean(blocks, flow, order[m]) {
        var l := order[m];
        forall i: nat, k: nat | i < |blocks[l].instrs| && k < |blocks[l].instrs[i].args|
          ensures !Missing(blocks[l], flow[l], i, k) {
          MissingMeans(f, live, flow, l, i, k);
          assert UseDefined(f, Pos(l, i), k);
        }
      }
    }
  }

  // ----- both checks -----

  datatype Diagnostic = InGraph(graph: CfgError) | InUse(use: DefError)

  /** The labels of a set one by one; the order does not matter to the check. */
  method InSomeOrder(labels: set<Label>) returns (order: seq<Label>)
    ensures forall l :: l in order <==> l in labels
  {
    order := [];
    var rest := labels;
    while rest != {}
      invariant rest <= labels && forall l :: l in order <==> l in labels - rest
      decreases |rest|
    {
      var l :| l in rest;
      order, rest := order + [l], rest - {l};
    }
  }

  lemma SoundIsGood(f: Function)
    requires SoundCfg(f)
    ensures f.blocks != [] && f.GoodCfg()
  {
    forall i | 0 <= i < |f.blocks| ensures f.blocks[i].Terminator().Some? { assert TerminatesOnce(f.blocks[i]); }
  }

  /** The graph first; only if it is sound, the definitions. */
  method CheckFunction(f: Function) returns (errors: seq<Diagnostic>)
    ensures errors == [] <==> SoundCfg(f) && UsesDefined(f)
  {
    hide SoundCfg, UsesDefined, Function.GoodCfg, GraphOf, Reachable;
    var graph := CheckCfg(f);
    if graph != [] {
      return seq(|graph|, i requires 0 <= i < |graph| => InGraph(graph[i]));
    }
    SoundIsGood(f);
    var live := ReachableLabels(f);
    var order := InSomeOrder(live);
    var uses := CheckDefs(f, order);
    errors := seq(|uses|, i requires 0 <= i < |uses| => InUse(uses[i]));
    assert errors == [] <==> uses == [];
  }
}
