/** Passes that only take edges away from the control-flow graph keep it reducible. */
module Narrowing {
  import opened Cir
  import opened Graphs
  import opened FlowGraph
  import opened Substitution
  import opened Passes

  ghost predicate NarrowedGraph(g: Graph, g': Graph) {
    && g'.entry == g.entry && (forall l :: l in g'.succ ==> l in g.succ)
    && forall u, v :: Edge(g', u, v) ==> Edge(g, u, v)
  }

  /** `f'` has the entry of `f` and no edge that `f` does not have. */
  ghost predicate Narrowed(f: Function, f': Function) {
    f.blocks != [] && f'.blocks != [] && NarrowedGraph(GraphOf(f), GraphOf(f'))
  }

  lemma PathWidens(g: Graph, g': Graph, u: Label, p: seq<Label>, v: Label)
    requires NarrowedGraph(g, g') && Connects(g', u, p, v)
    ensures Connects(g, u, p, v)
  {
    forall i | 0 <= i < |p| - 1 ensures Edge(g, p[i], p[i + 1]) { assert Edge(g', p[i], p[i + 1]); }
  }

  /** Fewer paths: a node that dominated still does, and no cycle is new. */
  lemma ReducibleNarrows(g: Graph, g': Graph)
    requires NarrowedGraph(g, g') && Reducible(g)
    ensures Reducible(g')
  {
    hide Connects, IsPath;
    forall c | IsCycle(g', c) ensures exists h :: h in c && forall w :: w in c ==> Dominates(g', h, w) {
      CycleWidens(g, g', c);
      var h :| h in c && forall w :: w in c ==> Dominates(g, h, w);
      forall w | w in c ensures Dominates(g', h, w) {
        forall p | Connects(g', g'.entry, p, w) ensures h in p { PathWidens(g, g', g'.entry, p, w); }
      }
    }
  }

  lemma CycleWidens(g: Graph, g': Graph, c: seq<Label>)
    requires NarrowedGraph(g, g') && IsCycle(g', c)
    ensures IsCycle(g, c)
  {
    PathWidens(g, g', c[0], c, c[0]);
    var p :| Connects(g', g'.entry, p, c[0]);
    PathWidens(g, g', g'.entry, p, c[0]);
  }

  lemma NarrowedKeepsReducible(f: Function, f': Function)
    requires Narrowed(f, f') && Reducible(GraphOf(f))
    ensures Reducible(GraphOf(f'))
  {
    hide GraphOf, NarrowedGraph, Reducible;
    ReducibleNarrows(GraphOf(f), GraphOf(f'));
  }

  lemma ReachableWidens(f: Function, f': Function, l: Label)
    requires Narrowed(f, f') && Reachable(GraphOf(f'), l)
    ensures Reachable(GraphOf(f), l)
  {
    hide GraphOf, Connects;
    var p :| Connects(GraphOf(f'), GraphOf(f').entry, p, l);
    PathWidens(GraphOf(f), GraphOf(f'), GraphOf(f').entry, p, l);
  }

  lemma NarrowedSelf(f: Function)
    requires f.blocks != []
    ensures Narrowed(f, f)
  {}

  lemma NarrowedTransitive(f: Function, g: Function, h: Function)
    requires Narrowed(f, g) && Narrowed(g, h)
    ensures Narrowed(f, h)
  {
    hide GraphOf;
  }

  /** It is enough that every block has one to answer for it. */
  lemma NarrowedFrom(f: Function, f': Function)
    requires Good(f) && f'.blocks != [] && f'.blocks[0].id == f.blocks[0].id
    requires forall b' :: b' in f'.blocks ==> Answers(f, b')
    ensures Narrowed(f, f')
  {
    hide BlockMap, Answers, Function.GoodCfg, BasicBlock.Successors;
    var g, g' := GraphOf(f), GraphOf(f');
    forall l | l in g'.succ ensures l in g.succ {
      BlockMapHas(f'.blocks, l);
      AnswerFound(f, BlockMap(f'.blocks)[l]);
    }
    forall u, v | Edge(g', u, v) ensures Edge(g, u, v) {
      BlockMapHas(f'.blocks, u);
      AnswerFound(f, BlockMap(f'.blocks)[u]);
    }
  }

  ghost predicate Answers(f: Function, b': BasicBlock) {
    exists b :: b in f.blocks && b.id == b'.id && forall l :: l in b'.Successors() ==> l in b.Successors()
  }

  lemma AnswerFound(f: Function, b': BasicBlock)
    requires Good(f) && Answers(f, b')
    ensures b'.id in BlockMap(f.blocks) && forall l ::
        l in b'.Successors() ==> l in BlockMap(f.blocks)[b'.id].Successors()
  {
    hide BlockMap, BasicBlock.Successors;
    var b :| b in f.blocks && b.id == b'.id && forall l :: l in b'.Successors() ==> l in b.Successors();
    var i :| 0 <= i < |f.blocks| && f.blocks[i] == b;
    BlockMapHas(f.blocks, b.id);
    var k :| 0 <= k < |f.blocks| && f.blocks[k] == BlockMap(f.blocks)[b.id];
    assert f.UniqueLabels();
  }

  /** Folding branches takes targets away, and nothing adds one. */
  lemma RewriteTargets(s: Sub, branches: bool, f: Function, n: nat)
    requires Good(f) && KeepsTerminators(s, f) && n < |f.blocks|
    ensures forall l :: l in RewriteFunction(s, branches, f).blocks[n].Successors() ==> l in f.blocks[n].Successors()
  {
    hide Rewrite, RewriteInstr, Dropped;
    var b := f.blocks[n];
    assert b.Terminator().Some?;
    var last := b.instrs[|b.instrs| - 1];
    assert b in f.blocks && last in b.instrs;
    RewriteTerminates(s, branches, b.instrs);
    RewrittenTerminator(s, branches, last);
  }

  lemma RewriteNarrows(s: Sub, branches: bool, f: Function)
    requires Good(f) && KeepsTerminators(s, f)
    ensures Narrowed(f, RewriteFunction(s, branches, f))
  {
    hide RewriteBlock, KeepsTerminators, Function.GoodCfg;
    var f' := RewriteFunction(s, branches, f);
    forall n | 0 <= n < |f.blocks| ensures f'.blocks[n].id == f.blocks[n].id { SameId(s, branches, f.blocks[n]); }
    forall b' | b' in f'.blocks ensures Answers(f, b') {
      var n :| 0 <= n < |f'.blocks| && f'.blocks[n] == b';
      RewriteTargets(s, branches, f, n);
      assert f.blocks[n] in f.blocks;
    }
    NarrowedFrom(f, f');
  }

  lemma SameId(s: Sub, branches: bool, b: BasicBlock)
    ensures RewriteBlock(s, branches, b).id == b.id
  {}
}
