/** Graphs the builder can leave behind are reducible: a cycle runs inside one loop, and
    that loop is entered only at its head. */
module BuilderReducible {
  import opened Cir
  import opened Graphs
  import opened FlowGraph
  import opened Labels
  import opened BuilderGraph

  /** No loop is open and every edge leads to a block. */
  ghost predicate Finished(g: Sketch) {
    g.nest == [] && forall i: nat, l: Label :: EdgeTo(g, i, l) ==> Opened(g, l)
  }

  /** `g` is the sketch of `f`. */
  ghost predicate Sketches(g: Sketch, f: Function) {
    && |g.ids| == |g.succ| == |f.blocks| > 0
    && forall i :: 0 <= i < |f.blocks| ==> g.ids[i] == f.blocks[i].id && g.succ[i] == f.blocks[i].Successors()
  }

  /** Edges of the graph, by place. */
  lemma EdgePlaces(g: Sketch, f: Function, u: Label, v: Label) returns (i: nat, k: nat)
    requires Sketches(g, f) && Edge(GraphOf(f), u, v) && Finished(g)
    requires Ok(g)
    ensures At(g, i, u) && At(g, k, v) && EdgeTo(g, i, v) && EdgePlaced(g, i, k)
  {
    hide LabelAt, EdgeFits, EdgePlaced, NestFits, Ordered, Distinct;
    BlockMapHas(f.blocks, u);
    i :| 0 <= i < |f.blocks| && f.blocks[i] == BlockMap(f.blocks)[u];
    assert EdgeTo(g, i, v);
    OkEdge(g, i, v);
    EdgeUse(g, i, v);
    k :| At(g, k, v);
  }

  lemma OnePlace(g: Sketch, i: nat, k: nat, l: Label)
    requires At(g, i, l) && At(g, k, l)
    requires Ok(g)
    ensures i == k
  {
    hide LabelAt, EdgeFits, NestFits, Ordered;
  }

  lemma {:induction false} NodePlace(g: Sketch, f: Function, l: Label) returns (i: nat)
    requires Sketches(g, f) && l in BlockMap(f.blocks)
    ensures At(g, i, l)
  {
    BlockMapHas(f.blocks, l);
    i :| 0 <= i < |f.blocks| && f.blocks[i].id == l;
  }

  /** The head of a loop dominates everything in it. */
  lemma {:induction false} HeadOnPath(g: Sketch, f: Function, r: Region, h: Label, p: seq<Label>, w: Label, k: nat)
    requires Sketches(g, f) && Finished(g) && r in g.done && At(g, r.lo, h) && At(g, k, w) && r.lo <= k < r.hi
    requires Connects(GraphOf(f), f.blocks[0].id, p, w)
    requires Ok(g)
    ensures h in p
    decreases |p|
  {
    hide Ok, Finished, EdgePlaced, BlockMap;
    var n := |p| - 1;
    if k == r.lo {
      assert p[n] == h;
    } else if n == 0 {
      assert At(g, 0, w);
      OnePlace(g, 0, k, w);
    } else {
      var u := p[n - 1];
      assert Edge(GraphOf(f), p[n - 1], p[n - 1 + 1]);
      var i, j := EdgePlaces(g, f, u, w);
      OnePlace(g, j, k, w);
      PlacedEnters(g, r, i, k);
      PrefixPath(GraphOf(f), f.blocks[0].id, p, w, n - 1);
      HeadOnPath(g, f, r, h, p[..n], u, i);
    }
  }

  lemma PlacedEnters(g: Sketch, r: Region, i: nat, k: nat)
    requires EdgePlaced(g, i, k) && r in g.done && r.lo < k < r.hi
    ensures r.lo <= i < r.hi
  {
    assert EntersAtHead(r, i, k);
  }

  /** Among the loops with this head, the longest. */
  lemma {:induction false} Longest(done: set<Region>, lo: nat) returns (r: Region)
    requires exists x :: x in done && x.lo == lo
    ensures r in done && r.lo == lo && forall x :: x in done && x.lo == lo ==> x.hi <= r.hi
    decreases done
  {
    var y :| y in done && y.lo == lo;
    if forall x :: x in done && x.lo == lo ==> x.hi <= y.hi {
      r := y;
    } else {
      var x :| x in done && x.lo == lo && x.hi > y.hi;
      assert x in done - {y};
      r := Longest(done - {y}, lo);
      assert r.hi >= x.hi;
    }
  }

  /** Past the end of the loop a path does not come back into it. */
  lemma StaysOutside(g: Sketch, r: Region, i: nat, k: nat)
    requires EdgePlaced(g, i, k) && g.nest == [] && r in g.done && i >= r.hi && k >= r.lo && r.lo < r.hi
    requires forall x :: x in g.done && x.lo == r.lo ==> x.hi <= r.hi
    ensures k >= r.hi
  {
    assert EntersAtHead(r, i, k);
    if k == r.lo {
      var x :| x in g.done && x.lo == k && i < x.hi;
    }
  }

  ghost predicate Places(g: Sketch, c: seq<Label>, s: seq<nat>) {
    |s| == |c| && forall k :: 0 <= k < |c| ==> At(g, s[k], c[k])
  }

  lemma {:induction false} PlacesOf(g: Sketch, f: Function, c: seq<Label>) returns (s: seq<nat>)
    requires Sketches(g, f) && forall k :: 0 <= k < |c| ==> c[k] in BlockMap(f.blocks)
    ensures Places(g, c, s)
  {
    hide BlockMap;
    s := [];
    if c != [] {
      var n := |c| - 1;
      s := PlacesOf(g, f, c[..n]);
      var i := NodePlace(g, f, c[n]);
      s := s + [i];
      forall k | 0 <= k < |c| ensures At(g, s[k], c[k]) { if k < n { assert c[..n][k] == c[k]; } }
    }
  }

  lemma {:induction false} Smallest(s: seq<nat>) returns (k: nat)
    requires s != []
    ensures k < |s| && forall j :: 0 <= j < |s| ==> s[k] <= s[j]
  {
    if |s| == 1 {
      k := 0;
    } else {
      k := Smallest(s[..|s| - 1]);
      assert forall j :: 0 <= j < |s| - 1 ==> s[..|s| - 1][j] == s[j];
      if s[|s| - 1] < s[k] { k := |s| - 1; }
    }
  }

  /** Consecutive places of a path. */
  lemma StepPlaced(g: Sketch, f: Function, c: seq<Label>, s: seq<nat>, k: nat)
    requires Sketches(g, f) && Finished(g) && Places(g, c, s) && IsPath(GraphOf(f), c) && k + 1 < |c|
    requires Ok(g)
    ensures EdgePlaced(g, s[k], s[k + 1])
  {
    hide Ok, Finished, EdgePlaced, BlockMap;
    assert Edge(GraphOf(f), c[k], c[k + 1]);
    var i, j := EdgePlaces(g, f, c[k], c[k + 1]);
    OnePlace(g, i, s[k], c[k]);
    OnePlace(g, j, s[k + 1], c[k + 1]);
  }

  /** Once outside, outside to the end of the path. */
  lemma {:induction false} OutsideOn(g: Sketch, f: Function, c: seq<Label>, s: seq<nat>, r: Region, k: nat, j: nat)
    requires Sketches(g, f) && Finished(g) && Places(g, c, s) && IsPath(GraphOf(f), c) && k <= j < |c|
    requires r in g.done && r.lo < r.hi && s[k] >= r.hi && forall i :: 0 <= i < |s| ==> s[i] >= r.lo
    requires forall x :: x in g.done && x.lo == r.lo ==> x.hi <= r.hi
    requires Ok(g)
    ensures s[j] >= r.hi
    decreases j - k
  {
    hide Ok, EdgePlaced, BlockMap, IsPath, At;
    if k < j {
      StepPlaced(g, f, c, s, k);
      StaysOutside(g, r, s[k], s[k + 1]);
      OutsideOn(g, f, c, s, r, k + 1, j);
    }
  }

  /** The lowest node of a cycle is the head of a loop that holds the whole cycle. */
  lemma CycleInLoop(g: Sketch, f: Function, c: seq<Label>, s: seq<nat>) returns (m: nat, r: Region)
    requires Sketches(g, f) && Finished(g) && Places(g, c, s) && IsPath(GraphOf(f), c) && |c| >= 2 && c[0] == c[|c| - 1]
    requires Ok(g)
    ensures m < |c| && r in g.done && r.lo == s[m] && forall k :: 0 <= k < |c| ==> r.lo <= s[k] < r.hi
  {
    hide Ok, EdgePlaced, BlockMap, IsPath, Finished, At;
    var last := |c| - 1;
    SameEnds(g, c, s);
    m := Smallest(s);
    if m == 0 { m := last; }
    StepPlaced(g, f, c, s, m - 1);
    r := LoopAt(g, s[m - 1], s[m]);
    RegionSize(g, r);
    forall k | 0 <= k < |c| ensures r.lo <= s[k] < r.hi {
      if s[k] >= r.hi {
        OutsideOn(g, f, c, s, r, k, last);
        OutsideOn(g, f, c, s, r, 0, m);
      }
    }
  }

  lemma RegionSize(g: Sketch, r: Region)
    requires r in g.done
    requires Ok(g)
    ensures r.lo < r.hi <= |g.ids|
  {
    hide LabelAt, EdgeFits, NestFits, Ordered, Distinct;
  }

  lemma SameEnds(g: Sketch, c: seq<Label>, s: seq<nat>)
    requires Places(g, c, s) && |c| >= 2 && c[0] == c[|c| - 1]
    requires Ok(g)
    ensures |s| == |c| && s[0] == s[|c| - 1]
  {
    hide Ok;
    OnePlace(g, s[0], s[|c| - 1], c[0]);
  }

  /** The longest loop closed by a retreating edge. */
  lemma LoopAt(g: Sketch, i: nat, v: nat) returns (r: Region)
    requires Finished(g) && EdgePlaced(g, i, v) && v <= i
    ensures r in g.done && r.lo == v && forall x :: x in g.done && x.lo == v ==> x.hi <= r.hi
  {
    assert ClosesLoop(g, i, v);
    var x :| x in g.done && x.lo == v && i < x.hi;
    r := Longest(g.done, v);
  }

  /** What the builder leaves behind is reducible. */
  lemma SketchReducible(g: Sketch, f: Function)
    requires Sketches(g, f) && Finished(g)
    requires Ok(g)
    ensures Reducible(GraphOf(f))
  {
    hide Ok, BlockMap, Finished, Dominates, Reachable, At;
    var graph := GraphOf(f);
    forall c | IsCycle(graph, c) ensures exists h :: h in c && forall w :: w in c ==> Dominates(graph, h, w) {
      var s := PlacesOf(g, f, c);
      var m, r := CycleInLoop(g, f, c, s);
      assert c[m] in c;
      forall w | w in c ensures Dominates(graph, c[m], w) {
        var k :| 0 <= k < |c| && c[k] == w;
        LoopDominated(g, f, r, c[m], w, s[k]);
      }
    }
  }

  lemma LoopDominated(g: Sketch, f: Function, r: Region, h: Label, w: Label, k: nat)
    requires Sketches(g, f) && Finished(g) && r in g.done && At(g, r.lo, h) && At(g, k, w) && r.lo <= k < r.hi
    requires Ok(g)
    ensures Dominates(GraphOf(f), h, w)
  {
    hide Ok, BlockMap, Finished;
    forall p | Connects(GraphOf(f), GraphOf(f).entry, p, w) ensures h in p {
      HeadOnPath(g, f, r, h, p, w, k);
    }
  }
}
