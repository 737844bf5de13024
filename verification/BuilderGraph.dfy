/** The edges between the builder's blocks, in the order the blocks were opened, and what
    holds of them at every moment. */
module BuilderGraph {
  import opened Cir
  import opened Labels
  import opened BuilderData

  /** An open loop: its number, the label counter when its head was opened, and the head's place. */
  datatype Nest = Nest(n: nat, from: nat, lo: nat)

  /** A finished loop: its blocks are those from its head up to, not including, `hi`. */
  datatype Region = Region(lo: nat, hi: nat)

  /** Labels and successors block by block, and what is known of the registers. */
  datatype Sketch = Sketch(ids: seq<Label>, succ: seq<seq<Label>>, nLabel: nat, nest: seq<Nest>, done: set<Region>,
      data: Data)

  ghost predicate EdgeTo(g: Sketch, i: nat, l: Label) {
    i < |g.succ| && l in g.succ[i]
  }

  ghost predicate At(g: Sketch, v: nat, l: Label) {
    v < |g.ids| && g.ids[v] == l
  }

  ghost predicate Opened(g: Sketch, l: Label) {
    exists v: nat :: At(g, v, l)
  }

  /** A label the builder has made. */
  ghost predicate Known(g: Sketch, l: Label) {
    IsMade(l) && KeyOf(l).n < g.nLabel
  }

  predicate BodyBase(b: Base) {
    b.WhileBody? || b.ForBody? || b.ForStep?
  }

  /** A label whose block belongs inside the loop. */
  ghost predicate Inner(x: Nest, l: Label) {
    IsMade(l) && (KeyOf(l).n >= x.from || (KeyOf(l).n == x.n && BodyBase(KeyOf(l).base)))
  }

  ghost predicate NestAt(g: Sketch, j: nat, x: Nest) {
    j < |g.nest| && g.nest[j] == x
  }

  ghost predicate HeadOf(g: Sketch, l: Label) {
    exists j: nat, x: Nest :: NestAt(g, j, x) && At(g, x.lo, l)
  }

  /** Where a new edge may lead: a block still to be opened, or the head of an open loop. */
  ghost predicate Targetable(g: Sketch, l: Label) {
    Known(g, l) && (!Opened(g, l) || HeadOf(g, l)) && MayGo(g.data, l)
  }

  // ----- what holds at every moment -----

  ghost predicate LabelAt(g: Sketch, i: nat) {
    i < |g.ids| ==> if i == 0 then g.ids[0] == ENTRY else Known(g, g.ids[i])
  }

  ghost predicate Distinct(g: Sketch) {
    forall i, j :: 0 <= i < j < |g.ids| ==> g.ids[i] != g.ids[j]
  }

  /** An edge that does not run forward closes a loop it lies in. */
  ghost predicate ClosesLoop(g: Sketch, i: nat, v: nat) {
    (exists r :: r in g.done && r.lo == v && i < r.hi) || (exists j: nat, x: Nest :: NestAt(g, j, x) && x.lo == v)
  }

  ghost predicate EntersAtHead(r: Region, i: nat, v: nat) {
    r.lo < v < r.hi ==> r.lo <= i < r.hi
  }

  ghost predicate StaysInNest(x: Nest, i: nat, l: Label) {
    Inner(x, l) ==> i >= x.lo
  }

  ghost predicate EdgePlaced(g: Sketch, i: nat, v: nat) {
    (i < v || ClosesLoop(g, i, v)) && forall r :: r in g.done ==> EntersAtHead(r, i, v)
  }

  ghost predicate EdgeFits(g: Sketch, i: nat, l: Label) {
    && Known(g, l)
    && (forall j: nat, x: Nest :: NestAt(g, j, x) ==> StaysInNest(x, i, l))
    && forall v: nat :: At(g, v, l) ==> EdgePlaced(g, i, v)
  }

  ghost predicate NestFits(g: Sketch, x: Nest) {
    && 0 < x.lo < |g.ids| && x.n < x.from <= g.nLabel
    && (forall v: nat, l: Label :: At(g, v, l) ==> (v > x.lo <==> Inner(x, l)))
    && forall r :: r in g.done ==> Outside(r, x)
  }

  ghost predicate Outside(r: Region, x: Nest) {
    !(r.lo < x.lo < r.hi)
  }

  ghost predicate Ok(g: Sketch) {
    && |g.ids| == |g.succ| > 0 && Distinct(g)
    && (forall i: nat :: LabelAt(g, i))
    && (forall i: nat, l: Label :: EdgeTo(g, i, l) ==> EdgeFits(g, i, l))
    && (forall j: nat, x: Nest :: NestAt(g, j, x) ==> NestFits(g, x))
    && Ordered(g)
    && forall r :: r in g.done ==> r.lo < r.hi <= |g.ids|
  }

  lemma OkEdge(g: Sketch, i: nat, l: Label)
    requires EdgeTo(g, i, l)
    requires Ok(g)
    ensures EdgeFits(g, i, l)
  {
    hide EdgeFits, NestFits, LabelAt, Distinct;
  }

  lemma OkNest(g: Sketch, j: nat, x: Nest)
    requires NestAt(g, j, x)
    requires Ok(g)
    ensures NestFits(g, x)
  {
    hide EdgeFits, NestFits, LabelAt, Distinct;
  }

  // ----- more labels -----

  lemma CountKeeps(g: Sketch, g': Sketch)
    requires g' == g.(nLabel := g'.nLabel, data := g'.data) && g.nLabel <= g'.nLabel
    requires Ok(g)
    ensures Ok(g')
  {
    hide Inner, StaysInNest, EntersAtHead, Outside;
    forall i: nat ensures LabelAt(g', i) { assert LabelAt(g, i); }
    forall i: nat, l: Label | EdgeTo(g', i, l) ensures EdgeFits(g', i, l) { EdgeCount(g, g', i, l); }
    forall j: nat, x: Nest | NestAt(g', j, x) ensures NestFits(g', x) { NestCount(g, g', j, x); }
    SameOrder(g, g');
  }

  ghost predicate Ordered(g: Sketch) {
    forall j: nat, k: nat, x: Nest, y: Nest :: NestAt(g, j, x) && NestAt(g, k, y) && j < k ==> x.lo < y.lo
  }

  lemma SameOrder(g: Sketch, g': Sketch)
    requires Ordered(g) && g'.nest == g.nest
    ensures Ordered(g')
  {
    forall j: nat, k: nat, x: Nest, y: Nest | NestAt(g', j, x) && NestAt(g', k, y) && j < k ensures x.lo < y.lo {
      assert NestAt(g, j, x) && NestAt(g, k, y);
    }
  }

  lemma EdgeCount(g: Sketch, g': Sketch, i: nat, l: Label)
    requires g' == g.(nLabel := g'.nLabel, data := g'.data) && g.nLabel <= g'.nLabel && EdgeTo(g, i, l)
    requires Ok(g)
    ensures EdgeFits(g', i, l)
  {
    hide Ok, Inner, StaysInNest, EntersAtHead, ClosesLoop;
    OkEdge(g, i, l);
    forall j: nat, x: Nest | NestAt(g', j, x) ensures StaysInNest(x, i, l) { assert NestAt(g, j, x); }
    forall v: nat | At(g', v, l) ensures EdgePlaced(g', i, v) {
      assert At(g, v, l) && EdgePlaced(g, i, v);
      SameLoops(g, g', i, v);
    }
  }

  lemma SameLoops(g: Sketch, g': Sketch, i: nat, v: nat)
    requires g'.done == g.done && g'.nest == g.nest
    ensures ClosesLoop(g', i, v) <==> ClosesLoop(g, i, v)
  {
    if j: nat, x: Nest :| NestAt(g, j, x) && x.lo == v { assert NestAt(g', j, x); }
    if j: nat, x: Nest :| NestAt(g', j, x) && x.lo == v { assert NestAt(g, j, x); }
  }

  lemma NestCount(g: Sketch, g': Sketch, j: nat, x: Nest)
    requires g' == g.(nLabel := g'.nLabel, data := g'.data) && g.nLabel <= g'.nLabel && NestAt(g, j, x)
    requires Ok(g)
    ensures NestFits(g', x)
  {
    hide Ok, Inner, Outside;
    OkNest(g, j, x);
    forall v: nat, l: Label | At(g', v, l) ensures v > x.lo <==> Inner(x, l) { assert At(g, v, l); }
  }

  // ----- closing the last block -----

  function Linked(g: Sketch, ts: seq<Label>): Sketch
    requires g.succ != []
  {
    g.(succ := g.succ[|g.succ| - 1 := ts])
  }

  lemma LinkKeeps(g: Sketch, ts: seq<Label>)
    requires |g.succ| == |g.ids| > 0 && forall l :: l in ts ==> Targetable(g, l)
    requires Ok(g)
    ensures Ok(Linked(g, ts))
  {
    hide Inner, StaysInNest, EntersAtHead, Outside, Targetable, Known;
    var g' := Linked(g, ts);
    forall i: nat ensures LabelAt(g', i) { assert LabelAt(g, i); SameKnown(g, g', i); }
    forall i: nat, l: Label | EdgeTo(g', i, l) ensures EdgeFits(g', i, l) {
      if i < |g.ids| - 1 { OldEdge(g, g', i, l); } else { NewEdge(g, g', i, l); }
    }
    forall j: nat, x: Nest | NestAt(g', j, x) ensures NestFits(g', x) { NestLink(g, g', j, x); }
    SameOrder(g, g');
  }

  lemma SameKnown(g: Sketch, g': Sketch, i: nat)
    requires g'.ids == g.ids && g'.nLabel == g.nLabel
    ensures forall l :: Known(g', l) <==> Known(g, l)
  {}

  lemma OldEdge(g: Sketch, g': Sketch, i: nat, l: Label)
    requires g' == g.(succ := g'.succ) && EdgeTo(g, i, l)
    requires Ok(g)
    ensures EdgeFits(g', i, l)
  {
    hide Ok, Inner, StaysInNest, EntersAtHead, ClosesLoop;
    OkEdge(g, i, l);
    forall j: nat, x: Nest | NestAt(g', j, x) ensures StaysInNest(x, i, l) { assert NestAt(g, j, x); }
    forall v: nat | At(g', v, l) ensures EdgePlaced(g', i, v) {
      assert At(g, v, l) && EdgePlaced(g, i, v);
      SameLoops(g, g', i, v);
    }
  }

  lemma NestLink(g: Sketch, g': Sketch, j: nat, x: Nest)
    requires g' == g.(succ := g'.succ) && NestAt(g, j, x)
    requires Ok(g)
    ensures NestFits(g', x)
  {
    hide Ok, Inner, Outside;
    OkNest(g, j, x);
    forall v: nat, l: Label | At(g', v, l) ensures v > x.lo <==> Inner(x, l) { assert At(g, v, l); }
  }

  /** An edge from the block just closed. */
  lemma NewEdge(g: Sketch, g': Sketch, i: nat, l: Label)
    requires g' == g.(succ := g'.succ) && i == |g.ids| - 1 && Targetable(g, l)
    requires Ok(g)
    ensures EdgeFits(g', i, l)
  {
    hide Inner, LabelAt, EdgeFits;
    forall j: nat, x: Nest | NestAt(g', j, x) ensures StaysInNest(x, i, l) {
      assert NestAt(g, j, x);
      OkNest(g, j, x);
    }
    forall v: nat | At(g', v, l) ensures EdgePlaced(g', i, v) {
      assert At(g, v, l);
      var j, x := HeadNest(g, l);
      HeadPlaced(g, g', i, v, l, j, x);
    }
    FitsFrom(g', i, l);
  }

  lemma FitsFrom(g: Sketch, i: nat, l: Label)
    requires Known(g, l)
    requires forall j: nat, x: Nest :: NestAt(g, j, x) ==> StaysInNest(x, i, l)
    requires forall v: nat :: At(g, v, l) ==> EdgePlaced(g, i, v)
    ensures EdgeFits(g, i, l)
  {
    hide EdgePlaced, StaysInNest;
  }

  lemma HeadNest(g: Sketch, l: Label) returns (j: nat, x: Nest)
    requires Targetable(g, l) && Opened(g, l)
    ensures NestAt(g, j, x) && At(g, x.lo, l)
  {
    j, x :| NestAt(g, j, x) && At(g, x.lo, l);
  }

  lemma HeadPlaced(g: Sketch, g': Sketch, i: nat, v: nat, l: Label, j: nat, x: Nest)
    requires g' == g.(succ := g'.succ) && At(g, v, l) && NestAt(g, j, x) && At(g, x.lo, l)
    requires Ok(g)
    ensures EdgePlaced(g', i, v)
  {
    hide Inner, LabelAt, EdgeFits;
    assert v == x.lo;
    OkNest(g, j, x);
    assert NestAt(g', j, x);
    forall r | r in g'.done ensures EntersAtHead(r, i, v) { assert Outside(r, x); }
  }

  // ----- opening a block -----

  function Grown(g: Sketch, l: Label): Sketch {
    g.(ids := g.ids + [l], succ := g.succ + [[]])
  }

  ghost predicate InnerAll(g: Sketch, l: Label) {
    forall j: nat, x: Nest :: NestAt(g, j, x) ==> Inner(x, l)
  }

  lemma GrowKeeps(g: Sketch, l: Label)
    requires Known(g, l) && !Opened(g, l) && InnerAll(g, l)
    requires Ok(g)
    ensures Ok(Grown(g, l))
  {
    hide Inner, StaysInNest, EntersAtHead, Outside, Known, InnerAll;
    var g' := Grown(g, l);
    var n := |g.ids|;
    forall i: nat ensures LabelAt(g', i) { assert LabelAt(g, i); GrownKnown(g, l); }
    GrownDistinct(g, l);
    forall i: nat, k: Label | EdgeTo(g', i, k) ensures EdgeFits(g', i, k) { GrownEdge(g, l, i, k); }
    forall j: nat, x: Nest | NestAt(g', j, x) ensures NestFits(g', x) { GrownNest(g, l, j, x); }
    SameOrder(g, g');
  }

  lemma GrownKnown(g: Sketch, l: Label)
    ensures forall k :: Known(Grown(g, l), k) <==> Known(g, k)
  {}

  lemma GrownDistinct(g: Sketch, l: Label)
    requires Distinct(g) && !Opened(g, l)
    ensures Distinct(Grown(g, l))
  {
    forall i | 0 <= i < |g.ids| ensures g.ids[i] != l { if g.ids[i] == l { assert At(g, i, l); } }
  }

  lemma GrownEdge(g: Sketch, l: Label, i: nat, k: Label)
    requires EdgeTo(Grown(g, l), i, k)
    requires Ok(g)
    ensures EdgeFits(Grown(g, l), i, k)
  {
    hide Inner, StaysInNest, EntersAtHead, ClosesLoop, NestFits, LabelAt, Distinct, EdgeFits;
    var g' := Grown(g, l);
    assert EdgeTo(g, i, k);
    OkEdge(g, i, k);
    EdgeUse(g, i, k);
    forall j: nat, x: Nest | NestAt(g', j, x) ensures StaysInNest(x, i, k) { assert NestAt(g, j, x); }
    forall v: nat | At(g', v, k) ensures EdgePlaced(g', i, v) {
      if v < |g.ids| {
        assert At(g, v, k) && EdgePlaced(g, i, v);
        SameLoops(g, g', i, v);
      } else {
        forall r | r in g'.done ensures EntersAtHead(r, i, v) { PastEnd(g, r, i, v); }
      }
    }
    GrownKnown(g, l);
    FitsFrom(g', i, k);
  }

  lemma EdgeUse(g: Sketch, i: nat, l: Label)
    requires EdgeFits(g, i, l)
    ensures Known(g, l)
    ensures forall j: nat, x: Nest :: NestAt(g, j, x) ==> StaysInNest(x, i, l)
    ensures forall v: nat :: At(g, v, l) ==> EdgePlaced(g, i, v)
  {
    hide EdgePlaced, StaysInNest;
  }

  lemma PastEnd(g: Sketch, r: Region, i: nat, v: nat)
    requires r in g.done && v >= |g.ids|
    requires Ok(g)
    ensures EntersAtHead(r, i, v)
  {
    hide EdgeFits, NestFits, LabelAt, Distinct;
  }

  lemma GrownNest(g: Sketch, l: Label, j: nat, x: Nest)
    requires NestAt(g, j, x) && InnerAll(g, l)
    requires Ok(g)
    ensures NestFits(Grown(g, l), x)
  {
    hide Inner, Outside, EdgeFits, LabelAt, Distinct;
    OkNest(g, j, x);
    var g' := Grown(g, l);
    assert Inner(x, l);
    forall v: nat, k: Label | At(g', v, k) ensures v > x.lo <==> Inner(x, k) {
      if v < |g.ids| { assert At(g, v, k); }
    }
  }

  // ----- loops -----

  /** No block or edge has used a body or step label with this number. */
  ghost predicate BodyFree(l: Label, n: nat) {
    !(IsMade(l) && KeyOf(l).n == n && BodyBase(KeyOf(l).base))
  }

  ghost predicate BodiesUnused(g: Sketch, n: nat) {
    && (forall v: nat, l: Label :: At(g, v, l) ==> BodyFree(l, n))
    && forall i: nat, l: Label :: EdgeTo(g, i, l) ==> BodyFree(l, n)
  }

  function Entered(g: Sketch, n: nat): Sketch
    requires g.ids != []
  {
    g.(nest := g.nest + [Nest(n, g.nLabel, |g.ids| - 1)])
  }

  lemma NotYetInner(g: Sketch, n: nat, l: Label)
    requires BodyFree(l, n) && (Known(g, l) || l == ENTRY)
    ensures !Inner(Nest(n, g.nLabel, if g.ids == [] then 0 else |g.ids| - 1), l)
  {
    EntryNotMade();
  }

  /** The block just opened is the head of a new loop. */
  lemma EnterKeeps(g: Sketch, n: nat)
    requires |g.ids| > 1 && n < g.nLabel && BodiesUnused(g, n) && HeadIsNew(g)
    requires Ok(g)
    ensures Ok(Entered(g, n))
  {
    hide Inner, EntersAtHead, BodyFree, Known, ClosesLoop;
    var g' := Entered(g, n);
    forall i: nat ensures LabelAt(g', i) { assert LabelAt(g, i); EnteredKnown(g, n); }
    forall i: nat, l: Label | EdgeTo(g', i, l) ensures EdgeFits(g', i, l) { EnteredEdge(g, n, i, l); }
    forall j: nat, x: Nest | NestAt(g', j, x) ensures NestFits(g', x) {
      if j < |g.nest| { assert NestAt(g, j, x); EnteredOld(g, n, j, x); } else { EnteredNew(g, n); }
    }
    EnteredOrder(g, n);
  }

  lemma EnteredKnown(g: Sketch, n: nat)
    requires g.ids != []
    ensures forall k :: Known(Entered(g, n), k) <==> Known(g, k)
  {}

  lemma EnteredEdge(g: Sketch, n: nat, i: nat, l: Label)
    requires g.ids != [] && BodiesUnused(g, n) && EdgeTo(g, i, l)
    requires Ok(g)
    ensures EdgeFits(Entered(g, n), i, l)
  {
    hide Inner, EntersAtHead, ClosesLoop, NestFits, LabelAt, Distinct, EdgeFits, BodyFree;
    var g' := Entered(g, n);
    OkEdge(g, i, l);
    EdgeUse(g, i, l);
    NotYetInner(g, n, l);
    forall j: nat, x: Nest | NestAt(g', j, x) ensures StaysInNest(x, i, l) {
        if j < |g.nest| { assert NestAt(g, j, x); } }
    forall v: nat | At(g', v, l) ensures EdgePlaced(g', i, v) {
      assert At(g, v, l) && EdgePlaced(g, i, v);
      MoreLoops(g, g', i, v);
    }
    EnteredKnown(g, n);
    FitsFrom(g', i, l);
  }

  lemma MoreLoops(g: Sketch, g': Sketch, i: nat, v: nat)
    requires g.done <= g'.done && |g.nest| <= |g'.nest| && g'.nest[..|g.nest|] == g.nest
    ensures ClosesLoop(g, i, v) ==> ClosesLoop(g', i, v)
  {
    if j: nat, x: Nest :| NestAt(g, j, x) && x.lo == v {
      assert g'.nest[..|g.nest|][j] == g'.nest[j];
      assert NestAt(g', j, x);
    }
  }

  lemma EnteredOld(g: Sketch, n: nat, j: nat, x: Nest)
    requires g.ids != [] && NestAt(g, j, x)
    requires Ok(g)
    ensures NestFits(Entered(g, n), x)
  {
    hide Inner, Outside, EdgeFits, LabelAt, Distinct;
    OkNest(g, j, x);
    forall v: nat, l: Label | At(Entered(g, n), v, l) ensures v > x.lo <==> Inner(x, l) { assert At(g, v, l); }
  }

  lemma EnteredNew(g: Sketch, n: nat)
    requires |g.ids| > 1 && n < g.nLabel && BodiesUnused(g, n) && HeadIsNew(g)
    requires Ok(g)
    ensures NestFits(Entered(g, n), Nest(n, g.nLabel, |g.ids| - 1))
  {
    hide Inner, EdgeFits, NestFits, BodyFree, Distinct;
    var x, g' := Nest(n, g.nLabel, |g.ids| - 1), Entered(g, n);
    forall v: nat, l: Label | At(g', v, l) ensures v > x.lo <==> Inner(x, l) {
      assert At(g, v, l) && LabelAt(g, v);
      NotYetInner(g, n, l);
    }
    forall r | r in g'.done ensures Outside(r, x) { BeforeHead(g, r); }
    NestFrom(g', x);
  }

  lemma NestFrom(g: Sketch, x: Nest)
    requires 0 < x.lo < |g.ids| && x.n < x.from <= g.nLabel
    requires forall v: nat, l: Label :: At(g, v, l) ==> (v > x.lo <==> Inner(x, l))
    requires forall r :: r in g.done ==> Outside(r, x)
    ensures NestFits(g, x)
  {
    hide Inner, Outside;
  }

  /** The last block lies in no finished loop, and in every open one. */
  ghost predicate HeadIsNew(g: Sketch) {
    g.ids != [] && (forall r :: r in g.done ==> r.hi < |g.ids|) && InnerAll(g, g.ids[|g.ids| - 1])
  }

  lemma BeforeHead(g: Sketch, r: Region)
    requires HeadIsNew(g) && r in g.done
    ensures r.hi <= |g.ids| - 1
  {
    hide InnerAll;
  }

  lemma EnteredOrder(g: Sketch, n: nat)
    requires HeadIsNew(g)
    requires Ok(g)
    ensures Ordered(Entered(g, n))
  {
    hide EdgeFits, LabelAt, Distinct, Inner, Outside;
    var g' := Entered(g, n);
    var last := |g.ids| - 1;
    forall j: nat, k: nat, x: Nest, y: Nest | NestAt(g', j, x) && NestAt(g', k, y) && j < k ensures x.lo < y.lo {
      assert NestAt(g, j, x);
      if k < |g.nest| {
        assert NestAt(g, k, y);
      } else {
        OkNest(g, j, x);
        assert At(g, last, g.ids[last]) && Inner(x, g.ids[last]);
      }
    }
  }

  /** Open the head of loop `n` and enter it. */
  lemma OpenHeadKeeps(g: Sketch, l: Label, n: nat)
    requires Known(g, l) && !Opened(g, l) && InnerAll(g, l) && BodiesUnused(g, n) && n < g.nLabel && BodyFree(l, n)
    requires Ok(g)
    ensures Ok(Entered(Grown(g, l), n))
  {
    hide EdgeFits, LabelAt, Distinct, NestFits, BodyFree, Known, Inner, Ordered;
    GrowKeeps(g, l);
    var g' := Grown(g, l);
    forall v: nat, k: Label | At(g', v, k) ensures BodyFree(k, n) { if v < |g.ids| { assert At(g, v, k); } }
    forall i: nat, k: Label | EdgeTo(g', i, k) ensures BodyFree(k, n) { assert EdgeTo(g, i, k); }
    forall j: nat, x: Nest | NestAt(g', j, x) ensures Inner(x, l) { assert NestAt(g, j, x); }
    EnterKeeps(g', n);
  }

  function Left(g: Sketch): Sketch
    requires g.nest != []
  {
    g.(nest := g.nest[..|g.nest| - 1], done := g.done + {Region(g.nest[|g.nest| - 1].lo, |g.ids|)})
  }

  /** The innermost loop is finished. */
  lemma LeaveKeeps(g: Sketch)
    requires g.nest != []
    requires Ok(g)
    ensures Ok(Left(g))
  {
    hide Inner, EntersAtHead, Known, ClosesLoop, Outside;
    var g' := Left(g);
    var n := |g.nest| - 1;
    var x := g.nest[n];
    assert NestAt(g, n, x);
    OkNest(g, n, x);
    forall i: nat ensures LabelAt(g', i) { assert LabelAt(g, i); LeftKnown(g); }
    forall i: nat, l: Label | EdgeTo(g', i, l) ensures EdgeFits(g', i, l) { LeftEdge(g, i, l); }
    forall j: nat, y: Nest | NestAt(g', j, y) ensures NestFits(g', y) { LeftNest(g, j, y); }
    forall j: nat, k: nat, y: Nest, z: Nest | NestAt(g', j, y) && NestAt(g', k, z) && j < k ensures y.lo < z.lo {
      assert NestAt(g, j, y) && NestAt(g, k, z);
    }
  }

  lemma LeftKnown(g: Sketch)
    requires g.nest != []
    ensures forall k :: Known(Left(g), k) <==> Known(g, k)
  {}

  lemma LeftEdge(g: Sketch, i: nat, l: Label)
    requires g.nest != [] && EdgeTo(g, i, l)
    requires Ok(g)
    ensures EdgeFits(Left(g), i, l)
  {
    hide Inner, EntersAtHead, ClosesLoop, NestFits, LabelAt, Distinct, EdgeFits, StaysInNest, Ordered;
    var g' := Left(g);
    OkEdge(g, i, l);
    EdgeUse(g, i, l);
    forall j: nat, x: Nest | NestAt(g', j, x) ensures StaysInNest(x, i, l) { assert NestAt(g, j, x); }
    forall v: nat | At(g', v, l) ensures EdgePlaced(g', i, v) {
      assert At(g, v, l) && EdgePlaced(g, i, v);
      LeftLoops(g, i, v);
      LeftRegion(g, i, v, l);
    }
    LeftKnown(g);
    FitsFrom(g', i, l);
  }

  /** What the innermost loop excused, the finished one excuses. */
  lemma LeftLoops(g: Sketch, i: nat, v: nat)
    requires g.nest != [] && i < |g.ids|
    ensures ClosesLoop(g, i, v) ==> ClosesLoop(Left(g), i, v)
  {
    var n := |g.nest| - 1;
    if j: nat, x: Nest :| NestAt(g, j, x) && x.lo == v {
      if j < n {
        assert NestAt(Left(g), j, x);
      } else {
        var r := Region(x.lo, |g.ids|);
        assert r in Left(g).done && r.lo == v && i < r.hi;
      }
    }
  }

  lemma LeftRegion(g: Sketch, i: nat, v: nat, l: Label)
    requires g.nest != [] && EdgeTo(g, i, l) && At(g, v, l)
    requires Ok(g)
    ensures EntersAtHead(Region(g.nest[|g.nest| - 1].lo, |g.ids|), i, v)
  {
    hide Inner, LabelAt, Distinct, Ordered, EdgePlaced;
    var n := |g.nest| - 1;
    var x := g.nest[n];
    assert NestAt(g, n, x);
    OkNest(g, n, x);
    OkEdge(g, i, l);
    assert StaysInNest(x, i, l);
  }

  lemma LeftNest(g: Sketch, j: nat, y: Nest)
    requires g.nest != [] && NestAt(Left(g), j, y)
    requires Ok(g)
    ensures NestFits(Left(g), y)
  {
    hide Inner, LabelAt, Distinct, EdgeFits;
    var n := |g.nest| - 1;
    assert NestAt(g, j, y) && NestAt(g, n, g.nest[n]);
    OkNest(g, j, y);
    forall v: nat, l: Label | At(Left(g), v, l) ensures v > y.lo <==> Inner(y, l) { assert At(g, v, l); }
  }
}
