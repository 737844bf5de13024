/** What a piece of the builder's work may add: fresh labels it opens itself, and edges to
    labels its surroundings will open. */
module BuilderFrame {
  import opened Cir
  import opened Labels
  import opened BuilderData
  import opened BuilderGraph

  /** A label not made yet. */
  ghost predicate Fresh(g: Sketch, l: Label) {
    IsMade(l) && KeyOf(l).n >= g.nLabel
  }

  ghost predicate NewBlock(g: Sketch, g': Sketch, opens: set<Label>, v: nat, l: Label) {
    v >= |g.ids| ==> l in opens || Fresh(g, l)
  }

  ghost predicate NewRef(g: Sketch, g': Sketch, exits: set<Label>, i: nat, l: Label) {
    EdgeTo(g, i, l) || l in exits || (Fresh(g, l) && Opened(g', l))
  }

  /** From `g` to `g'`: those in `opens` were opened and besides them only fresh blocks, and besides
      edges to fresh blocks only edges to `exits` were added. */
  ghost predicate Frame(g: Sketch, g': Sketch, exits: set<Label>, opens: set<Label>) {
    && g.nLabel <= g'.nLabel && |g.ids| <= |g'.ids| && g'.ids[..|g.ids|] == g.ids && Extends(g.data, g'.data)
    && (forall l :: l in opens ==> Opened(g', l))
    && (forall v: nat, l: Label :: At(g', v, l) ==> NewBlock(g, g', opens, v, l))
    && forall i: nat, l: Label :: EdgeTo(g', i, l) ==> NewRef(g, g', exits, i, l)
  }

  lemma FrameStays(g: Sketch, g': Sketch)
    requires g'.ids == g.ids && g'.succ == g.succ && g.nLabel <= g'.nLabel && Extends(g.data, g'.data)
    ensures Frame(g, g', {}, {})
  {
    forall i: nat, l: Label | EdgeTo(g', i, l) ensures NewRef(g, g', {}, i, l) { assert EdgeTo(g, i, l); }
  }

  lemma AtPrefix(g: Sketch, g': Sketch, v: nat, l: Label)
    requires |g.ids| <= |g'.ids| && g'.ids[..|g.ids|] == g.ids
    ensures At(g, v, l) ==> At(g', v, l)
    ensures At(g', v, l) && v < |g.ids| ==> At(g, v, l)
  {
    if v < |g.ids| { assert g'.ids[..|g.ids|][v] == g'.ids[v]; }
  }

  lemma OpenedStays(g: Sketch, g': Sketch, l: Label)
    requires |g.ids| <= |g'.ids| && g'.ids[..|g.ids|] == g.ids && Opened(g, l)
    ensures Opened(g', l)
  {
    var v: nat :| At(g, v, l);
    AtPrefix(g, g', v, l);
  }

  lemma FreshBefore(g: Sketch, g': Sketch, l: Label)
    requires g.nLabel <= g'.nLabel && Fresh(g', l)
    ensures Fresh(g, l)
  {}

  /** One piece after another. */
  lemma FrameJoins(g: Sketch, g1: Sketch, g2: Sketch, e1: set<Label>, o1: set<Label>, e2: set<Label>, o2: set<Label>,
                   e: set<Label>, o: set<Label>)
    requires Frame(g, g1, e1, o1) && Frame(g1, g2, e2, o2)
    requires e1 <= e && e2 <= e && o == o1 + o2
    ensures Frame(g, g2, e, o)
  {
    hide Fresh, At, EdgeTo, Opened, Extends;
    ExtendsJoins(g.data, g1.data, g2.data);
    assert g2.ids[..|g.ids|] == g2.ids[..|g1.ids|][..|g.ids|];
    forall l | l in o ensures Opened(g2, l) { if l in o1 { OpenedStays(g1, g2, l); } }
    forall v: nat, l: Label | At(g2, v, l) ensures NewBlock(g, g2, o, v, l) {
      assert NewBlock(g1, g2, o2, v, l);
      if v < |g1.ids| {
        AtPrefix(g1, g2, v, l);
        assert NewBlock(g, g1, o1, v, l);
      } else if Fresh(g1, l) {
        FreshBefore(g, g1, l);
      }
    }
    forall i: nat, l: Label | EdgeTo(g2, i, l) ensures NewRef(g, g2, e, i, l) {
      assert NewRef(g1, g2, e2, i, l);
      if EdgeTo(g1, i, l) {
        assert NewRef(g, g1, e1, i, l);
        if Opened(g1, l) { OpenedStays(g1, g2, l); }
      } else if Fresh(g1, l) {
        FreshBefore(g, g1, l);
      }
    }
  }

  /** A piece that opened every fresh label it used needs to mention none of them. */
  lemma FrameShrinks(g: Sketch, g': Sketch, exits: set<Label>, opens: set<Label>, e: set<Label>)
    requires Frame(g, g', exits, opens)
    requires forall l :: l in opens ==> Fresh(g, l)
    requires exits <= e + opens
    ensures Frame(g, g', e, {})
  {
    hide Fresh, At, EdgeTo, Opened;
    forall v: nat, l: Label | At(g', v, l) ensures NewBlock(g, g', {}, v, l) { assert NewBlock(g, g', opens, v, l); }
    forall i: nat, l: Label | EdgeTo(g', i, l) ensures NewRef(g, g', e, i, l) { assert NewRef(g, g', exits, i, l); }
  }

  /** A known label stays unopened unless it is among `opens`. */
  lemma StaysUnopened(g: Sketch, g': Sketch, exits: set<Label>, opens: set<Label>, l: Label)
    requires Frame(g, g', exits, opens) && Known(g, l) && !Opened(g, l) && l !in opens
    ensures Known(g', l) && !Opened(g', l)
  {
    hide At, EdgeTo, IsMade;
    forall v: nat ensures !At(g', v, l) {
      if At(g', v, l) {
        assert NewBlock(g, g', opens, v, l);
        AtPrefix(g, g', v, l);
      }
    }
  }

  /** `nest` only grows at its end. */
  ghost predicate NestGrows(g: Sketch, g': Sketch) {
    |g.nest| <= |g'.nest| && g'.nest[..|g.nest|] == g.nest
  }

  lemma HeadStays(g: Sketch, g': Sketch, l: Label)
    requires |g.ids| <= |g'.ids| && g'.ids[..|g.ids|] == g.ids && NestGrows(g, g') && HeadOf(g, l)
    ensures HeadOf(g', l)
  {
    var j: nat, x: Nest :| NestAt(g, j, x) && At(g, x.lo, l);
    assert g'.nest[..|g.nest|][j] == g'.nest[j];
    AtPrefix(g, g', x.lo, l);
    assert NestAt(g', j, x);
  }

  lemma StaysTargetable(g: Sketch, g': Sketch, exits: set<Label>, opens: set<Label>, l: Label)
    requires Frame(g, g', exits, opens) && NestGrows(g, g') && Targetable(g, l) && l !in opens
        && g.data.here <= g'.data.here
    ensures Targetable(g', l)
  {
    hide At, EdgeTo, HeadOf, IsMade, Extends, MayGo;
    StaysGo(g.data, g'.data, l);
    if HeadOf(g, l) {
      HeadStays(g, g', l);
      KnownStays(g, g', l);
    } else {
      StaysUnopened(g, g', exits, opens, l);
    }
  }

  lemma KnownStays(g: Sketch, g': Sketch, l: Label)
    requires g.nLabel <= g'.nLabel && Known(g, l)
    ensures Known(g', l)
  {}

  /** Labels made with number `n`, none of which has been opened. */
  lemma OwnLabel(g: Sketch, b: Base, n: nat)
    requires n == g.nLabel
    requires Ok(g)
    ensures IsMade(MakeLabel(b, n)) && KeyOf(MakeLabel(b, n)) == Key(b, n) && Fresh(g, MakeLabel(b, n))
        && !Opened(g, MakeLabel(b, n))
    ensures Known(g.(nLabel := n + 1), MakeLabel(b, n)) && !Opened(g.(nLabel := n + 1), MakeLabel(b, n))
    ensures InnerAll(g, MakeLabel(b, n))
  {
    hide MakeLabel, Distinct, EdgeFits, Ordered;
    KeyIs(b, n);
    var l, g' := MakeLabel(b, n), g.(nLabel := n + 1);
    forall v: nat ensures !At(g, v, l) {
      assert LabelAt(g, v);
      EntryNotMade();
    }
    forall v: nat ensures !At(g', v, l) { assert !At(g, v, l); }
    forall j: nat, x: Nest | NestAt(g, j, x) ensures Inner(x, l) { OkNest(g, j, x); }
  }

  /** Work that used only non-body labels of number `n` leaves the body labels unused. */
  lemma StillUnused(g: Sketch, g': Sketch, exits: set<Label>, opens: set<Label>, n: nat)
    requires n < g.nLabel && Frame(g, g', exits, opens) && BodiesUnused(g, n)
    requires forall l :: l in exits || l in opens ==> BodyFree(l, n)
    ensures BodiesUnused(g', n)
  {
    hide At, EdgeTo, Opened, IsMade;
    forall v: nat, l: Label | At(g', v, l) ensures BodyFree(l, n) {
      assert NewBlock(g, g', opens, v, l);
      AtPrefix(g, g', v, l);
    }
    forall i: nat, l: Label | EdgeTo(g', i, l) ensures BodyFree(l, n) {
      assert NewRef(g, g', exits, i, l);
    }
  }

  lemma NeverUsed(g: Sketch, n: nat)
    requires n == g.nLabel
    requires Ok(g)
    ensures BodiesUnused(g.(nLabel := n + 1), n)
  {
    hide Distinct, NestFits, Ordered, EdgePlaced, StaysInNest;
    var g' := g.(nLabel := n + 1);
    forall v: nat, l: Label | At(g', v, l) ensures BodyFree(l, n) {
      assert At(g, v, l) && LabelAt(g, v);
      EntryNotMade();
    }
    forall i: nat, l: Label | EdgeTo(g', i, l) ensures BodyFree(l, n) {
      assert EdgeTo(g, i, l);
      OkEdge(g, i, l);
    }
  }

  lemma InnerStays(g: Sketch, g': Sketch, l: Label)
    requires g'.nest == g.nest && InnerAll(g, l)
    ensures InnerAll(g', l)
  {
    forall j: nat, x: Nest | NestAt(g', j, x) ensures Inner(x, l) { assert NestAt(g, j, x); }
  }

  /** A body label of the innermost loop. */
  lemma InnerBody(g: Sketch, g': Sketch, x: Nest, l: Label)
    requires InnerAll(g, l) && g'.nest == g.nest + [x] && Inner(x, l)
    ensures InnerAll(g', l)
  {
    forall j: nat, y: Nest | NestAt(g', j, y) ensures Inner(y, l) { if j < |g.nest| { assert NestAt(g, j, y); } }
  }

  // ----- the targets of break and continue -----

  datatype Loop = Loop(continueTo: Label, breakTo: Label)

  ghost predicate LoopsOk(g: Sketch, loops: seq<Loop>) {
    forall k :: 0 <= k < |loops| ==> LoopOk(g, loops[k])
  }

  ghost predicate LoopOk(g: Sketch, x: Loop) {
    Targetable(g, x.continueTo) && Targetable(g, x.breakTo)
  }

  function Exits(loops: seq<Loop>): set<Label> {
    (set x | x in loops :: x.continueTo) + (set x | x in loops :: x.breakTo)
  }

  lemma LoopsStay(g: Sketch, g': Sketch, exits: set<Label>, opens: set<Label>, loops: seq<Loop>)
    requires Frame(g, g', exits, opens) && NestGrows(g, g') && LoopsOk(g, loops)
    requires opens !! Exits(loops) && g.data.here <= g'.data.here
    ensures LoopsOk(g', loops)
  {
    hide Frame, Targetable, NestGrows;
    forall k | 0 <= k < |loops| ensures LoopOk(g', loops[k]) {
      assert LoopOk(g, loops[k]) && loops[k] in loops;
      StaysTargetable(g, g', exits, opens, loops[k].continueTo);
      StaysTargetable(g, g', exits, opens, loops[k].breakTo);
    }
  }

  /** Labels of the surrounding loops are older than the next number. */
  lemma ExitsKnown(g: Sketch, loops: seq<Loop>)
    requires LoopsOk(g, loops)
    ensures forall l :: l in Exits(loops) ==> Known(g, l)
  {
    forall l | l in Exits(loops) ensures Known(g, l) {
      var x :| x in loops && (l == x.continueTo || l == x.breakTo);
      var k :| 0 <= k < |loops| && loops[k] == x;
      assert LoopOk(g, loops[k]);
    }
  }

  // ----- a construct's own labels -----

  ghost predicate Own(g: Sketch, gs: Sketch, loops: seq<Loop>, l: Label) {
    && Fresh(g, l) && l !in Exits(loops) && InnerAll(g, l) && Known(gs, l) && !Opened(gs, l)
    && l in gs.data.avail && gs.data.avail[l] == g.data.here
  }

  /** Nothing but labels was made. */
  ghost predicate Numbered(g: Sketch, gs: Sketch) {
    gs.ids == g.ids && gs.nest == g.nest && gs.data.here == g.data.here && Frame(g, gs, {}, {})
  }

  ghost predicate LoopsFit(d: Data, loops: seq<Loop>, l: Label) {
    l in d.avail && forall k :: k in Exits(loops) ==> k in d.avail && d.avail[k] <= d.avail[l]
  }

  /** A block may begin with `l`. */
  ghost predicate CanOpen(g: Sketch, loops: seq<Loop>, l: Label) {
    Known(g, l) && !Opened(g, l) && InnerAll(g, l) && l !in Exits(loops) && LoopsFit(g.data, loops, l)
  }

  lemma OwnTarget(g: Sketch, gs: Sketch, g': Sketch, exits: set<Label>, opens: set<Label>, loops: seq<Loop>, l: Label)
    requires Own(g, gs, loops, l) && Numbered(g, gs) && Frame(gs, g', exits, opens) && l !in opens
        && g.data.here <= g'.data.here
    ensures Targetable(g', l)
  {
    hide Known, Opened, InnerAll, Fresh, Exits, IsMade;
    StaysUnopened(gs, g', exits, opens, l);
    AvailStays(gs, g', exits, opens, l);
  }

  lemma AvailStays(g: Sketch, g': Sketch, exits: set<Label>, opens: set<Label>, l: Label)
    requires Frame(g, g', exits, opens) && l in g.data.avail
    ensures l in g'.data.avail && g'.data.avail[l] == g.data.avail[l]
  {
    hide NewBlock, NewRef;
  }

  lemma OwnOpens(g: Sketch, gs: Sketch, g': Sketch, exits: set<Label>, opens: set<Label>, loops: seq<Loop>, l: Label)
    requires Own(g, gs, loops, l) && Numbered(g, gs) && Frame(gs, g', exits, opens) && l !in opens && g'.nest == g.nest
    requires LoopsOk(g, loops)
    ensures CanOpen(g', loops, l) && g'.data.avail[l] == g.data.here
  {
    hide Known, Opened, InnerAll, Fresh, Exits, IsMade, LoopsOk, Frame;
    StaysUnopened(gs, g', exits, opens, l);
    AvailStays(gs, g', exits, opens, l);
    InnerStays(g, g', l);
    ExitsHere(g, loops);
    forall k | k in Exits(loops) ensures k in g'.data.avail && g'.data.avail[k] <= g'.data.avail[l] {
      AvailStays(g, gs, {}, {}, k);
      AvailStays(gs, g', exits, opens, k);
    }
  }

  lemma ExitsHere(g: Sketch, loops: seq<Loop>)
    requires LoopsOk(g, loops)
    ensures forall l :: l in Exits(loops) ==> MayGo(g.data, l)
  {
    forall l | l in Exits(loops) ensures MayGo(g.data, l) {
      var x :| x in loops && (l == x.continueTo || l == x.breakTo);
      var k :| 0 <= k < |loops| && loops[k] == x;
      assert LoopOk(g, loops[k]);
    }
  }

  /** The graph with block `l` opened: what is available at `l` is here. */
  ghost function AfterOpen(g: Sketch, l: Label): Sketch
    requires l in g.data.avail
  {
    Grown(g, l).(data := g.data.(here := g.data.avail[l]))
  }

  lemma OpenFrame(g: Sketch, l: Label)
    requires |g.succ| == |g.ids| && l in g.data.avail
    ensures Frame(g, AfterOpen(g, l), {}, {l})
  {
    var g' := AfterOpen(g, l);
    GrownOpens(g', |g.ids|, l);
    forall v: nat, k: Label | At(g', v, k) ensures NewBlock(g, g', {l}, v, k) {}
    forall i: nat, k: Label | EdgeTo(g', i, k) ensures NewRef(g, g', {}, i, k) { assert EdgeTo(g, i, k); }
  }

  lemma OpenKeeps(g: Sketch, loops: seq<Loop>, l: Label)
    requires CanOpen(g, loops, l)
    requires Ok(g)
    ensures Ok(AfterOpen(g, l)) && Opened(AfterOpen(g, l), l)
  {
    hide Ok, Known, Opened, InnerAll, Exits;
    GrowKeeps(g, l);
    CountKeeps(Grown(g, l), AfterOpen(g, l));
    GrownOpens(AfterOpen(g, l), |g.ids|, l);
  }

  lemma GrownOpens(g: Sketch, i: nat, l: Label)
    requires At(g, i, l)
    ensures Opened(g, l)
  {}

  lemma LoopsOpen(g: Sketch, loops: seq<Loop>, l: Label)
    requires CanOpen(g, loops, l) && LoopsOk(g, loops) && |g.succ| == |g.ids|
    ensures LoopsOk(AfterOpen(g, l), loops)
  {
    hide Known, Opened, InnerAll, Exits, Targetable;
    var g' := AfterOpen(g, l);
    OpenFrame(g, l);
    forall k | 0 <= k < |loops| ensures LoopOk(g', loops[k]) {
      assert LoopOk(g, loops[k]);
      ExitIn(loops, k);
      ExitOpens(g, loops, l, loops[k].continueTo);
      ExitOpens(g, loops, l, loops[k].breakTo);
    }
  }

  lemma ExitIn(loops: seq<Loop>, k: nat)
    requires k < |loops|
    ensures loops[k].continueTo in Exits(loops) && loops[k].breakTo in Exits(loops)
  {
    assert loops[k] in loops;
  }

  lemma ExitOpens(g: Sketch, loops: seq<Loop>, l: Label, k: Label)
    requires CanOpen(g, loops, l) && k in Exits(loops) && Targetable(g, k) && Frame(g, AfterOpen(g, l), {}, {l})
    ensures Targetable(AfterOpen(g, l), k)
  {
    hide InnerAll, Exits, Known, Opened, HeadOf, Frame;
    TargetOpens(g, l, k);
  }

  /** A target stays one if what is promised at it is available at `l`. */
  lemma TargetOpens(g: Sketch, l: Label, k: Label)
    requires l in g.data.avail && k != l && Targetable(g, k) && Frame(g, AfterOpen(g, l), {}, {l})
    requires k in g.data.avail && g.data.avail[k] <= g.data.avail[l]
    ensures Targetable(AfterOpen(g, l), k)
  {
    hide InnerAll, At, HeadOf, IsMade;
    var g' := AfterOpen(g, l);
    if HeadOf(g, k) {
      HeadStays(g, g', k);
      KnownStays(g, g', k);
    } else {
      StaysUnopened(g, g', {}, {l}, k);
    }
  }

  // ----- loops -----

  lemma LoopsPush(g: Sketch, loops: seq<Loop>, x: Loop)
    requires LoopsOk(g, loops) && LoopOk(g, x)
    ensures LoopsOk(g, loops + [x]) && Exits(loops + [x]) == Exits(loops) + {x.continueTo, x.breakTo}
  {
    hide LoopOk;
    var all := loops + [x];
    forall k | 0 <= k < |all| ensures LoopOk(g, all[k]) { if k < |loops| { assert LoopOk(g, loops[k]); } }
    assert forall y :: y in all <==> y in loops || y == x;
  }

  lemma LoopsPop(g: Sketch, loops: seq<Loop>, x: Loop)
    requires LoopsOk(g, loops + [x])
    ensures LoopsOk(g, loops)
  {
    hide LoopOk;
    forall k | 0 <= k < |loops| ensures LoopOk(g, loops[k]) { assert LoopOk(g, (loops + [x])[k]); }
  }

  lemma LastLoop(g: Sketch, loops: seq<Loop>)
    requires LoopsOk(g, loops) && loops != []
    ensures var x := loops[|loops| - 1];
            Targetable(g, x.breakTo) && Targetable(g, x.continueTo) && x.breakTo in Exits(loops)
                && x.continueTo in Exits(loops)
  {
    hide Targetable;
    assert LoopOk(g, loops[|loops| - 1]);
    ExitIn(loops, |loops| - 1);
  }

  /** The graph with the head `l` of loop `n` opened. */
  ghost function AfterHead(g: Sketch, l: Label, n: nat): Sketch
    requires l in g.data.avail
  {
    Entered(AfterOpen(g, l), n)
  }

  lemma HeadKeeps(g: Sketch, loops: seq<Loop>, l: Label, n: nat)
    requires CanOpen(g, loops, l) && BodiesUnused(g, n) && n < g.nLabel && BodyFree(l, n)
    requires Ok(g)
    ensures Ok(AfterHead(g, l, n))
  {
    hide Ok, Known, Opened, InnerAll, Exits, BodiesUnused, BodyFree;
    OpenHeadKeeps(g, l, n);
    CountKeeps(Entered(Grown(g, l), n), AfterHead(g, l, n));
  }

  lemma HeadIsTarget(g: Sketch, l: Label, n: nat)
    requires Known(g, l) && l in g.data.avail
    ensures Targetable(AfterHead(g, l, n), l)
  {
    var g' := AfterHead(g, l, n);
    var x := g'.nest[|g.nest|];
    assert NestAt(g', |g.nest|, x) && At(g', x.lo, l);
  }

  /** A label of a loop's inside may be opened there. */
  lemma OwnOpensInside(g: Sketch, gs: Sketch, g': Sketch, exits: set<Label>, opens: set<Label>, loops: seq<Loop>,
                       l: Label, x: Nest)
    requires Own(g, gs, loops, l) && Numbered(g, gs) && Frame(gs, g', exits, opens) && l !in opens
        && g'.nest == g.nest + [x]
    requires IsMade(l) && KeyOf(l).n == x.n && BodyBase(KeyOf(l).base)
    requires LoopsOk(g, loops)
    ensures CanOpen(g', loops, l) && g'.data.avail[l] == g.data.here
  {
    hide Known, Opened, InnerAll, Fresh, Exits, IsMade, LoopsOk, Frame;
    StaysUnopened(gs, g', exits, opens, l);
    AvailStays(gs, g', exits, opens, l);
    InnerBody(g, g', x, l);
    ExitsHere(g, loops);
    forall k | k in Exits(loops) ensures k in g'.data.avail && g'.data.avail[k] <= g'.data.avail[l] {
      AvailStays(g, gs, {}, {}, k);
      AvailStays(gs, g', exits, opens, k);
    }
  }

  /** So it may when the loop's own targets are added. */
  lemma OpensInLoop(g: Sketch, loops: seq<Loop>, l: Label, x: Loop)
    requires CanOpen(g, loops, l) && l != x.continueTo && l != x.breakTo
        && Exits(loops + [x]) == Exits(loops) + {x.continueTo, x.breakTo}
    requires x.continueTo in g.data.avail && g.data.avail[x.continueTo] <= g.data.avail[l]
    requires x.breakTo in g.data.avail && g.data.avail[x.breakTo] <= g.data.avail[l]
    ensures CanOpen(g, loops + [x], l)
  {
    hide Known, Opened, InnerAll, Exits;
  }

  /** Code outside loop `n` uses none of its labels. */
  lemma ExitsFree(g: Sketch, gs: Sketch, g': Sketch, loops: seq<Loop>, n: nat)
    requires n == g.nLabel < gs.nLabel && LoopsOk(g, loops) && Frame(gs, g', Exits(loops), {}) && BodiesUnused(gs, n)
    ensures BodiesUnused(g', n) && n < g'.nLabel
  {
    hide Exits, LoopsOk, BodiesUnused, NewBlock, NewRef;
    ExitsKnown(g, loops);
    StillUnused(gs, g', Exits(loops), {}, n);
  }

  lemma FrameParams(g: Sketch, g': Sketch, exits: set<Label>, opens: set<Label>)
    requires Frame(g, g', exits, opens)
    ensures g'.data.params == g.data.params && g'.data.clean == g.data.clean
  {
    hide NewBlock, NewRef;
  }
}
