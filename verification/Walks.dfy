/** Execution paths at the level of instructions, and what it means for a register
    to be defined on every path to a point. */
module Walks {
  import opened Cir
  import opened Graphs
  import opened FlowGraph

  /** A point of the program: instruction `index` of a block. */
  datatype Pos = Pos(block: Label, index: nat)

  ghost predicate InCode(f: Function, q: Pos) {
    q.block in BlockMap(f.blocks) && q.index < |BlockMap(f.blocks)[q.block].instrs|
  }

  ghost function InstrAt(f: Function, q: Pos): Instr
    requires InCode(f, q)
  {
    BlockMap(f.blocks)[q.block].instrs[q.index]
  }

  /** From one instruction to the next, or from the last of a block to the first of a successor. */
  ghost predicate StepsTo(f: Function, a: Pos, b: Pos) {
    && InCode(f, a) && InCode(f, b)
    && var blocks := BlockMap(f.blocks);
       || (b.block == a.block && b.index == a.index + 1)
       || (a.index + 1 == |blocks[a.block].instrs| && b.index == 0 && b.block in blocks[a.block].Successors())
  }

  /** A path of instructions from the first one of the function. */
  ghost predicate IsWalk(f: Function, w: seq<Pos>)
    requires f.blocks != []
  {
    && w != [] && w[0] == Pos(f.blocks[0].id, 0) && InCode(f, w[0])
    && forall i :: 0 <= i < |w| - 1 ==> StepsTo(f, w[i], w[i + 1])
  }

  ghost predicate WalksTo(f: Function, w: seq<Pos>, q: Pos)
    requires f.blocks != []
  {
    IsWalk(f, w) && w[|w| - 1] == q
  }

  lemma WalkInCode(f: Function, w: seq<Pos>, i: nat)
    requires f.blocks != [] && IsWalk(f, w) && i < |w|
    ensures InCode(f, w[i])
  {
    if i > 0 { assert StepsTo(f, w[i - 1], w[i - 1 + 1]); }
  }

  lemma WalkPrefix(f: Function, w: seq<Pos>, n: nat)
    requires f.blocks != [] && IsWalk(f, w) && 0 < n <= |w|
    ensures WalksTo(f, w[..n], w[n - 1])
  {}

  lemma WalkExtends(f: Function, w: seq<Pos>, q: Pos)
    requires f.blocks != [] && IsWalk(f, w) && StepsTo(f, w[|w| - 1], q)
    ensures WalksTo(f, w + [q], q)
  {
    var v := w + [q];
    forall i | 0 <= i < |v| - 1 ensures StepsTo(f, v[i], v[i + 1]) {
      if i < |w| - 1 { assert v[i] == w[i] && v[i + 1] == w[i + 1]; }
    }
  }

  /** Two walks through the same point can be spliced there. */
  lemma WalkSplices(f: Function, w: seq<Pos>, i: nat, j: nat)
    requires f.blocks != [] && IsWalk(f, w) && i <= j < |w| && w[i] == w[j]
    ensures IsWalk(f, w[..i] + w[j..])
  {
    var v := w[..i] + w[j..];
    forall k | 0 <= k < |v| - 1 ensures StepsTo(f, v[k], v[k + 1]) {
      if k + 1 < i {
        assert v[k] == w[k] && v[k + 1] == w[k + 1];
      } else if k + 1 == i {
        assert v[k] == w[k] && v[k + 1] == w[j] == w[i];
      } else {
        assert v[k] == w[k - i + j] && v[k + 1] == w[k - i + j + 1];
      }
    }
    if i == 0 { assert v[0] == w[j]; WalkInCode(f, w, j); } else { assert v[0] == w[0]; }
  }

  // ----- definitions -----

  ghost predicate DefinesAt(f: Function, q: Pos, r: Name) {
    InCode(f, q) && InstrAt(f, q).dest == Some(r)
  }

  /** Some point of `w` before its end defines `r`. */
  ghost predicate DefinedOn(f: Function, w: seq<Pos>, r: Name) {
    exists j :: 0 <= j < |w| - 1 && DefinesAt(f, w[j], r)
  }

  /** `r` is a parameter or defined on every path to `q`. */
  ghost predicate Available(f: Function, q: Pos, r: Name)
    requires f.blocks != []
  {
    r in f.params || forall w :: WalksTo(f, w, q) ==> DefinedOn(f, w, r)
  }

  ghost predicate UseDefined(f: Function, q: Pos, k: nat)
    requires f.blocks != []
  {
    InCode(f, q) && k < |InstrAt(f, q).args| && InstrAt(f, q).args[k].Reg? ==>
        Available(f, q, InstrAt(f, q).args[k].name)
  }

  /** Every use on every path from the entry is preceded by a definition, or reads a parameter. */
  ghost predicate UsesDefined(f: Function)
    requires f.blocks != []
  {
    forall q: Pos, k: nat :: UseDefined(f, q, k)
  }

  lemma DefinedOnLonger(f: Function, w: seq<Pos>, v: seq<Pos>, r: Name)
    requires DefinedOn(f, w, r)
    ensures DefinedOn(f, w + v, r)
  {
    var j :| 0 <= j < |w| - 1 && DefinesAt(f, w[j], r);
    assert (w + v)[j] == w[j];
  }

  // ----- within a block -----

  /** Does one of the first `n` instructions of the block define `r`? */
  ghost predicate DefinesBefore(f: Function, l: Label, n: nat, r: Name) {
    exists k :: 0 <= k < n && DefinesAt(f, Pos(l, k), r)
  }

  /** A walk to the start of a block goes on to any of its instructions. */
  lemma {:induction false} WalkWithin(f: Function, w: seq<Pos>, l: Label, i: nat) returns (v: seq<Pos>)
    requires f.blocks != [] && WalksTo(f, w, Pos(l, 0)) && InCode(f, Pos(l, i))
    ensures WalksTo(f, v, Pos(l, i)) && |v| == |w| + i && v[..|w|] == w
    ensures forall k :: 0 <= k <= i ==> v[|w| - 1 + k] == Pos(l, k)
  {
    if i == 0 {
      v := w;
    } else {
      var u := WalkWithin(f, w, l, i - 1);
      WalkExtends(f, u, Pos(l, i));
      v := u + [Pos(l, i)];
      assert v[..|w|] == u[..|w|];
    }
  }

  /** Every walk into the middle of a block came through its start. */
  lemma {:induction false} WalkFromStart(f: Function, w: seq<Pos>, l: Label, i: nat)
    requires f.blocks != [] && WalksTo(f, w, Pos(l, i))
    ensures |w| > i && WalksTo(f, w[..|w| - i], Pos(l, 0))
    ensures forall k :: 0 <= k <= i ==> w[|w| - 1 - i + k] == Pos(l, k)
  {
    if i > 0 {
      assert |w| > 1 && StepsTo(f, w[|w| - 2], w[|w| - 2 + 1]);
      var u := w[..|w| - 1];
      WalkPrefix(f, w, |w| - 1);
      assert u[|u| - 1] == Pos(l, i - 1);
      WalkFromStart(f, u, l, i - 1);
      assert u[..|u| - (i - 1)] == w[..|w| - i];
      forall k | 0 <= k <= i ensures w[|w| - 1 - i + k] == Pos(l, k) {
        if k < i { assert u[|u| - 1 - (i - 1) + k] == Pos(l, k); }
      }
    } else {
      assert w[..|w| - 0] == w;
    }
  }

  /** Availability inside a block: at its start, or defined since. */
  lemma AvailableWithin(f: Function, l: Label, i: nat, r: Name)
    requires f.blocks != [] && InCode(f, Pos(l, i)) && InCode(f, Pos(l, 0))
    ensures Available(f, Pos(l, i), r) <==> Available(f, Pos(l, 0), r) || DefinesBefore(f, l, i, r)
  {
    if DefinesBefore(f, l, i, r) {
      var k :| 0 <= k < i && DefinesAt(f, Pos(l, k), r);
      forall w | WalksTo(f, w, Pos(l, i)) ensures DefinedOn(f, w, r) {
        WalkFromStart(f, w, l, i);
        assert DefinesAt(f, w[|w| - 1 - i + k], r);
      }
    } else if Available(f, Pos(l, 0), r) && r !in f.params {
      forall w | WalksTo(f, w, Pos(l, i)) ensures DefinedOn(f, w, r) {
        WalkFromStart(f, w, l, i);
        DefinedOnLonger(f, w[..|w| - i], w[|w| - i..], r);
        assert w[..|w| - i] + w[|w| - i..] == w;
      }
    }
    if Available(f, Pos(l, i), r) && r !in f.params && !DefinesBefore(f, l, i, r) {
      forall w | WalksTo(f, w, Pos(l, 0)) ensures DefinedOn(f, w, r) {
        var v := WalkWithin(f, w, l, i);
        var j :| 0 <= j < |v| - 1 && DefinesAt(f, v[j], r);
        if j >= |w| - 1 {
          assert v[|w| - 1 + (j - (|w| - 1))] == Pos(l, j - (|w| - 1));
        } else {
          assert v[..|w|][j] == w[j];
        }
      }
    }
  }

  /** Availability at the start of a block with predecessors: at the end of each of them. */
  lemma AvailableAtStart(f: Function, l: Label, r: Name)
    requires f.blocks != [] && InCode(f, Pos(l, 0)) && l != f.blocks[0].id && r !in f.params
    ensures Available(f, Pos(l, 0), r) <==> forall q :: StepsTo(f, q, Pos(l, 0)) ==> AvailableAfter(f, q, r)
  {
    hide InCode, StepsTo, Available, AvailableAfter;
    if Available(f, Pos(l, 0), r) {
      forall q | StepsTo(f, q, Pos(l, 0)) ensures AvailableAfter(f, q, r) { AvailableBack(f, l, r, q); }
    }
    if forall q :: StepsTo(f, q, Pos(l, 0)) ==> AvailableAfter(f, q, r) { AvailableOn(f, l, r); }
  }

  lemma AvailableBack(f: Function, l: Label, r: Name, q: Pos)
    requires f.blocks != [] && r !in f.params && Available(f, Pos(l, 0), r) && StepsTo(f, q, Pos(l, 0))
    ensures AvailableAfter(f, q, r)
  {
    hide InCode, StepsTo;
    if !DefinesAt(f, q, r) {
      forall w | WalksTo(f, w, q) ensures DefinedOn(f, w, r) {
        WalkExtends(f, w, Pos(l, 0));
        var v := w + [Pos(l, 0)];
        var j :| 0 <= j < |v| - 1 && DefinesAt(f, v[j], r);
        assert v[j] == w[j];
      }
    }
  }

  lemma AvailableOn(f: Function, l: Label, r: Name)
    requires f.blocks != [] && l != f.blocks[0].id && r !in f.params
    requires forall q :: StepsTo(f, q, Pos(l, 0)) ==> AvailableAfter(f, q, r)
    ensures Available(f, Pos(l, 0), r)
  {
    hide InCode, StepsTo;
    forall w | WalksTo(f, w, Pos(l, 0)) ensures DefinedOn(f, w, r) {
      var n := |w| - 1;
      assert n > 0;
      var q := w[n - 1];
      assert StepsTo(f, q, w[n - 1 + 1]);
      assert AvailableAfter(f, q, r);
      if !DefinesAt(f, q, r) {
        WalkPrefix(f, w, n);
        assert DefinedOn(f, w[..n], r);
        DefinedOnLonger(f, w[..n], w[n..], r);
        assert w[..n] + w[n..] == w;
      }
    }
  }

  ghost predicate AvailableAfter(f: Function, q: Pos, r: Name)
    requires f.blocks != []
  {
    DefinesAt(f, q, r) || Available(f, q, r)
  }
}
