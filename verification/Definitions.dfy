/** Counting the definitions of a register, and the size of a function. */
module Definitions {
  import opened Cir
  import opened FlowGraph
  import opened Walks
  import opened Substitution

  function CountIn(instrs: seq<Instr>, r: Name): nat {
    if instrs == [] then 0
    else CountIn(instrs[..|instrs| - 1], r) + (if instrs[|instrs| - 1].dest == Some(r) then 1 else 0)
  }

  function CountDefs(blocks: seq<BasicBlock>, r: Name): nat {
    if blocks == [] then 0
    else CountDefs(blocks[..|blocks| - 1], r) + CountIn(blocks[|blocks| - 1].instrs, r)
  }

  lemma {:induction false} CountedIn(instrs: seq<Instr>, r: Name, i: nat)
    requires i < |instrs| && instrs[i].dest == Some(r)
    ensures CountIn(instrs, r) >= 1
    ensures forall j :: 0 <= j < |instrs| && j != i && instrs[j].dest == Some(r) ==> CountIn(instrs, r) >= 2
  {
    var n := |instrs| - 1;
    if i < n {
      CountedIn(instrs[..n], r, i);
      forall j | 0 <= j < |instrs| && j != i && instrs[j].dest == Some(r) ensures CountIn(instrs, r) >= 2 {
        if j < n { assert instrs[..n][j] == instrs[j]; }
      }
    } else {
      forall j | 0 <= j < |instrs| && j != i && instrs[j].dest == Some(r) ensures CountIn(instrs, r) >= 2 {
        assert instrs[..n][j].dest == Some(r);
        CountedIn(instrs[..n], r, j);
      }
    }
  }

  lemma {:induction false} CountedInBlock(blocks: seq<BasicBlock>, r: Name, n: nat)
    requires n < |blocks|
    ensures CountDefs(blocks, r) >= CountIn(blocks[n].instrs, r)
    ensures forall k ::
        0 <= k < |blocks| && k != n ==>
            CountDefs(blocks, r) >= CountIn(blocks[n].instrs, r) + CountIn(blocks[k].instrs, r)
  {
    hide CountIn;
    var last := |blocks| - 1;
    if n < last {
      CountedInBlock(blocks[..last], r, n);
      forall k | 0 <= k < |blocks| && k != n
        ensures CountDefs(blocks, r) >= CountIn(blocks[n].instrs, r) + CountIn(blocks[k].instrs, r) {
        if k < last { assert blocks[..last][k] == blocks[k]; }
      }
    } else {
      forall k | 0 <= k < |blocks| && k != n
        ensures CountDefs(blocks, r) >= CountIn(blocks[n].instrs, r) + CountIn(blocks[k].instrs, r) {
        CountedInBlock(blocks[..last], r, k);
        assert blocks[..last][k] == blocks[k];
      }
    }
  }

  /** A register defined at most once is defined at one place. */
  lemma OnlyPlace(f: Function, r: Name, n: nat, i: nat, k: nat, j: nat)
    requires CountDefs(f.blocks, r) <= 1 && n < |f.blocks| && k < |f.blocks|
    requires i < |f.blocks[n].instrs| && j < |f.blocks[k].instrs|
    requires f.blocks[n].instrs[i].dest == Some(r) && f.blocks[k].instrs[j].dest == Some(r)
    ensures n == k && i == j
  {
    hide CountIn, CountDefs;
    CountedInBlock(f.blocks, r, n);
    CountedIn(f.blocks[n].instrs, r, i);
    CountedIn(f.blocks[k].instrs, r, j);
  }

  /** The place of a defining point in the text. */
  lemma PlaceOf(f: Function, q: Pos, r: Name) returns (n: nat)
    requires DefinesAt(f, q, r)
    ensures n < |f.blocks| && f.blocks[n].id == q.block && q.index < |f.blocks[n].instrs|
    ensures f.blocks[n].instrs[q.index] == InstrAt(f, q) && f.blocks[n].instrs[q.index].dest == Some(r)
  {
    BlockMapHas(f.blocks, q.block);
    n :| 0 <= n < |f.blocks| && f.blocks[n] == BlockMap(f.blocks)[q.block];
  }

  lemma OnlyPoint(f: Function, r: Name, p: Pos, q: Pos)
    requires CountDefs(f.blocks, r) <= 1 && DefinesAt(f, p, r) && DefinesAt(f, q, r)
    ensures p == q
  {
    hide CountDefs, DefinesAt;
    var n := PlaceOf(f, p, r);
    var k := PlaceOf(f, q, r);
    OnlyPlace(f, r, n, p.index, k, q.index);
  }

  /** Instructions naming `r` as their result, with blocks and instructions as members. */
  lemma OnlyInstr(f: Function, r: Name, b: BasicBlock, ins: Instr, b': BasicBlock, ins': Instr)
    requires CountDefs(f.blocks, r) <= 1 && b in f.blocks && b' in f.blocks && ins in b.instrs && ins' in b'.instrs
    requires ins.dest == Some(r) && ins'.dest == Some(r)
    ensures ins == ins' && b == b'
  {
    hide CountDefs;
    var n :| 0 <= n < |f.blocks| && f.blocks[n] == b;
    var k :| 0 <= k < |f.blocks| && f.blocks[k] == b';
    var i :| 0 <= i < |b.instrs| && b.instrs[i] == ins;
    var j :| 0 <= j < |b'.instrs| && b'.instrs[j] == ins';
    OnlyPlace(f, r, n, i, k, j);
  }

  /** Registers with exactly one definition. */
  method SingleDefs(f: Function) returns (single: set<Name>)
    ensures forall r :: r in single <==> CountDefs(f.blocks, r) == 1
  {
    hide CountIn, CountDefs;
    var counts: map<Name, nat> := map[];
    CountNone();
    for n := 0 to |f.blocks|
      invariant forall r :: Counted(counts, r) == CountDefs(f.blocks[..n], r)
    {
      var instrs := f.blocks[n].instrs;
      for i := 0 to |instrs|
        invariant forall r :: Counted(counts, r) == CountDefs(f.blocks[..n], r) + CountIn(instrs[..i], r)
      {
        ghost var before := counts;
        var d := instrs[i].dest;
        if d.Some? {
          counts := counts[d.value := Counted(counts, d.value) + 1];
        }
        forall r ensures Counted(counts, r) == CountDefs(f.blocks[..n], r) + CountIn(instrs[..i + 1], r) {
          CountNext(instrs, i, r);
          assert Counted(before, r) == CountDefs(f.blocks[..n], r) + CountIn(instrs[..i], r);
        }
      }
      forall r ensures Counted(counts, r) == CountDefs(f.blocks[..n + 1], r) {
        CountNextBlock(f.blocks, n, r);
        assert instrs[..|instrs|] == instrs;
      }
    }
    assert f.blocks[..|f.blocks|] == f.blocks;
    single := set r | r in counts && counts[r] == 1;
  }

  function Counted(counts: map<Name, nat>, r: Name): nat {
    if r in counts then counts[r] else 0
  }

  lemma CountNone()
    ensures forall r :: CountIn([], r) == 0 && CountDefs([], r) == 0
  {}

  lemma CountNext(instrs: seq<Instr>, i: nat, r: Name)
    requires i < |instrs|
    ensures CountIn(instrs[..i + 1], r) == CountIn(instrs[..i], r) + (if instrs[i].dest == Some(r) then 1 else 0)
  {
    assert instrs[..i + 1][..i] == instrs[..i];
  }

  lemma CountNextBlock(blocks: seq<BasicBlock>, n: nat, r: Name)
    requires n < |blocks|
    ensures CountDefs(blocks[..n + 1], r) == CountDefs(blocks[..n], r) + CountIn(blocks[n].instrs, r)
  {
    assert blocks[..n + 1][..n] == blocks[..n];
  }

  // ----- rewriting adds no definition -----

  lemma {:induction false} CountFirst(instrs: seq<Instr>, r: Name)
    requires instrs != []
    ensures CountIn(instrs, r) == (if instrs[0].dest == Some(r) then 1 else 0) + CountIn(instrs[1..], r)
  {
    var n := |instrs| - 1;
    if n > 0 {
      CountFirst(instrs[..n], r);
      assert instrs[..n][1..] == instrs[1..][..n - 1];
    } else {
      assert instrs[..0] == [] && instrs[1..] == [];
    }
  }

  lemma {:induction false} RewriteCounts(s: Sub, branches: bool, instrs: seq<Instr>, r: Name)
    ensures CountIn(Rewrite(s, branches, instrs), r) <= CountIn(instrs, r)
  {
    hide CountIn;
    if instrs != [] {
      RewriteCounts(s, branches, instrs[1..], r);
      CountFirst(instrs, r);
      if !Dropped(s, instrs[0]) {
        var rest := Rewrite(s, branches, instrs[1..]);
        var first := RewriteInstr(s, branches, instrs[0]);
        CountFirst([first] + rest, r);
        assert ([first] + rest)[1..] == rest;
      }
    }
  }

  lemma {:induction false} RewriteBlocksCount(s: Sub, branches: bool, blocks: seq<BasicBlock>,
                                              blocks': seq<BasicBlock>, r: Name)
    requires |blocks'| == |blocks| && forall n ::
        0 <= n < |blocks| ==> blocks'[n] == RewriteBlock(s, branches, blocks[n])
    ensures CountDefs(blocks', r) <= CountDefs(blocks, r)
  {
    hide CountIn, Rewrite;
    if blocks != [] {
      var n := |blocks| - 1;
      RewriteBlocksCount(s, branches, blocks[..n], blocks'[..n], r);
      assert blocks'[n] == RewriteBlock(s, branches, blocks[n]);
      RewriteCounts(s, branches, blocks[n].instrs, r);
    }
  }

  // ----- size: instructions, and conditional branches again -----

  function Weight(ins: Instr): nat {
    if ins.op.BrCond? then 2 else 1
  }

  function SizeIn(instrs: seq<Instr>): nat {
    if instrs == [] then 0 else Weight(instrs[0]) + SizeIn(instrs[1..])
  }

  function SizeOf(blocks: seq<BasicBlock>): nat {
    if blocks == [] then 0 else SizeIn(blocks[0].instrs) + SizeOf(blocks[1..])
  }

  lemma {:induction false} RewriteShrinks(s: Sub, branches: bool, instrs: seq<Instr>)
    ensures SizeIn(Rewrite(s, branches, instrs)) <= SizeIn(instrs)
    ensures (exists ins :: ins in instrs && Dropped(s, ins)) ==> SizeIn(Rewrite(s, branches, instrs)) < SizeIn(instrs)
  {
    if instrs != [] {
      RewriteShrinks(s, branches, instrs[1..]);
      assert instrs == [instrs[0]] + instrs[1..];
    }
  }

  lemma {:induction false} BlocksShrink(s: Sub, branches: bool, blocks: seq<BasicBlock>, blocks': seq<BasicBlock>)
    requires |blocks'| == |blocks| && forall n ::
        0 <= n < |blocks| ==> blocks'[n] == RewriteBlock(s, branches, blocks[n])
    ensures SizeOf(blocks') <= SizeOf(blocks)
    ensures (exists n :: 0 <= n < |blocks| && SizeIn(blocks'[n].instrs) < SizeIn(blocks[n].instrs)) ==>
        SizeOf(blocks') < SizeOf(blocks)
  {
    hide Rewrite, SizeIn;
    if blocks != [] {
      assert blocks'[0] == RewriteBlock(s, branches, blocks[0]);
      RewriteShrinks(s, branches, blocks[0].instrs);
      BlocksShrink(s, branches, blocks[1..], blocks'[1..]);
      if n :| 0 <= n < |blocks| && SizeIn(blocks'[n].instrs) < SizeIn(blocks[n].instrs) {
        if n > 0 { assert blocks[1..][n - 1] == blocks[n] && blocks'[1..][n - 1] == blocks'[n]; }
      }
    }
  }

  /** Dropping any definition makes the function smaller. */
  lemma DropShrinks(s: Sub, branches: bool, f: Function, b: BasicBlock, ins: Instr)
    requires b in f.blocks && ins in b.instrs && Dropped(s, ins)
    ensures SizeOf(RewriteFunction(s, branches, f).blocks) < SizeOf(f.blocks)
  {
    hide Rewrite, SizeIn, SizeOf;
    var n :| 0 <= n < |f.blocks| && f.blocks[n] == b;
    RewriteShrinks(s, branches, b.instrs);
    BlocksShrink(s, branches, f.blocks, RewriteFunction(s, branches, f).blocks);
  }
}
