/** Where blocks land in the flat code. */
module Layout {
  import opened Cir
  import opened Bytecode

  /** The position of block `n`. */
  function Start(codes: seq<seq<StackOp>>, n: nat): nat
    requires n <= |codes|
  {
    if n == 0 then 0 else Start(codes, n - 1) + |codes[n - 1]|
  }

  /** `ops` stand in the code from position `pc`. */
  ghost predicate Holds(code: seq<StackOp>, pc: nat, ops: seq<StackOp>) {
    pc + |ops| <= |code| && code[pc..pc + |ops|] == ops
  }

  lemma HoldsAt(code: seq<StackOp>, pc: nat, ops: seq<StackOp>, k: nat)
    requires Holds(code, pc, ops) && k < |ops|
    ensures pc + k < |code| && code[pc + k] == ops[k]
  {
    assert code[pc..pc + |ops|][k] == ops[k];
  }

  lemma HoldsSplit(code: seq<StackOp>, pc: nat, a: seq<StackOp>, b: seq<StackOp>)
    requires Holds(code, pc, a + b)
    ensures Holds(code, pc, a) && Holds(code, pc + |a|, b)
  {
    assert code[pc..pc + |a|] == code[pc..pc + |a + b|][..|a|];
    assert code[pc + |a|..pc + |a| + |b|] == code[pc..pc + |a + b|][|a|..];
  }

  lemma {:induction false} ParseOps(lines: seq<Line>, ops: seq<StackOp>)
    ensures Parse(lines + OpLines(ops)) == (Parse(lines).0 + ops, Parse(lines).1)
  {
    var all := lines + OpLines(ops);
    if ops == [] {
      assert all == lines && Parse(lines).0 + ops == Parse(lines).0;
    } else {
      var init := ops[..|ops| - 1];
      assert all[..|all| - 1] == lines + OpLines(init);
      assert all[|all| - 1] == Ins(ops[|ops| - 1]);
      ParseOps(lines, init);
      assert ops == init + [ops[|ops| - 1]];
      assert Parse(lines).0 + init + [ops[|ops| - 1]] == Parse(lines).0 + ops;
    }
  }

  lemma ParseMark(lines: seq<Line>, l: Label)
    ensures Parse(lines + [Mark(l)]) == (Parse(lines).0, Parse(lines).1[l := |Parse(lines).0|])
  {
    assert (lines + [Mark(l)])[..|lines|] == lines;
  }

  /** Adding block `n - 1`: its code goes at the end, under its label. */
  lemma ParseBlock(ids: seq<Label>, codes: seq<seq<StackOp>>, n: nat)
    requires |ids| == |codes| && 0 < n <= |codes|
    ensures var (code, labels) := Parse(BlockLines(ids, codes, n - 1));
            Parse(BlockLines(ids, codes, n)) ==
            (code + codes[n - 1], if n > 1 then labels[ids[n - 1] := |code|] else labels)
  {
    var before := BlockLines(ids, codes, n - 1);
    if n > 1 {
      ParseMark(before, ids[n - 1]);
      ParseOps(before + [Mark(ids[n - 1])], codes[n - 1]);
    } else {
      assert before + [] == before;
      ParseOps(before, codes[n - 1]);
    }
  }

  lemma {:induction false} BlockPlaced(ids: seq<Label>, codes: seq<seq<StackOp>>, n: nat, k: nat)
    requires |ids| == |codes| && n <= |codes| && k <= n
    ensures |Parse(BlockLines(ids, codes, n)).0| == Start(codes, n)
    ensures k < n ==> Holds(Parse(BlockLines(ids, codes, n)).0, Start(codes, k), codes[k])
  {
    if n > 0 {
      BlockPlaced(ids, codes, n - 1, if k < n then k else n - 1);
      ParseBlock(ids, codes, n);
      var before := Parse(BlockLines(ids, codes, n - 1)).0;
      if k < n - 1 {
        assert (before + codes[n - 1])[Start(codes, k)..Start(codes, k) + |codes[k]|]
            == before[Start(codes, k)..Start(codes, k) + |codes[k]|];
      } else if k == n - 1 {
        assert (before + codes[n - 1])[|before|..|before| + |codes[n - 1]|] == codes[n - 1];
      }
    }
  }

  lemma OnlyThere(ids: seq<Label>, n: nat, l: Label)
    requires n < |ids| && NoDuplicates(ids) && ids[n] == l
    ensures forall k :: 0 <= k < n ==> ids[k] != l
  {
    forall k | 0 <= k < n ensures ids[k] != l { assert DistinctAt(ids, k, n); }
  }

  lemma {:induction false} LabelPlaced(ids: seq<Label>, codes: seq<seq<StackOp>>, n: nat, l: Label)
    requires |ids| == |codes| && n <= |codes| && NoDuplicates(ids)
    ensures var labels := Parse(BlockLines(ids, codes, n)).1;
            && (l in labels <==> exists k :: 1 <= k < n && ids[k] == l)
            && forall k :: 1 <= k < n && ids[k] == l ==> l in labels && labels[l] == Start(codes, k)
  {
    hide NoDuplicates, BlockLines;
    if n > 0 {
      LabelPlaced(ids, codes, n - 1, l);
      ParseBlock(ids, codes, n);
      BlockPlaced(ids, codes, n - 1, 0);
      if ids[n - 1] == l { OnlyThere(ids, n - 1, l); }
    } else {
      NoLines(ids, codes);
    }
  }

  lemma NoLines(ids: seq<Label>, codes: seq<seq<StackOp>>)
    requires |ids| == |codes|
    ensures Parse(BlockLines(ids, codes, 0)) == ([], map[])
  {}

  /** The layout of assembled code, all in one place. */
  lemma Assembled(params: seq<Name>, ids: seq<Label>, codes: seq<seq<StackOp>>, k: nat)
    requires |ids| == |codes| && NoDuplicates(ids) && k < |codes|
    ensures var c := Assemble(params, ids, codes);
            && c.params == params && |c.code| == Start(codes, |codes|)
            && Holds(c.code, Start(codes, k), codes[k])
            && (k > 0 ==> ids[k] in c.labels && c.labels[ids[k]] == Start(codes, k))
  {
    BlockPlaced(ids, codes, |codes|, k);
    LabelPlaced(ids, codes, |codes|, ids[k]);
  }

  /** Every label names a block other than the first. */
  lemma LabelsNameBlocks(params: seq<Name>, ids: seq<Label>, codes: seq<seq<StackOp>>, l: Label) returns (k: nat)
    requires |ids| == |codes| && NoDuplicates(ids) && l in Assemble(params, ids, codes).labels
    ensures 1 <= k < |codes| && ids[k] == l && Assemble(params, ids, codes).labels[l] == Start(codes, k)
  {
    LabelPlaced(ids, codes, |codes|, l);
    k :| 1 <= k < |codes| && ids[k] == l;
  }

  lemma {:induction false} AllPushed(xs: seq<Operand>, locals: set<Name>)
    requires NoGlobals(xs) && forall k :: 0 <= k < |xs| && xs[k].Reg? ==> xs[k].name in locals
    ensures PushAll(xs, locals).Some?
  {
    if xs != [] { AllPushed(xs[..|xs| - 1], locals); }
  }

  lemma {:induction false} AllLower(instrs: seq<Instr>, locals: set<Name>, next: Option<Label>)
    requires forall k :: 0 <= k < |instrs| ==> LowerInstr(instrs[k], locals, next).Some?
    ensures LowerInstrs(instrs, locals, next).Some?
  {
    hide LowerInstr;
    if instrs != [] { AllLower(instrs[1..], locals, next); }
  }
}
