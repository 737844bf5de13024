/** The other emitter's flat code: blocks are laid out with block numbers for targets, and a second
    pass puts addresses in their place.  Running it by program counter follows the blocks. */
module AddressPatching {
  import opened Cir
  import opened Bytecode

  // ----- blocks already lowered -----

  /** How a block ends, once its straight-line code has run. */
  datatype Ending =
    | Returns
    | Goes(target: Label)
    | Branches(thenTarget: Label, elseTarget: Label)    // on the value the code has pushed

  datatype Body = Body(id: Label, ops: seq<StackOp>, ending: Ending)

  predicate Straight(op: StackOp) {
    !op.Jmp? && !op.Jz? && !op.RetOp?
  }

  /** Straight-line code; a block that returns has the return as its last operation. */
  ghost predicate WellEnded(b: Body) {
    if b.ending.Returns? then
      && b.ops != [] && b.ops[|b.ops| - 1].RetOp?
      && forall k :: 0 <= k < |b.ops| - 1 ==> Straight(b.ops[k])
    else forall k :: 0 <= k < |b.ops| ==> Straight(b.ops[k])
  }

  /** The number of the first block with this label, or the number of blocks. */
  function NumberOf(blocks: seq<Body>, l: Label): (n: nat)
    ensures n <= |blocks| && (n < |blocks| ==> blocks[n].id == l)
    ensures n == |blocks| ==> forall k :: 0 <= k < |blocks| ==> blocks[k].id != l
  {
    if blocks == [] then 0
    else if blocks[0].id == l then 0
    else
      var n := NumberOf(blocks[1..], l);
      assert n < |blocks| - 1 ==> blocks[1..][n] == blocks[n + 1];
      assert forall k :: 0 < k < |blocks| ==> blocks[k] == blocks[1..][k - 1];
      n + 1
  }

  // ----- the two passes -----

  /** An operation, or a jump to a block number or, once patched, to an address. */
  datatype FlatOp = Does(op: StackOp) | Jump(to: nat) | JumpIfZero(to: nat)

  function PlainOps(ops: seq<StackOp>): (r: seq<FlatOp>)
    ensures |r| == |ops| && forall k :: 0 <= k < |ops| ==> r[k] == Does(ops[k])
  {
    seq(|ops|, k requires 0 <= k < |ops| => Does(ops[k]))
  }

  /** A jump to the block that comes next anyway is left out. */
  function JumpUnlessNext(target: nat, current: nat): seq<FlatOp> {
    if target == current + 1 then [] else [Jump(target)]
  }

  function Transfer(blocks: seq<Body>, b: nat): seq<FlatOp>
    requires b < |blocks|
  {
    match blocks[b].ending
    case Returns => []
    case Goes(l) => JumpUnlessNext(NumberOf(blocks, l), b)
    case Branches(t, e) => [JumpIfZero(NumberOf(blocks, e))] + JumpUnlessNext(NumberOf(blocks, t), b)
  }

  /** The code of a block after the first pass. */
  function Segment(blocks: seq<Body>, b: nat): seq<FlatOp>
    requires b < |blocks|
  {
    PlainOps(blocks[b].ops) + Transfer(blocks, b)
  }

  /** The first `n` blocks laid out. */
  function LaidOut(blocks: seq<Body>, n: nat): seq<FlatOp>
    requires n <= |blocks|
  {
    if n == 0 then [] else LaidOut(blocks, n - 1) + Segment(blocks, n - 1)
  }

  /** Where block `n` starts. */
  function Address(blocks: seq<Body>, n: nat): nat
    requires n <= |blocks|
  {
    |LaidOut(blocks, n)|
  }

  /** A block number turned into an address; an unknown one into a trap. */
  function Patched(blocks: seq<Body>, op: FlatOp): FlatOp {
    match op
    case Does(_) => op
    case Jump(n) => if n < |blocks| then Jump(Address(blocks, n)) else Does(TrapOp)
    case JumpIfZero(n) => if n < |blocks| then JumpIfZero(Address(blocks, n)) else Does(TrapOp)
  }

  ghost predicate IsPatched(blocks: seq<Body>, code: seq<FlatOp>) {
    var laid := LaidOut(blocks, |blocks|);
    |code| == |laid| && forall i :: 0 <= i < |laid| ==> code[i] == Patched(blocks, laid[i])
  }

  /** Every jump goes to a block there is. */
  ghost predicate TargetsKnown(blocks: seq<Body>, laid: seq<FlatOp>) {
    forall i :: 0 <= i < |laid| && !laid[i].Does? ==> laid[i].to < |blocks|
  }

  /** The positions of jumps in what is laid out. */
  ghost predicate JumpsAt(code: seq<FlatOp>, branchAt: seq<nat>) {
    && (forall j :: 0 <= j < |branchAt| ==> branchAt[j] < |code|)
    && (forall i, j :: 0 <= i < j < |branchAt| ==> branchAt[i] != branchAt[j])
    && forall i: nat :: i < |code| ==> (i in branchAt <==> !code[i].Does?)
  }

  lemma {:induction false} LaidOutPrefix(blocks: seq<Body>, n: nat, m: nat)
    requires n <= m <= |blocks|
    ensures LaidOut(blocks, n) <= LaidOut(blocks, m)
  {
    if n < m { LaidOutPrefix(blocks, n, m - 1); }
  }

  /** Append a jump, noting where it is, unless it goes to the next block. */
  method AppendJump(target: nat, current: nat, code: seq<FlatOp>, branchAt: seq<nat>)
      returns (code': seq<FlatOp>, branchAt': seq<nat>)
    requires JumpsAt(code, branchAt)
    ensures code' == code + JumpUnlessNext(target, current) && JumpsAt(code', branchAt')
  {
    if target == current + 1 {
      assert code + [] == code;
      return code, branchAt;
    }
    code', branchAt' := code + [Jump(target)], branchAt + [|code|];
  }

  method AppendTest(target: nat, code: seq<FlatOp>, branchAt: seq<nat>)
    returns (code': seq<FlatOp>, branchAt': seq<nat>)
    requires JumpsAt(code, branchAt)
    ensures code' == code + [JumpIfZero(target)] && JumpsAt(code', branchAt')
  {
    code', branchAt' := code + [JumpIfZero(target)], branchAt + [|code|];
  }

  /** The code of one block. */
  method AppendBlock(blocks: seq<Body>, b: nat, code: seq<FlatOp>, branchAt: seq<nat>)
    returns (code': seq<FlatOp>, branchAt': seq<nat>)
    requires b < |blocks| && JumpsAt(code, branchAt)
    ensures code' == code + Segment(blocks, b) && JumpsAt(code', branchAt')
  {
    hide NumberOf, JumpsAt;
    PlainStays(code, branchAt, blocks[b].ops);
    code', branchAt' := code + PlainOps(blocks[b].ops), branchAt;
    ghost var plain := code';
    match blocks[b].ending {
      case Returns =>
      case Goes(l) => code', branchAt' := AppendJump(NumberOf(blocks, l), b, code', branchAt');
      case Branches(t, e) =>
        code', branchAt' := AppendTest(NumberOf(blocks, e), code', branchAt');
        code', branchAt' := AppendJump(NumberOf(blocks, t), b, code', branchAt');
    }
    assert code' == plain + Transfer(blocks, b);
  }

  /** Pass 1: lay the blocks out, with block numbers for targets. */
  method LayOut(blocks: seq<Body>) returns (code: seq<FlatOp>, start: seq<nat>, branchAt: seq<nat>)
    ensures code == LaidOut(blocks, |blocks|) && JumpsAt(code, branchAt)
    ensures |start| == |blocks| && forall n :: 0 <= n < |blocks| ==> start[n] == Address(blocks, n)
  {
    hide JumpsAt, Segment;
    code, start, branchAt := [], [], [];
    NoJumps();
    for b := 0 to |blocks|
      invariant code == LaidOut(blocks, b) && JumpsAt(code, branchAt)
      invariant |start| == b && forall n :: 0 <= n < b ==> start[n] == Address(blocks, n)
    {
      start := start + [|code|];
      code, branchAt := AppendBlock(blocks, b, code, branchAt);
    }
  }

  lemma NoJumps()
    ensures JumpsAt([], [])
  {}

  lemma PlainStays(code: seq<FlatOp>, branchAt: seq<nat>, ops: seq<StackOp>)
    requires JumpsAt(code, branchAt)
    ensures JumpsAt(code + PlainOps(ops), branchAt)
  {}

  /** The first `n` jumps go to blocks there are. */
  ghost predicate Within(blocks: seq<Body>, laid: seq<FlatOp>, branchAt: seq<nat>, n: nat)
    requires JumpsAt(laid, branchAt) && n <= |branchAt|
  {
    forall j :: 0 <= j < n ==> branchAt[j] in branchAt && laid[branchAt[j]].to < |blocks|
  }

  lemma JumpsKnown(blocks: seq<Body>, laid: seq<FlatOp>, branchAt: seq<nat>)
    requires JumpsAt(laid, branchAt)
    ensures TargetsKnown(blocks, laid) <==> Within(blocks, laid, branchAt, |branchAt|)
  {
    if Within(blocks, laid, branchAt, |branchAt|) {
      forall i: nat | i < |laid| && !laid[i].Does? ensures laid[i].to < |blocks| {
        assert i in branchAt;
        var j :| 0 <= j < |branchAt| && branchAt[j] == i;
      }
    }
    if TargetsKnown(blocks, laid) {
      forall j | 0 <= j < |branchAt| ensures laid[branchAt[j]].to < |blocks| { assert branchAt[j] in branchAt; }
    }
  }

  predicate IsKnown(blocks: seq<Body>, l: Label) {
    NumberOf(blocks, l) < |blocks|
  }

  /** The labels the second pass asks about: all but that of a jump at the very end, whose unknown
      target looks like the next block, so that the jump is left out. */
  predicate LabelsAsked(blocks: seq<Body>, b: nat)
    requires b < |blocks|
  {
    match blocks[b].ending
    case Returns => true
    case Goes(l) => IsKnown(blocks, l) || b + 1 == |blocks|
    case Branches(t, e) => IsKnown(blocks, e) && (IsKnown(blocks, t) || b + 1 == |blocks|)
  }

  lemma SegmentKnown(blocks: seq<Body>, b: nat)
    requires b < |blocks|
    ensures TargetsKnown(blocks, Segment(blocks, b)) <==> LabelsAsked(blocks, b)
  {
    hide NumberOf;
    JoinKnown(blocks, PlainOps(blocks[b].ops), Transfer(blocks, b));
    assert TargetsKnown(blocks, PlainOps(blocks[b].ops));
    TransferKnown(blocks, b);
  }

  lemma TransferKnown(blocks: seq<Body>, b: nat)
    requires b < |blocks|
    ensures TargetsKnown(blocks, Transfer(blocks, b)) <==> LabelsAsked(blocks, b)
  {
    hide NumberOf;
    var t: seq<FlatOp> := Transfer(blocks, b);
    if TargetsKnown(blocks, t) {
      if |t| > 0 { assert t[0].to < |blocks|; }
      if |t| > 1 { assert t[1].to < |blocks|; }
    }
  }

  lemma JoinKnown(blocks: seq<Body>, a: seq<FlatOp>, c: seq<FlatOp>)
    ensures TargetsKnown(blocks, a + c) <==> TargetsKnown(blocks, a) && TargetsKnown(blocks, c)
  {
    if TargetsKnown(blocks, a + c) {
      forall i | 0 <= i < |a| && !a[i].Does? ensures a[i].to < |blocks| { assert (a + c)[i] == a[i]; }
      forall i | 0 <= i < |c| && !c[i].Does? ensures c[i].to < |blocks| { assert (a + c)[|a| + i] == c[i]; }
    }
  }

  lemma {:induction false} LaidOutKnown(blocks: seq<Body>, n: nat)
    requires n <= |blocks|
    ensures TargetsKnown(blocks, LaidOut(blocks, n)) <==> forall b: nat :: b < n ==> LabelsAsked(blocks, b)
  {
    hide Segment, LabelsAsked;
    if n > 0 {
      LaidOutKnown(blocks, n - 1);
      JoinKnown(blocks, LaidOut(blocks, n - 1), Segment(blocks, n - 1));
      SegmentKnown(blocks, n - 1);
    }
  }

  /** Pass 2: addresses for block numbers, at the places noted. */
  method PatchAll(blocks: seq<Body>) returns (code: seq<FlatOp>, known: bool)
    ensures IsPatched(blocks, code)
    ensures known <==> TargetsKnown(blocks, LaidOut(blocks, |blocks|))
    ensures known <==> forall b: nat :: b < |blocks| ==> LabelsAsked(blocks, b)
  {
    hide LaidOut, NumberOf, Address, TargetsKnown, LabelsAsked;
    LaidOutKnown(blocks, |blocks|);
    var laid, start, branchAt := LayOut(blocks);
    code, known := laid, true;
    for j := 0 to |branchAt|
      invariant |code| == |laid| && (known <==> Within(blocks, laid, branchAt, j))
      invariant forall i: nat :: i < |laid| ==> code[i] == if i in branchAt[..j] then Patched(blocks, laid[i])
          else laid[i]
    {
      var at := branchAt[j];
      assert at !in branchAt[..j];
      var n := code[at].to;
      known := known && n < |start|;
      code := code[at := if n >= |start| then Does(TrapOp)
                         else if code[at].Jump? then Jump(start[n]) else JumpIfZero(start[n])];
      assert branchAt[..j + 1] == branchAt[..j] + [at];
    }
    assert branchAt[..|branchAt|] == branchAt;
    JumpsKnown(blocks, laid, branchAt);
    assert known <==> TargetsKnown(blocks, laid);
    forall i | 0 <= i < |laid| ensures code[i] == Patched(blocks, laid[i]) {
      var at: nat := i;
      assert at in branchAt <==> !laid[at].Does?;
    }
  }

  /** A single block that jumps to a label there is not: nothing is reported, and the code runs off its end. */
  method LastJumpUnasked(l: Label, k: Label) returns (code: seq<FlatOp>, known: bool)
    requires l != k
    ensures !IsKnown([Body(l, [], Goes(k))], k) && known && code == []
  {
    var blocks := [Body(l, [], Goes(k))];
    code, known := PatchAll(blocks);
    assert NumberOf(blocks, k) == 1 && LaidOut(blocks, 0) == [];
    assert LaidOut(blocks, 1) == [] + Segment(blocks, 0) == [];
  }

  // ----- running the blocks -----

  /** How a value tested after some operations have run comes out. */
  type Tests = nat -> bool

  datatype BlockState =
    | Entering(b: nat, trace: seq<StackOp>)      // about to run block `b`
    | Ended(trace: seq<StackOp>)                  // returned
    | Lost(trace: seq<StackOp>)

  /** One whole block, and where it leads. */
  function BlockStep(blocks: seq<Body>, tests: Tests, s: BlockState): BlockState {
    if !s.Entering? then s
    else if s.b >= |blocks| then Lost(s.trace)
    else
      var trace := s.trace + blocks[s.b].ops;
      match blocks[s.b].ending
      case Returns => Ended(trace)
      case Goes(l) => Entering(NumberOf(blocks, l), trace)
      case Branches(t, e) => Entering(NumberOf(blocks, if tests(|trace|) then t else e), trace)
  }

  function BlockRun(blocks: seq<Body>, tests: Tests, s: BlockState, k: nat): BlockState
    decreases k
  {
    if k == 0 then s else BlockRun(blocks, tests, BlockStep(blocks, tests, s), k - 1)
  }

  // ----- running the flat code -----

  datatype PcState =
    | At(pc: nat, trace: seq<StackOp>)
    | Returned(trace: seq<StackOp>)
    | Outside(trace: seq<StackOp>)

  function PcStep(code: seq<FlatOp>, tests: Tests, s: PcState): PcState {
    if !s.At? then s
    else if s.pc >= |code| then Outside(s.trace)
    else match code[s.pc]
      case Does(op) => if op.RetOp? then Returned(s.trace + [op]) else At(s.pc + 1, s.trace + [op])
      case Jump(to) => At(to, s.trace)
      case JumpIfZero(to) => At(if tests(|s.trace|) then s.pc + 1 else to, s.trace)
  }

  function PcRun(code: seq<FlatOp>, tests: Tests, s: PcState, k: nat): PcState
    decreases k
  {
    if k == 0 then s else PcRun(code, tests, PcStep(code, tests, s), k - 1)
  }

  lemma {:induction false} PcJoin(code: seq<FlatOp>, tests: Tests, s: PcState, j: nat, k: nat)
    ensures PcRun(code, tests, s, j + k) == PcRun(code, tests, PcRun(code, tests, s, j), k)
    decreases j
  {
    if j > 0 { PcJoin(code, tests, PcStep(code, tests, s), j - 1, k); }
  }

  lemma {:induction false} PcStays(code: seq<FlatOp>, tests: Tests, s: PcState, k: nat)
    requires !s.At?
    ensures PcRun(code, tests, s, k) == s
    decreases k
  {
    if k > 0 { PcStays(code, tests, s, k - 1); }
  }

  lemma {:induction false} PcTrace(code: seq<FlatOp>, tests: Tests, s: PcState, k: nat)
    ensures s.trace <= PcRun(code, tests, s, k).trace
    decreases k
  {
    if k > 0 { PcTrace(code, tests, PcStep(code, tests, s), k - 1); }
  }

  // ----- the code of a block, in place -----

  /** Operation `k` of block `b` after patching. */
  lemma CodeOf(blocks: seq<Body>, code: seq<FlatOp>, b: nat, k: nat)
    requires IsPatched(blocks, code) && b < |blocks| && k < |Segment(blocks, b)|
    ensures Address(blocks, b) + k < |code|
    ensures code[Address(blocks, b) + k] == Patched(blocks, Segment(blocks, b)[k])
    ensures Address(blocks, b + 1) == Address(blocks, b) + |Segment(blocks, b)| <= |code|
  {
    hide Segment, Patched;
    LaidOutPrefix(blocks, b + 1, |blocks|);
    assert LaidOut(blocks, b + 1) == LaidOut(blocks, b) + Segment(blocks, b);
    var i := Address(blocks, b) + k;
    assert LaidOut(blocks, |blocks|)[i] == LaidOut(blocks, b + 1)[i] == Segment(blocks, b)[k];
  }

  /** Through the straight-line code of a block. */
  lemma {:induction false} OpsRun(blocks: seq<Body>, code: seq<FlatOp>, tests: Tests, b: nat, k: nat, m: nat,
                                  trace: seq<StackOp>)
    requires IsPatched(blocks, code) && b < |blocks| && k <= m <= |blocks[b].ops|
    requires forall i :: 0 <= i < m ==> Straight(blocks[b].ops[i])
    ensures PcRun(code, tests, At(Address(blocks, b) + k, trace), m - k) ==
        At(Address(blocks, b) + m, trace + blocks[b].ops[k..m])
    decreases m - k
  {
    hide LaidOut, IsPatched;
    var ops := blocks[b].ops;
    if k == m {
      assert ops[k..m] == [] && trace + [] == trace;
    } else {
      CodeOf(blocks, code, b, k);
      assert Segment(blocks, b)[k] == Does(ops[k]);
      OpsRun(blocks, code, tests, b, k + 1, m, trace + [ops[k]]);
      assert [ops[k]] + ops[k + 1..m] == ops[k..m];
      assert trace + [ops[k]] + ops[k + 1..m] == trace + ops[k..m];
    }
  }

  // ----- the code follows the blocks -----

  ghost predicate KnownLabels(blocks: seq<Body>, e: Ending) {
    match e
    case Returns => true
    case Goes(l) => NumberOf(blocks, l) < |blocks|
    case Branches(t, f) => NumberOf(blocks, t) < |blocks| && NumberOf(blocks, f) < |blocks|
  }

  ghost predicate WellFormed(blocks: seq<Body>) {
    forall b :: 0 <= b < |blocks| ==> WellEnded(blocks[b]) && KnownLabels(blocks, blocks[b].ending)
  }

  /** The code is at the first operation of the block about to be run, or both have returned. */
  ghost predicate Level(blocks: seq<Body>, bs: BlockState, s: PcState) {
    match bs
    case Entering(b, trace) => b < |blocks| && s == At(Address(blocks, b), trace)
    case Ended(trace) => s == Returned(trace)
    case Lost(_) => false
  }

  lemma AddressNext(blocks: seq<Body>, b: nat)
    requires b < |blocks|
    ensures Address(blocks, b + 1) == Address(blocks, b) + |Segment(blocks, b)|
  {}

  lemma PcOne(code: seq<FlatOp>, tests: Tests, s: PcState)
    ensures PcRun(code, tests, s, 1) == PcStep(code, tests, s)
  {
    assert PcRun(code, tests, PcStep(code, tests, s), 0) == PcStep(code, tests, s);
  }

  lemma WellFormedAt(blocks: seq<Body>, b: nat)
    requires WellFormed(blocks) && b < |blocks|
    ensures KnownLabels(blocks, blocks[b].ending)
    ensures !blocks[b].ending.Returns? ==> forall k :: 0 <= k < |blocks[b].ops| ==> Straight(blocks[b].ops[k])
    ensures blocks[b].ending.Returns? ==> blocks[b].ops != [] && blocks[b].ops[|blocks[b].ops| - 1].RetOp?
    ensures blocks[b].ending.Returns? ==> forall k :: 0 <= k < |blocks[b].ops| - 1 ==> Straight(blocks[b].ops[k])
  {
    hide KnownLabels;
    assert WellEnded(blocks[b]);
  }

  /** A jump at the end of a block, or nothing where the target comes next. */
  lemma JumpRuns(blocks: seq<Body>, code: seq<FlatOp>, tests: Tests, b: nat, k: nat, n: nat, trace: seq<StackOp>)
    returns (j: nat)
    requires IsPatched(blocks, code) && b < |blocks| && n < |blocks| && k <= |Segment(blocks, b)|
    requires Segment(blocks, b)[k..] == JumpUnlessNext(n, b)
    ensures PcRun(code, tests, At(Address(blocks, b) + k, trace), j) == At(Address(blocks, n), trace)
    ensures n != b + 1 ==> j >= 1
  {
    hide LaidOut, IsPatched, Segment, NumberOf;
    AddressNext(blocks, b);
    var pc := Address(blocks, b) + k;
    if n == b + 1 {
      assert |Segment(blocks, b)[k..]| == 0;
      j := 0;
    } else {
      assert Segment(blocks, b)[k] == Segment(blocks, b)[k..][0] == Jump(n);
      CodeOf(blocks, code, b, k);
      PcOne(code, tests, At(pc, trace));
      j := 1;
    }
  }

  lemma ReturnRuns(blocks: seq<Body>, code: seq<FlatOp>, tests: Tests, b: nat, trace: seq<StackOp>)
    requires IsPatched(blocks, code) && WellFormed(blocks) && b < |blocks| && blocks[b].ending.Returns?
    ensures blocks[b].ops != []
    ensures PcRun(code, tests, At(Address(blocks, b), trace), |blocks[b].ops|) == Returned(trace + blocks[b].ops)
  {
    hide LaidOut, IsPatched, NumberOf, WellFormed, KnownLabels, PcRun;
    var ops := blocks[b].ops;
    WellFormedAt(blocks, b);
    var m := |ops| - 1;
    OpsRun(blocks, code, tests, b, 0, m, trace);
    CodeOf(blocks, code, b, m);
    assert Segment(blocks, b)[m] == Does(ops[m]);
    PcOne(code, tests, At(Address(blocks, b) + m, trace + ops[0..m]));
    PcJoin(code, tests, At(Address(blocks, b), trace), m, 1);
    assert trace + ops[0..m] + [ops[m]] == trace + ops;
  }

  lemma GoesRuns(blocks: seq<Body>, code: seq<FlatOp>, tests: Tests, b: nat, trace: seq<StackOp>) returns (k: nat)
    requires IsPatched(blocks, code) && WellFormed(blocks) && b < |blocks| && blocks[b].ending.Goes?
    ensures var n := NumberOf(blocks, blocks[b].ending.target);
            && n < |blocks|
            && PcRun(code, tests, At(Address(blocks, b), trace), k) == At(Address(blocks, n), trace + blocks[b].ops)
            && (k >= 1 || n == b + 1)
  {
    hide LaidOut, IsPatched, WellFormed, NumberOf, PcRun, Address;
    var ops, n := blocks[b].ops, NumberOf(blocks, blocks[b].ending.target);
    WellFormedAt(blocks, b);
    OpsRun(blocks, code, tests, b, 0, |ops|, trace);
    assert ops[0..|ops|] == ops;
    assert Segment(blocks, b)[|ops|..] == JumpUnlessNext(n, b);
    var j := JumpRuns(blocks, code, tests, b, |ops|, n, trace + ops);
    PcJoin(code, tests, At(Address(blocks, b), trace), |ops|, j);
    k := |ops| + j;
  }

  lemma BranchSegment(blocks: seq<Body>, b: nat, t: nat, f: nat)
    requires b < |blocks| && blocks[b].ending.Branches?
    requires t == NumberOf(blocks, blocks[b].ending.thenTarget) && f == NumberOf(blocks, blocks[b].ending.elseTarget)
    ensures var s, k := Segment(blocks, b), |blocks[b].ops|;
            k < |s| && s[k] == JumpIfZero(f) && s[k + 1..] == JumpUnlessNext(t, b)
  {
    hide NumberOf;
    var s, k := Segment(blocks, b), |blocks[b].ops|;
    var tail := [JumpIfZero(f)] + JumpUnlessNext(t, b);
    assert s == PlainOps(blocks[b].ops) + tail && s[k] == tail[0];
    assert s[k + 1..] == tail[1..] == JumpUnlessNext(t, b);
  }

  /** The test at the end of a block. */
  lemma TestRuns(blocks: seq<Body>, code: seq<FlatOp>, tests: Tests, b: nat, trace: seq<StackOp>)
    requires IsPatched(blocks, code) && WellFormed(blocks) && b < |blocks| && blocks[b].ending.Branches?
    ensures var k, all := |blocks[b].ops|, trace + blocks[b].ops;
            var f := NumberOf(blocks, blocks[b].ending.elseTarget);
            && f < |blocks|
            && PcRun(code, tests, At(Address(blocks, b), trace), k + 1) ==
               At(if tests(|all|) then Address(blocks, b) + k + 1 else Address(blocks, f), all)
  {
    hide LaidOut, IsPatched, Segment, NumberOf, WellFormed, PcRun, Address;
    var ops, e := blocks[b].ops, blocks[b].ending;
    WellFormedAt(blocks, b);
    OpsRun(blocks, code, tests, b, 0, |ops|, trace);
    assert ops[0..|ops|] == ops;
    BranchSegment(blocks, b, NumberOf(blocks, e.thenTarget), NumberOf(blocks, e.elseTarget));
    CodeOf(blocks, code, b, |ops|);
    PcOne(code, tests, At(Address(blocks, b) + |ops|, trace + ops));
    PcJoin(code, tests, At(Address(blocks, b), trace), |ops|, 1);
  }

  lemma BranchRuns(blocks: seq<Body>, code: seq<FlatOp>, tests: Tests, b: nat, trace: seq<StackOp>) returns (k: nat)
    requires IsPatched(blocks, code) && WellFormed(blocks) && b < |blocks| && blocks[b].ending.Branches?
    ensures var e := blocks[b].ending;
            var n := NumberOf(blocks, if tests(|trace + blocks[b].ops|) then e.thenTarget else e.elseTarget);
            && n < |blocks| && k >= 1
            && PcRun(code, tests, At(Address(blocks, b), trace), k) == At(Address(blocks, n), trace + blocks[b].ops)
  {
    hide LaidOut, IsPatched, Segment, NumberOf, WellFormed, PcRun, Address;
    var ops, e := blocks[b].ops, blocks[b].ending;
    var all := trace + ops;
    WellFormedAt(blocks, b);
    TestRuns(blocks, code, tests, b, trace);
    k := |ops| + 1;
    if tests(|all|) {
      var t := NumberOf(blocks, e.thenTarget);
      BranchSegment(blocks, b, t, NumberOf(blocks, e.elseTarget));
      var j := JumpRuns(blocks, code, tests, b, |ops| + 1, t, all);
      PcJoin(code, tests, At(Address(blocks, b), trace), k, j);
      k := k + j;
    }
  }

  /** One block takes at least one step of the code, unless it is empty and leads to the next. */
  lemma BlockFollows(blocks: seq<Body>, code: seq<FlatOp>, tests: Tests, b: nat, trace: seq<StackOp>) returns (k: nat)
    requires IsPatched(blocks, code) && WellFormed(blocks) && b < |blocks|
    ensures var next := BlockStep(blocks, tests, Entering(b, trace));
            && Level(blocks, next, PcRun(code, tests, At(Address(blocks, b), trace), k))
            && (k >= 1 || (next.Entering? && next.b == b + 1))
  {
    hide LaidOut, IsPatched, NumberOf, PcRun, WellFormed;
    match blocks[b].ending
    case Returns =>
      ReturnRuns(blocks, code, tests, b, trace);
      k := |blocks[b].ops|;
    case Goes(l) => k := GoesRuns(blocks, code, tests, b, trace);
    case Branches(t, e) => k := BranchRuns(blocks, code, tests, b, trace);
  }

  /** Steps of the code and blocks passed: `j` steps and the number of the block reached pay for `k` blocks. */
  predicate Paid(count: nat, j: nat, reached: int, k: nat, from: int) {
    j * count + reached >= k + from
  }

  lemma PaidMore(count: nat, i: nat, m: nat, from: int, mid: int, reached: int, k: nat)
    requires Paid(count, m, reached, k, mid) && (i >= 1 || mid == from + 1) && 0 <= mid && from < count
    ensures Paid(count, i + m, reached, k + 1, from)
  {
    assert (i + m) * count == i * count + m * count;
    if i >= 1 { assert i * count >= count; }
  }

  lemma {:induction false} CodeFollows(blocks: seq<Body>, code: seq<FlatOp>, tests: Tests, bs: BlockState, s: PcState,
                                       k: nat)
      returns (j: nat)
    requires IsPatched(blocks, code) && WellFormed(blocks) && Level(blocks, bs, s)
    ensures var end := BlockRun(blocks, tests, bs, k);
            && Level(blocks, end, PcRun(code, tests, s, j))
            && (end.Entering? && bs.Entering? ==> Paid(|blocks|, j, end.b, k, bs.b))
    decreases k
  {
    hide LaidOut, IsPatched, WellFormed, BlockStep, PcStep, Paid, Address;
    j := 0;
    if k == 0 {
      if bs.Entering? { assert Paid(|blocks|, 0, bs.b, 0, bs.b) by { PaidNothing(|blocks|, bs.b); } }
    } else {
      match bs
      case Entering(b, trace) =>
        var i := BlockFollows(blocks, code, tests, b, trace);
        var next := BlockStep(blocks, tests, bs);
        var m := CodeFollows(blocks, code, tests, next, PcRun(code, tests, s, i), k - 1);
        PcJoin(code, tests, s, i, m);
        j := i + m;
        var end := BlockRun(blocks, tests, bs, k);
        if next.Entering? && end.Entering? { PaidMore(|blocks|, i, m, b, next.b, end.b, k - 1); }
        if !next.Entering? { BlockStays(blocks, tests, next, k - 1); }
      case Ended(_) => BlockStays(blocks, tests, bs, k);
    }
  }

  lemma PaidNothing(count: nat, from: int)
    ensures Paid(count, 0, from, 0, from)
  {}

  lemma {:induction false} BlockStays(blocks: seq<Body>, tests: Tests, s: BlockState, k: nat)
    requires !s.Entering?
    ensures BlockRun(blocks, tests, s, k) == s
    decreases k
  {
    if k > 0 { BlockStays(blocks, tests, s, k - 1); }
  }

  /** What the code has run so far the blocks run as well, and if it returned they did. */
  ghost predicate Covers(bs: BlockState, s: PcState) {
    !s.Outside? && !bs.Lost? && s.trace <= bs.trace && (s.Returned? ==> bs == Ended(s.trace))
  }

  /** After any number of blocks the code gets to the first operation of the block that is next, with
      the same operations run; after any number of its own steps it has run nothing else. */
  lemma FlatCodeFollows(blocks: seq<Body>, code: seq<FlatOp>, tests: Tests, k: nat)
    requires blocks != [] && IsPatched(blocks, code) && WellFormed(blocks)
    ensures exists j :: Level(blocks, BlockRun(blocks, tests, Entering(0, []), k), PcRun(code, tests, At(0, []), j))
    ensures exists m :: Covers(BlockRun(blocks, tests, Entering(0, []), m), PcRun(code, tests, At(0, []), k))
  {
    hide LaidOut, IsPatched, WellFormed, BlockStep, PcStep, BlockRun, PcRun;
    var b0, s0 := Entering(0, []), At(0, []);
    assert Address(blocks, 0) == 0 by { NothingBefore(blocks); }
    var j0 := CodeFollows(blocks, code, tests, b0, s0, k);
    assert Level(blocks, BlockRun(blocks, tests, b0, k), PcRun(code, tests, s0, j0));
    var m := (k + 1) * |blocks|;
    var j := CodeFollows(blocks, code, tests, b0, s0, m);
    var end := BlockRun(blocks, tests, b0, m);
    if end.Entering? { FarEnough(|blocks|, j, end.b, k); }
    if j >= k {
      PcJoin(code, tests, s0, k, j - k);
      PcTrace(code, tests, PcRun(code, tests, s0, k), j - k);
      if !PcRun(code, tests, s0, k).At? { PcStays(code, tests, PcRun(code, tests, s0, k), j - k); }
    } else {
      PcJoin(code, tests, s0, j, k - j);
      PcStays(code, tests, PcRun(code, tests, s0, j), k - j);
    }
    assert Covers(end, PcRun(code, tests, s0, k));
  }

  lemma NothingBefore(blocks: seq<Body>)
    ensures Address(blocks, 0) == 0
  {}

  lemma Monotone(a: int, b: int, c: int)
    requires a <= b && c >= 0
    ensures a * c <= b * c
  {}

  lemma FarEnough(count: nat, j: nat, reached: int, k: nat)
    requires count > 0 && reached < count && Paid(count, j, reached, (k + 1) * count, 0)
    ensures j >= k
  {
    assert (j + 1) * count == j * count + count > (k + 1) * count;
    if j + 1 <= k + 1 { Monotone(j + 1, k + 1, count); }
  }
}
