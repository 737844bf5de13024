/** Copy propagation over a function. */
module CopyProp {
  import opened Cir
  import opened Arith
  import opened Interp
  import opened Fold
  import opened Walks
  import opened Copies
  import opened Substitution
  import opened SubstitutionProof
  import opened Definitions
  import opened TypedFunctions
  import opened Passes
  import opened Provenance
  import opened Narrowing
  import opened CopyFacts
  import CopySweep
  import opened TextOrder
  import opened Ordering
  import opened Discipline

  // ----- replacements and the text order -----

  lemma DroppedReason(types: Typing, f: Function, single: set<Name>, s: Sub, b: BasicBlock, ins: Instr)
    requires Copyable(types, f, single) && b in f.blocks && ins in b.instrs && Dropped(s, ins)
    requires CopiesOk(types, f, single, s)
    ensures CopyReason(s, ins, ins.dest.value)
  {
    hide CountDefs, CopiesSide, Good, UsesDefined, OperandsFixed, TypedFunction, Anchored;
    var t := ins.dest.value;
    assert HasCopy(f, s, t);
    var b0, ins0 :| b0 in f.blocks && ins0 in b0.instrs && CopyReason(s, ins0, t);
    OnlyInstr(f, t, b, ins, b0, ins0);
  }

  lemma CopiesKeepOrder(types: Typing, f: Function, single: set<Name>, s: Sub)
    requires Copyable(types, f, single)
    requires CopiesOk(types, f, single, s)
    ensures KeepsOrder(s, false, f)
  {
    hide Copyable, CopiesOk, CopyReason;
    CopyableGood(types, f, single);
    NoParams(types, f, single, s);
    forall b, ins | b in f.blocks && ins in b.instrs ensures StandsFor(s, ins) {
      if Dropped(s, ins) {
        DroppedReason(types, f, single, s, b, ins);
        ReasonStands(s, ins);
      }
    }
  }

  lemma NoParams(types: Typing, f: Function, single: set<Name>, s: Sub)
    requires f.blocks != [] && CopiesOk(types, f, single, s)
    ensures forall p :: p in f.params ==> p !in s
  {
    hide HasCopy, Anchored, SubTyped, Settled;
  }

  lemma ReasonStands(s: Sub, ins: Instr)
    requires Dropped(s, ins) && CopyReason(s, ins, ins.dest.value)
    ensures StandsFor(s, ins)
  {
    hide IsUnit;
    var k := if CopiesSide(s, ins, ins.dest.value, 0) then 0 else 1;
    assert SubstOperand(s, ins.args[k]) == s[ins.dest.value];
  }
  // ----- finding the aliases -----

  /** Follow aliases to the end; with definitions before uses the end is one step away. */
  method Chase(aliases: Sub, x: Operand) returns (y: Operand)
    requires Settled(aliases)
    ensures y == SubstOperand(aliases, x)
  {
    y := x;
    while y.Reg? && y.name in aliases
      invariant y == x || (y == SubstOperand(aliases, x) && (y.Reg? ==> y.name !in aliases))
      decreases if y.Reg? && y.name in aliases then 1 else 0
    {
      y := aliases[y.name];
    }
  }

  /** Everything seen is a parameter or defined in the text so far. */
  ghost predicate SeenSoFar(f: Function, n: nat, i: nat, seen: set<Name>)
    requires n < |f.blocks| && i <= |f.blocks[n].instrs|
  {
    forall r :: r in seen ==> r in f.params || CountDefs(f.blocks[..n], r) + CountIn(f.blocks[n].instrs[..i], r) >= 1
  }

  ghost predicate AliasOk(aliases: Sub, seen: set<Name>, t: Name)
    requires t in aliases
  {
    t in seen && (aliases[t].Reg? ==> aliases[t].name in seen)
  }

  ghost predicate DefinedIn(f: Function, t: Name) {
    exists b, ins :: b in f.blocks && ins in b.instrs && ins.dest == Some(t)
  }

  /** The aliases found so far, on top of the substitution already applied. */
  ghost predicate Found(types: Typing, f: Function, cur: Function, single: set<Name>, s: Sub, aliases: Sub,
                        seen: set<Name>)
    requires f.blocks != []
  {
    && Settled(aliases)
    && (forall t :: t in aliases ==> t !in s && AliasOk(aliases, seen, t) && DefinedIn(cur, t))
    && CopiesOk(types, f, single, Compose(s, aliases))
  }

  lemma {:induction false} CountPrefix(blocks: seq<BasicBlock>, n: nat, i: nat, r: Name)
    requires n < |blocks| && i < |blocks[n].instrs| && blocks[n].instrs[i].dest == Some(r)
    ensures CountDefs(blocks, r) >= CountDefs(blocks[..n], r) + CountIn(blocks[n].instrs[..i], r) + 1
  {
    hide CountDefs, CountIn;
    var instrs := blocks[n].instrs;
    CountNext(instrs, i, r);
    CountUpTo(instrs, i + 1, r);
    CountNextBlock(blocks, n, r);
    CountBlocksUpTo(blocks, n + 1, r);
  }

  lemma {:induction false} CountUpTo(instrs: seq<Instr>, i: nat, r: Name)
    requires i <= |instrs|
    ensures CountIn(instrs[..i], r) <= CountIn(instrs, r)
    decreases |instrs|
  {
    if i == |instrs| {
      assert instrs[..i] == instrs;
    } else {
      assert instrs[..|instrs| - 1][..i] == instrs[..i];
      CountUpTo(instrs[..|instrs| - 1], i, r);
    }
  }

  lemma {:induction false} CountBlocksUpTo(blocks: seq<BasicBlock>, n: nat, r: Name)
    requires n <= |blocks|
    ensures CountDefs(blocks[..n], r) <= CountDefs(blocks, r)
    decreases |blocks|
  {
    hide CountIn;
    if n == |blocks| {
      assert blocks[..n] == blocks;
    } else {
      assert blocks[..|blocks| - 1][..n] == blocks[..n];
      CountBlocksUpTo(blocks[..|blocks| - 1], n, r);
    }
  }

  /** A single definition has not been seen before. */
  lemma FreshDest(f: Function, single: set<Name>, n: nat, i: nat, seen: set<Name>)
    requires n < |f.blocks| && i < |f.blocks[n].instrs| && SeenSoFar(f, n, i, seen) && AtMostOnce(f, single)
        && ParamsFixed(f)
    requires f.blocks[n].instrs[i].dest.Some? && f.blocks[n].instrs[i].dest.value in single
    ensures f.blocks[n].instrs[i].dest.value !in seen
  {
    hide CountDefs, CountIn;
    CountPrefix(f.blocks, n, i, f.blocks[n].instrs[i].dest.value);
    assert f.blocks[n] in f.blocks && f.blocks[n].instrs[i] in f.blocks[n].instrs;
  }

  lemma SeenNext(f: Function, n: nat, i: nat, seen: set<Name>)
    requires n < |f.blocks| && i < |f.blocks[n].instrs| && SeenSoFar(f, n, i, seen)
    ensures SeenSoFar(f, n, i + 1, seen + Named(f.blocks[n].instrs[i].dest))
  {
    hide CountDefs, CountIn;
    forall r | r in seen + Named(f.blocks[n].instrs[i].dest)
      ensures r in f.params || CountDefs(f.blocks[..n], r) + CountIn(f.blocks[n].instrs[..i + 1], r) >= 1
    {
      CountNext(f.blocks[n].instrs, i, r);
    }
  }

  lemma SeenNextBlock(f: Function, n: nat, seen: set<Name>)
    requires n + 1 < |f.blocks| && SeenSoFar(f, n, |f.blocks[n].instrs|, seen)
    ensures SeenSoFar(f, n + 1, 0, seen)
  {
    hide CountDefs, CountIn;
    assert f.blocks[n].instrs[..|f.blocks[n].instrs|] == f.blocks[n].instrs;
    forall r | r in seen
      ensures r in f.params || CountDefs(f.blocks[..n + 1], r) + CountIn(f.blocks[n + 1].instrs[..0], r) >= 1 {
      CountNextBlock(f.blocks, n, r);
    }
  }

  lemma SeenStart(f: Function)
    requires f.blocks != []
    ensures SeenSoFar(f, 0, 0, Params(f))
  {}

  /** The source instruction behind an instruction of the current function. */
  lemma SourceInstr(f: Function, cur: Function, s: Sub, b: BasicBlock, ins: Instr) returns (b0: BasicBlock, ins0: Instr)
    requires cur == RewriteFunction(s, false, f) && b in cur.blocks && ins in b.instrs
    ensures b0 in f.blocks && ins0 in b0.instrs && !Dropped(s, ins0) && ins == SubstInstr(s, ins0)
  {
    hide Rewrite, SubstInstr;
    var n :| 0 <= n < |cur.blocks| && cur.blocks[n] == b;
    b0 := f.blocks[n];
    RewriteMembers(s, false, b0.instrs, ins);
    ins0 :| ins0 in b0.instrs && !Dropped(s, ins0) && ins == RewriteInstr(s, false, ins0);
  }

  /** A copy in the current function is a new alias for the source function. */
  lemma AliasIsNew(types: Typing, f: Function, cur: Function, single: set<Name>, s: Sub, aliases: Sub, seen: set<Name>,
                   b: BasicBlock, ins: Instr, k: nat, x: Operand)
      returns (b0: BasicBlock, ins0: Instr)
    requires f.blocks != [] && cur == RewriteFunction(s, false, f) && b in cur.blocks && ins in b.instrs && Settled(s)
    requires Found(types, f, cur, single, s, aliases, seen)
    requires CopiedSide(ins) == Some(k) && ins.dest.value in single && ins.dest.value !in aliases
    requires x == SubstOperand(aliases, ins.args[k]) && (x.Reg? ==> x.name != ins.dest.value)
    ensures NewAlias(f, single, Compose(s, aliases), b0, ins0, ins.dest.value, k, x)
  {
    hide WrapInt, CopiesOk, Compose;
    b0, ins0 := SourceInstr(f, cur, s, b, ins);
    ComposeOperand(s, aliases, ins0.args[0]);
    ComposeOperand(s, aliases, ins0.args[1]);
    ComposeKeys(s, aliases);
    EndIsFree(types, f, cur, single, s, aliases, seen, ins0.args[k]);
  }

  /** What an operand stands for in the end is not replaced. */
  lemma EndIsFree(types: Typing, f: Function, cur: Function, single: set<Name>, s: Sub, aliases: Sub, seen: set<Name>,
                  x: Operand)
    requires f.blocks != [] && Settled(s)
    requires Found(types, f, cur, single, s, aliases, seen)
    ensures var y := SubstOperand(aliases, SubstOperand(s, x)); y.Reg? ==> y.name !in s && y.name !in aliases
  {
    hide HasCopy, Anchored, SubTyped;
    var z := SubstOperand(s, x);
    if z.Reg? && z.name in aliases {
      assert Compose(s, aliases)[z.name] == aliases[z.name];
    }
  }

  /** Recording the alias is inserting it. */
  lemma RecordIsInsert(s: Sub, aliases: Sub, t: Name, x: Operand)
    requires t !in s && t !in aliases && forall a :: a in aliases && aliases[a].Reg? ==> aliases[a].name != t
    ensures Compose(s, aliases[t := x]) == Insert(Compose(s, aliases), t, x)
  {
    var l, r := Compose(s, aliases[t := x]), Insert(Compose(s, aliases), t, x);
    assert l.Keys == r.Keys;
    assert forall a :: a in l ==> l[a] == r[a];
  }

  lemma Recorded(types: Typing, f: Function, cur: Function, single: set<Name>, s: Sub, aliases: Sub, seen: set<Name>,
                 b: BasicBlock, ins: Instr, k: nat, x: Operand)
    requires f.blocks != [] && cur == RewriteFunction(s, false, f) && b in cur.blocks && ins in b.instrs && Settled(s)
    requires CopiedSide(ins) == Some(k) && ins.dest.value in single && ins.dest.value !in seen
        && OperandsSeen(ins.args, seen)
    requires x == SubstOperand(aliases, ins.args[k]) && (x.Reg? ==> x.name != ins.dest.value)
    requires Copyable(types, f, single)
    requires Found(types, f, cur, single, s, aliases, seen)
    ensures Found(types, f, cur, single, s, aliases[ins.dest.value := x], seen + {ins.dest.value})
  {
    hide CopiesOk, Copyable, Compose, Insert, OperandsSeen, NewAlias, CopiedSide, RewriteFunction;
    SideInRange(ins);
    var t := ins.dest.value;
    assert t !in aliases;
    var b0, ins0 := AliasIsNew(types, f, cur, single, s, aliases, seen, b, ins, k, x);
    InsertOk(types, f, single, Compose(s, aliases), b0, ins0, t, k, x);
    NewIsUnreplaced(f, single, s, aliases, b0, ins0, t, k, x);
    RecordIsInsert(s, aliases, t, x);
    EndSeen(aliases, seen, ins, k);
    assert DefinedIn(cur, t);
  }

  lemma NewIsUnreplaced(f: Function, single: set<Name>, s: Sub, aliases: Sub, b: BasicBlock, ins: Instr, t: Name,
                        k: nat, x: Operand)
    requires NewAlias(f, single, Compose(s, aliases), b, ins, t, k, x)
    ensures t !in s && (x.Reg? ==> x.name !in aliases)
  {
    hide IsUnit;
    ComposeKeys(s, aliases);
  }

  lemma EndSeen(aliases: Sub, seen: set<Name>, ins: Instr, k: nat)
    requires OperandsSeen(ins.args, seen) && k < |ins.args|
    requires forall t :: t in aliases ==> AliasOk(aliases, seen, t)
    ensures SubstOperand(aliases, ins.args[k]).Reg? ==> SubstOperand(aliases, ins.args[k]).name in seen
  {
    if ins.args[k].Reg? && ins.args[k].name in aliases { assert AliasOk(aliases, seen, ins.args[k].name); }
  }

  lemma SeenMore(types: Typing, f: Function, cur: Function, single: set<Name>, s: Sub, aliases: Sub, seen: set<Name>,
                 more: set<Name>)
    requires f.blocks != [] && Found(types, f, cur, single, s, aliases, seen)
    ensures Found(types, f, cur, single, s, aliases, seen + more)
  {
    hide CopiesOk;
    forall t | t in aliases ensures AliasOk(aliases, seen + more, t) { assert AliasOk(aliases, seen, t); }
  }

  lemma SideInRange(ins: Instr)
    requires CopiedSide(ins).Some?
    ensures CopiedSide(ins).value < |ins.args| && ins.dest.Some?
    ensures CopySource(ins) == Some(ins.args[CopiedSide(ins).value])
  {}

  lemma SourceIff(ins: Instr)
    ensures CopySource(ins).Some? <==> CopiedSide(ins).Some?
  {}

  ghost predicate NoCopiesIn(instrs: seq<Instr>, single: set<Name>) {
    forall ins :: ins in instrs && ins.dest.Some? && ins.dest.value in single ==> CopySource(ins).None?
  }

  /** One block of the search. */
  method FindInBlock(ghost types: Typing, ghost f: Function, cur: Function, single: set<Name>, ghost s: Sub, n: nat,
                     before: Sub, ghost start: set<Name>)
      returns (aliases: Sub, ghost seen: set<Name>)
    requires f.blocks != [] && cur == RewriteFunction(s, false, f) && Settled(s) && n < |cur.blocks|
    requires AtMostOnce(cur, single) && ParamsFixed(cur) && SeenSoFar(cur, n, 0, start)
        && OrderedIn(cur.blocks[n].instrs, start)
    requires before == CopySweep.AliasesAt(cur, single, n, 0)
    requires Copyable(types, f, single)
    requires Found(types, f, cur, single, s, before, start)
    ensures Found(types, f, cur, single, s, aliases, seen)
    ensures SeenSoFar(cur, n, |cur.blocks[n].instrs|, seen) && seen == AfterIn(cur.blocks[n].instrs, start)
    ensures aliases == CopySweep.AliasesAt(cur, single, n, |cur.blocks[n].instrs|)
    ensures aliases == map[] ==> before == map[] && NoCopiesIn(cur.blocks[n].instrs, single)
  {
    hide CopiedSide, CopySource, Copyable, Found, RewriteFunction, AtMostOnce, ParamsFixed, SeenSoFar, OperandsSeen,
         CopySweep.AliasesAt;
    aliases, seen := before, start;
    var instrs := cur.blocks[n].instrs;
    for i := 0 to |instrs|
      invariant Found(types, f, cur, single, s, aliases, seen)
      invariant SeenSoFar(cur, n, i, seen) && OrderedIn(instrs[i..], seen)
          && AfterIn(instrs[i..], seen) == AfterIn(instrs, start)
      invariant aliases == CopySweep.AliasesAt(cur, single, n, i)
      invariant aliases == map[] ==> before == map[] && NoCopiesIn(instrs[..i], single)
    {
      var ins := instrs[i];
      assert instrs[i..][0] == ins && instrs[i..][1..] == instrs[i + 1..] && instrs[..i + 1] == instrs[..i] + [ins];
      ghost var more := Named(ins.dest);
      SeenNext(cur, n, i, seen);
      SeenMore(types, f, cur, single, s, aliases, seen, more);
      FoundSettled(types, f, cur, single, s, aliases, seen);
      CopySweep.AliasesNext(cur, single, n, i);
      var source := CopySource(ins);
      SourceIff(ins);
      if ins.dest.Some? && ins.dest.value in single && source.Some? {
        SideInRange(ins);
        ghost var k := CopiedSide(ins).value;
        FreshDest(cur, single, n, i, seen);
        var x := Chase(aliases, source.value);
        EndFresh(types, f, cur, single, s, aliases, seen, ins, k);
        if !(x.Reg? && x.name == ins.dest.value) {
          Recorded(types, f, cur, single, s, aliases, seen, cur.blocks[n], ins, k, x);
          aliases := aliases[ins.dest.value := x];
          assert ins.dest.value in aliases;
        }
      }
      seen := seen + more;
    }
    assert instrs[|instrs|..] == [] && instrs[..|instrs|] == instrs;
  }

  lemma FoundSettled(types: Typing, f: Function, cur: Function, single: set<Name>, s: Sub, aliases: Sub,
                     seen: set<Name>)
    requires f.blocks != [] && Found(types, f, cur, single, s, aliases, seen)
    ensures Settled(aliases)
  {}

  /** The source of a copy is never its own result. */
  lemma EndFresh(types: Typing, f: Function, cur: Function, single: set<Name>, s: Sub, aliases: Sub, seen: set<Name>,
                 ins: Instr, k: nat)
    requires f.blocks != [] && OperandsSeen(ins.args, seen) && k < |ins.args| && ins.dest.Some?
        && ins.dest.value !in seen
    requires Found(types, f, cur, single, s, aliases, seen)
    ensures SubstOperand(aliases, ins.args[k]).Reg? ==> SubstOperand(aliases, ins.args[k]).name != ins.dest.value
  {
    hide CopiesOk, OperandsSeen;
    EndSeen(aliases, seen, ins, k);
  }

  ghost predicate NoCopies(f: Function, single: set<Name>) {
    forall n :: 0 <= n < |f.blocks| ==> NoCopiesIn(f.blocks[n].instrs, single)
  }

  /** All aliases of a round, in text order. */
  method FindAliases(ghost types: Typing, ghost f: Function, cur: Function, single: set<Name>, ghost s: Sub)
    returns (aliases: Sub)
    requires f.blocks != [] && cur == RewriteFunction(s, false, f) && Settled(s)
    requires AtMostOnce(cur, single) && ParamsFixed(cur) && TextOrdered(cur)
    requires Copyable(types, f, single)
    requires CopiesOk(types, f, single, s)
    ensures CopiesOk(types, f, single, Compose(s, aliases))
    ensures forall t :: t in aliases ==> DefinedIn(cur, t)
    ensures aliases == map[] ==> NoCopies(cur, single)
    ensures aliases == CopySweep.AliasesOf(cur, single) && CopySweep.TextCopiesOrdered(cur, single)
    ensures !CopySweep.ReadsOneOf(RewriteFunction(aliases, false, cur), aliases)
  {
    hide CopiedSide, Copyable, RewriteFunction, AtMostOnce, ParamsFixed, SeenSoFar, CopiesOk, Found, OrderedIn,
         NoCopiesIn, AfterIn, CopySweep.AliasesAt, CopySweep.AliasesOf, CopySweep.TextCopiesOrdered,
         CopySweep.ReadsOneOf;
    aliases := map[];
    ghost var seen := Params(cur);
    StartFound(types, f, cur, single, s, seen);
    SameCount(s, f, cur);
    SeenStart(cur);
    CopySweep.AliasesStart(cur, single);
    for n := 0 to |cur.blocks|
      invariant Found(types, f, cur, single, s, aliases, seen)
      invariant n < |cur.blocks| ==> SeenSoFar(cur, n, 0, seen)
      invariant n < |cur.blocks| ==> aliases == CopySweep.AliasesAt(cur, single, n, 0)
      invariant n == |cur.blocks| ==> aliases == CopySweep.AliasesOf(cur, single)
      invariant OrderedBlocks(cur.blocks[n..], seen)
      invariant aliases == map[] ==> forall k :: 0 <= k < n ==> NoCopiesIn(cur.blocks[k].instrs, single)
    {
      assert cur.blocks[n..][0] == cur.blocks[n] && cur.blocks[n..][1..] == cur.blocks[n + 1..];
      aliases, seen := FindInBlock(types, f, cur, single, s, n, aliases, seen);
      CopySweep.AliasesOn(cur, single, n);
      if n + 1 < |cur.blocks| { SeenNextBlock(cur, n, seen); }
    }
    FoundAll(types, f, cur, single, s, aliases, seen);
    CopySweep.SettledSweep(cur, single);
  }

  lemma SameCount(s: Sub, f: Function, cur: Function)
    requires cur == RewriteFunction(s, false, f)
    ensures |cur.blocks| == |f.blocks|
  {}

  lemma StartFound(types: Typing, f: Function, cur: Function, single: set<Name>, s: Sub, seen: set<Name>)
    requires f.blocks != [] && CopiesOk(types, f, single, s)
    ensures Found(types, f, cur, single, s, map[], seen)
  {
    hide CopiesOk;
    assert Compose(s, map[]) == s;
  }

  lemma FoundAll(types: Typing, f: Function, cur: Function, single: set<Name>, s: Sub, aliases: Sub, seen: set<Name>)
    requires f.blocks != [] && Found(types, f, cur, single, s, aliases, seen)
    ensures CopiesOk(types, f, single, Compose(s, aliases))
    ensures Settled(aliases) && forall t :: t in aliases ==> DefinedIn(cur, t)
  {
    hide CopiesOk;
  }

  // ----- the pass -----

  /** A register that an instruction with a unit reads is never reassigned. */
  ghost predicate SourcesFixed(f: Function) {
    forall b, ins :: b in f.blocks && ins in b.instrs && MayCopy(ins) && CountDefs(f.blocks, ins.dest.value) == 1 ==>
      SourceFixed(f, ins, 0) && SourceFixed(f, ins, 1)
  }

  ghost predicate SourceFixed(f: Function, ins: Instr, k: nat)
    requires k < |ins.args|
  {
    ins.args[k].Reg? ==> CountDefs(f.blocks, ins.args[k].name) <= 1
  }

  ghost predicate Propagatable(types: Typing, f: Function) {
    && Good(f) && TypedFunction(types, f) && ParamsFixed(f) && UsesDefined(f)
    && SourcesFixed(f) && TextOrdered(f)
  }

  ghost predicate IsSingle(f: Function, single: set<Name>) {
    forall r :: r in single <==> CountDefs(f.blocks, r) == 1
  }

  lemma PropagatableStart(types: Typing, f: Function, single: set<Name>)
    requires Propagatable(types, f) && IsSingle(f, single)
    ensures Copyable(types, f, single) && TextOrdered(f) && f.blocks != [] && Good(f)
  {
    hide CountDefs, Function.GoodCfg, UsesDefined, TypedFunction, ParamsFixed, TextOrdered, SourceFixed;
    forall b, ins, k | b in f.blocks && ins in b.instrs && MayCopy(ins) && ins.dest.value in single && 0 <= k < 2
        && ins.args[k].Reg?
      ensures CountDefs(f.blocks, ins.args[k].name) <= 1
    {
      assert SourceFixed(f, ins, 0) && SourceFixed(f, ins, 1);
      FixedMeans(f, ins, k);
    }
  }

  lemma FixedMeans(f: Function, ins: Instr, k: nat)
    requires k < |ins.args| && ins.args[k].Reg? && SourceFixed(f, ins, k)
    ensures CountDefs(f.blocks, ins.args[k].name) <= 1
  {}

  lemma NothingReplaced(types: Typing, f: Function, single: set<Name>)
    requires f.blocks != []
    ensures CopiesOk(types, f, single, map[]) && RewriteFunction(map[], false, f) == f
  {
    hide Rewrite;
    IdentityFunction(f);
  }

  lemma RewriteParams(s: Sub, f: Function)
    requires ParamsFixed(f)
    ensures ParamsFixed(RewriteFunction(s, false, f))
  {
    hide Rewrite, SubstArgs;
    var f' := RewriteFunction(s, false, f);
    forall b, ins | b in f'.blocks && ins in b.instrs && ins.dest.Some? ensures ins.dest.value !in f'.params {
      var b0, ins0 := SourceInstr(f, f', s, b, ins);
    }
  }

  lemma RewriteOnce(s: Sub, f: Function, single: set<Name>)
    requires AtMostOnce(f, single)
    ensures AtMostOnce(RewriteFunction(s, false, f), single)
  {
    hide CountDefs, Rewrite;
    forall r | r in single ensures CountDefs(RewriteFunction(s, false, f).blocks, r) <= 1 {
      RewriteBlocksCount(s, false, f.blocks, RewriteFunction(s, false, f).blocks, r);
    }
  }

  /** Rewrite every use and drop the copies, block by block. */
  method DropCopies(f: Function, aliases: Sub) returns (res: Function)
    ensures res == RewriteFunction(aliases, false, f)
  {
    hide Rewrite;
    var blocks: seq<BasicBlock> := [];
    for n := 0 to |f.blocks|
      invariant |blocks| == n && forall k :: 0 <= k < n ==> blocks[k] == RewriteBlock(aliases, false, f.blocks[k])
    {
      var kept, _ := KeepUses(f.blocks[n].instrs, aliases);
      blocks := blocks + [BasicBlock(f.blocks[n].id, kept)];
    }
    assert blocks == RewriteFunction(aliases, false, f).blocks;
    res := f.(blocks := blocks);
  }

  /** What one round leaves for the next: the composed substitution is as sound as before. */
  lemma RoundKeeps(types: Typing, f: Function, cur: Function, single: set<Name>, s: Sub, aliases: Sub)
    requires cur == RewriteFunction(s, false, f) && ParamsFixed(cur) && AtMostOnce(cur, single) && TextOrdered(f)
    requires Copyable(types, f, single)
    requires CopiesOk(types, f, single, Compose(s, aliases))
    ensures var next := RewriteFunction(aliases, false, cur);
            && next == RewriteFunction(Compose(s, aliases), false, f)
            && ParamsFixed(next) && AtMostOnce(next, single) && TextOrdered(next)
  {
    hide Copyable, CopiesOk, RewriteFunction, Compose, ParamsFixed, AtMostOnce, TextOrdered;
    ComposeFunction(s, aliases, f);
    RewriteParams(aliases, cur);
    RewriteOnce(aliases, cur, single);
    CopiesKeepOrder(types, f, single, Compose(s, aliases));
    RewriteTextOrdered(Compose(s, aliases), false, f);
  }

  /** A round with aliases removes an instruction. */
  lemma RoundShrinks(f: Function, aliases: Sub)
    requires aliases != map[] && forall t :: t in aliases ==> DefinedIn(f, t)
    ensures SizeOf(RewriteFunction(aliases, false, f).blocks) < SizeOf(f.blocks)
  {
    hide SizeOf, RewriteFunction;
    var t :| t in aliases;
    assert DefinedIn(f, t);
    var b, ins :| b in f.blocks && ins in b.instrs && ins.dest == Some(t);
    DropShrinks(aliases, false, f, b, ins);
  }

  lemma PropagationPreserves(fl: Floats, types: Typing, f: Function, single: set<Name>, s: Sub)
    requires Copyable(types, f, single)
    requires CopiesOk(types, f, single, s)
    ensures Preserves(fl, true, f, RewriteFunction(s, false, f)) && Narrowed(f, RewriteFunction(s, false, f))
        && KeepsTerminators(s, f)
  {
    hide Narrowed, Copyable, CopiesOk, RewriteFunction, SoundSub, Preserves, Good, KeepsTerminators;
    CopyableGood(types, f, single);
    forall env: Env | env.fl == fl && env.checkRanges ensures SoundSub(env, f, s, false) && KeepsTerminators(s, f) {
      CopiesSound(env, types, f, single, s);
    }
    var env := Env(fl, map[], true, false);
    assert SoundSub(env, f, s, false);
    RewriteKeepsGood(s, false, f);
    RewriteNarrows(s, false, f);
    SoundPreserves(fl, true, f, Change(s, false));
  }

  /** What stands for the result of integer arithmetic is not an address. */
  lemma CopiesMade(fl: Floats, types: Typing, f: Function, single: set<Name>, s: Sub)
    requires Copyable(types, f, single)
    requires CopiesOk(types, f, single, s)
    ensures MadeFrom(f, RewriteFunction(s, false, f))
  {
    hide Copyable, SoundSub, AllKeepTypes, MadeFrom, RewriteFunction, Anchored, CopiesOk;
    CopyableGood(types, f, single);
    CopiesSound(Env(fl, map[], true, false), types, f, single, s);
    SoundKeepsTypes(fl, f, s, false);
    CopiesNoAddresses(types, f, single, s);
    RewriteMade(s, false, f);
  }

  lemma CopiesNoAddresses(types: Typing, f: Function, single: set<Name>, s: Sub)
    requires Copyable(types, f, single)
    requires CopiesOk(types, f, single, s)
    ensures NoAddresses(s)
  {
    hide UsesDefined, AtMostOnce, OperandsFixed, ParamsFixed, Anchored, Settled, CopyReason;
    forall t | t in s ensures !s[t].GlobalRef? {
      assert HasCopy(f, s, t);
      var b, ins :| b in f.blocks && ins in b.instrs && CopyReason(s, ins, t);
      assert TypedInstr(types, ins);
      CopyIsInt(s, ins, t);
    }
  }

  lemma CopyIsInt(s: Sub, ins: Instr, t: Name)
    requires CopyReason(s, ins, t)
    ensures ins.dest == Some(t) && IsInt(ResultTy(ins))
  {}

  lemma CopiesTyped(types: Typing, f: Function, single: set<Name>, s: Sub)
    requires Copyable(types, f, single)
    requires CopiesOk(types, f, single, s)
    ensures TypedFunction(types, RewriteFunction(s, false, f))
    ensures NoBoolExtension(f) ==> NoBoolExtension(RewriteFunction(s, false, f))
  {
    hide Rewrite, TypedInstr, ExtendsBool, Good, UsesDefined, AtMostOnce, OperandsFixed, ParamsFixed, HasCopy, Anchored;
    CopyableGood(types, f, single);
    var f' := RewriteFunction(s, false, f);
    forall b, ins | b in f'.blocks && ins in b.instrs
      ensures TypedInstr(types, ins) && (NoBoolExtension(f) ==> !ExtendsBool(ins)) {
      var b0, ins0 := SourceInstr(f, f', s, b, ins);
      assert TypedInstr(types, ins0);
      CopyInstrTyped(types, s, ins0);
    }
  }

  lemma CopyInstrTyped(types: Typing, s: Sub, ins: Instr)
    requires SubTyped(types, s) && TypedInstr(types, ins)
    ensures TypedInstr(types, SubstInstr(s, ins)) && (ExtendsBool(SubstInstr(s, ins)) <==> ExtendsBool(ins))
  {
    hide SubTyped, TypedOperand, WellTyped, ExtendsBool;
    CopyTyped(types, s, ins);
    forall k | 0 <= k < |ins.args| ensures TypedOperand(types, SubstOperand(s, ins.args[k])) {
        SubstTypedOperand(types, s, ins.args[k]); }
    SubstWellTyped(s, ins);
  }

  lemma SettledOf(types: Typing, f: Function, single: set<Name>, s: Sub)
    requires f.blocks != [] && CopiesOk(types, f, single, s)
    ensures Settled(s)
  {}

  /** Propagate copies until none is left.  The result runs like the source in every program,
      for every run whose integer operands are in range, traps included. */
  method PropagateFunction(fl: Floats, ghost types: Typing, f: Function) returns (res: Function, changed: bool)
    requires Propagatable(types, f)
    ensures Preserves(fl, true, f, res) && Narrowed(f, res) && (Disciplined(f) ==> Disciplined(res))
    ensures MadeFrom(f, res)
    ensures TypedFunction(types, res) && ParamsFixed(res) && (NoBoolExtension(f) ==> NoBoolExtension(res))
    ensures !changed ==> res == f
    ensures forall single :: IsSingle(f, single) ==> NoCopies(res, single)
  {
    hide Propagatable, Copyable, CopiesOk, RewriteFunction, Compose, ParamsFixed, AtMostOnce, TextOrdered, CountDefs,
         NoCopies, Preserves, SizeOf, Settled, DefinedIn, Narrowed, Disciplined, KeepsTerminators, KeepsOrder, MadeFrom;
    var single := SingleDefs(f);
    PropagatableStart(types, f, single);
    NothingReplaced(types, f, single);
    CopyableParts(types, f, single);
    ghost var s: Sub := map[];
    res, changed := f, false;
    while true
      invariant res == RewriteFunction(s, false, f) && CopiesOk(types, f, single, s)
      invariant ParamsFixed(res) && AtMostOnce(res, single) && TextOrdered(res)
      invariant !changed ==> res == f
      decreases SizeOf(res.blocks)
    {
      SettledOf(types, f, single, s);
      var aliases := FindAliases(types, f, res, single, s);
      if aliases == map[] {
        break;
      }
      RoundKeeps(types, f, res, single, s, aliases);
      RoundShrinks(res, aliases);
      res := DropCopies(res, aliases);
      s, changed := Compose(s, aliases), true;
    }
    PropagationPreserves(fl, types, f, single, s);
    CopiesTyped(types, f, single, s);
    CopiesMade(fl, types, f, single, s);
    if Disciplined(f) {
      CopiesKeepOrder(types, f, single, s);
      RewriteKeepsDiscipline(s, false, f);
    }
    forall x | IsSingle(f, x) ensures NoCopies(res, x) {
      assert x == single;
    }
  }

  lemma CopyableParts(types: Typing, f: Function, single: set<Name>)
    requires Copyable(types, f, single)
    ensures ParamsFixed(f) && AtMostOnce(f, single)
  {}
}
