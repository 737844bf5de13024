/** The unoptimised bytecode on the stack machine behaves as the interpreter does. */
module NaiveProof {
  import opened Cir
  import opened Arith
  import opened Interp
  import opened Bytecode
  import opened StackVm
  import opened Layout
  import opened LowerSteps
  import opened PeepholeCorrect

  // ----- which functions -----

  predicate ShapedBlock(b: BasicBlock) {
    forall i :: i in b.instrs ==> Shaped(i)
  }

  /** No block transfers to the first one, which carries no label in the bytecode. */
  predicate EntryUnreached(f: Function)
    requires f.blocks != []
  {
    forall n :: 0 <= n < |f.blocks| ==> f.blocks[0].id !in f.blocks[n].Successors()
  }

  ghost predicate Lowerable(f: Function) {
    && Emits(f) && f.blocks != [] && EntryUnreached(f)
    && (forall n :: 0 <= n < |f.blocks| ==> ShapedBlock(f.blocks[n]))
    && f.GoodCfg()
  }

  ghost predicate AllLowerable(funcs: map<Name, Function>) {
    forall g :: g in funcs ==> Lowerable(funcs[g])
  }

  ghost predicate Compilable(env: Env) {
    env.checkWritten && forall g :: g in env.funcs ==> Lowerable(env.funcs[g])
  }

  lemma CompilableEmits(env: Env)
    requires Compilable(env)
    ensures Emitting(env.funcs)
  {
    hide Emits, EntryUnreached, ShapedBlock;
    forall g | g in env.funcs ensures CanEmit(env.funcs[g]) {
      assert Lowerable(env.funcs[g]);
    }
  }

  // ----- where the two machines are -----

  /** The interpreter has `rest` of block `n` to go, and the machine its code. */
  ghost predicate At(f: Function, n: nat, rest: seq<Instr>, pc: nat)
    requires Emits(f)
  {
    && n < |f.blocks| && rest != [] && |rest| <= |f.blocks[n].instrs|
    && rest == f.blocks[n].instrs[|f.blocks[n].instrs| - |rest|..]
    && var ops := LowerInstrs(rest, LocalTable(f), NextLabel(f, n));
       ops.Some? && Holds(NaiveCode(f).code, pc, ops.value) && pc + |ops.value| == Start(NaiveBlocks(f), n + 1)
  }

  lemma DistinctFunction(f: Function)
    requires f.UniqueLabels()
    ensures NoDuplicates(Ids(f))
  {}

  lemma AtStart(f: Function, n: nat)
    requires n < |f.blocks| && Lowerable(f)
    ensures At(f, n, f.blocks[n].instrs, Start(NaiveBlocks(f), n))
  {
    hide ShapedBlock, EntryUnreached, LocalTable, LowerInstrs, Holds, Assemble;
    DistinctFunction(f);
    var b := f.blocks[n];
    assert b.instrs[0..] == b.instrs;
    assert b.Terminator().Some?;
    Assembled(f.params, Ids(f), NaiveBlocks(f), n);
    assert NaiveBlock(f, n).Some?;
  }

  /** The code of the next instruction, and the position after it. */
  lemma AtNext(f: Function, n: nat, rest: seq<Instr>, pc: nat) returns (ops: seq<StackOp>)
    requires Lowerable(f) && At(f, n, rest, pc)
    ensures LowerInstr(rest[0], LocalTable(f), NextLabel(f, n)) == Some(ops)
    ensures Holds(NaiveCode(f).code, pc, ops)
    ensures |rest| > 1 ==> At(f, n, rest[1..], pc + |ops|)
    ensures |rest| == 1 ==> pc + |ops| == Start(NaiveBlocks(f), n + 1)
  {
    hide ShapedBlock, EntryUnreached, LocalTable, LowerInstr, Holds, Assemble;
    ops := LowerInstr(rest[0], LocalTable(f), NextLabel(f, n)).value;
    var tail := LowerInstrs(rest[1..], LocalTable(f), NextLabel(f, n)).value;
    HoldsSplit(NaiveCode(f).code, pc, ops, tail);
  }

  /** Terminators end blocks, and every instruction is well shaped. */
  lemma AtShape(f: Function, n: nat, rest: seq<Instr>, pc: nat)
    requires Lowerable(f) && At(f, n, rest, pc)
    ensures Shaped(rest[0])
    ensures rest[0].op.IsTerminator() <==> |rest| == 1
  {
    hide EntryUnreached, LocalTable, LowerInstrs, Holds, Assemble, Shaped, Start;
    var b := f.blocks[n];
    var k := |b.instrs| - |rest|;
    assert rest[0] == b.instrs[k] && ShapedBlock(b);
    assert b.instrs[k] in b.instrs;
    assert b.Terminator().Some?;
  }

  /** The target of a block's terminator is another block, where its label says. */
  lemma TargetPlaced(f: Function, n: nat, l: Label) returns (k: nat)
    requires Lowerable(f) && n < |f.blocks| && l in f.blocks[n].Successors()
    ensures k < |f.blocks| && f.blocks[k].id == l && l in BlockMap(f.blocks) && BlockMap(f.blocks)[l] == f.blocks[k]
    ensures l in NaiveCode(f).labels && NaiveCode(f).labels[l] == Start(NaiveBlocks(f), k)
    ensures NextLabel(f, n) == Some(l) ==> k == n + 1
  {
    hide Emits, ShapedBlock, Assemble, LowerInstrs;
    assert f.HasBlock(l);
    k :| 0 <= k < |f.blocks| && f.blocks[k].id == l;
    UniqueInMap(f.blocks, k);
    DistinctFunction(f);
    assert Ids(f)[k] == l;
    assert k != 0;
    Assembled(f.params, Ids(f), NaiveBlocks(f), k);
  }

  lemma {:induction false} UniqueInMap(blocks: seq<BasicBlock>, k: nat)
    requires k < |blocks| && forall i, j :: 0 <= i < j < |blocks| ==> blocks[i].id != blocks[j].id
    ensures blocks[k].id in BlockMap(blocks) && BlockMap(blocks)[blocks[k].id] == blocks[k]
  {
    if k < |blocks| - 1 { UniqueInMap(blocks[..|blocks| - 1], k); }
  }
}
