/** Functions that store to every f64 slot before they load from it never see an unwritten one:
    a condition on the text, without which interpreter and bytecode can differ. */
module FloatSlots {
  import opened Cir
  import opened Arith
  import opened Interp
  import opened Graphs
  import opened FlowGraph
  import opened Walks
  import opened Trails
  import opened Definitions

  // ----- the condition -----

  predicate IsFloatSlot(ins: Instr) {
    ins.op.Alloca? && ins.ty.F64?
  }

  /** Registers that hold the address of an f64 slot. */
  function FloatRegs(f: Function): set<Name> {
    set b, i | b in f.blocks && i in b.instrs && IsFloatSlot(i) && i.dest.Some? :: i.dest.value
  }

  /** Operand `k` of an instruction is where it loads from or stores to. */
  predicate IsAddress(ins: Instr, k: nat) {
    (ins.op.Load? && k == 0) || (ins.op.Store? && k == 1)
  }

  predicate StoresTo(ins: Instr, p: Name) {
    ins.op.Store? && |ins.args| > 1 && ins.args[1].Reg? && ins.args[1].name == p
  }

  predicate LoadsFrom(ins: Instr, p: Name) {
    ins.op.Load? && ins.args != [] && ins.args[0].Reg? && ins.args[0].name == p
  }

  /** An f64 slot is a single element made in the entry block, and its register has no other definition. */
  ghost predicate SlotPlain(f: Function, b: BasicBlock, ins: Instr)
    requires f.blocks != []
  {
    IsFloatSlot(ins) ==>
      ins.args == [] && ins.dest.Some? && b == f.blocks[0] && CountDefs(f.blocks, ins.dest.value) == 1
          && ins.dest.value !in f.params
  }

  /** Its address is only ever loaded from and stored to. */
  ghost predicate SlotDirect(f: Function, ins: Instr) {
    forall k :: 0 <= k < |ins.args| && ins.args[k].Reg? && ins.args[k].name in FloatRegs(f) ==> IsAddress(ins, k)
  }

  ghost predicate FloatsDirect(f: Function) {
    && f.blocks != [] && f.GoodCfg()
    && (forall b, l :: b in f.blocks && l in b.Successors() ==> l != f.blocks[0].id)
    && forall b, ins :: b in f.blocks && ins in b.instrs ==> SlotPlain(f, b, ins) && SlotDirect(f, ins)
  }

  ghost predicate StoresAt(f: Function, q: Pos, p: Name) {
    InCode(f, q) && StoresTo(InstrAt(f, q), p)
  }

  /** Some point of `w` before its end stores to the slot of `p`. */
  ghost predicate StoredOn(f: Function, w: seq<Pos>, p: Name) {
    exists j :: 0 <= j < |w| - 1 && StoresAt(f, w[j], p)
  }

  /** On every path to a load there is a store before it. */
  ghost predicate StoredFirst(f: Function)
    requires f.blocks != []
  {
    forall w: seq<Pos>, p: Name :: p in FloatRegs(f) && LoadReached(f, w, p) ==> StoredOn(f, w, p)
  }

  ghost predicate LoadReached(f: Function, w: seq<Pos>, p: Name)
    requires f.blocks != []
  {
    IsWalk(f, w) && InCode(f, w[|w| - 1]) && LoadsFrom(InstrAt(f, w[|w| - 1]), p)
  }

  ghost predicate FloatsStored(f: Function) {
    FloatsDirect(f) && StoredFirst(f)
  }

  ghost predicate AllFloatsStored(funcs: map<Name, Function>) {
    forall g :: g in funcs ==> FloatsStored(funcs[g])
  }

  // ----- memory -----

  predicate NoBlank(cells: seq<Cell>) {
    forall i :: 0 <= i < |cells| ==> cells[i] != Zeroed(true)
  }

  /** A value that gives no access to an unwritten f64 element. */
  predicate Safe(m: Mem, v: Val) {
    v.VPtr? ==> v.slot < m.next && (v.slot in m.slots ==> NoBlank(m.slots[v.slot]))
  }

  ghost predicate SafeVals(m: Mem, vs: seq<Val>) {
    forall k :: 0 <= k < |vs| ==> Safe(m, vs[k])
  }

  predicate SafeCells(m: Mem, cells: seq<Cell>) {
    forall i :: 0 <= i < |cells| && cells[i].Written? ==> Safe(m, cells[i].v)
  }

  ghost predicate Tame(m: Mem) {
    && (forall s :: s in m.slots ==> s < m.next && SafeCells(m, m.slots[s]))
    && forall g :: g in m.globs ==> Safe(m, m.globs[g])
  }

  predicate CellsAged(cells: seq<Cell>, cells': seq<Cell>) {
    |cells'| == |cells| && forall i :: 0 <= i < |cells| && cells[i] != Zeroed(true) ==> cells'[i] != Zeroed(true)
  }

  /** From `m` to `m'` elements were only written, and slots below `n` are still there. */
  ghost predicate Aged(n: nat, m: Mem, m': Mem) {
    && m.next <= m'.next
    && (forall s :: s in m'.slots && s < m.next ==> s in m.slots && CellsAged(m.slots[s], m'.slots[s]))
    && forall s :: s in m.slots && s < n ==> s in m'.slots
  }

  lemma AgedJoins(n: nat, k: nat, m: Mem, m1: Mem, m2: Mem)
    requires Aged(n, m, m1) && Aged(k, m1, m2) && n <= k
    ensures Aged(n, m, m2)
  {
    forall s | s in m2.slots && s < m.next ensures s in m.slots && CellsAged(m.slots[s], m2.slots[s]) {
      assert CellsAged(m1.slots[s], m2.slots[s]) && CellsAged(m.slots[s], m1.slots[s]);
    }
  }

  lemma SafeAges(n: nat, m: Mem, m': Mem, v: Val)
    requires Aged(n, m, m') && Safe(m, v)
    ensures Safe(m', v)
  {
    if v.VPtr? && v.slot in m'.slots {
      assert CellsAged(m.slots[v.slot], m'.slots[v.slot]);
    }
  }

  // ----- registers -----

  ghost predicate RegsSafe(f: Function, m: Mem, regs: Regs) {
    forall r :: r in regs && r !in FloatRegs(f) ==> Safe(m, regs[r])
  }

  /** The register of an f64 slot holds its address once it is made; after a store the element is written. */
  ghost predicate Holds(f: Function, w: seq<Pos>, m: Mem, regs: Regs, p: Name) {
    && (p in regs ==> DefinedOn(f, w, p) && PointsTo(m, regs[p]))
    && (StoredOn(f, w, p) ==> p in regs && m.slots[regs[p].slot][0] != Zeroed(true))
  }

  predicate PointsTo(m: Mem, v: Val) {
    v.VPtr? && v.idx == 0 && v.slot < m.next && v.slot in m.slots && |m.slots[v.slot]| == 1
  }

  ghost predicate FloatsHeld(f: Function, w: seq<Pos>, m: Mem, regs: Regs) {
    forall p :: p in FloatRegs(f) ==> Holds(f, w, m, regs, p)
  }

  ghost predicate OwnedFrom(n: nat, m: Mem, owned: set<nat>) {
    n <= m.next && forall s :: s in owned ==> n <= s < m.next
  }

  /** Everything that holds of a call in progress; slots of its callers lie below `n`. */
  ghost predicate Settled(f: Function, w: seq<Pos>, m: Mem, regs: Regs, owned: set<nat>, n: nat) {
    Tame(m) && RegsSafe(f, m, regs) && FloatsHeld(f, w, m, regs) && OwnedFrom(n, m, owned)
  }

  lemma HoldsAges(f: Function, w: seq<Pos>, n: nat, m: Mem, m': Mem, regs: Regs, p: Name)
    requires Holds(f, w, m, regs, p) && Aged(n, m, m') && (p in regs && regs[p].VPtr? ==> regs[p].slot in m'.slots)
    ensures Holds(f, w, m', regs, p)
  {
    if p in regs { assert CellsAged(m.slots[regs[p].slot], m'.slots[regs[p].slot]); }
  }

  /** One step further, nothing about the slot of `p` done. */
  lemma HoldsOn(f: Function, w: seq<Pos>, w': seq<Pos>, m: Mem, regs: Regs, regs': Regs, p: Name)
    requires w != [] && |w'| == |w| + 1 && w'[..|w|] == w && Holds(f, w, m, regs, p)
    requires (p in regs' <==> p in regs) && (p in regs ==> regs'[p] == regs[p]) && !StoresAt(f, w[|w| - 1], p)
    ensures Holds(f, w', m, regs', p)
  {
    hide DefinesAt;
    StoredGrows(f, w, w', p);
    DefinedGrows(f, w, w', p);
  }

  lemma StoredGrows(f: Function, w: seq<Pos>, w': seq<Pos>, p: Name)
    requires w != [] && |w'| == |w| + 1 && w'[..|w|] == w
    ensures StoredOn(f, w', p) <==> StoredOn(f, w, p) || StoresAt(f, w[|w| - 1], p)
  {
    hide StoresAt;
    assert forall j :: 0 <= j < |w| ==> w'[j] == w'[..|w|][j];
    if StoresAt(f, w[|w| - 1], p) { assert StoresAt(f, w'[|w| - 1], p); }
    if StoredOn(f, w, p) {
      var j :| 0 <= j < |w| - 1 && StoresAt(f, w[j], p);
      assert StoresAt(f, w'[j], p);
    }
  }

  // ----- operands -----

  lemma OperandSafe(f: Function, m: Mem, regs: Regs, x: Operand)
    requires RegsSafe(f, m, regs) && OperandVal(regs, x).Some? && (x.Reg? ==> x.name !in FloatRegs(f))
    ensures Safe(m, OperandVal(regs, x).value)
  {
    hide FloatRegs;
  }

  lemma {:induction false} OperandsSafe(f: Function, m: Mem, regs: Regs, xs: seq<Operand>)
    requires RegsSafe(f, m, regs) && OperandVals(regs, xs).Some? && forall k ::
        0 <= k < |xs| && xs[k].Reg? ==> xs[k].name !in FloatRegs(f)
    ensures SafeVals(m, OperandVals(regs, xs).value)
  {
    hide FloatRegs, RegsSafe, Safe, OperandVal;
    if xs != [] {
      OperandsSafe(f, m, regs, xs[..|xs| - 1]);
      OperandSafe(f, m, regs, xs[|xs| - 1]);
    }
  }

  // ----- one step with and without the check -----

  function Checked(env: Env, on: bool): Env {
    env.(checkWritten := on)
  }

  lemma LoadSame(env: Env, m: Mem, p: Val)
    requires ValidPtr(m, p) ==> m.slots[p.slot][p.idx] != Zeroed(true)
    ensures LoadFrom(Checked(env, true), m, p) == LoadFrom(Checked(env, false), m, p)
  {}

  lemma StepSame(env: Env, ins: Instr, regs: Regs, owned: set<nat>, m: Mem)
    requires ins.op.Load? && |ins.args| > 0 && OperandVal(regs, ins.args[0]).Some? ==>
               LoadFrom(Checked(env, true), m, OperandVal(regs, ins.args[0]).value) ==
                   LoadFrom(Checked(env, false), m, OperandVal(regs, ins.args[0]).value)
    ensures Step(Checked(env, true), ins, regs, owned, m) == Step(Checked(env, false), ins, regs, owned, m)
  {
    hide LoadFrom, EvalBin, EvalNeg, EvalNot, EvalIcmp, EvalFcmp, EvalConv, InRange, OperandVals;
    if ins.op.Load? && |ins.args| > 0 {
      OneValue(regs, ins.args[..1]);
    }
  }

  /** What a load reads has been written. */
  lemma LoadsWritten(f: Function, w: seq<Pos>, ins: Instr, m: Mem, regs: Regs)
    requires FloatsStored(f) && IsWalk(f, w) && InCode(f, w[|w| - 1]) && InstrAt(f, w[|w| - 1]) == ins && ins.op.Load?
        && ins.args != []
    requires RegsSafe(f, m, regs) && FloatsHeld(f, w, m, regs) && OperandVal(regs, ins.args[0]).Some?
    ensures var p := OperandVal(regs, ins.args[0]).value; ValidPtr(m, p) ==> m.slots[p.slot][p.idx] != Zeroed(true)
  {
    hide FloatsDirect, FloatRegs, IsWalk, StoredOn, RegsSafe;
    var x := ins.args[0];
    if x.Reg? && x.name in FloatRegs(f) {
      assert LoadReached(f, w, x.name);
      assert Holds(f, w, m, regs, x.name);
    } else {
      OperandSafe(f, m, regs, x);
    }
  }

  // ----- what one step does -----

  /** A register of an f64 slot is defined by making the slot, and nowhere else. */
  lemma DestIsSlot(f: Function, b: BasicBlock, ins: Instr)
    requires FloatsDirect(f) && b in f.blocks && ins in b.instrs && ins.dest.Some? && ins.dest.value in FloatRegs(f)
    ensures IsFloatSlot(ins) && ins.args == [] && b == f.blocks[0]
  {
    hide CountDefs, SlotDirect, Function.GoodCfg;
    var b0, i0 :| b0 in f.blocks && i0 in b0.instrs && IsFloatSlot(i0) && i0.dest == ins.dest;
    assert SlotPlain(f, b0, i0);
    OnlyInstr(f, ins.dest.value, b, ins, b0, i0);
  }

  /** The entry block is run through once. */
  lemma {:induction false} EntryOnce(f: Function, w: seq<Pos>, j: nat)
    requires FloatsDirect(f) && IsWalk(f, w) && j < |w| && w[j].block == f.blocks[0].id
    ensures w[j].index == j
    decreases j
  {
    hide BlockMap, SlotPlain, SlotDirect, Function.GoodCfg, BasicBlock.Successors;
    if j > 0 {
      assert StepsTo(f, w[j - 1], w[j - 1 + 1]);
      if w[j].block == w[j - 1].block && w[j].index == w[j - 1].index + 1 {
        EntryOnce(f, w, j - 1);
      } else {
        NeverBack(f, w[j - 1].block, f.blocks[0].id);
      }
    }
  }

  lemma NeverBack(f: Function, u: Label, l: Label)
    requires FloatsDirect(f) && u in BlockMap(f.blocks) && l == f.blocks[0].id
    ensures l !in BlockMap(f.blocks)[u].Successors()
  {
    hide BlockMap, SlotPlain, SlotDirect, Function.GoodCfg, BasicBlock.Successors;
    BlockMapHas(f.blocks, u);
  }

  /** When a slot is made, nothing has been stored to it. */
  lemma NotYetStored(f: Function, w: seq<Pos>, m: Mem, regs: Regs, b: BasicBlock, ins: Instr)
    requires FloatsDirect(f) && IsWalk(f, w) && InCode(f, w[|w| - 1]) && InstrAt(f, w[|w| - 1]) == ins && b in f.blocks
        && ins in b.instrs
    requires w[|w| - 1].block == b.id && IsFloatSlot(ins) && ins.dest.Some? && Holds(f, w, m, regs, ins.dest.value)
    ensures !StoredOn(f, w, ins.dest.value)
  {
    hide BlockMap, CountDefs, SlotDirect, Function.GoodCfg, StoredOn, StepsTo;
    var p, last := ins.dest.value, |w| - 1;
    assert SlotPlain(f, b, ins);
    EntryOnce(f, w, last);
    if StoredOn(f, w, p) {
      var j :| 0 <= j < last && DefinesAt(f, w[j], p);
      assert DefinesAt(f, w[last], p);
      OnlyPoint(f, p, w[j], w[last]);
      EntryOnce(f, w, j);
      assert false;
    }
  }

  lemma RegsAge(f: Function, n: nat, m: Mem, m': Mem, regs: Regs, regs': Regs, dest: Option<Name>)
    requires RegsSafe(f, m, regs) && Aged(n, m, m')
    requires forall r :: r in regs' && dest != Some(r) ==> r in regs && regs'[r] == regs[r]
    requires dest.Some? && dest.value in regs' && dest.value !in FloatRegs(f) ==> Safe(m', regs'[dest.value])
    ensures RegsSafe(f, m', regs')
  {
    hide FloatRegs, Safe, Aged;
    forall r | r in regs' && r !in FloatRegs(f) ensures Safe(m', regs'[r]) {
      if dest != Some(r) { SafeAges(n, m, m', regs[r]); }
    }
  }

  /** Nothing is stored and no f64 slot is made. */
  lemma QuietSettles(f: Function, w: seq<Pos>, w': seq<Pos>, b: BasicBlock, ins: Instr, n: nat, m: Mem, m': Mem,
                     regs: Regs, regs': Regs, owned: set<nat>)
    requires Settled(f, w, m, regs, owned, n) && FloatsDirect(f) && b in f.blocks && ins in b.instrs && !ins.op.Store?
        && !IsFloatSlot(ins)
    requires |w'| == |w| + 1 && w != [] && w'[..|w|] == w && InCode(f, w[|w| - 1]) && InstrAt(f, w[|w| - 1]) == ins
    requires m'.slots == m.slots && m'.next == m.next && m'.globs == m.globs
    requires forall r :: ins.dest != Some(r) ==> (r in regs' <==> r in regs) && (r in regs ==> regs'[r] == regs[r])
    requires ins.dest.Some? && ins.dest.value in regs' ==> Safe(m, regs'[ins.dest.value])
    ensures Settled(f, w', m', regs', owned, n) && Aged(n, m, m')
  {
    hide FloatRegs, FloatsDirect, Holds, IsFloatSlot, InCode, CellsAged;
    SameAged(n, m, m');
    TameSame(m, m');
    if ins.dest.Some? && ins.dest.value in regs' { SafeAges(n, m, m', regs'[ins.dest.value]); }
    RegsAge(f, n, m, m', regs, regs', ins.dest);
    forall p | p in FloatRegs(f) ensures Holds(f, w', m', regs', p) {
      if ins.dest == Some(p) { DestIsSlot(f, b, ins); }
      NoStoreAt(f, w[|w| - 1], p);
      HoldsOn(f, w, w', m, regs, regs', p);
      HeldSlot(f, w', m, regs', p);
      HoldsAges(f, w', n, m, m', regs', p);
    }
  }

  lemma NoStoreAt(f: Function, q: Pos, p: Name)
    requires InCode(f, q) && !InstrAt(f, q).op.Store?
    ensures !StoresAt(f, q, p)
  {}

  lemma HeldSlot(f: Function, w: seq<Pos>, m: Mem, regs: Regs, p: Name)
    requires Holds(f, w, m, regs, p)
    ensures p in regs ==> regs[p].VPtr? && regs[p].slot in m.slots && regs[p].slot < m.next
  {}

  lemma SameAged(n: nat, m: Mem, m': Mem)
    requires m'.slots == m.slots && m'.next == m.next
    ensures Aged(n, m, m')
  {}

  lemma TameSame(m: Mem, m': Mem)
    requires Tame(m) && m'.slots == m.slots && m'.next == m.next && m'.globs == m.globs
    ensures Tame(m')
  {
    forall s | s in m'.slots ensures s < m'.next && SafeCells(m', m'.slots[s]) {
      assert SafeCells(m, m.slots[s]);
      forall i | 0 <= i < |m.slots[s]| && m.slots[s][i].Written?
        ensures Safe(m', m.slots[s][i].v) { assert Safe(m, m.slots[s][i].v); }
    }
    forall g | g in m'.globs ensures Safe(m', m'.globs[g]) { assert Safe(m, m.globs[g]); }
  }

  lemma TameAges(n: nat, m: Mem, m': Mem)
    requires Tame(m) && Aged(n, m, m') && m'.next >= m.next
    requires forall s ::
        s in m'.slots ==>
            s < m'.next && (s in m.slots ==> CellsFrom(m', m.slots[s], m'.slots[s]))
                && (s !in m.slots ==> SafeCells(m', m'.slots[s]))
    requires forall g :: g in m'.globs ==> (g in m.globs && m'.globs[g] == m.globs[g]) || Safe(m', m'.globs[g])
    ensures Tame(m')
  {
    hide Aged, Safe;
    forall s | s in m'.slots ensures SafeCells(m', m'.slots[s]) {
      if s in m.slots {
        assert SafeCells(m, m.slots[s]) && CellsFrom(m', m.slots[s], m'.slots[s]);
        forall i | 0 <= i < |m'.slots[s]| && m'.slots[s][i].Written? ensures Safe(m', m'.slots[s][i].v) {
          if m'.slots[s][i] == m.slots[s][i] { SafeAges(n, m, m', m.slots[s][i].v); }
        }
      }
    }
    forall g | g in m'.globs ensures Safe(m', m'.globs[g]) {
      if g in m.globs && m'.globs[g] == m.globs[g] { SafeAges(n, m, m', m.globs[g]); }
    }
  }

  /** Each element is as before or holds something safe. */
  ghost predicate CellsFrom(m': Mem, cells: seq<Cell>, cells': seq<Cell>) {
    |cells'| == |cells| && forall i ::
        0 <= i < |cells| ==> cells'[i] == cells[i] || (cells'[i].Written? && Safe(m', cells'[i].v))
  }

  // ----- making a slot -----

  function WithSlot(m: Mem, cells: seq<Cell>): Mem {
    m.(slots := m.slots[m.next := cells], next := m.next + 1)
  }

  lemma SlotAges(n: nat, m: Mem, count: int, isFloat: bool)
    requires Tame(m) && n <= m.next
    ensures var m' := WithSlot(m, ZeroCells(count, isFloat)); Aged(n, m, m') && Tame(m')
  {
    var m' := WithSlot(m, ZeroCells(count, isFloat));
    assert Aged(n, m, m');
    forall s | s in m'.slots ensures (s in m.slots ==> CellsFrom(m', m.slots[s], m'.slots[s]))
        && (s !in m.slots ==> SafeCells(m', m'.slots[s])) {}
    TameAges(n, m, m');
  }

  lemma AllocaSettles(f: Function, w: seq<Pos>, w': seq<Pos>, b: BasicBlock, ins: Instr, n: nat, m: Mem, count: int,
                      regs: Regs, owned: set<nat>)
    requires Settled(f, w, m, regs, owned, n) && FloatsDirect(f) && b in f.blocks && ins in b.instrs && ins.op.Alloca?
        && ins.dest.Some?
    requires IsWalk(f, w) && |w'| == |w| + 1 && w'[..|w|] == w && InCode(f, w[|w| - 1])
        && InstrAt(f, w[|w| - 1]) == ins && w[|w| - 1].block == b.id
    requires ins.args == [] ==> count == 1
    ensures var m' := WithSlot(m, ZeroCells(count, ins.ty.F64?));
            Settled(f, w', m', regs[ins.dest.value := VPtr(m.next, 0)], owned + {m.next}, n) && Aged(n, m, m')
  {
    hide FloatRegs, FloatsDirect, Holds, InCode, CellsAged, StepsTo, Tame, PointsTo;
    var m', d := WithSlot(m, ZeroCells(count, ins.ty.F64?)), ins.dest.value;
    var regs' := regs[d := VPtr(m.next, 0)];
    SlotAges(n, m, count, ins.ty.F64?);
    MadeHere(f, w, ins, d);
    if d in FloatRegs(f) { DestIsSlot(f, b, ins); } else { NewIsSafe(f, b, ins, m, count); }
    RegsAge(f, n, m, m', regs, regs', ins.dest);
    forall p | p in FloatRegs(f) ensures Holds(f, w', m', regs', p) {
      NoStoreAt(f, w[|w| - 1], p);
      if p == d {
        assert Holds(f, w, m, regs, p);
        NotYetStored(f, w, m, regs, b, ins);
        FreshSlot(m, ins.ty.F64?);
        JustMade(f, w, w', m', regs', p);
      } else {
        HoldsOn(f, w, w', m, regs, regs', p);
        HeldSlot(f, w', m, regs', p);
        HoldsAges(f, w', n, m, m', regs', p);
      }
    }
  }

  lemma MadeHere(f: Function, w: seq<Pos>, ins: Instr, d: Name)
    requires w != [] && InCode(f, w[|w| - 1]) && InstrAt(f, w[|w| - 1]) == ins && ins.dest == Some(d)
    ensures DefinesAt(f, w[|w| - 1], d)
  {}

  lemma FreshSlot(m: Mem, isFloat: bool)
    ensures PointsTo(WithSlot(m, ZeroCells(1, isFloat)), VPtr(m.next, 0))
  {}

  lemma JustMade(f: Function, w: seq<Pos>, w': seq<Pos>, m: Mem, regs: Regs, p: Name)
    requires w != [] && |w'| == |w| + 1 && w'[..|w|] == w && DefinesAt(f, w[|w| - 1], p) && p in regs
        && PointsTo(m, regs[p])
    requires !StoredOn(f, w, p) && !StoresAt(f, w[|w| - 1], p)
    ensures Holds(f, w', m, regs, p)
  {
    hide DefinesAt, StoresAt, StoredOn;
    StoredGrows(f, w, w', p);
    DefinedGrows(f, w, w', p);
  }

  lemma NewIsSafe(f: Function, b: BasicBlock, ins: Instr, m: Mem, count: int)
    requires b in f.blocks && ins in b.instrs && ins.op.Alloca? && ins.dest.Some? && ins.dest.value !in FloatRegs(f)
    ensures Safe(WithSlot(m, ZeroCells(count, ins.ty.F64?)), VPtr(m.next, 0))
  {
    assert !IsFloatSlot(ins);
  }

  // ----- storing -----

  lemma StoreAges(n: nat, m: Mem, p: Val, v: Val)
    requires Tame(m) && Safe(m, v) && StoreTo(m, p, v).Some?
    ensures Aged(n, m, StoreTo(m, p, v).value) && Tame(StoreTo(m, p, v).value)
  {
    var m' := StoreTo(m, p, v).value;
    assert Aged(n, m, m');
    SafeAges(n, m, m', v);
    forall s | s in m'.slots ensures s in m.slots && CellsFrom(m', m.slots[s], m'.slots[s]) {}
    TameAges(n, m, m');
  }

  lemma StoreSettles(f: Function, w: seq<Pos>, w': seq<Pos>, b: BasicBlock, ins: Instr, n: nat, m: Mem, regs: Regs,
                     owned: set<nat>)
    requires Settled(f, w, m, regs, owned, n) && FloatsDirect(f) && b in f.blocks && ins in b.instrs && ins.op.Store?
        && |ins.args| >= 2
    requires |w'| == |w| + 1 && w != [] && w'[..|w|] == w && InCode(f, w[|w| - 1]) && InstrAt(f, w[|w| - 1]) == ins
    requires OperandVal(regs, ins.args[0]).Some? && OperandVal(regs, ins.args[1]).Some?
    requires StoreTo(m, OperandVal(regs, ins.args[1]).value, OperandVal(regs, ins.args[0]).value).Some?
    ensures var m' := StoreTo(m, OperandVal(regs, ins.args[1]).value, OperandVal(regs, ins.args[0]).value).value;
            Settled(f, w', m', regs, owned, n) && Aged(n, m, m')
  {
    hide FloatRegs, Holds, InCode, CellsAged, Tame, SlotPlain, Function.GoodCfg, Safe, StoreTo, RegsSafe;
    var p, v := OperandVal(regs, ins.args[1]).value, OperandVal(regs, ins.args[0]).value;
    var m' := StoreTo(m, p, v).value;
    assert SlotDirect(f, ins);
    OperandSafe(f, m, regs, ins.args[0]);
    StoreAges(n, m, p, v);
    StoreShape(m, p, v);
    RegsAge(f, n, m, m', regs, regs, None);
    forall x | x in FloatRegs(f) ensures Holds(f, w', m', regs, x) {
      assert Holds(f, w, m, regs, x);
      HeldSlot(f, w, m, regs, x);
      if StoresTo(ins, x) {
        StoredNow(f, w, w', m, m', regs, x, v);
      } else {
        NotHere(f, w[|w| - 1], ins, x);
        HoldsOn(f, w, w', m, regs, regs, x);
        HoldsAges(f, w', n, m, m', regs, x);
      }
    }
  }

  lemma NotHere(f: Function, q: Pos, ins: Instr, p: Name)
    requires InCode(f, q) && InstrAt(f, q) == ins && !StoresTo(ins, p)
    ensures !StoresAt(f, q, p)
  {}

  lemma StoreShape(m: Mem, p: Val, v: Val)
    requires StoreTo(m, p, v).Some?
    ensures StoreTo(m, p, v).value.slots.Keys == m.slots.Keys && StoreTo(m, p, v).value.next == m.next
  {}

  lemma StoredNow(f: Function, w: seq<Pos>, w': seq<Pos>, m: Mem, m': Mem, regs: Regs, p: Name, v: Val)
    requires w != [] && |w'| == |w| + 1 && w'[..|w|] == w && Holds(f, w, m, regs, p) && p in regs
        && StoreTo(m, regs[p], v) == Some(m')
    ensures Holds(f, w', m', regs, p)
  {
    hide DefinesAt, StoresAt, StoredOn;
    StoredGrows(f, w, w', p);
    DefinedGrows(f, w, w', p);
  }

  // ----- the other instructions -----

  lemma PureGivesNoAddress(env: Env, op: Op, ty: Ty, src: Ty, vs: seq<Val>)
    requires IsPure(op) && |vs| == Arity(op) && EvalPure(env, op, ty, src, vs).Value?
    ensures !EvalPure(env, op, ty, src, vs).v.VPtr?
  {
    hide Wrap, Unsigned, Compare, RangesOk, InRange;
  }

  lemma LoadIsSafe(env: Env, m: Mem, p: Val)
    requires Tame(m) && LoadFrom(env, m, p).Some?
    ensures Safe(m, LoadFrom(env, m, p).value)
  {
    if !(p.VGlob? && p.name in m.globs) {
      var cells := m.slots[p.slot];
      assert SafeCells(m, cells);
      if cells[p.idx].Written? { assert Safe(m, cells[p.idx].v); }
    }
  }

  /** Anything but making a slot and storing changes at most the result register and the output. */
  lemma QuietStep(env: Env, ins: Instr, regs: Regs, owned: set<nat>, m: Mem)
    requires Step(env, ins, regs, owned, m).Next? && !ins.op.Store? && !ins.op.Alloca?
    ensures var r := Step(env, ins, regs, owned, m);
            && r.owned == owned && r.m.slots == m.slots && r.m.next == m.next && r.m.globs == m.globs
            && forall x :: ins.dest != Some(x) ==> (x in r.regs <==> x in regs) && (x in regs ==> r.regs[x] == regs[x])
  {
    hide EvalPure, LoadFrom, OperandVals, AsFloat;
  }

  lemma QuietResult(env: Env, ins: Instr, regs: Regs, owned: set<nat>, m: Mem)
    requires Step(env, ins, regs, owned, m).Next? && !ins.op.Store? && !ins.op.Alloca? && Tame(m)
    requires ins.op.Gep? && |ins.args| >= 2 && OperandVal(regs, ins.args[0]).Some? ==>
        Safe(m, OperandVal(regs, ins.args[0]).value)
    requires ins.dest.Some? && ins.dest.value in regs ==> Safe(m, regs[ins.dest.value])
    ensures var r := Step(env, ins, regs, owned, m);
        ins.dest.Some? && ins.dest.value in r.regs ==> Safe(m, r.regs[ins.dest.value])
  {
    hide EvalPure, LoadFrom, OperandVals, Tame, AsFloat;
    var n := Arity(ins.op);
    var vs := OperandVals(regs, ins.args[..n]).value;
    if IsPure(ins.op) {
      PureGivesNoAddress(env, ins.op, ins.ty, SourceType(ins), vs);
    } else if ins.op.Load? {
      LoadIsSafe(env, m, vs[0]);
    } else if ins.op.Gep? {
      TwoValues(regs, ins.args[..2]);
    }
  }

  lemma ReadSafe(f: Function, m: Mem, regs: Regs, ins: Instr, k: nat)
    requires SlotDirect(f, ins) && RegsSafe(f, m, regs) && k < |ins.args| && !IsAddress(ins, k)
    ensures OperandVal(regs, ins.args[k]).Some? ==> Safe(m, OperandVal(regs, ins.args[k]).value)
  {
    hide FloatRegs, RegsSafe, Safe;
    if OperandVal(regs, ins.args[k]).Some? { OperandSafe(f, m, regs, ins.args[k]); }
  }

  lemma DirectHere(f: Function, b: BasicBlock, ins: Instr)
    requires FloatsDirect(f) && b in f.blocks && ins in b.instrs
    ensures SlotDirect(f, ins) && SlotPlain(f, b, ins)
  {
    hide SlotDirect, SlotPlain, Function.GoodCfg;
  }

  lemma ResultRegSafe(f: Function, b: BasicBlock, ins: Instr, m: Mem, regs: Regs)
    requires FloatsDirect(f) && b in f.blocks && ins in b.instrs && RegsSafe(f, m, regs) && !IsFloatSlot(ins)
    ensures ins.dest.Some? && ins.dest.value in regs ==> Safe(m, regs[ins.dest.value])
  {
    hide FloatsDirect, FloatRegs, Safe;
    if ins.dest.Some? && ins.dest.value in FloatRegs(f) { DestIsSlot(f, b, ins); }
  }

  /** The run has made walk `w` and is about to execute `ins` of block `b`. */
  ghost predicate At(f: Function, w: seq<Pos>, b: BasicBlock, ins: Instr) {
    && f.blocks != [] && b in f.blocks && ins in b.instrs
    && IsWalk(f, w) && InCode(f, w[|w| - 1]) && InstrAt(f, w[|w| - 1]) == ins && w[|w| - 1].block == b.id
  }

  lemma AtTrail(f: Function, w: seq<Pos>, b: BasicBlock, rest: seq<Instr>)
    requires FloatsDirect(f) && OnTrail(f, w, b, rest)
    ensures At(f, w, b, rest[0])
  {
    hide BlockMap, SlotPlain, SlotDirect, Function.GoodCfg;
    TrailMember(f, w, b, rest);
    TrailInstr(f, w, b, rest);
  }

  lemma StepSettles(env: Env, f: Function, w: seq<Pos>, w': seq<Pos>, b: BasicBlock, ins: Instr, n: nat, m: Mem,
                    regs: Regs, owned: set<nat>)
    requires Step(env, ins, regs, owned, m).Next? && At(f, w, b, ins) && |w'| == |w| + 1 && w'[..|w|] == w
    requires FloatsDirect(f) && Settled(f, w, m, regs, owned, n)
    ensures var r := Step(env, ins, regs, owned, m); Settled(f, w', r.m, r.regs, r.owned, n) && Aged(n, m, r.m)
  {
    hide FloatsDirect, InCode, StepsTo, RegsSafe, FloatsHeld, Tame, Step, SlotDirect, SlotPlain, FloatRegs;
    DirectHere(f, b, ins);
    if ins.op.Alloca? {
      AllocaStep(env, f, b, ins, regs, owned, m);
      AllocaSettles(f, w, w', b, ins, n, m, FirstVal(regs, ins.args, Some(VInt(1))).value.i, regs, owned);
    } else if ins.op.Store? {
      StoreStep(env, ins, regs, owned, m);
      StoreSettles(f, w, w', b, ins, n, m, regs, owned);
    } else {
      ResultRegSafe(f, b, ins, m, regs);
      if ins.op.Gep? && |ins.args| >= 2 { ReadSafe(f, m, regs, ins, 0); }
      QuietStep(env, ins, regs, owned, m);
      QuietResult(env, ins, regs, owned, m);
      var r := Step(env, ins, regs, owned, m);
      QuietSettles(f, w, w', b, ins, n, m, r.m, regs, r.regs, owned);
    }
  }

  lemma AllocaStep(env: Env, f: Function, b: BasicBlock, ins: Instr, regs: Regs, owned: set<nat>, m: Mem)
    requires Step(env, ins, regs, owned, m).Next? && ins.op.Alloca?
    ensures ins.dest.Some? && FirstVal(regs, ins.args, Some(VInt(1))).Some?
        && FirstVal(regs, ins.args, Some(VInt(1))).value.VInt?
    ensures var count := FirstVal(regs, ins.args, Some(VInt(1))).value.i;
            Step(env, ins, regs, owned, m) == Next(regs[ins.dest.value := VPtr(m.next, 0)], owned + {m.next},
                WithSlot(m, ZeroCells(count, ins.ty.F64?)))
  {
    hide OperandVals, ZeroCells;
  }

  lemma StoreStep(env: Env, ins: Instr, regs: Regs, owned: set<nat>, m: Mem)
    requires Step(env, ins, regs, owned, m).Next? && ins.op.Store?
    ensures |ins.args| >= 2 && OperandVal(regs, ins.args[0]).Some? && OperandVal(regs, ins.args[1]).Some?
    ensures var s := StoreTo(m, OperandVal(regs, ins.args[1]).value, OperandVal(regs, ins.args[0]).value);
            s.Some? && Step(env, ins, regs, owned, m) == Next(regs, owned, s.value)
  {
    hide StoreTo;
    TwoValues(regs, ins.args[..2]);
  }

  /** The check changes nothing here. */
  lemma StepUnchecked(env: Env, f: Function, w: seq<Pos>, b: BasicBlock, ins: Instr, n: nat, m: Mem, regs: Regs,
                      owned: set<nat>)
    requires At(f, w, b, ins) && FloatsStored(f) && Settled(f, w, m, regs, owned, n)
    ensures Step(Checked(env, true), ins, regs, owned, m) == Step(Checked(env, false), ins, regs, owned, m)
  {
    hide FloatsStored, StepsTo, InCode, RegsSafe, FloatsHeld, Tame, Step, LoadFrom, ValidPtr;
    if ins.op.Load? && ins.args != [] && OperandVal(regs, ins.args[0]).Some? {
      LoadsWritten(f, w, ins, m, regs);
      LoadSame(env, m, OperandVal(regs, ins.args[0]).value);
    }
    StepSame(env, ins, regs, owned, m);
  }

  // ----- jumps, calls and returns -----

  lemma JumpSettles(f: Function, w: seq<Pos>, w': seq<Pos>, b: BasicBlock, ins: Instr, n: nat, m: Mem, regs: Regs,
                    owned: set<nat>)
    requires At(f, w, b, ins) && |w'| == |w| + 1 && w'[..|w|] == w && !ins.op.Store? && !ins.op.Alloca?
    requires FloatsDirect(f) && Settled(f, w, m, regs, owned, n)
    ensures Settled(f, w', m, regs, owned, n)
  {
    hide FloatsDirect, InCode, StepsTo, RegsSafe, FloatsHeld, Tame, FloatRegs, OwnedFrom;
    ResultRegSafe(f, b, ins, m, regs);
    QuietSettles(f, w, w', b, ins, n, m, m, regs, regs, owned);
  }

  /** After a call that kept the slots of its callers. */
  lemma CallSettles(f: Function, w: seq<Pos>, w': seq<Pos>, b: BasicBlock, ins: Instr, n: nat, m: Mem, m': Mem,
                    regs: Regs, owned: set<nat>, v: Val)
    requires At(f, w, b, ins) && |w'| == |w| + 1 && w'[..|w|] == w && ins.op.Call?
    requires Aged(m.next, m, m') && Tame(m') && Safe(m', v)
    requires FloatsDirect(f) && Settled(f, w, m, regs, owned, n)
    ensures Settled(f, w', m', Receive(regs, ins.dest, v), owned, n) && Aged(n, m, m')
  {
    hide FloatsDirect, Holds, FloatRegs, InCode, StepsTo, Tame, Safe, CellsAged;
    var regs' := Receive(regs, ins.dest, v);
    RegsAge(f, m.next, m, m', regs, regs', ins.dest);
    forall p | p in FloatRegs(f) ensures Holds(f, w', m', regs', p) {
      assert Holds(f, w, m, regs, p);
      if ins.dest == Some(p) { DestIsSlot(f, b, ins); }
      NoStoreAt(f, w[|w| - 1], p);
      HoldsOn(f, w, w', m, regs, regs', p);
      HeldSlot(f, w', m, regs', p);
      HoldsAges(f, w', m.next, m, m', regs', p);
    }
  }

  lemma ReleaseAges(m: Mem, owned: set<nat>, n: nat, v: Val)
    requires OwnedFrom(n, m, owned) && Tame(m) && Safe(m, v)
    ensures Aged(n, m, Release(m, owned)) && Tame(Release(m, owned)) && Safe(Release(m, owned), v)
  {
    hide SafeCells, Safe;
    var m' := Release(m, owned);
    assert Aged(n, m, m') by { hide NoBlank; }
    SafeAges(n, m, m', v);
    forall s | s in m'.slots ensures s in m.slots && CellsFrom(m', m.slots[s], m'.slots[s]) {}
    TameAges(n, m, m');
  }

  lemma {:induction false} BindSafe(params: seq<Name>, args: seq<Val>, m: Mem)
    requires SafeVals(m, args)
    ensures forall r :: r in Bind(params, args) ==> r in params && Safe(m, Bind(params, args)[r])
  {
    hide Safe;
    if params != [] && args != [] {
      var n := if |params| < |args| then |params| else |args|;
      BindSafe(params[..n - 1], args[..n - 1], m);
    }
  }

  lemma StartSettles(f: Function, args: seq<Val>, m: Mem)
    requires FloatsDirect(f) && Tame(m) && SafeVals(m, args)
    ensures Settled(f, [Pos(f.blocks[0].id, 0)], m, Bind(f.params, args), {}, m.next)
  {
    hide Bind, Safe, Tame, SafeVals, SlotDirect, CountDefs, Function.GoodCfg;
    BindSafe(f.params, args, m);
    var w, regs := [Pos(f.blocks[0].id, 0)], Bind(f.params, args);
    forall p | p in FloatRegs(f) ensures Holds(f, w, m, regs, p) {
      var b, i :| b in f.blocks && i in b.instrs && IsFloatSlot(i) && i.dest == Some(p);
      assert SlotPlain(f, b, i);
      assert p !in regs;
    }
  }

  // ----- whole runs -----

  /** What a finished call leaves: its callers' slots, and no access to an unwritten f64 element. */
  ghost predicate Kept(n: nat, m: Mem, r: Outcome) {
    r.Done? ==> Tame(r.m) && Safe(r.m, r.v) && Aged(n, m, r.m)
  }

  lemma KeptJoins(n: nat, m: Mem, m1: Mem, r: Outcome)
    requires Aged(n, m, m1) && Kept(n, m1, r)
    ensures Kept(n, m, r)
  {
    hide Tame, Safe, Aged;
    if r.Done? { AgedJoins(n, n, m, m1, r.m); }
  }

  lemma {:induction false} ExecSame(env: Env, fuel: nat, f: Function, w: seq<Pos>, b: BasicBlock, rest: seq<Instr>,
                                    regs: Regs, owned: set<nat>, m: Mem, n: nat)
    requires FloatsStored(f) && OnTrail(f, w, b, rest) && Settled(f, w, m, regs, owned, n) && AllFloatsStored(env.funcs)
    ensures Exec(Checked(env, true), fuel, f, b, rest, regs, owned, m) ==
        Exec(Checked(env, false), fuel, f, b, rest, regs, owned, m)
    ensures Kept(n, m, Exec(Checked(env, false), fuel, f, b, rest, regs, owned, m))
    decreases fuel, |rest| + 1
  {
    hide FloatsDirect, StoredFirst, OnTrail, Settled, AllFloatsStored, At, Kept, Step, Decode, CallFn, BlockMap, Aged,
         Tame, Function.GoodCfg;
    FloatsStoredHas(f);
    TrailSome(f, w, b, rest);
    AtTrail(f, w, b, rest);
    ActionKinds(rest[0], regs);
    TrailInstr(f, w, b, rest);
    match Decode(rest[0], regs)
    case Transfer(l) =>
      TransferTargets(rest[0], regs);
      var w' := TrailJump(f, w, b, rest, l);
      JumpSettles(f, w, w', b, rest[0], n, m, regs, owned);
      if fuel > 0 {
        var to := BlockMap(f.blocks)[l];
        ExecSame(env, fuel - 1, f, w', to, to.instrs, regs, owned, m, n);
      } else { StoppedKept(n, m, OutOfFuel(m.out)); }
    case Return(v) => ReturnKept(f, w, b, rest[0], regs, owned, m, n);
    case Invoke(callee, vs) =>
      InvokeSafe(f, w, b, rest[0], regs, owned, m, n);
      CallSame(env, fuel, callee, vs, m);
      var r := CallFn(Checked(env, false), fuel, callee, vs, m);
      if r.Done? {
        var w' := TrailStep(f, w, b, rest);
        var regs' := Receive(regs, rest[0].dest, r.v);
        KeptHas(m.next, m, r);
        CallSettles(f, w, w', b, rest[0], n, m, r.m, regs, owned, r.v);
        ExecSame(env, fuel, f, w', b, rest[1..], regs', owned, r.m, n);
        KeptJoins(n, m, r.m, Exec(Checked(env, false), fuel, f, b, rest[1..], regs', owned, r.m));
      } else { StoppedKept(n, m, r); }
    case Compute =>
      StepUnchecked(env, f, w, b, rest[0], n, m, regs, owned);
      var r := Step(Checked(env, false), rest[0], regs, owned, m);
      if r.Next? {
        var w' := TrailStep(f, w, b, rest);
        StepSettles(Checked(env, false), f, w, w', b, rest[0], n, m, regs, owned);
        ExecSame(env, fuel, f, w', b, rest[1..], r.regs, r.owned, r.m, n);
        KeptJoins(n, m, r.m, Exec(Checked(env, false), fuel, f, b, rest[1..], r.regs, r.owned, r.m));
      } else { StoppedKept(n, m, Failed(m.out)); StoppedKept(n, m, Trapped(m.out)); }
    case Broken => StoppedKept(n, m, Failed(m.out));
  }

  lemma FloatsStoredHas(f: Function)
    requires FloatsStored(f)
    ensures FloatsDirect(f) && f.GoodCfg() && f.blocks != []
  {
    hide SlotPlain, SlotDirect, Function.GoodCfg;
  }

  lemma StoppedKept(n: nat, m: Mem, r: Outcome)
    requires !r.Done?
    ensures Kept(n, m, r)
  {}

  lemma KeptHas(n: nat, m: Mem, r: Outcome)
    requires Kept(n, m, r) && r.Done?
    ensures Tame(r.m) && Safe(r.m, r.v) && Aged(n, m, r.m)
  {
    hide Tame, Safe, Aged;
  }

  lemma ReturnKept(f: Function, w: seq<Pos>, b: BasicBlock, ins: Instr, regs: Regs, owned: set<nat>, m: Mem, n: nat)
    requires At(f, w, b, ins) && Decode(ins, regs).Return? && FloatsDirect(f) && Settled(f, w, m, regs, owned, n)
    ensures Kept(n, m, Done(Decode(ins, regs).v, Release(m, owned)))
  {
    hide FloatsDirect, Tame, Aged, SlotDirect, SlotPlain, FloatRegs, IsWalk, InCode, RegsSafe, FloatsHeld, OwnedFrom;
    DirectHere(f, b, ins);
    if ins.args != [] { ReadSafe(f, m, regs, ins, 0); }
    ReleaseAges(m, owned, n, Decode(ins, regs).v);
  }

  lemma InvokeSafe(f: Function, w: seq<Pos>, b: BasicBlock, ins: Instr, regs: Regs, owned: set<nat>, m: Mem, n: nat)
    requires At(f, w, b, ins) && Decode(ins, regs).Invoke? && FloatsDirect(f) && Settled(f, w, m, regs, owned, n)
    ensures SafeVals(m, Decode(ins, regs).args) && Tame(m)
  {
    hide FloatsDirect, Tame, SlotPlain, FloatRegs, IsWalk, InCode, RegsSafe, FloatsHeld, OwnedFrom, SafeVals;
    DirectHere(f, b, ins);
    OperandsSafe(f, m, regs, ins.args);
  }

  lemma {:induction false} CallSame(env: Env, fuel: nat, name: Name, args: seq<Val>, m: Mem)
    requires AllFloatsStored(env.funcs) && SafeVals(m, args) && Tame(m)
    ensures CallFn(Checked(env, true), fuel, name, args, m) == CallFn(Checked(env, false), fuel, name, args, m)
    ensures Kept(m.next, m, CallFn(Checked(env, false), fuel, name, args, m))
    decreases fuel, 0
  {
    hide Exec, FloatsStored, Settled, Kept, Tame, SafeVals, OnTrail, Bind, Function.GoodCfg;
    if fuel > 0 && name in env.funcs && env.funcs[name].blocks != [] {
      var f := env.funcs[name];
      FloatsStoredHas(f);
      TrailStart(f);
      StartSettles(f, args, m);
      ExecSame(env, fuel - 1, f, [Pos(f.blocks[0].id, 0)], f.blocks[0], f.blocks[0].instrs, Bind(f.params, args), {},
          m, m.next);
    } else {
      StoppedKept(m.next, m, OutOfFuel(m.out));
      StoppedKept(m.next, m, Failed(m.out));
    }
  }
}
