/** Two runs that number their memory slots differently. */
module Renaming {
  import opened Cir
  import opened Arith
  import opened Interp

  /** Slots of the first run, and their numbers in the second. */
  type Slotmap = map<nat, nat>

  predicate ValRel(p: Slotmap, v: Val, v': Val) {
    match v
    case VPtr(s, i) => s in p && v' == VPtr(p[s], i)
    case _ => v' == v
  }

  predicate CellRel(p: Slotmap, c: Cell, c': Cell) {
    match c
    case Zeroed(_) => c' == c
    case Written(v) => c'.Written? && ValRel(p, v, c'.v)
  }

  ghost predicate CellsRel(p: Slotmap, cs: seq<Cell>, cs': seq<Cell>) {
    |cs'| == |cs| && forall k :: 0 <= k < |cs| ==> CellRel(p, cs[k], cs'[k])
  }

  ghost predicate ValsRel(p: Slotmap, vs: seq<Val>, vs': seq<Val>) {
    |vs'| == |vs| && forall k :: 0 <= k < |vs| ==> ValRel(p, vs[k], vs'[k])
  }

  /** Outside the registers in `d`, which the second run does not keep. */
  ghost predicate RegsRel(d: set<Name>, p: Slotmap, a: Regs, b: Regs) {
    forall r :: r !in d ==> (r in a <==> r in b) && (r in a && r in b ==> ValRel(p, a[r], b[r]))
  }

  ghost predicate GlobsRel(p: Slotmap, a: map<Name, Val>, b: map<Name, Val>) {
    a.Keys == b.Keys && forall g :: g in a ==> ValRel(p, a[g], b[g])
  }

  ghost predicate SlotRel(p: Slotmap, m: Mem, m': Mem, s: nat)
    requires s in p
  {
    s in m.slots ==> p[s] in m'.slots && CellsRel(p, m.slots[s], m'.slots[p[s]])
  }

  ghost predicate Injective(p: Slotmap) {
    forall s, t :: s in p && t in p && p[s] == p[t] ==> s == t
  }

  ghost predicate Numbered(p: Slotmap, m: Mem, m': Mem) {
    forall s :: s in p ==> s < m.next && p[s] < m'.next
  }

  ghost predicate MemRel(p: Slotmap, m: Mem, m': Mem) {
    && Injective(p) && Numbered(p, m, m') && GlobsRel(p, m.globs, m'.globs) && m'.out == m.out
    && forall s :: s in p ==> SlotRel(p, m, m', s)
  }

  /** `p'` numbers at least the slots `p` does, and those alike. */
  ghost predicate Grows(p: Slotmap, p': Slotmap) {
    forall s :: s in p ==> s in p' && p'[s] == p[s]
  }

  function Image(p: Slotmap, owned: set<nat>): set<nat> {
    set s | s in owned && s in p :: p[s]
  }

  // ----- growing -----

  lemma CellsGrow(p: Slotmap, p': Slotmap, cs: seq<Cell>, cs': seq<Cell>)
    requires Grows(p, p') && CellsRel(p, cs, cs')
    ensures CellsRel(p', cs, cs')
  {
    forall k | 0 <= k < |cs| ensures CellRel(p', cs[k], cs'[k]) { assert CellRel(p, cs[k], cs'[k]); }
  }

  lemma RegsGrow(d: set<Name>, p: Slotmap, p': Slotmap, a: Regs, b: Regs)
    requires Grows(p, p') && RegsRel(d, p, a, b)
    ensures RegsRel(d, p', a, b)
  {
    forall r | r !in d ensures (r in a <==> r in b) && (r in a && r in b ==> ValRel(p', a[r], b[r])) {
      assert r in a && r in b ==> ValRel(p, a[r], b[r]);
    }
  }

  lemma DefineRel(d: set<Name>, p: Slotmap, a: Regs, b: Regs, r: Name, v: Val, v': Val)
    requires RegsRel(d, p, a, b) && ValRel(p, v, v')
    ensures RegsRel(d, p, a[r := v], b[r := v'])
  {}

  /** A slot both allocate. */
  lemma AllocateBoth(p: Slotmap, m: Mem, m': Mem, n: int, isFloat: bool)
    requires MemRel(p, m, m') && m.next !in p
    ensures var q := p[m.next := m'.next];
            var a, a' := m.(slots := m.slots[m.next := ZeroCells(n, isFloat)], next := m.next + 1),
                         m'.(slots := m'.slots[m'.next := ZeroCells(n, isFloat)], next := m'.next + 1);
            Grows(p, q) && MemRel(q, a, a')
  {
    var q := p[m.next := m'.next];
    var a := m.(slots := m.slots[m.next := ZeroCells(n, isFloat)], next := m.next + 1);
    var a' := m'.(slots := m'.slots[m'.next := ZeroCells(n, isFloat)], next := m'.next + 1);
    assert Grows(p, q);
    forall s | s in q ensures SlotRel(q, a, a', s) {
      if s != m.next {
        assert SlotRel(p, m, m', s);
        assert p[s] < m'.next;
        if s in m.slots { CellsGrow(p, q, m.slots[s], m'.slots[p[s]]); }
      }
    }
    forall g | g in a.globs ensures ValRel(q, a.globs[g], a'.globs[g]) { assert ValRel(p, m.globs[g], m'.globs[g]); }
  }

  lemma FreshSlot(p: Slotmap, m: Mem, m': Mem)
    requires MemRel(p, m, m')
    ensures m.next !in p
  {}

  /** A slot only the first run allocates. */
  lemma AllocateFirst(p: Slotmap, m: Mem, m': Mem, cells: seq<Cell>)
    requires MemRel(p, m, m')
    ensures MemRel(p, m.(slots := m.slots[m.next := cells], next := m.next + 1), m')
  {
    var a := m.(slots := m.slots[m.next := cells], next := m.next + 1);
    forall s | s in p ensures SlotRel(p, a, m', s) { assert SlotRel(p, m, m', s); }
  }

  lemma ReleaseRel(p: Slotmap, m: Mem, m': Mem, owned: set<nat>)
    requires MemRel(p, m, m')
    ensures MemRel(p, Release(m, owned), Release(m', Image(p, owned)))
  {
    var a, a' := Release(m, owned), Release(m', Image(p, owned));
    forall s | s in p ensures SlotRel(p, a, a', s) {
      assert SlotRel(p, m, m', s);
    }
  }

  // ----- loads and stores -----

  lemma LoadRel(env: Env, p: Slotmap, m: Mem, m': Mem, v: Val, v': Val)
    requires MemRel(p, m, m') && ValRel(p, v, v') && LoadFrom(env, m, v).Some?
    ensures LoadFrom(env, m', v').Some? && ValRel(p, LoadFrom(env, m, v).value, LoadFrom(env, m', v').value)
  {
    if !(v.VGlob? && v.name in m.globs) {
      assert SlotRel(p, m, m', v.slot);
      assert CellRel(p, m.slots[v.slot][v.idx], m'.slots[p[v.slot]][v.idx]);
    }
  }

  lemma StoreRel(p: Slotmap, m: Mem, m': Mem, at: Val, at': Val, v: Val, v': Val)
    requires MemRel(p, m, m') && ValRel(p, at, at') && ValRel(p, v, v') && StoreTo(m, at, v).Some?
    ensures StoreTo(m', at', v').Some? && MemRel(p, StoreTo(m, at, v).value, StoreTo(m', at', v').value)
  {
    if !at.VGlob? {
      assert SlotRel(p, m, m', at.slot);
      StoreSlotRel(p, m, m', at.slot, at.idx, v, v');
    } else {
      var a, a' := StoreTo(m, at, v).value, StoreTo(m', at', v').value;
      forall s | s in p ensures SlotRel(p, a, a', s) { assert SlotRel(p, m, m', s); }
    }
  }

  lemma StoreSlotRel(p: Slotmap, m: Mem, m': Mem, s: nat, i: nat, v: Val, v': Val)
    requires MemRel(p, m, m') && ValRel(p, v, v') && s in p && s in m.slots && i < |m.slots[s]|
    requires p[s] in m'.slots && |m'.slots[p[s]]| == |m.slots[s]|
    ensures MemRel(p, m.(slots := m.slots[s := m.slots[s][i := Written(v)]]),
                   m'.(slots := m'.slots[p[s] := m'.slots[p[s]][i := Written(v')]]))
  {
    var a := m.(slots := m.slots[s := m.slots[s][i := Written(v)]]);
    var a' := m'.(slots := m'.slots[p[s] := m'.slots[p[s]][i := Written(v')]]);
    assert SlotRel(p, m, m', s);
    forall t | t in p ensures SlotRel(p, a, a', t) {
      assert SlotRel(p, m, m', t);
      if t == s {
        forall k | 0 <= k < |a.slots[s]| ensures CellRel(p, a.slots[s][k], a'.slots[p[s]][k]) {
          assert CellRel(p, m.slots[s][k], m'.slots[p[s]][k]);
        }
      }
    }
  }

  // ----- operands and pure operations -----

  predicate NotRead(d: set<Name>, xs: seq<Operand>) {
    forall k :: 0 <= k < |xs| && xs[k].Reg? ==> xs[k].name !in d
  }

  lemma OperandRel(d: set<Name>, p: Slotmap, a: Regs, b: Regs, x: Operand)
    requires RegsRel(d, p, a, b) && (x.Reg? ==> x.name !in d)
    ensures OperandVal(a, x).Some? <==> OperandVal(b, x).Some?
    ensures OperandVal(a, x).Some? ==> ValRel(p, OperandVal(a, x).value, OperandVal(b, x).value)
  {}

  lemma {:induction false} OperandsRel(d: set<Name>, p: Slotmap, a: Regs, b: Regs, xs: seq<Operand>)
    requires RegsRel(d, p, a, b) && NotRead(d, xs)
    ensures OperandVals(a, xs).Some? <==> OperandVals(b, xs).Some?
    ensures OperandVals(a, xs).Some? ==> ValsRel(p, OperandVals(a, xs).value, OperandVals(b, xs).value)
  {
    hide RegsRel, OperandVal;
    if xs != [] {
      var n := |xs| - 1;
      OperandsRel(d, p, a, b, xs[..n]);
      OperandRel(d, p, a, b, xs[n]);
    }
  }

  /** Pure operations do not look at slot numbers: what they accept is equal. */
  lemma PureRel(env: Env, p: Slotmap, op: Op, ty: Ty, src: Ty, vs: seq<Val>, vs': seq<Val>)
    requires IsPure(op) && |vs| == Arity(op) && ValsRel(p, vs, vs')
    ensures EvalPure(env, op, ty, src, vs).Wrong? || EvalPure(env, op, ty, src, vs') == EvalPure(env, op, ty, src, vs)
    ensures var r := EvalPure(env, op, ty, src, vs); r.Value? ==> ValRel(p, r.v, r.v)
  {
    hide Wrap, IntBin, Compare, Unsigned, InRange;
    forall k | 0 <= k < |vs| ensures !vs[k].VPtr? ==> vs'[k] == vs[k] { assert ValRel(p, vs[k], vs'[k]); }
    PureValue(env, op, ty, src, vs);
    if forall k :: 0 <= k < |vs| ==> !vs[k].VPtr? { assert vs' == vs; }
  }

  lemma PureValue(env: Env, op: Op, ty: Ty, src: Ty, vs: seq<Val>)
    requires IsPure(op) && |vs| == Arity(op)
    ensures var r := EvalPure(env, op, ty, src, vs); r.Value? ==> !r.v.VPtr?
    ensures (exists k :: 0 <= k < |vs| && vs[k].VPtr?) ==> EvalPure(env, op, ty, src, vs).Wrong?
  {
    hide Wrap; hide Pow2; hide Bits; hide Compare; hide Unsigned; hide InRange; hide Abs; hide MinInt;
  }
}
