/** Temporaries and slots told apart: which names the builder gives to results, and how often. */
module BuilderTemps {
  import opened Cir
  import opened Definitions
  import opened TypedFunctions
  import opened Discipline
  import opened BuilderData
  import opened BuilderBlocks
  import opened BuilderNames

  // ----- counting -----

  /** Defines `r`, or anything at all, with an alloca or with another instruction. */
  predicate Counted(ins: Instr, r: Option<Name>, slots: bool) {
    ins.dest.Some? && (r.Some? ==> ins.dest == r) && (ins.op.Alloca? <==> slots)
  }

  function TallyIn(instrs: seq<Instr>, r: Option<Name>, slots: bool): nat {
    if instrs == [] then 0
    else TallyIn(instrs[..|instrs| - 1], r, slots) + (if Counted(instrs[|instrs| - 1], r, slots) then 1 else 0)
  }

  function Tally(blocks: seq<BasicBlock>, r: Option<Name>, slots: bool): nat {
    if blocks == [] then 0
    else Tally(blocks[..|blocks| - 1], r, slots) + TallyIn(blocks[|blocks| - 1].instrs, r, slots)
  }

  /** How many temporaries a function makes. */
  function Temps(f: Function): nat {
    Tally(f.blocks, None, false)
  }

  lemma TallyEmitted(blocks: seq<BasicBlock>, ins: Instr, r: Option<Name>, slots: bool)
    requires blocks != []
    ensures Tally(WithInstr(blocks, ins), r, slots)
         == Tally(blocks, r, slots) + (if Counted(ins, r, slots) then 1 else 0)
  {
    var n, b := |blocks| - 1, WithInstr(blocks, ins);
    assert b[..n] == blocks[..n];
    assert b[n].instrs[..|b[n].instrs| - 1] == blocks[n].instrs;
  }

  lemma TallyOpened(blocks: seq<BasicBlock>, l: Label, r: Option<Name>, slots: bool)
    ensures Tally(blocks + [BasicBlock(l, [])], r, slots) == Tally(blocks, r, slots)
  {
    var b := blocks + [BasicBlock(l, [])];
    assert b[..|b| - 1] == blocks;
  }

  lemma {:induction false} TallyInserted(s: seq<Instr>, n: nat, ins: Instr, r: Option<Name>, slots: bool)
    requires n <= |s|
    ensures TallyIn(s[..n] + [ins] + s[n..], r, slots)
         == TallyIn(s, r, slots) + (if Counted(ins, r, slots) then 1 else 0)
  {
    var t := s[..n] + [ins] + s[n..];
    if n == |s| {
      assert t[..|t| - 1] == s;
    } else {
      var m := |s| - 1;
      assert s[..m][..n] == s[..n] && s[..m][n..] == s[n..m];
      assert t[..|t| - 1] == s[..m][..n] + [ins] + s[..m][n..];
      TallyInserted(s[..m], n, ins, r, slots);
    }
  }

  lemma {:induction false} TallySlot(blocks: seq<BasicBlock>, n: nat, ins: Instr, r: Option<Name>, slots: bool)
    requires blocks != [] && n <= |blocks[0].instrs|
    ensures Tally(WithSlot(blocks, n, ins), r, slots)
         == Tally(blocks, r, slots) + (if Counted(ins, r, slots) then 1 else 0)
    decreases |blocks|
  {
    var w, last := WithSlot(blocks, n, ins), |blocks| - 1;
    if last == 0 {
      assert w[..0] == blocks[..0] == [];
      TallyInserted(blocks[0].instrs, n, ins, r, slots);
    } else {
      assert w[..last] == WithSlot(blocks[..last], n, ins);
      TallySlot(blocks[..last], n, ins, r, slots);
    }
  }

  lemma {:induction false} TallySumIn(s: seq<Instr>, r: Name)
    ensures CountIn(s, r) == TallyIn(s, Some(r), false) + TallyIn(s, Some(r), true)
  {
    if s != [] { TallySumIn(s[..|s| - 1], r); }
  }

  lemma {:induction false} TallySum(blocks: seq<BasicBlock>, r: Name)
    ensures CountDefs(blocks, r) == Tally(blocks, Some(r), false) + Tally(blocks, Some(r), true)
  {
    if blocks != [] {
      TallySumIn(blocks[|blocks| - 1].instrs, r);
      TallySum(blocks[..|blocks| - 1], r);
    }
  }

  lemma {:induction false} TallyHasIn(s: seq<Instr>, r: Option<Name>, slots: bool)
    ensures TallyIn(s, r, slots) > 0 <==> exists ins :: ins in s && Counted(ins, r, slots)
  {
    if s != [] {
      var n := |s| - 1;
      TallyHasIn(s[..n], r, slots);
      assert s == s[..n] + [s[n]];
    }
  }

  lemma {:induction false} TallyHas(blocks: seq<BasicBlock>, r: Option<Name>, slots: bool)
    ensures Tally(blocks, r, slots) > 0 <==>
        exists b, ins :: b in blocks && ins in b.instrs && Counted(ins, r, slots)
  {
    hide Counted, TallyIn;
    if blocks != [] {
      var n := |blocks| - 1;
      TallyHas(blocks[..n], r, slots);
      TallyHasIn(blocks[n].instrs, r, slots);
      assert blocks == blocks[..n] + [blocks[n]];
    }
  }

  // ----- the names of results -----

  /** One of the first `n` temporaries. */
  ghost predicate IsTemp(r: Name, n: nat) {
    exists k: nat :: k < n && r == TempName(k)
  }

  ghost predicate Undotted(params: set<Name>) {
    forall p :: p in params ==> '.' !in p.text
  }

  /** A slot's name is no other slot's, and no parameter's. */
  ghost predicate SlotNamed(params: set<Name>, blocks: seq<BasicBlock>, taken: set<Name>, r: Name) {
    && Tally(blocks, Some(r), true) <= 1
    && (Tally(blocks, Some(r), true) == 1 ==> r in taken && (Undotted(params) ==> r !in params))
  }

  /** Everything defined by something else than an alloca is one of the temporaries made so far,
      and each of these is defined once. */
  ghost predicate TempsOk(params: set<Name>, blocks: seq<BasicBlock>, taken: set<Name>, nTmp: nat) {
    && Tally(blocks, None, false) == nTmp
    && (forall r :: Tally(blocks, Some(r), false) == if IsTemp(r, nTmp) then 1 else 0)
    && (forall r :: SlotNamed(params, blocks, taken, r))
  }

  lemma TempsStart(params: set<Name>, l: Label)
    ensures TempsOk(params, [BasicBlock(l, [])], {}, 0)
  {
    hide Counted, Undotted;
    forall r, slots ensures Tally([BasicBlock(l, [])], r, slots) == 0 {
      assert [BasicBlock(l, [])] == [] + [BasicBlock(l, [])];
      TallyOpened([], l, r, slots);
    }
  }

  lemma TempsOpened(params: set<Name>, blocks: seq<BasicBlock>, taken: set<Name>, nTmp: nat, l: Label)
    requires TempsOk(params, blocks, taken, nTmp)
    ensures TempsOk(params, blocks + [BasicBlock(l, [])], taken, nTmp)
  {
    hide Tally, IsTemp, Undotted;
    var b := blocks + [BasicBlock(l, [])];
    forall r, slots ensures Tally(b, r, slots) == Tally(blocks, r, slots) { TallyOpened(blocks, l, r, slots); }
    forall r ensures SlotNamed(params, b, taken, r) { assert SlotNamed(params, blocks, taken, r); }
  }

  lemma TempsTaken(params: set<Name>, blocks: seq<BasicBlock>, taken: set<Name>, taken': set<Name>, nTmp: nat)
    requires TempsOk(params, blocks, taken, nTmp) && taken <= taken'
    ensures TempsOk(params, blocks, taken', nTmp)
  {
    hide Tally, IsTemp, Undotted;
    forall r ensures SlotNamed(params, blocks, taken', r) { assert SlotNamed(params, blocks, taken, r); }
  }

  /** An instruction without a result. */
  lemma TempsPlain(params: set<Name>, blocks: seq<BasicBlock>, taken: set<Name>, nTmp: nat, ins: Instr)
    requires blocks != [] && ins.dest.None? && TempsOk(params, blocks, taken, nTmp)
    ensures TempsOk(params, WithInstr(blocks, ins), taken, nTmp)
  {
    hide Tally, IsTemp, Undotted, WithInstr;
    var b := WithInstr(blocks, ins);
    forall r, slots ensures Tally(b, r, slots) == Tally(blocks, r, slots) { TallyEmitted(blocks, ins, r, slots); }
    forall r ensures SlotNamed(params, b, taken, r) { assert SlotNamed(params, blocks, taken, r); }
  }

  lemma NextIsTemp(r: Name, n: nat)
    ensures IsTemp(r, n + 1) <==> IsTemp(r, n) || r == TempName(n)
    ensures !IsTemp(TempName(n), n)
  {
    hide TempName;
    forall k: nat | k < n ensures TempName(k) != TempName(n) { if TempName(k) == TempName(n) { TempsDiffer(k, n); } }
  }

  /** The next temporary. */
  lemma TempsNew(params: set<Name>, blocks: seq<BasicBlock>, taken: set<Name>, taken': set<Name>, nTmp: nat, ins: Instr)
    requires blocks != [] && ins.dest == Some(TempName(nTmp)) && !ins.op.Alloca? && taken <= taken'
    requires TempsOk(params, blocks, taken, nTmp)
    ensures TempsOk(params, WithInstr(blocks, ins), taken', nTmp + 1)
  {
    hide Tally, IsTemp, Undotted, WithInstr, TempName;
    var b := WithInstr(blocks, ins);
    forall r, slots ensures Tally(b, r, slots) == Tally(blocks, r, slots) + (if Counted(ins, r, slots) then 1 else 0) {
      TallyEmitted(blocks, ins, r, slots);
    }
    forall r ensures Tally(b, Some(r), false) == if IsTemp(r, nTmp + 1) then 1 else 0 { NextIsTemp(r, nTmp); }
    forall r ensures SlotNamed(params, b, taken', r) { assert SlotNamed(params, blocks, taken, r); }
  }

  /** A slot under a name not taken. */
  lemma TempsSlot(params: set<Name>, blocks: seq<BasicBlock>, taken: set<Name>, nTmp: nat, n: nat, ins: Instr, r: Name)
    requires blocks != [] && n <= |blocks[0].instrs| && ins.op.Alloca? && ins.dest == Some(r) && r !in taken
    requires Undotted(params) ==> r !in params
    requires TempsOk(params, blocks, taken, nTmp)
    ensures TempsOk(params, WithSlot(blocks, n, ins), taken + {r}, nTmp)
  {
    hide Tally, IsTemp, Undotted, WithSlot;
    var b := WithSlot(blocks, n, ins);
    forall q, slots ensures Tally(b, q, slots) == Tally(blocks, q, slots) + (if Counted(ins, q, slots) then 1 else 0) {
      TallySlot(blocks, n, ins, q, slots);
    }
    forall q ensures SlotNamed(params, b, taken + {r}, q) { assert SlotNamed(params, blocks, taken, q); }
  }

  /** No slot is named like a parameter, if no parameter's name has a dot. */
  lemma SlotIsNoParam(d: Data, taken: set<Name>, base: string, n: nat)
    requires SlotBase(d, taken, base) && Derived(base, n) !in taken
    ensures Undotted(d.params) ==> Derived(base, n) !in d.params
  {
    if '.' in base { DerivedIsDotted(base, n); }
  }

  // ----- captured names -----

  ghost predicate Redefines(f: Function, r: Name) {
    exists b, ins :: b in f.blocks && ins in b.instrs && ins.dest == Some(r)
  }

  ghost predicate HasSlot(f: Function, r: Name) {
    exists b, ins :: b in f.blocks && ins in b.instrs && Counted(ins, Some(r), true)
  }

  /** Exactly the parameters named like a temporary made are assigned, and exactly the slots so
      named are assigned a second time. */
  ghost predicate CapturedExactly(f: Function) {
    && (forall p :: p in f.params ==> (Redefines(f, p) <==> IsTemp(p, Temps(f))))
    && forall r :: CountDefs(f.blocks, r) >= 2 <==> HasSlot(f, r) && IsTemp(r, Temps(f))
  }

  lemma TempsCapture(f: Function, taken: set<Name>, nTmp: nat)
    requires TempsOk((set p | p in f.params), f.blocks, taken, nTmp) && forall p :: p in f.params ==> '.' !in p.text
    ensures CapturedExactly(f) && Temps(f) == nTmp
  {
    hide Tally, IsTemp, CountDefs;
    var params := set p | p in f.params;
    assert Undotted(params);
    forall r ensures CountDefs(f.blocks, r) >= 2 <==> HasSlot(f, r) && IsTemp(r, nTmp) {
      TallySum(f.blocks, r);
      TallyHas(f.blocks, Some(r), true);
      assert SlotNamed(params, f.blocks, taken, r);
    }
    forall p | p in f.params ensures Redefines(f, p) <==> IsTemp(p, nTmp) {
      TallyHas(f.blocks, Some(p), true);
      TallyHas(f.blocks, Some(p), false);
      assert SlotNamed(params, f.blocks, taken, p);
      RedefinesCounted(f, p);
    }
  }

  lemma RedefinesCounted(f: Function, r: Name)
    ensures Redefines(f, r) <==>
        || (exists b, ins :: b in f.blocks && ins in b.instrs && Counted(ins, Some(r), true))
        || (exists b, ins :: b in f.blocks && ins in b.instrs && Counted(ins, Some(r), false))
  {
    if Redefines(f, r) {
      var b, ins :| b in f.blocks && ins in b.instrs && ins.dest == Some(r);
      assert Counted(ins, Some(r), ins.op.Alloca?);
    }
  }

  /** No name is captured exactly when no temporary made has the name of a parameter or a slot. */
  lemma CapturedIff(f: Function)
    requires CapturedExactly(f)
    ensures ParamsFixed(f) && Once(f) <==> forall r :: IsTemp(r, Temps(f)) ==> r !in f.params && !HasSlot(f, r)
  {
    hide IsTemp, Temps, CountDefs, HasSlot;
    if ParamsFixed(f) && Once(f) {
      forall r | IsTemp(r, Temps(f)) ensures r !in f.params && !HasSlot(f, r) {
        assert CountDefs(f.blocks, r) <= 1;
        assert r in f.params ==> !Redefines(f, r);
      }
    }
    if forall r :: IsTemp(r, Temps(f)) ==> r !in f.params && !HasSlot(f, r) {
      forall b, ins | b in f.blocks && ins in b.instrs && ins.dest.Some? ensures ins.dest.value !in f.params {
        assert Redefines(f, ins.dest.value);
      }
    }
  }
}
