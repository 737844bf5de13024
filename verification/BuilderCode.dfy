/** The builder's instructions: every operand is defined on every path, and nothing is
    emitted that a later stage would refuse. */
module BuilderCode {
  import opened Cir
  import opened Arith
  import opened Fold
  import opened Labels
  import opened BuilderData
  import opened BuilderBlocks

  /** Operands and result as the operation calls for them. */
  ghost predicate Formed(ins: Instr) {
    match ins.op
    case Alloca => ins.dest.Some?
        && (ins.args == [] || (|ins.args| == 1 && ins.args[0].ConstInt? && ins.args[0].ty.I32?))
    case Load => ins.dest.Some? && |ins.args| == 1
    case Store => ins.dest.None? && |ins.args| == 2 && !ins.args[0].GlobalRef?
    case Gep => ins.dest.Some? && |ins.args| == 2 && NoGlobals(ins.args)
    case Call(_) => (ins.dest.Some? <==> !ins.ty.Void?) && NoGlobals(ins.args)
    case PrintI32 => ins.dest.None? && |ins.args| == 1 && NoGlobals(ins.args)
    case PrintF64 => ins.dest.None? && |ins.args| == 1 && NoGlobals(ins.args)
    case Trap => false
    case Br(_) => ins.dest.None? && ins.args == []
    case BrCond(_, _) => ins.dest.None? && WellTyped(ins) && NoGlobals(ins.args)
    case Ret => ins.dest.None? && |ins.args| <= 1 && NoGlobals(ins.args)
    case Conv(_) => ins.dest.Some? && WellTyped(ins) && !ExtendsBool(ins) && NoGlobals(ins.args)
    case Neg => ins.dest.Some? && |ins.args| == 1 && NoGlobals(ins.args) && Measured(ins)
    case Not => ins.dest.Some? && |ins.args| == 1 && NoGlobals(ins.args) && Measured(ins)
    case Icmp(_) => ins.dest.Some? && |ins.args| == 2 && NoGlobals(ins.args) && !ins.ty.F64? && WellTyped(ins)
    case _ => ins.dest.Some? && |ins.args| == 2 && NoGlobals(ins.args) && Measured(ins)
  }

  /** Typed as it should be, unless it computes with something that is not a number. */
  predicate Measured(ins: Instr) {
    WellTyped(ins) || (!IsInt(ins.ty) && !ins.ty.F64? && !(ins.op.Bin? && IsFloatOp(ins.op.bin)) && !ins.op.Fcmp?)
  }

  ghost predicate TypedText(d: Data, ins: Instr) {
    && (forall j :: 0 <= j < |ins.args| ==> PlainConst(ins.args[j]))
    && (forall j :: 0 <= j < |ins.args| && ins.args[j].Reg? ==> TypedReg(d, ins.args[j].name, ins.args[j].ty))
    && (ins.dest.Some? ==> TypedReg(d, ins.dest.value, ResultTy(ins)))
    && (d.clean && ins.op.Alloca? ==> forall j ::
        0 <= j < |ins.args| && ins.args[j].ConstInt? ==> CountKept(ins.args[j].value, ins.args[j].ty))
  }

  /** An instruction that may be emitted here. */
  ghost predicate Emittable(d: Data, ins: Instr) {
    && Formed(ins) && !ins.op.Alloca? && (forall j :: 0 <= j < |ins.args| ==> Usable(d, ins.args[j]))
    && (ins.dest.Some? ==> TypedReg(d, ins.dest.value, ResultTy(ins)))
  }

  // ----- within a block -----

  ghost predicate Earlier(instrs: seq<Instr>, k: nat, r: Name) {
    exists j :: 0 <= j < k && j < |instrs| && instrs[j].dest == Some(r)
  }

  ghost predicate ArgKnown(d: Data, b: BasicBlock, k: nat, x: Operand)
    requires b.id in d.avail
  {
    x.Reg? ==> x.name in d.slots || x.name in d.avail[b.id] || Earlier(b.instrs, k, x.name)
  }

  ghost predicate InstrCode(d: Data, b: BasicBlock, k: nat)
    requires b.id in d.avail && k < |b.instrs|
  {
    var ins := b.instrs[k];
    Formed(ins) && TypedText(d, ins) && forall j :: 0 <= j < |ins.args| ==> ArgKnown(d, b, k, ins.args[j])
  }

  ghost predicate BlockCode(d: Data, b: BasicBlock) {
    b.id in d.avail && forall k :: 0 <= k < |b.instrs| ==> InstrCode(d, b, k)
  }

  /** Available at the end of `b`. */
  ghost predicate AtEnd(d: Data, b: BasicBlock, r: Name)
    requires b.id in d.avail
  {
    r in d.avail[b.id] || Earlier(b.instrs, |b.instrs|, r)
  }

  ghost predicate EdgeCode(d: Data, b: BasicBlock) {
    b.id in d.avail && forall l :: l in b.Successors() ==> l in d.avail && forall r ::
        r in d.avail[l] ==> AtEnd(d, b, r)
  }

  ghost predicate HereCode(d: Data, b: BasicBlock) {
    b.id in d.avail && forall r :: r in d.here ==> AtEnd(d, b, r)
  }

  lemma StaysEarlier(instrs: seq<Instr>, more: seq<Instr>, k: nat, r: Name)
    requires Earlier(instrs, k, r)
    ensures Earlier(instrs + more, k, r)
  {
    var j :| 0 <= j < k && j < |instrs| && instrs[j].dest == Some(r);
    assert (instrs + more)[j] == instrs[j];
  }

  lemma EarlierLonger(instrs: seq<Instr>, k: nat, m: nat, r: Name)
    requires Earlier(instrs, k, r) && k <= m
    ensures Earlier(instrs, m, r)
  {}

  lemma BlockCodeSame(d: Data, d': Data, b: BasicBlock)
    requires Extends(d, d') && BlockCode(d, b)
    ensures BlockCode(d', b)
  {
    hide Formed, Earlier, Extends;
    ExtendsUse(d, d', b.id);
    forall k | 0 <= k < |b.instrs| ensures InstrCode(d', b, k) {
      assert InstrCode(d, b, k);
      TypedSame(d, d', b.instrs[k]);
      forall j | 0 <= j < |b.instrs[k].args| ensures ArgKnown(d', b, k, b.instrs[k].args[j]) {
          assert ArgKnown(d, b, k, b.instrs[k].args[j]); }
    }
  }

  lemma ExtendsUse(d: Data, d': Data, l: Label)
    requires Extends(d, d') && l in d.avail
    ensures l in d'.avail && d'.avail[l] == d.avail[l] && d.slots <= d'.slots && d'.params == d.params
  {}

  lemma TypedSame(d: Data, d': Data, ins: Instr)
    requires Extends(d, d') && TypedText(d, ins)
    ensures TypedText(d', ins)
  {}

  lemma EdgeCodeSame(d: Data, d': Data, b: BasicBlock)
    requires Extends(d, d') && EdgeCode(d, b)
    ensures EdgeCode(d', b)
  {
    hide Earlier, Extends, BasicBlock.Successors;
    ExtendsUse(d, d', b.id);
    forall l | l in b.Successors() ensures l in d'.avail && forall r :: r in d'.avail[l] ==> AtEnd(d', b, r) {
      ExtendsUse(d, d', l);
      forall r | r in d'.avail[l] ensures AtEnd(d', b, r) { assert AtEnd(d, b, r); }
    }
  }

  function Result(dest: Option<Name>): set<Name> {
    if dest.Some? then {dest.value} else {}
  }

  /** One more instruction at the end of the open block. */
  lemma AppendCode(d: Data, b: BasicBlock, ins: Instr)
    requires Emittable(d, ins)
    requires BlockCode(d, b) && HereCode(d, b)
    ensures var d', b' := d.(here := d.here + Result(ins.dest)), BasicBlock(b.id, b.instrs + [ins]);
            BlockCode(d', b') && HereCode(d', b')
  {
    hide Formed, TypedText;
    var d', b' := d.(here := d.here + Result(ins.dest)), BasicBlock(b.id, b.instrs + [ins]);
    var n := |b.instrs|;
    EmittableTyped(d, ins);
    forall k | 0 <= k < |b'.instrs| ensures InstrCode(d', b', k) {
      if k < n { AppendOld(d, d', b, ins, k); } else { AppendNew(d, d', b, ins); }
    }
    assert b'.instrs[n] == ins;
    forall r | r in d'.here ensures AtEnd(d', b', r) {
      if r in d.here {
        assert AtEnd(d, b, r);
        if Earlier(b.instrs, n, r) { StaysEarlier(b.instrs, [ins], n, r); EarlierLonger(b'.instrs, n, n + 1, r); }
      }
    }
  }

  lemma EmittableTyped(d: Data, ins: Instr)
    requires Emittable(d, ins)
    ensures forall here :: TypedText(d.(here := here), ins)
    ensures Formed(ins)
  {
    hide Formed;
  }

  lemma AppendOld(d: Data, d': Data, b: BasicBlock, ins: Instr, k: nat)
    requires d' == d.(here := d'.here) && b.id in d.avail && k < |b.instrs| && InstrCode(d, b, k)
    ensures InstrCode(d', BasicBlock(b.id, b.instrs + [ins]), k)
  {
    hide Formed, Earlier;
    var b' := BasicBlock(b.id, b.instrs + [ins]);
    forall j | 0 <= j < |b.instrs[k].args| ensures ArgKnown(d', b', k, b.instrs[k].args[j]) {
      var x := b.instrs[k].args[j];
      assert ArgKnown(d, b, k, x);
      if x.Reg? && Earlier(b.instrs, k, x.name) { StaysEarlier(b.instrs, [ins], k, x.name); }
    }
  }

  lemma AppendNew(d: Data, d': Data, b: BasicBlock, ins: Instr)
    requires d' == d.(here := d'.here) && Emittable(d, ins) && HereCode(d, b) && TypedText(d', ins)
    ensures InstrCode(d', BasicBlock(b.id, b.instrs + [ins]), |b.instrs|)
  {
    hide Formed, Earlier, TypedText, TypedReg;
    var b', n := BasicBlock(b.id, b.instrs + [ins]), |b.instrs|;
    assert b'.instrs[n] == ins;
    forall j | 0 <= j < |ins.args| ensures ArgKnown(d', b', n, ins.args[j]) {
      var x := ins.args[j];
      if x.Reg? {
        assert Usable(d, x);
        if x.name !in d.slots {
          assert AtEnd(d, b, x.name);
          if Earlier(b.instrs, n, x.name) { StaysEarlier(b.instrs, [ins], n, x.name); }
        }
      }
    }
  }

  lemma AppendEdges(d: Data, b: BasicBlock, ins: Instr)
    requires BlockCode(d, b) && HereCode(d, b) && Straight(b.instrs)
    requires forall l :: l in ins.op.Targets() ==> MayGo(d, l)
    ensures var d', b' := d.(here := d.here + Result(ins.dest)), BasicBlock(b.id, b.instrs + [ins]); EdgeCode(d', b')
  {
    hide BlockCode, Earlier;
    var d', b' := d.(here := d.here + Result(ins.dest)), BasicBlock(b.id, b.instrs + [ins]);
    AppendedBlock(b, ins);
    assert b'.instrs[|b.instrs|] == ins;
    forall l | l in b'.Successors() ensures l in d'.avail && forall r :: r in d'.avail[l] ==> AtEnd(d', b', r) {
      assert MayGo(d, l);
      forall r | r in d'.avail[l] ensures AtEnd(d', b', r) {
        assert AtEnd(d, b, r);
        if Earlier(b.instrs, |b.instrs|, r) {
          StaysEarlier(b.instrs, [ins], |b.instrs|, r);
          EarlierLonger(b'.instrs, |b.instrs|, |b'.instrs|, r);
        }
      }
    }
  }

  lemma InsertedEarlier(instrs: seq<Instr>, n: nat, ins: Instr, k: nat, r: Name)
    requires n <= |instrs| && Earlier(instrs, k, r)
    ensures Earlier(instrs[..n] + [ins] + instrs[n..], k + 1, r)
    ensures k <= n ==> Earlier(instrs[..n] + [ins] + instrs[n..], k, r)
  {
    var t := instrs[..n] + [ins] + instrs[n..];
    var j :| 0 <= j < k && j < |instrs| && instrs[j].dest == Some(r);
    assert t[if j < n then j else j + 1] == instrs[j];
  }

  /** A slot inserted among the first instructions. */
  lemma InsertCode(d: Data, d': Data, b: BasicBlock, n: nat, ins: Instr)
    requires n <= |b.instrs| && ins.op.Alloca? && Formed(ins) && TypedText(d', ins) && Extends(d, d')
    requires BlockCode(d, b)
    ensures BlockCode(d', BasicBlock(b.id, b.instrs[..n] + [ins] + b.instrs[n..]))
  {
    hide Earlier, TypedText, Extends;
    var b' := BasicBlock(b.id, b.instrs[..n] + [ins] + b.instrs[n..]);
    ExtendsUse(d, d', b.id);
    forall k | 0 <= k < |b'.instrs| ensures InstrCode(d', b', k) {
      if k != n {
        InsertOld(d, d', b, n, ins, if k < n then k else k - 1);
      } else {
        assert b'.instrs[k] == ins;
      }
    }
  }

  lemma InsertOld(d: Data, d': Data, b: BasicBlock, n: nat, ins: Instr, m: nat)
    requires n <= |b.instrs| && Extends(d, d') && m < |b.instrs| && b.id in d.avail && InstrCode(d, b, m)
    ensures var b', k := BasicBlock(b.id, b.instrs[..n] + [ins] + b.instrs[n..]), if m < n then m else m + 1;
            b.id in d'.avail && InstrCode(d', b', k)
  {
    hide Earlier, TypedText, Extends, Formed;
    var b', k := BasicBlock(b.id, b.instrs[..n] + [ins] + b.instrs[n..]), if m < n then m else m + 1;
    var old' := b.instrs[m];
    assert b'.instrs[k] == old';
    ExtendsUse(d, d', b.id);
    TypedSame(d, d', old');
    forall j | 0 <= j < |old'.args| ensures ArgKnown(d', b', k, old'.args[j]) {
      var x := old'.args[j];
      assert ArgKnown(d, b, m, x);
      if x.Reg? && Earlier(b.instrs, m, x.name) { InsertedEarlier(b.instrs, n, ins, m, x.name); }
    }
  }

  lemma InsertAtEnd(d: Data, d': Data, b: BasicBlock, n: nat, ins: Instr, r: Name)
    requires n <= |b.instrs| && Extends(d, d') && b.id in d.avail && AtEnd(d, b, r)
    ensures b.id in d'.avail && AtEnd(d', BasicBlock(b.id, b.instrs[..n] + [ins] + b.instrs[n..]), r)
  {
    hide Earlier, Extends;
    ExtendsUse(d, d', b.id);
    if Earlier(b.instrs, |b.instrs|, r) { InsertedEarlier(b.instrs, n, ins, |b.instrs|, r); }
  }

  lemma InsertEdges(d: Data, d': Data, b: BasicBlock, n: nat, ins: Instr)
    requires n <= |b.instrs| && Extends(d, d') && EdgeCode(d, b)
    ensures var b' := BasicBlock(b.id, b.instrs[..n] + [ins] + b.instrs[n..]);
            b'.Successors() == b.Successors() ==> EdgeCode(d', b')
  {
    hide Earlier, Extends, AtEnd, BasicBlock.Successors;
    var b' := BasicBlock(b.id, b.instrs[..n] + [ins] + b.instrs[n..]);
    ExtendsUse(d, d', b.id);
    forall l | l in b.Successors() ensures l in d'.avail && forall r :: r in d'.avail[l] ==> AtEnd(d', b', r) {
      ExtendsUse(d, d', l);
      forall r | r in d'.avail[l] ensures AtEnd(d', b', r) { InsertAtEnd(d, d', b, n, ins, r); }
    }
  }

  // ----- the whole text -----

  ghost predicate Defines(b: BasicBlock, r: Name) {
    Earlier(b.instrs, |b.instrs|, r)
  }

  /** Defined in one of the first `n` blocks. */
  ghost predicate InText(blocks: seq<BasicBlock>, n: nat, r: Name) {
    exists i :: 0 <= i < n && i < |blocks| && Defines(blocks[i], r)
  }

  ghost predicate Sourced(d: Data, blocks: seq<BasicBlock>, n: nat, rs: set<Name>) {
    forall r :: r in rs ==> r in d.params || InText(blocks, n, r)
  }

  ghost predicate TextCode(d: Data, blocks: seq<BasicBlock>) {
    && Sourced(d, blocks, |blocks|, d.here)
    && (forall l :: l in d.avail ==> Sourced(d, blocks, |blocks|, d.avail[l]))
    && forall i :: 0 <= i < |blocks| && blocks[i].id in d.avail ==> Sourced(d, blocks, i, d.avail[blocks[i].id])
  }

  ghost predicate SlotCode(d: Data, b: BasicBlock, n: nat) {
    n <= |b.instrs| && (forall k :: 0 <= k < n ==> b.instrs[k].op.Alloca?) && forall r ::
        r in d.slots ==> Earlier(b.instrs, n, r)
  }

  ghost predicate ParamCode(d: Data) {
    d.params <= d.here && ENTRY in d.avail && d.avail[ENTRY] == d.params && forall l ::
        l in d.avail ==> d.params <= d.avail[l]
  }

  ghost predicate BlockFine(d: Data, b: BasicBlock) {
    BlockCode(d, b) && EdgeCode(d, b)
  }

  /** All of it. */
  ghost predicate CodeOk(d: Data, blocks: seq<BasicBlock>, isOpen: bool, n: nat) {
    && blocks != [] && blocks[0].id == ENTRY
    && (forall i :: 0 <= i < |blocks| ==> BlockFine(d, blocks[i]))
    && (isOpen ==> HereCode(d, blocks[|blocks| - 1]))
    && SlotCode(d, blocks[0], n) && ParamCode(d) && TextCode(d, blocks)
  }

  lemma SourcedStays(d: Data, d': Data, blocks: seq<BasicBlock>, blocks': seq<BasicBlock>, n: nat, m: nat,
                     rs: set<Name>)
    requires Sourced(d, blocks, n, rs) && d'.params == d.params && n <= m && |blocks| <= |blocks'|
    requires forall i, r :: 0 <= i < |blocks| && Defines(blocks[i], r) ==> Defines(blocks'[i], r)
    ensures Sourced(d', blocks', m, rs)
  {
    hide Defines;
    forall r | r in rs && r !in d'.params ensures InText(blocks', m, r) {
      var i :| 0 <= i < n && i < |blocks| && Defines(blocks[i], r);
      assert Defines(blocks'[i], r);
    }
  }

  /** Definitions are only added; availability only grows where nothing was known. */
  lemma TextStays(d: Data, d': Data, blocks: seq<BasicBlock>, blocks': seq<BasicBlock>)
    requires TextCode(d, blocks) && d'.params == d.params && |blocks| == |blocks'|
    requires forall i :: 0 <= i < |blocks| ==> blocks'[i].id == blocks[i].id
    requires forall i, r :: 0 <= i < |blocks| && Defines(blocks[i], r) ==> Defines(blocks'[i], r)
    requires forall l ::
        l in d'.avail ==>
            (l in d.avail && d'.avail[l] == d.avail[l])
                || (d'.avail[l] == d.here && forall i :: 0 <= i < |blocks| ==> blocks[i].id != l)
    requires Sourced(d', blocks', |blocks'|, d'.here)
    ensures TextCode(d', blocks')
  {
    hide Defines, Sourced;
    forall l | l in d'.avail ensures Sourced(d', blocks', |blocks'|, d'.avail[l]) {
      SourcedStays(d, d', blocks, blocks', |blocks|, |blocks|, d'.avail[l]);
    }
    forall i | 0 <= i < |blocks'| && blocks'[i].id in d'.avail
      ensures Sourced(d', blocks', i, d'.avail[blocks'[i].id]) {
      SourcedStays(d, d', blocks, blocks', i, i, d'.avail[blocks'[i].id]);
    }
  }

  // ----- what the builder does to it -----

  lemma FineBlock(d: Data, blocks: seq<BasicBlock>, isOpen: bool, n: nat, i: nat)
    requires CodeOk(d, blocks, isOpen, n) && i < |blocks|
    ensures BlockFine(d, blocks[i])
  {
    hide BlockFine, HereCode, SlotCode, ParamCode, TextCode;
  }

  lemma FineStays(d: Data, d': Data, b: BasicBlock)
    requires Extends(d, d') && BlockFine(d, b)
    ensures BlockFine(d', b)
  {
    hide BlockCode, EdgeCode, Extends;
    BlockCodeSame(d, d', b);
    EdgeCodeSame(d, d', b);
  }

  lemma AppendedSlots(d: Data, d': Data, b: BasicBlock, n: nat, ins: Instr)
    requires SlotCode(d, b, n) && d'.slots == d.slots
    ensures SlotCode(d', BasicBlock(b.id, b.instrs + [ins]), n)
  {
    hide Earlier;
    var b' := BasicBlock(b.id, b.instrs + [ins]);
    forall k | 0 <= k < n ensures b'.instrs[k].op.Alloca? { assert b'.instrs[k] == b.instrs[k]; }
    forall r | r in d'.slots ensures Earlier(b'.instrs, n, r) { StaysEarlier(b.instrs, [ins], n, r); }
  }

  lemma AppendedDefines(b: BasicBlock, ins: Instr, r: Name)
    ensures var b' := BasicBlock(b.id, b.instrs + [ins]);
            Defines(b', r) <==> Defines(b, r) || ins.dest == Some(r)
  {
    var b' := BasicBlock(b.id, b.instrs + [ins]);
    if Defines(b, r) { StaysEarlier(b.instrs, [ins], |b.instrs|, r);
        EarlierLonger(b'.instrs, |b.instrs|, |b'.instrs|, r); }
    if ins.dest == Some(r) { assert b'.instrs[|b.instrs|].dest == Some(r); }
    if Defines(b', r) {
      var j :| 0 <= j < |b'.instrs| && b'.instrs[j].dest == Some(r);
      if j < |b.instrs| { assert b.instrs[j].dest == Some(r); }
    }
  }

  lemma EmitText(d: Data, blocks: seq<BasicBlock>, ins: Instr)
    requires blocks != [] && TextCode(d, blocks)
    ensures TextCode(d.(here := d.here + Result(ins.dest)), WithInstr(blocks, ins))
  {
    hide Defines, Sourced;
    var d', r, last := d.(here := d.here + Result(ins.dest)), WithInstr(blocks, ins), |blocks| - 1;
    forall i, x | 0 <= i < |blocks| && Defines(blocks[i], x) ensures Defines(r[i], x) {
      if i == last { AppendedDefines(blocks[last], ins, x); }
    }
    forall x ensures ins.dest == Some(x) ==> Defines(r[last], x) { AppendedDefines(blocks[last], ins, x); }
    EmitSourced(d, d', blocks, r, ins);
    TextStays(d, d', blocks, r);
  }

  lemma EmitSourced(d: Data, d': Data, blocks: seq<BasicBlock>, r: seq<BasicBlock>, ins: Instr)
    requires d' == d.(here := d.here + Result(ins.dest)) && |r| == |blocks| > 0 && Sourced(d, blocks, |blocks|, d.here)
    requires forall i, x :: 0 <= i < |blocks| && Defines(blocks[i], x) ==> Defines(r[i], x)
    requires forall x :: ins.dest == Some(x) ==> Defines(r[|r| - 1], x)
    ensures Sourced(d', r, |r|, d'.here)
  {
    hide Defines;
    SourcedStays(d, d', blocks, r, |blocks|, |r|, d.here);
    forall x | x in d'.here && x !in d'.params ensures InText(r, |r|, x) {
      if x !in d.here { assert Defines(r[|r| - 1], x); }
    }
  }

  /** One more instruction, or the terminator, in the open block. */
  lemma EmitCode(d: Data, blocks: seq<BasicBlock>, n: nat, ins: Instr)
    requires Emittable(d, ins) && ShapeOk(blocks, true) && forall l :: l in ins.op.Targets() ==> MayGo(d, l)
    requires CodeOk(d, blocks, true, n)
    ensures CodeOk(d.(here := d.here + Result(ins.dest)), WithInstr(blocks, ins), true, n)
  {
    hide Emittable, BlockCode, EdgeCode, HereCode, SlotCode, TextCode, Straight, Closed;
    var d', r, last := d.(here := d.here + Result(ins.dest)), WithInstr(blocks, ins), |blocks| - 1;
    FineBlock(d, blocks, true, n, last);
    assert ShapeAt(blocks, true, last);
    AppendCode(d, blocks[last], ins);
    AppendEdges(d, blocks[last], ins);
    forall i | 0 <= i < |r| ensures BlockFine(d', r[i]) {
      if i < last { FineBlock(d, blocks, true, n, i); FineStays(d, d', blocks[i]); }
    }
    SameSlots(d, d', blocks[0], n);
    if last == 0 { AppendedSlots(d, d', blocks[0], n, ins); }
    EmitText(d, blocks, ins);
  }

  lemma SameSlots(d: Data, d': Data, b: BasicBlock, n: nat)
    requires SlotCode(d, b, n) && d'.slots == d.slots
    ensures SlotCode(d', b, n)
  {}

  /** No terminator has been reached, or the block does not matter any more. */
  lemma ClosedCode(d: Data, blocks: seq<BasicBlock>, isOpen: bool, n: nat)
    requires CodeOk(d, blocks, isOpen, n)
    ensures CodeOk(d, blocks, false, n)
  {
    hide BlockFine, HereCode, SlotCode, ParamCode, TextCode;
  }

  /** A block for a label with what is available at it. */
  lemma OpenCode(d: Data, blocks: seq<BasicBlock>, n: nat, l: Label)
    requires l in d.avail && CodeOk(d, blocks, false, n)
    ensures CodeOk(d.(here := d.avail[l]), blocks + [BasicBlock(l, [])], true, n)
  {
    hide BlockCode, EdgeCode, SlotCode, TextCode;
    var d', b := d.(here := d.avail[l]), BasicBlock(l, []);
    var r := blocks + [b];
    EmptyBlock(l);
    EmptyCode(d', b);
    forall i | 0 <= i < |r| ensures BlockFine(d', r[i]) {
      if i < |blocks| { FineBlock(d, blocks, false, n, i); FineStays(d, d', blocks[i]); }
    }
    SameSlots(d, d', blocks[0], n);
    OpenText(d, blocks, l);
  }

  lemma EmptyCode(d: Data, b: BasicBlock)
    requires b.instrs == [] && b.id in d.avail && d.here == d.avail[b.id]
    ensures BlockFine(d, b) && HereCode(d, b)
  {}

  lemma OpenText(d: Data, blocks: seq<BasicBlock>, l: Label)
    requires l in d.avail && TextCode(d, blocks)
    ensures TextCode(d.(here := d.avail[l]), blocks + [BasicBlock(l, [])])
  {
    hide Defines, Sourced;
    var d', r := d.(here := d.avail[l]), blocks + [BasicBlock(l, [])];
    forall k | k in d'.avail ensures Sourced(d', r, |r|, d'.avail[k]) {
        SourcedStays(d, d', blocks, r, |blocks|, |r|, d.avail[k]); }
    SourcedStays(d, d', blocks, r, |blocks|, |r|, d.avail[l]);
    forall i | 0 <= i < |r| && r[i].id in d'.avail ensures Sourced(d', r, i, d'.avail[r[i].id]) {
      if i < |blocks| { SourcedStays(d, d', blocks, r, i, i, d.avail[r[i].id]); }
          else { SourcedStays(d, d', blocks, r, |blocks|, i, d.avail[l]); }
    }
  }

  /** What is here is what will be available at the labels `ls`. */
  lemma AnnounceCode(d: Data, blocks: seq<BasicBlock>, isOpen: bool, n: nat, ls: set<Label>)
    requires ls !! d.avail.Keys && (forall i :: 0 <= i < |blocks| ==> blocks[i].id !in ls)
    requires CodeOk(d, blocks, isOpen, n)
    ensures CodeOk(Announced(d, ls), blocks, isOpen, n) && Extends(d, Announced(d, ls))
  {
    hide BlockCode, EdgeCode, SlotCode, TextCode, Sourced, AtEnd;
    var d' := Announced(d, ls);
    forall i | 0 <= i < |blocks| ensures BlockFine(d', blocks[i]) {
        FineBlock(d, blocks, isOpen, n, i); FineStays(d, d', blocks[i]); }
    if isOpen { HereSame(d, d', blocks[|blocks| - 1]); }
    SameSlots(d, d', blocks[0], n);
    TextHere(d, d', blocks);
    TextStays(d, d', blocks, blocks);
  }

  lemma HereSame(d: Data, d': Data, b: BasicBlock)
    requires HereCode(d, b) && d'.here == d.here && Extends(d, d')
    ensures HereCode(d', b)
  {
    hide Earlier;
    forall r | r in d'.here ensures AtEnd(d', b, r) { assert AtEnd(d, b, r); }
  }

  lemma TextHere(d: Data, d': Data, blocks: seq<BasicBlock>)
    requires TextCode(d, blocks) && d'.params == d.params && d'.here == d.here
    ensures Sourced(d', blocks, |blocks|, d'.here)
  {
    hide Defines;
  }

  /** A register's type becomes known. */
  lemma RetypeCode(d: Data, d': Data, blocks: seq<BasicBlock>, isOpen: bool, n: nat)
    requires d' == d.(types := d'.types) && Extends(d, d')
    requires CodeOk(d, blocks, isOpen, n)
    ensures CodeOk(d', blocks, isOpen, n)
  {
    hide BlockCode, EdgeCode, SlotCode, TextCode, Sourced, AtEnd;
    forall i | 0 <= i < |blocks| ensures BlockFine(d', blocks[i]) {
        FineBlock(d, blocks, isOpen, n, i); FineStays(d, d', blocks[i]); }
    if isOpen { HereSame(d, d', blocks[|blocks| - 1]); }
    SameSlots(d, d', blocks[0], n);
    TextHere(d, d', blocks);
    TextStays(d, d', blocks, blocks);
  }

  /** A slot at the top of the entry block. */
  lemma SlotKeepsCode(d: Data, blocks: seq<BasicBlock>, isOpen: bool, n: nat, ins: Instr)
    requires ins.op.Alloca? && Formed(ins) && TypedText(d, ins) && ShapeOk(blocks, isOpen) && StartsWith(blocks, n)
    requires CodeOk(d, blocks, isOpen, n)
    ensures var d' := d.(slots := d.slots + Result(ins.dest));
        CodeOk(d', WithSlot(blocks, n, ins), isOpen, n + 1) && Extends(d, d')
  {
    hide Formed, TypedText, BlockCode, EdgeCode, HereCode, SlotCode, TextCode, Straight, Closed, BasicBlock.Successors;
    var d', r, b := d.(slots := d.slots + Result(ins.dest)), WithSlot(blocks, n, ins), blocks[0];
    SlotParts(d, blocks, isOpen, n);
    TypedMore(d, d', ins);
    SlotSuccessors(blocks, isOpen, n, ins);
    InsertCode(d, d', b, n, ins);
    InsertEdges(d, d', b, n, ins);
    forall i | 0 <= i < |r| ensures BlockFine(d', r[i]) {
      if i > 0 { FineBlock(d, blocks, isOpen, n, i); FineStays(d, d', blocks[i]); }
    }
    if isOpen {
      if |blocks| == 1 { InsertHere(d, d', b, n, ins); } else { HereSame(d, d', blocks[|blocks| - 1]); }
    }
    InsertSlots(d, b, n, ins);
    SlotText(d, d', blocks, n, ins);
  }

  lemma SlotParts(d: Data, blocks: seq<BasicBlock>, isOpen: bool, n: nat)
    requires CodeOk(d, blocks, isOpen, n)
    ensures blocks != [] && BlockCode(d, blocks[0]) && EdgeCode(d, blocks[0]) && SlotCode(d, blocks[0], n)
  {
    hide BlockCode, EdgeCode, HereCode, SlotCode, ParamCode, TextCode;
    assert BlockFine(d, blocks[0]);
  }

  lemma TypedMore(d: Data, d': Data, ins: Instr)
    requires TypedText(d, ins) && d' == d.(slots := d'.slots)
    ensures TypedText(d', ins)
  {}

  lemma SlotSuccessors(blocks: seq<BasicBlock>, isOpen: bool, n: nat, ins: Instr)
    requires ShapeOk(blocks, isOpen) && StartsWith(blocks, n) && !ins.op.IsTerminator()
    ensures WithSlot(blocks, n, ins)[0].Successors() == blocks[0].Successors()
  {
    hide Closed, Straight, BasicBlock.Successors;
    assert ShapeAt(blocks, isOpen, 0);
    InsertedBlock(blocks[0], n, ins);
  }

  lemma InsertHere(d: Data, d': Data, b: BasicBlock, n: nat, ins: Instr)
    requires n <= |b.instrs| && Extends(d, d') && d'.here == d.here && HereCode(d, b)
    ensures HereCode(d', BasicBlock(b.id, b.instrs[..n] + [ins] + b.instrs[n..]))
  {
    hide Extends, AtEnd;
    var b' := BasicBlock(b.id, b.instrs[..n] + [ins] + b.instrs[n..]);
    ExtendsUse(d, d', b.id);
    forall r | r in d'.here ensures AtEnd(d', b', r) { InsertAtEnd(d, d', b, n, ins, r); }
  }

  lemma InsertSlots(d: Data, b: BasicBlock, n: nat, ins: Instr)
    requires SlotCode(d, b, n) && ins.op.Alloca?
    ensures SlotCode(d.(slots := d.slots + Result(ins.dest)), BasicBlock(b.id, b.instrs[..n] + [ins] + b.instrs[n..]),
        n + 1)
  {
    hide Earlier;
    var d', t := d.(slots := d.slots + Result(ins.dest)), b.instrs[..n] + [ins] + b.instrs[n..];
    assert t[n] == ins;
    forall k | 0 <= k < n + 1 ensures t[k].op.Alloca? { if k < n { assert t[k] == b.instrs[k]; } }
    forall r | r in d'.slots ensures Earlier(t, n + 1, r) {
      if r in d.slots { InsertedEarlier(b.instrs, n, ins, n, r); } else { SlotIsThere(t, n, r); }
    }
  }

  lemma SlotIsThere(t: seq<Instr>, n: nat, r: Name)
    requires n < |t| && t[n].dest == Some(r)
    ensures Earlier(t, n + 1, r)
  {}

  lemma SlotText(d: Data, d': Data, blocks: seq<BasicBlock>, n: nat, ins: Instr)
    requires blocks != [] && n <= |blocks[0].instrs| && TextCode(d, blocks) && d' == d.(slots := d'.slots)
    ensures TextCode(d', WithSlot(blocks, n, ins))
  {
    hide Sourced, Earlier;
    var r, b := WithSlot(blocks, n, ins), blocks[0];
    forall i, x | 0 <= i < |blocks| && Defines(blocks[i], x) ensures Defines(r[i], x) {
      if i == 0 { InsertedEarlier(b.instrs, n, ins, |b.instrs|, x); }
    }
    SourcedStays(d, d', blocks, r, |blocks|, |r|, d.here);
    TextStays(d, d', blocks, r);
  }
}
