/** The lowering of one function: from statements and expressions to basic blocks. */
module Builder {
  import opened Cir
  import opened Arith
  import opened Cfg
  import opened Graphs
  import opened FlowGraph
  import opened Definitions
  import opened Fold
  import opened MiniLang
  import opened Labels
  import opened BuilderData
  import opened BuilderGraph
  import opened BuilderFrame
  import opened BuilderBlocks
  import opened BuilderCode
  import opened BuilderNames
  import opened BuilderTemps
  import opened BuilderLines

  datatype Code = E001 | E003 | E004 | E005 | E006 | E007 | E009 | E010 | E011 | E012

  datatype Lowered<+T> = Lowered(value: T) | Error(code: Code)

  datatype Sig = Sig(ret: Ty, params: seq<Ty>)

  /** What a finished piece of lowering did. */
  ghost predicate Piece(g: Sketch, g': Sketch, exits: set<Label>) {
    g'.nest == g.nest && g.data.here <= g'.data.here && Frame(g, g', exits, {})
  }

  ghost function TargetSet(ts: seq<Label>): set<Label> {
    set l | l in ts
  }

  ghost function OwnSet(n: nat): set<Label> {
    set b: Base | true :: MakeLabel(b, n)
  }

  ghost predicate AvailKnown(g: Sketch) {
    forall l :: l in g.data.avail ==> l == ENTRY || Known(g, l)
  }

  class FnBuilder {
    const fl: Floats
    const retTy: Ty
    const sigs: map<string, Sig>
    var scopes: Scopes
    var blocks: seq<BasicBlock>
    var isOpen: bool
    var nAlloca: nat
    var nTmp: nat
    var nLabel: nat
    var taken: set<Name>
    var loops: seq<Loop>
    ghost var nest: seq<Nest>
    ghost var done: set<Region>
    ghost var data: Data

    ghost function Graph(): Sketch
      reads this
    {
      Sketch(IdsOf(blocks), SuccsOf(blocks), nLabel, nest, done, data)
    }

    ghost function At(): Place
      reads this
    {
      Place(blocks, isOpen, nTmp)
    }

    ghost predicate Valid()
      reads this
    {
      Base() && TempsOk(data.params, blocks, taken, nTmp)
    }

    /** Everything but the count of temporaries, which is off between naming one and emitting it. */
    ghost predicate Base()
      reads this
    {
      && scopes != [] && ScopesOk(data, scopes) && NamesOk(data, blocks, taken, nTmp) && AvailKnown(Graph())
      && ShapeOk(blocks, isOpen) && StartsWith(blocks, nAlloca) && LoopsOk(Graph(), loops)
      && CodeOk(data, blocks, isOpen, nAlloca) && Ok(Graph())
    }

    /** A builder with its entry block open. */
    constructor (fl: Floats, retTy: Ty, sigs: map<string, Sig>, globals: map<string, Var>, ghost params: map<Name, Ty>,
                 ghost clean: bool)
      requires forall x ::
          x in globals ==> globals[x].InMemory? && globals[x].addr.GlobalRef? && globals[x].arrayLen.None?
      requires clean ==> forall p :: p in params ==> PlainName(p.text)
      ensures Valid() && isOpen && loops == [] && nest == [] && blocks == [BasicBlock(ENTRY, [])] && nTmp == 0
          && taken == {}
      ensures this.retTy == retTy && this.fl == fl && this.sigs == sigs && scopes == [globals]
      ensures data.params == params.Keys && data.clean == clean && data.types == params && Graph().succ == [[]]
    {
      this.fl := fl;
      this.retTy := retTy;
      this.sigs := sigs;
      scopes := [globals];
      blocks := [BasicBlock(ENTRY, [])];
      isOpen := true;
      nAlloca, nTmp, nLabel := 0, 0, 0;
      taken := {};
      loops := [];
      nest := [];
      done := {};
      data := Data(params.Keys, map[ENTRY := params.Keys], params.Keys, {}, params, clean);
      new;
      EmptyBlock(ENTRY);
      StartOk(Graph());
      StartCode(data, blocks);
      StartNames(data);
      TempsStart(data.params, ENTRY);
      StartShape();
    }

    // ----- blocks -----

    /** The next number, and with it labels that lead to what is here. */
    method NextNumber() returns (n: nat)
      requires Valid()
      modifies this`nLabel, this`data
      ensures n == old(nLabel) && nLabel == n + 1 && Valid() && Numbered(old(Graph()), Graph())
      ensures Graph() == old(Graph()).(nLabel := n + 1, data := data)
      ensures forall b: Base ::
                && Own(old(Graph()), Graph(), loops, MakeLabel(b, n))
                && IsMade(MakeLabel(b, n)) && KeyOf(MakeLabel(b, n)) == Key(b, n)
    {
      hide Ok, Frame, LoopOk, ShapeAt, StartsWith, CodeOk, NamesOk, VarOk, Exits, Own, Extends, MakeLabel, Known,
           Numbered, AvailKnown, ScopesOk, OwnSet, TempsOk;
      ghost var g0 := Graph();
      n := nLabel;
      NumberUnused(g0, n);
      assert forall i :: 0 <= i < |blocks| ==> blocks[i].id == g0.ids[i];
      AnnounceCode(data, blocks, isOpen, nAlloca, OwnSet(n));
      NamesSame(data, Announced(data, OwnSet(n)), blocks, taken, nTmp);
      ScopesStay(data, Announced(data, OwnSet(n)), scopes);
      nLabel := n + 1;
      data := Announced(data, OwnSet(n));
      CountKeeps(g0, Graph());
      FrameStays(g0, Graph());
      LoopsStay(g0, Graph(), {}, {}, loops);
      NumberAnnounced(g0, Graph(), loops, n);
    }

    method OpenBlock(l: Label)
      requires Valid() && !isOpen && CanOpen(Graph(), loops, l)
      modifies this`blocks, this`isOpen, this`data
      ensures Valid() && isOpen && Graph() == AfterOpen(old(Graph()), l) && Opened(Graph(), l)
      ensures Frame(old(Graph()), Graph(), {}, {l})
    {
      hide Ok, Frame, LoopOk, ShapeAt, CodeOk, NamesOk, VarOk, Exits, Opened, InnerAll, ScopesOk, IsMade, TempsOk;
      ghost var g := Graph();
      OpenShape(blocks, l, nAlloca);
      OpenKeeps(g, loops, l);
      OpenFrame(g, l);
      LoopsOpen(g, loops, l);
      OpenCode(data, blocks, nAlloca, l);
      NamesOpen(data, data.(here := data.avail[l]), blocks, taken, nTmp, l);
      TempsOpened(data.params, blocks, taken, nTmp, l);
      ScopesStay(data, data.(here := data.avail[l]), scopes);
      blocks := blocks + [BasicBlock(l, [])];
      isOpen := true;
      data := data.(here := data.avail[l]);
    }

    /** The block to emit into; after a terminator, a block nothing leads to. */
    method EnsureOpen()
      requires Valid()
      modifies this`blocks, this`isOpen, this`nLabel, this`data
      ensures Valid() && isOpen && Piece(old(Graph()), Graph(), {}) && data.here == old(data).here
      ensures old(isOpen) ==> Graph() == old(Graph()) && blocks == old(blocks)
    {
      hide Ok, Frame, LoopsOk, ShapeAt, CodeOk, NamesOk, Exits, Opened, Known, InnerAll, ScopesOk, IsMade, AvailKnown,
           Extends, MakeLabel, TempsOk;
      ghost var g0 := Graph();
      if !isOpen {
        var n := NextNumber();
        ghost var gs := Graph();
        var l := MakeLabel(Dead, n);
        StartsFrame(gs);
        OwnOpens(g0, gs, gs, {}, {}, loops, l);
        OpenBlock(l);
        FrameJoins(g0, gs, Graph(), {}, {}, {}, {l}, {}, {l});
        OwnFresh(g0, gs, loops, l);
        FrameShrinks(g0, Graph(), {}, {l}, {});
      } else {
        StartsFrame(g0);
      }
    }

    /** One more instruction in the open block. */
    method Put(ins: Instr)
      requires Base() && isOpen && !ins.op.IsTerminator() && Emittable(data, ins)
      requires data.clean && ins.dest.Some? ==>
          CountDefs(blocks, ins.dest.value) == 0 && ins.dest.value in taken && ins.dest.value !in data.params
      modifies this`blocks, this`data
      ensures Base() && Graph() == old(Graph()).(data := old(data).(here := old(data).here + Result(ins.dest)))
      ensures Piece(old(Graph()), Graph(), {}) && old(blocks) != [] && blocks == WithInstr(old(blocks), ins)
    {
      hide Ok, Frame, LoopOk, ShapeAt, StartsWith, CodeOk, NamesOk, VarOk, Exits, ScopesOk, Known, Formed, Extends,
           TempsOk;
      ghost var g, d' := Graph(), data.(here := data.here + Result(ins.dest));
      EmitShape(blocks, ins, nAlloca);
      EmitCode(data, blocks, nAlloca, ins);
      NamesEmit(data, d', blocks, taken, taken, nTmp, ins);
      MoreHere(data, d');
      ScopesStay(data, d', scopes);
      blocks := WithInstr(blocks, ins);
      data := d';
      CountKeeps(g, Graph());
      FrameStays(g, Graph());
      LoopsStay(g, Graph(), {}, {}, loops);
      SameAvail(g, Graph());
    }

    /** An instruction without a result. */
    method Emit(ins: Instr)
      requires Valid() && !ins.op.IsTerminator() && ins.dest.None? && Emittable(data, ins)
      modifies this`blocks, this`isOpen, this`nLabel, this`data
      ensures Valid() && isOpen && Piece(old(Graph()), Graph(), {})
    {
      hide FnBuilder.Valid, IdsOf, SuccsOf, Frame, Emittable;
      ghost var g, d := Graph(), data;
      EnsureOpen();
      ghost var g1 := Graph();
      EmittableStays(g, g1, {}, ins);
      Parts();
      ghost var was := blocks;
      Put(ins);
      TempsPlain(data.params, was, taken, nTmp, ins);
      Whole();
      FrameJoins(g, g1, Graph(), {}, {}, {}, {}, {}, {});
    }

    lemma Parts()
      requires Valid()
      ensures Base() && TempsOk(data.params, blocks, taken, nTmp)
    {
      hide FnBuilder.Base, TempsOk;
    }

    lemma Whole()
      requires Base() && TempsOk(data.params, blocks, taken, nTmp)
      ensures Valid()
    {
      hide FnBuilder.Base, TempsOk;
    }

    /** Take `name` for a register of type `ty`. */
    method Reserve(name: Name, ty: Ty, count: nat)
      requires Base() && Unused(data, taken, name) && NamesOk(WithType(data, name, ty), blocks, taken + {name}, count)
      modifies this`taken, this`nTmp, this`data
      ensures Base() && Graph() == old(Graph()).(data := WithType(old(data), name, ty))
          && Piece(old(Graph()), Graph(), {})
      ensures TypedReg(data, name, ty) && taken == old(taken) + {name} && nTmp == count
      ensures data.clean ==> CountDefs(blocks, name) == 0 && name !in data.params
    {
      hide Ok, Frame, LoopOk, ShapeAt, StartsWith, CodeOk, NamesOk, VarOk, Exits, ScopesOk, Known, Extends, CountDefs,
           TempsOk;
      ghost var g, d' := Graph(), WithType(data, name, ty);
      UnusedCounts(data, blocks, taken, nTmp, name);
      TypeAdded(data, taken, blocks, nTmp, name, ty);
      RetypeCode(data, d', blocks, isOpen, nAlloca);
      ScopesStay(data, d', scopes);
      taken := taken + {name};
      nTmp := count;
      data := d';
      CountKeeps(g, Graph());
      FrameStays(g, Graph());
      LoopsStay(g, Graph(), {}, {}, loops);
      SameAvail(g, Graph());
    }

    /** An instruction with a new temporary for its result. */
    method EmitNew(op: Op, ty: Ty, args: seq<Operand>) returns (v: Operand)
      requires Valid() && !op.IsTerminator() && Computed(data, op, ty, args)
      modifies this`blocks, this`isOpen, this`nLabel, this`data, this`nTmp, this`taken
      ensures Valid() && isOpen && Piece(old(Graph()), Graph(), {})
      ensures v.Reg? && v.ty == ResultTy(Instr(op, ty, None, args)) && Usable(data, v) && old(taken) <= taken
      ensures v.name == TempName(old(nTmp)) && nTmp == old(nTmp) + 1
      ensures old(isOpen) && old(blocks) != [] ==>
          blocks == WithInstr(old(blocks), Instr(op, ty, Some(TempName(old(nTmp))), args))
    {
      hide IdsOf, SuccsOf, Ok, Frame, LoopsOk, ShapeOk, StartsWith, CodeOk, VarOk, ScopesOk, AvailKnown, Formed,
           Emittable, TypedReg, Extends, NamesOk, CountDefs, TempName, Unused, Usable, ResultTy, TempsOk;
      ghost var g := Graph();
      EnsureOpen();
      ghost var g1, n, named, was := Graph(), nTmp, taken, blocks;
      Parts();
      var name, rty := TempName(nTmp), ResultTy(Instr(op, ty, None, args));
      TempUnused(data, blocks, taken, nTmp);
      Reserve(name, rty, nTmp + 1);
      ghost var g2 := Graph();
      FrameJoins(g, g1, g2, {}, {}, {}, {}, {}, {});
      ComputedStays(g, g2, op, ty, args, name);
      Put(Instr(op, ty, Some(name), args));
      TempsNew(data.params, was, named, taken, n, Instr(op, ty, Some(name), args));
      Whole();
      FrameJoins(g, g2, Graph(), {}, {}, {}, {}, {}, {});
      v := Reg(name, rty);
      ResultUsable(g2, Graph(), v);
    }

    /** End the current block. */
    method Terminate(ins: Instr)
      requires Valid() && ins.op.IsTerminator() && ins.dest.None? && Emittable(data, ins)
      requires forall l :: l in ins.op.Targets() ==> Targetable(Graph(), l)
      modifies this`blocks, this`isOpen, this`nLabel, this`data
      ensures Valid() && !isOpen && Graph().nest == old(Graph()).nest && data.here == old(data).here
      ensures Frame(old(Graph()), Graph(), TargetSet(ins.op.Targets()), {})
      ensures old(isOpen) && old(blocks) != [] ==> blocks == WithInstr(old(blocks), ins)
    {
      hide FnBuilder.Valid, IdsOf, SuccsOf, Frame, Emittable, Targetable;
      ghost var g := Graph();
      EnsureOpen();
      ghost var g1 := Graph();
      EmittableStays(g, g1, {}, ins);
      forall l | l in ins.op.Targets() ensures Targetable(g1, l) { StaysTargetable(g, g1, {}, {}, l); }
      PutLast(ins);
      FrameJoins(g, g1, Graph(), {}, {}, TargetSet(ins.op.Targets()), {}, TargetSet(ins.op.Targets()), {});
    }

    method PutLast(ins: Instr)
      requires Valid() && isOpen && ins.op.IsTerminator() && ins.dest.None? && Emittable(data, ins)
      requires forall l :: l in ins.op.Targets() ==> Targetable(Graph(), l)
      modifies this`blocks, this`isOpen
      ensures Valid() && !isOpen && Graph() == Linked(old(Graph()), ins.op.Targets())
          && old(blocks) != [] && blocks == WithInstr(old(blocks), ins)
      ensures Frame(old(Graph()), Graph(), TargetSet(ins.op.Targets()), {})
    {
      hide Ok, Frame, LoopOk, ShapeAt, StartsWith, CodeOk, NamesOk, VarOk, Exits, ScopesOk, AvailKnown, Formed, Extends,
           Usable, Known, Opened, HeadOf, TempsOk;
      ghost var g, ts := Graph(), TargetSet(ins.op.Targets());
      BranchTests(ins);
      forall l | l in ins.op.Targets() ensures MayGo(data, l) { assert Targetable(g, l); }
      assert data.(here := data.here + Result(ins.dest)) == data;
      CloseShape(blocks, ins, nAlloca);
      EmitCode(data, blocks, nAlloca, ins);
      ClosedCode(data, WithInstr(blocks, ins), true, nAlloca);
      NamesEmit(data, data, blocks, taken, taken, nTmp, ins);
      TempsPlain(data.params, blocks, taken, nTmp, ins);
      LinkKeeps(g, ins.op.Targets());
      LinkedFrame(g, ins.op.Targets());
      blocks := WithInstr(blocks, ins);
      isOpen := false;
      LoopsStay(g, Graph(), ts, {}, loops);
      SameAvail(g, Graph());
    }

    // ----- slots -----

    /** A name for something the source calls `base`: the first that is not taken. */
    method Unique(base: string) returns (name: Name, ghost k: nat)
      ensures name == Derived(base, k) && name !in taken
      ensures forall m: nat :: m < k ==> Derived(base, m) in taken
    {
      hide Derived;
      DerivedIsBase(base);
      var n := 1;
      name := Name(base);
      ghost var tried: set<Name> := {};
      while name in taken
        invariant n >= 1 && name == Derived(base, n - 1) && tried <= taken
        invariant forall m: nat :: m < n - 1 ==> Derived(base, m) in tried
        invariant forall x :: x in tried ==> exists m: nat :: m < n - 1 && x == Derived(base, m)
        decreases taken - tried
      {
        if name in tried {
          var m: nat :| m < n - 1 && name == Derived(base, m);
          DerivedDiffer(base, m, n - 1);
        }
        tried := tried + {name};
        DerivedNext(base, n);
        name := Name(base + "." + Digits(n));
        n := n + 1;
      }
      k := n - 1;
    }

    /** A slot at the top of the entry block. */
    method AllocaSlot(base: string, ty: Ty, count: Option<int>) returns (slot: Operand)
      requires Valid() && SlotBase(data, taken, base) && (data.clean && count.Some? ==> CountKept(count.value, I32))
      modifies this`blocks, this`nAlloca, this`taken, this`nTmp, this`data
      ensures Valid() && Piece(old(Graph()), Graph(), {}) && isOpen == old(isOpen)
      ensures slot.Reg? && slot.ty.Ptr? && slot.name in data.slots && TypedReg(data, slot.name, Ptr)
      ensures old(taken) <= taken
    {
      hide IdsOf, SuccsOf, Ok, Frame, LoopsOk, ShapeOk, StartsWith, CodeOk, VarOk, ScopesOk, AvailKnown, TypedReg,
           Extends, NamesOk, CountDefs, Derived, Unused, Usable, TempLike, TempsOk;
      ghost var g := Graph();
      var name, k := Unique(base);
      Parts();
      DerivedUnused(data, blocks, taken, nTmp, base, k);
      NameTaken(data, blocks, taken, nTmp, name, Ptr);
      SlotIsNoParam(data, taken, base, k);
      ghost var named, was, at := taken, blocks, nAlloca;
      Reserve(name, Ptr, nTmp);
      ghost var g1 := Graph();
      SlotFormed(data, ty, name, count);
      var ins := Instr(Alloca, ty, Some(name), if count.Some? then [ConstInt(count.value, I32)] else []);
      PutSlot(ins);
      TempsSlot(data.params, was, named, nTmp, at, ins, name);
      Whole();
      FrameJoins(g, g1, Graph(), {}, {}, {}, {}, {}, {});
      slot := Reg(name, Ptr);
      SameTypes(g1.data, data, name, Ptr);
    }

    method PutSlot(ins: Instr)
      requires Base() && ins.op.Alloca? && Formed(ins) && TypedText(data, ins)
      requires data.clean && ins.dest.Some? ==>
          CountDefs(blocks, ins.dest.value) == 0 && ins.dest.value in taken && ins.dest.value !in data.params
      modifies this`blocks, this`nAlloca, this`data
      ensures Base() && Graph() == old(Graph()).(data := old(data).(slots := old(data).slots + Result(ins.dest)))
      ensures Piece(old(Graph()), Graph(), {}) && old(blocks) != [] && old(nAlloca) <= |old(blocks)[0].instrs|
          && blocks == WithSlot(old(blocks), old(nAlloca), ins)
    {
      hide Ok, Frame, LoopOk, ShapeAt, CodeOk, NamesOk, VarOk, Exits, ScopesOk, AvailKnown, Formed, TypedText, Extends,
           CountDefs, TempsOk;
      ghost var g, d' := Graph(), data.(slots := data.slots + Result(ins.dest));
      SlotShape(blocks, isOpen, nAlloca, ins);
      SlotKeepsCode(data, blocks, isOpen, nAlloca, ins);
      NamesSlot(data, d', blocks, taken, nTmp, nAlloca, ins);
      ScopesStay(data, d', scopes);
      blocks := WithSlot(blocks, nAlloca, ins);
      nAlloca := nAlloca + 1;
      data := d';
      CountKeeps(g, Graph());
      FrameStays(g, Graph());
      LoopsStay(g, Graph(), {}, {}, loops);
      SameAvail(g, Graph());
    }

    // ----- expressions -----

    lemma ValidScopes()
      requires Valid()
      ensures scopes != [] && ScopesOk(data, scopes)
    {
      hide ScopesOk, NamesOk, AvailKnown, ShapeOk, StartsWith, LoopsOk, CodeOk, Ok, TempsOk;
    }

    /** Widen a value, or give a constant the type its context asks for. */
    method Coerce(v: Operand, ty: Ty) returns (r: Lowered<Operand>)
      requires Valid() && Given(data, v)
      modifies this`blocks, this`isOpen, this`nLabel, this`data, this`nTmp, this`taken
      ensures r.Lowered? ==>
          Valid() && Piece(old(Graph()), Graph(), {}) && Given(data, r.value) && TypeOf(r.value) == ty
              && old(taken) <= taken
      ensures TypeOf(v) == ty ==> r == Lowered(v) && At() == old(At())
    {
      hide FnBuilder.Valid, IdsOf, SuccsOf, Piece, Computed, Given, Emittable, Usable, WithInstr, TempName;
      NoPiece(Graph());
      var vty := TypeOf(v);
      if vty == ty { return Lowered(v); }
      if v.ConstInt? && IsInt(ty) {
        if ty != I1 && !Fits(v.value, ty) { return Error(E005); }
        GivenConst(data, ConstInt(v.value, ty));
        return Lowered(ConstInt(v.value, ty));
      }
      if v.ConstInt? && ty == F64 {
        GivenConst(data, ConstFloat(fl.ofInt(v.value)));
        return Lowered(ConstFloat(fl.ofInt(v.value)));
      }
      var op := Widening(vty, ty);
      if op.None? { return Error(E005); }
      ComputedConv(data, op.value, ty, v);
      var x := EmitNew(Conv(op.value), ty, [v]);
      UsableGiven(data, x);
      r := Lowered(x);
    }

    method AsBool(v: Operand) returns (r: Lowered<Operand>)
      ensures r == if TypeOf(v) == I1 then Lowered(v) else Error(E003)
    {
      r := if TypeOf(v) == I1 then Lowered(v) else Error(E003);
    }

    method LowerExpr(e: Expr) returns (r: Lowered<Operand>)
      requires Valid()
      modifies this
      ensures r.Lowered? ==> Valid() && loops == old(loops) && scopes == old(scopes) && old(taken) <= taken
      ensures r.Lowered? ==> Piece(old(Graph()), Graph(), {}) && Given(data, r.value)
      ensures LineEmitted(old(scopes), e, old(At()), Got(r), At())
      decreases e, 2
    {
      hide FnBuilder.Valid, IdsOf, SuccsOf, Piece, Computed, Given, Emittable, Usable, Arithmetic, LineOf, WithInstr,
           TempName, ResultTy, IntLiteral;
      NoPiece(Graph());
      OtherEmitted(scopes, e);
      match e
      case IntLit(value) =>
        r := IntLiteral(value);
        LiteralEmitted(scopes, e, At());
        if r.Lowered? { GivenConst(data, r.value); }
      case FloatLit(x) =>
        GivenConst(data, ConstFloat(x));
        r := Lowered(ConstFloat(x));
      case BoolLit(b) =>
        GivenConst(data, ConstInt(if b then 1 else 0, I1));
        r := Lowered(ConstInt(if b then 1 else 0, I1));
      case VarRef(name) => r := LowerVar(name);
      case Unary(_, _) => r := LowerUnary(e);
      case Binary(op, _, _) => if op.Both? || op.Either? { r := ShortCircuit(e); } else { r := LowerBinary(e); }
      case CallExpr(_, _) => r := LowerCall(e);
      case Index(_, _) =>
        var a := AddressOf(e);
        if a.Error? { return Error(a.code); }
        ghost var g := Graph();
        ComputedLoad(data, a.value);
        var x := EmitNew(Load, a.value.ty, [a.value.addr]);
        UsableGiven(data, x);
        PieceJoins(old(Graph()), g, Graph(), {}, {}, {});
        r := Lowered(x);
    }

    /** A parameter kept in its register, the base of an array, or a load. */
    method LowerVar(name: string) returns (r: Lowered<Operand>)
      requires Valid()
      modifies this`blocks, this`isOpen, this`nLabel, this`data, this`nTmp, this`taken
      ensures r.Lowered? <==> Lookup(scopes, name).Some?
      ensures r.Lowered? ==> Valid() && old(taken) <= taken && Piece(old(Graph()), Graph(), {}) && Given(data, r.value)
      ensures LineEmitted(scopes, VarRef(name), old(At()), Got(r), At())
    {
      hide FnBuilder.Valid, IdsOf, SuccsOf, Piece, Computed, Given, Emittable, Usable, VarOk, Lookup, ScopesOk, LineOf,
           WithInstr, TempName;
      NoPiece(Graph());
      var v := Lookup(scopes, name);
      if v.None? { return Error(E001); }
      ValidScopes();
      FoundOk(data, scopes, name);
      ParamsHere();
      VarUsable(data, v.value);
      match v.value
      case InRegister(ty, reg) =>
        r := Lowered(Reg(reg, ty));
        VarEmitted(scopes, name, At());
      case InMemory(ty, addr, len) =>
        if len.Some? {
          r := Lowered(addr);
        } else {
          ComputedLoad(data, Address(addr, ty));
          var x := EmitNew(Load, ty, [addr]);
          UsableGiven(data, x);
          r := Lowered(x);
        }
    }

    lemma ValidLoops()
      requires Valid()
      ensures LoopsOk(Graph(), loops)
    {
      hide ScopesOk, NamesOk, AvailKnown, ShapeOk, StartsWith, LoopsOk, CodeOk, Ok, TempsOk;
    }

    lemma ParamsHere()
      requires Valid()
      ensures data.params <= data.here
    {
      hide ScopesOk, NamesOk, AvailKnown, ShapeOk, StartsWith, LoopsOk, Ok, BlockFine, HereCode, SlotCode, TextCode,
           TempsOk;
    }

    /** Where an assignment writes. */
    method AddressOf(e: Expr) returns (r: Lowered<Address>)
      requires Valid()
      modifies this
      ensures r.Lowered? ==> Valid() && loops == old(loops) && scopes == old(scopes) && old(taken) <= taken
      ensures r.Lowered? ==> Piece(old(Graph()), Graph(), {}) && Usable(data, r.value.addr)
      decreases e, 1
    {
      hide FnBuilder.Valid, IdsOf, SuccsOf, Piece, Computed, Given, Emittable, Usable, VarOk, Lookup, ScopesOk;
      if e.VarRef? {
        NoPiece(Graph());
        var v := Lookup(scopes, e.name);
        if v.None? { return Error(E001); }
        if v.value.InRegister? { return Error(E004); }
        ValidScopes();
        FoundOk(data, scopes, e.name);
        ParamsHere();
        VarUsable(data, v.value);
        return Lowered(Address(v.value.addr, v.value.ty));
      }
      if !e.Index? { return Error(E004); }
      r := ElementAddress(e);
    }

    /** The address of an array element. */
    method ElementAddress(e: Expr) returns (r: Lowered<Address>)
      requires Valid() && e.Index?
      modifies this
      ensures r.Lowered? ==> Valid() && loops == old(loops) && scopes == old(scopes) && old(taken) <= taken
      ensures r.Lowered? ==> Piece(old(Graph()), Graph(), {}) && Usable(data, r.value.addr)
      decreases e, 0
    {
      hide FnBuilder.Valid, IdsOf, SuccsOf, Piece, Computed, Given, Emittable, Usable, VarOk, Lookup, ScopesOk,
           LineEmitted, WithInstr, TempName;
      if !e.base.VarRef? { return Error(E012); }
      var v := Lookup(scopes, e.base.name);
      if v.None? { return Error(E001); }
      if v.value.InRegister? || v.value.arrayLen.None? { return Error(E012); }
      ghost var g := Graph();
      ValidScopes();
      FoundOk(data, scopes, e.base.name);
      ParamsHere();
      VarUsable(data, v.value);
      var i := LowerExpr(e.index);
      if i.Error? { return Error(i.code); }
      ghost var g1 := Graph();
      var c := Coerce(i.value, I32);
      if c.Error? { return Error(c.code); }
      ghost var g2 := Graph();
      PieceJoins(g, g1, g2, {}, {}, {});
      GivenStays(g, g2, {}, v.value.addr);
      ComputedGep(data, v.value.ty, v.value.addr, c.value);
      var p := EmitNew(Gep, v.value.ty, [v.value.addr, c.value]);
      PieceJoins(g, g2, Graph(), {}, {}, {});
      r := Lowered(Address(p, v.value.ty));
    }

    method LowerUnary(e: Expr) returns (r: Lowered<Operand>)
      requires Valid() && e.Unary?
      modifies this
      ensures r.Lowered? ==> Valid() && loops == old(loops) && scopes == old(scopes) && old(taken) <= taken
      ensures r.Lowered? ==> Piece(old(Graph()), Graph(), {}) && Given(data, r.value)
      decreases e, 1
    {
      hide FnBuilder.Valid, IdsOf, SuccsOf, Piece, Computed, Given, Emittable, Usable, LineEmitted, WithInstr, TempName;
      ghost var g := Graph();
      NoPiece(g);
      if e.uop.Negate? && e.operand.IntLit? {
        r := IntLiteral(-e.operand.value);
        if r.Lowered? { GivenConst(data, r.value); }
        return;
      }
      var o := LowerExpr(e.operand);
      if o.Error? { return Error(o.code); }
      ghost var g1 := Graph();
      var v, ty := o.value, TypeOf(o.value);
      match e.uop {
        case Negate =>
          if v.ConstInt? {
            ConstIsInt(data, v);
            GivenConst(data, ConstInt(WrapInt(-v.value, ty), ty));
            return Lowered(ConstInt(WrapInt(-v.value, ty), ty));
          } else if v.ConstFloat? {
            GivenConst(data, ConstFloat(fl.neg(v.float)));
            return Lowered(ConstFloat(fl.neg(v.float)));
          } else if ty == F64 {
            ComputedUnary(data, Neg, ty, v);
            var x := EmitNew(Neg, ty, [v]);
            UsableGiven(data, x);
            r := Lowered(x);
          } else {
            ComputedFromZero(data, ty, v);
            var x := EmitNew(Bin(Sub), ty, [ConstInt(0, ty), v]);
            UsableGiven(data, x);
            r := Lowered(x);
          }
        case Complement =>
          if ty == F64 { return Error(E003); }
          ComputedUnary(data, Not, ty, v);
          var x := EmitNew(Not, ty, [v]);
          UsableGiven(data, x);
          r := Lowered(x);
        case LogicalNot =>
          if ty != I1 { return Error(E003); }
          ComputedUnary(data, Not, I1, v);
          var x := EmitNew(Not, I1, [v]);
          UsableGiven(data, x);
          r := Lowered(x);
      }
      PieceJoins(g, g1, Graph(), {}, {}, {});
    }

    method LowerCall(e: Expr) returns (r: Lowered<Operand>)
      requires Valid() && e.CallExpr?
      modifies this
      ensures r.Lowered? ==> Valid() && loops == old(loops) && scopes == old(scopes) && old(taken) <= taken
      ensures r.Lowered? ==> Piece(old(Graph()), Graph(), {}) && Given(data, r.value)
      decreases e, 1
    {
      hide FnBuilder.Valid, IdsOf, SuccsOf, Piece, Computed, Given, Emittable, Usable, LineEmitted, WithInstr, TempName;
      ghost var g := Graph();
      if e.callee == "print_int" || e.callee == "print_float" {
        var op, ty := if e.callee == "print_int" then PrintI32 else PrintF64, if e.callee == "print_int" then I32
            else F64;
        if |e.args| != 1 { return Error(E007); }
        var v := LowerExpr(e.args[0]);
        if v.Error? { return Error(v.code); }
        ghost var g1 := Graph();
        var x := Coerce(v.value, ty);
        if x.Error? { return Error(x.code); }
        ghost var g2 := Graph();
        PieceJoins(g, g1, g2, {}, {}, {});
        PrintEmittable(data, op, ty, x.value);
        Emit(Instr(op, ty, None, [x.value]));
        PieceJoins(g, g2, Graph(), {}, {}, {});
        GivenConst(data, ConstInt(0, I32));
        return Lowered(ConstInt(0, I32));
      }
      if e.callee !in sigs { return Error(E006); }
      var sig := sigs[e.callee];
      if |e.args| != |sig.params| { return Error(E007); }
      var args := LowerArgs(e, sig.params);
      if args.Error? { return Error(args.code); }
      ghost var g1 := Graph();
      CallComputed(data, Name(e.callee), sig.ret, args.value);
      if sig.ret == Void {
        Emit(Instr(Call(Name(e.callee)), Void, None, args.value));
        GivenConst(data, ConstInt(0, I32));
        r := Lowered(ConstInt(0, I32));
      } else {
        var x := EmitNew(Call(Name(e.callee)), sig.ret, args.value);
        UsableGiven(data, x);
        r := Lowered(x);
      }
      PieceJoins(g, g1, Graph(), {}, {}, {});
    }

    /** The arguments of a call, each converted to its parameter's type. */
    method LowerArgs(e: Expr, tys: seq<Ty>) returns (r: Lowered<seq<Operand>>)
      requires Valid() && e.CallExpr? && |e.args| == |tys|
      modifies this
      ensures r.Lowered? ==> Valid() && loops == old(loops) && scopes == old(scopes) && old(taken) <= taken
      ensures r.Lowered? ==> Piece(old(Graph()), Graph(), {}) && |r.value| == |tys|
      ensures r.Lowered? ==> forall k :: 0 <= k < |tys| ==> Given(data, r.value[k]) && TypeOf(r.value[k]) == tys[k]
      decreases e, 0
    {
      hide FnBuilder.Valid, IdsOf, SuccsOf, Piece, Computed, Given, Emittable, Usable, LineEmitted, WithInstr, TempName;
      ghost var g := Graph();
      NoPiece(g);
      var args: seq<Operand> := [];
      for i := 0 to |tys|
        invariant Valid() && loops == old(loops) && scopes == old(scopes) && old(taken) <= taken
            && Piece(g, Graph(), {})
        invariant |args| == i && forall k :: 0 <= k < i ==> Given(data, args[k]) && TypeOf(args[k]) == tys[k]
      {
        ghost var g1 := Graph();
        var v := LowerExpr(e.args[i]);
        if v.Error? { return Error(v.code); }
        ghost var g2 := Graph();
        var x := Coerce(v.value, tys[i]);
        if x.Error? { return Error(x.code); }
        PieceJoins(g1, g2, Graph(), {}, {}, {});
        PieceJoins(g, g1, Graph(), {}, {}, {});
        forall k | 0 <= k < i ensures Given(data, args[k]) { GivenStays(g1, Graph(), {}, args[k]); }
        args := args + [x.value];
      }
      r := Lowered(args);
    }

    /** A condition, kept in `slot`. */
    method StoreFlag(e: Expr, slot: Operand) returns (r: Lowered<Operand>)
      requires Valid() && slot.Reg? && slot.ty.Ptr? && slot.name in data.slots && TypedReg(data, slot.name, Ptr)
      modifies this
      ensures r.Lowered? ==> Valid() && loops == old(loops) && scopes == old(scopes) && old(taken) <= taken
      ensures r.Lowered? ==> Piece(old(Graph()), Graph(), {}) && Given(data, r.value) && TypeOf(r.value) == I1
      ensures r.Lowered? ==> slot.name in data.slots && TypedReg(data, slot.name, Ptr)
      decreases e, 3
    {
      hide FnBuilder.Valid, IdsOf, SuccsOf, Piece, Computed, Given, Emittable, Usable, LineEmitted, WithInstr, TempName;
      ghost var g := Graph();
      var l := LowerExpr(e);
      if l.Error? { return Error(l.code); }
      var v := AsBool(l.value);
      if v.Error? { return Error(v.code); }
      ghost var g1 := Graph();
      SlotUsable(g, g1, {}, slot);
      StoreEmittable(data, I1, v.value, slot);
      Emit(Instr(Store, I1, None, [v.value, slot]));
      PieceJoins(g, g1, Graph(), {}, {}, {});
      GivenStays(g1, Graph(), {}, v.value);
      SlotUsable(g, Graph(), {}, slot);
      r := Lowered(v.value);
    }

    /** The right operand is evaluated only when it can matter. */
    method ShortCircuit(e: Expr) returns (r: Lowered<Operand>)
      requires Valid() && e.Binary?
      modifies this
      ensures r.Lowered? ==> Valid() && loops == old(loops) && scopes == old(scopes) && old(taken) <= taken
      ensures r.Lowered? ==> Piece(old(Graph()), Graph(), {}) && Given(data, r.value)
      decreases e, 1
    {
      hide FnBuilder.Valid, IdsOf, SuccsOf, Piece, Computed, Given, Emittable, Usable, Own, Numbered, CanOpen,
           Targetable, Frame, MakeLabel, LoopsOk, Opened, AfterOpen, TypedReg;
      ghost var g := Graph();
      ValidLoops();
      var isAnd := e.bop.Both?;
      var n := NextNumber();
      ghost var gs := Graph();
      var rhsL, endL := MakeLabel(if isAnd then AndRhs else OrRhs, n), MakeLabel(if isAnd then AndEnd else OrEnd, n);
      AllocaBase(data, taken, isAnd, n);
      var slot := AllocaSlot((if isAnd then "and." else "or.") + Digits(n), I1, None);
      ghost var g1 := Graph();
      var lhs := StoreFlag(e.lhs, slot);
      if lhs.Error? { return Error(lhs.code); }
      ghost var g2 := Graph();
      PieceJoins(gs, g1, g2, {}, {}, {});
      PieceFrame(gs, g2, {});
      PieceHere(gs, g2, {});
      NumberedHere(g, gs);
      LabelsDiffer2(rhsL, endL);
      if isAnd {
        Choose(rhsL, endL, lhs.value, g, gs, {}, {}, {rhsL, endL});
        SlotStays(g2, Graph(), {rhsL, endL}, {}, slot);
      } else {
        Choose(endL, rhsL, lhs.value, g, gs, {}, {}, {rhsL, endL});
        SlotStays(g2, Graph(), {endL, rhsL}, {}, slot);
      }
      r := RightOperand(e.rhs, slot, rhsL, endL, g, gs);
    }

    /** The right operand in a block of its own, and the block after it. */
    method RightOperand(e: Expr, slot: Operand, rhsL: Label, endL: Label, ghost g: Sketch, ghost gs: Sketch)
      returns (r: Lowered<Operand>)
      requires Valid() && !isOpen && slot.Reg? && slot.ty.Ptr? && slot.name in data.slots
          && TypedReg(data, slot.name, Ptr)
      requires rhsL != endL && Own(g, gs, loops, rhsL) && Own(g, gs, loops, endL) && Numbered(g, gs)
          && LoopsOk(g, loops)
      requires Graph().nest == g.nest && Frame(gs, Graph(), {rhsL, endL}, {})
      modifies this
      ensures r.Lowered? ==> Valid() && loops == old(loops) && scopes == old(scopes) && old(taken) <= taken
      ensures r.Lowered? ==> Piece(g, Graph(), {}) && Given(data, r.value)
      decreases e, 4
    {
      hide FnBuilder.Valid, IdsOf, SuccsOf, Piece, Computed, Given, Emittable, Usable, Own, Numbered, CanOpen,
           Targetable, Frame, MakeLabel, LoopsOk, Opened, AfterOpen, TypedReg, WithInstr, TempName;
      ghost var g3, own := Graph(), {rhsL, endL};
      Begin(rhsL, g, gs, own, {}, {rhsL});
      ghost var g4 := Graph();
      SlotStays(g3, g4, {}, {rhsL}, slot);
      var rhs := StoreFlag(e, slot);
      if rhs.Error? { return Error(rhs.code); }
      ghost var g5 := Graph();
      PieceOn(gs, g4, g5, own, {rhsL});
      PieceHere(g4, g5, {});
      Go(endL, g, gs, own, {rhsL}, own);
      ghost var g6 := Graph();
      Begin(endL, g, gs, own, {rhsL}, own);
      ghost var g7 := Graph();
      SlotStays(g5, g6, {endL}, {}, slot);
      SlotStays(g6, g7, {}, {endL}, slot);
      ComputedLoad(data, Address(slot, I1));
      var x := EmitNew(Load, I1, [slot]);
      UsableGiven(data, x);
      PieceOn(gs, g7, Graph(), own, own);
      PieceHere(g7, Graph(), {});
      OwnShrinks(g, gs, Graph(), own, own, loops, {});
      r := Lowered(x);
    }

    /** A conditional branch to two of a construct's own labels. */
    method Choose(t: Label, f: Label, test: Operand, ghost g: Sketch, ghost gs: Sketch, ghost exits: set<Label>,
                  ghost opens: set<Label>, ghost all: set<Label>)
      requires Valid() && Given(data, test) && TypeOf(test) == I1
      requires Own(g, gs, loops, t) && Own(g, gs, loops, f) && Numbered(g, gs) && g.data.here <= data.here
      requires Frame(gs, Graph(), exits, opens) && t !in opens && f !in opens && exits <= all && t in all && f in all
      modifies this`blocks, this`isOpen, this`nLabel, this`data
      ensures Valid() && !isOpen && Graph().nest == old(Graph()).nest && data.here == old(data).here
      ensures Frame(old(Graph()), Graph(), {t, f}, {}) && Frame(gs, Graph(), all, opens)
    {
      hide FnBuilder.Valid, IdsOf, SuccsOf, Piece, Computed, Given, Emittable, Usable, Own, Numbered, Targetable, Frame,
           MakeLabel;
      ghost var g2 := Graph();
      OwnTarget(g, gs, g2, exits, opens, loops, t);
      OwnTarget(g, gs, g2, exits, opens, loops, f);
      BranchTargets(t, f, test);
      BranchEmittable(data, t, f, test);
      Terminate(Branch(t, f, test));
      FrameJoins(gs, g2, Graph(), exits, opens, {t, f}, {}, all, opens);
    }

    /** A jump to one of a construct's own labels. */
    method Go(l: Label, ghost g: Sketch, ghost gs: Sketch, ghost exits: set<Label>, ghost opens: set<Label>,
              ghost all: set<Label>)
      requires Valid() && Own(g, gs, loops, l) && Numbered(g, gs) && g.data.here <= data.here
      requires Frame(gs, Graph(), exits, opens) && l !in opens && exits <= all && l in all
      modifies this`blocks, this`isOpen, this`nLabel, this`data
      ensures Valid() && !isOpen && Graph().nest == old(Graph()).nest && data.here == old(data).here
      ensures Frame(old(Graph()), Graph(), {l}, {}) && Frame(gs, Graph(), all, opens)
    {
      hide FnBuilder.Valid, IdsOf, SuccsOf, Piece, Computed, Given, Emittable, Usable, Own, Numbered, Targetable, Frame,
           MakeLabel;
      ghost var g2 := Graph();
      OwnTarget(g, gs, g2, exits, opens, loops, l);
      Jumps(l);
      FrameJoins(gs, g2, Graph(), exits, opens, {l}, {}, all, opens);
    }

    /** A jump to where a jump may lead. */
    method Jumps(l: Label)
      requires Valid() && Targetable(Graph(), l)
      modifies this`blocks, this`isOpen, this`nLabel, this`data
      ensures Valid() && !isOpen && Graph().nest == old(Graph()).nest && data.here == old(data).here
      ensures Frame(old(Graph()), Graph(), {l}, {})
    {
      hide FnBuilder.Valid, IdsOf, SuccsOf, Piece, Computed, Given, Emittable, Usable, Targetable, Frame;
      JumpTargets(l);
      JumpEmittable(data, l);
      Terminate(Jump(l));
    }

    /** Begin the block of one of a construct's own labels. */
    method Begin(l: Label, ghost g: Sketch, ghost gs: Sketch, ghost exits: set<Label>, ghost opens: set<Label>,
                 ghost all: set<Label>)
      requires Valid() && !isOpen && Own(g, gs, loops, l) && Numbered(g, gs) && LoopsOk(g, loops)
          && Graph().nest == g.nest
      requires Frame(gs, Graph(), exits, opens) && l !in opens && all == opens + {l}
      modifies this`blocks, this`isOpen, this`data
      ensures Valid() && isOpen && Graph().nest == old(Graph()).nest && data.here == g.data.here && Opened(Graph(), l)
      ensures Frame(old(Graph()), Graph(), {}, {l}) && Frame(gs, Graph(), exits, all)
    {
      hide FnBuilder.Valid, IdsOf, SuccsOf, Piece, Computed, Given, Emittable, Usable, Own, Numbered, CanOpen, Frame,
           MakeLabel, Opened, LoopsOk;
      ghost var g2 := Graph();
      OwnOpens(g, gs, g2, exits, opens, loops, l);
      OpenBlock(l);
      FrameJoins(gs, g2, Graph(), exits, opens, {}, {l}, exits, all);
    }

    method LowerBinary(e: Expr) returns (r: Lowered<Operand>)
      requires Valid() && e.Binary? && !e.bop.Both? && !e.bop.Either?
      modifies this
      ensures r.Lowered? ==> Valid() && loops == old(loops) && scopes == old(scopes) && old(taken) <= taken
      ensures r.Lowered? ==> Piece(old(Graph()), Graph(), {}) && Given(data, r.value)
      ensures LineEmitted(old(scopes), e, old(At()), Got(r), At())
      decreases e, 1
    {
      hide FnBuilder.Valid, IdsOf, SuccsOf, Piece, Computed, Given, Emittable, Usable, LineEmitted, Expected,
           OperationEmitted, BinOf;
      ghost var g, p0, sc := Graph(), At(), scopes;
      Unexpected(sc, e, p0);
      var l := LowerExpr(e.lhs);
      if Expected(sc, e, p0) { LeftExpected(sc, e, p0, Got(l), At()); }
      if l.Error? { return Error(l.code); }
      ghost var g1, p1 := Graph(), At();
      var m := LowerExpr(e.rhs);
      if Expected(sc, e, p0) { RightExpected(sc, e.rhs, p1, Got(m), At()); }
      if m.Error? { return Error(m.code); }
      ghost var g2, p2 := Graph(), At();
      PieceJoins(g, g1, g2, {}, {}, {});
      GivenStays(g1, g2, {}, l.value);
      r := Operate(e.bop, l.value, m.value);
      BinaryEmitted(sc, e, p0, p1, p2, At(), l.value, m.value, Got(r));
      if r.Lowered? { PieceJoins(g, g2, Graph(), {}, {}, {}); }
    }

    /** A shift has the type of its left operand. */
    method Shift(bop: BinaryOp, l: Operand, m: Operand) returns (r: Lowered<Operand>)
      requires Valid() && Given(data, l) && Given(data, m) && (bop.ShiftLeft? || bop.ShiftRight?)
      modifies this`blocks, this`isOpen, this`nLabel, this`data, this`nTmp, this`taken
      ensures r.Lowered? ==> Valid() && old(taken) <= taken && Piece(old(Graph()), Graph(), {}) && Given(data, r.value)
    {
      hide FnBuilder.Valid, IdsOf, SuccsOf, Piece, Computed, Given, Emittable, Usable, WithInstr, TempName;
      ghost var g, ty := Graph(), TypeOf(l);
      if TypeOf(l) == F64 { return Error(E003); }
      var c := Coerce(m, TypeOf(l));
      if c.Error? { return Error(c.code); }
      ghost var g1 := Graph();
      GivenStays(g, g1, {}, l);
      var op := if bop.ShiftLeft? then Shl else Ashr;
      ComputedBin(data, op, ty, l, c.value);
      var x := EmitNew(Bin(op), TypeOf(l), [l, c.value]);
      UsableGiven(data, x);
      PieceJoins(g, g1, Graph(), {}, {}, {});
      r := Lowered(x);
    }

    /** An operation on two values, brought to one type. */
    method Operate(bop: BinaryOp, l: Operand, m: Operand) returns (r: Lowered<Operand>)
      requires Valid() && Given(data, l) && Given(data, m) && !bop.Both? && !bop.Either?
      modifies this`blocks, this`isOpen, this`nLabel, this`data, this`nTmp, this`taken
      ensures r.Lowered? ==> Valid() && old(taken) <= taken && Piece(old(Graph()), Graph(), {}) && Given(data, r.value)
      ensures OperationEmitted(bop, l, m, old(At()), Got(r), At())
    {
      hide FnBuilder.Valid, IdsOf, SuccsOf, Piece, Computed, Given, Emittable, Usable, Unify, OperationEmitted;
      ghost var g := Graph();
      OnInts(bop, l, m, At());
      if bop.ShiftLeft? || bop.ShiftRight? {
        r := Shift(bop, l, m);
        return;
      }
      var ty := Unify(TypeOf(l), TypeOf(m));
      if ty.None? { return Error(E003); }
      var x := Coerce(l, ty.value);
      if x.Error? { return Error(x.code); }
      ghost var g1 := Graph();
      GivenStays(g, g1, {}, m);
      var y := Coerce(m, ty.value);
      if y.Error? { return Error(y.code); }
      ghost var g2 := Graph();
      PieceJoins(g, g1, g2, {}, {}, {});
      GivenStays(g1, g2, {}, x.value);
      r := Combine(bop, ty.value, x.value, y.value);
      if r.Lowered? { PieceJoins(g, g2, Graph(), {}, {}, {}); }
    }

    /** An operation on two values of one type. */
    method Combine(bop: BinaryOp, ty: Ty, x: Operand, y: Operand) returns (r: Lowered<Operand>)
      requires Valid() && Given(data, x) && Given(data, y) && TypeOf(x) == ty && TypeOf(y) == ty
      modifies this`blocks, this`isOpen, this`nLabel, this`data, this`nTmp, this`taken
      ensures r.Lowered? ==> Valid() && old(taken) <= taken && Piece(old(Graph()), Graph(), {}) && Given(data, r.value)
      ensures OperationEmitted(bop, x, y, old(At()), Got(r), At())
    {
      hide FnBuilder.Valid, IdsOf, SuccsOf, Piece, Computed, Given, Emittable, Usable, WithInstr, TempName, BinaryCode,
           ResultTy, BinOf;
      if BinOf(bop).Some? { ArithmeticCode(bop); }
      var op := BinaryCode(bop, ty == F64);
      if op.None? { return Error(E003); }
      ComputedBinary(data, bop, ty, x, y);
      var v := EmitNew(op.value, ty, [x, y]);
      UsableGiven(data, v);
      r := Lowered(v);
    }

    // ----- scopes -----

    method Push()
      requires Valid()
      modifies this`scopes
      ensures Valid() && scopes == old(scopes) + [map[]]
    {
      hide VarOk, NamesOk, AvailKnown, ShapeOk, StartsWith, LoopsOk, CodeOk, Ok, TempsOk;
      scopes := scopes + [map[]];
    }

    method Pop()
      requires Valid() && |scopes| >= 2
      modifies this`scopes
      ensures Valid() && scopes == old(scopes)[..|old(scopes)| - 1]
    {
      hide VarOk, NamesOk, AvailKnown, ShapeOk, StartsWith, LoopsOk, CodeOk, Ok, TempsOk;
      scopes := scopes[..|scopes| - 1];
    }

    method Declare(name: string, v: Var)
      requires Valid() && VarOk(data, v)
      modifies this`scopes
      ensures Valid() && old(scopes) != [] && scopes == Declared(old(scopes), name, v) && SameOuter(old(scopes), scopes)
    {
      hide VarOk, ScopesOk, NamesOk, AvailKnown, ShapeOk, StartsWith, LoopsOk, CodeOk, Ok, TempsOk;
      DeclaredOk(data, scopes, name, v);
      scopes := Declared(scopes, name, v);
    }

    // ----- statements -----

    /** The parameters' names are taken, and clean names of the source below `s` collide with nothing. */
    ghost predicate Ready(s: Stmt)
      reads this
    {
      data.params <= taken && (data.clean ==> LetsOk(s))
    }

    method LowerStmt(s: Stmt) returns (err: Option<Code>)
      requires Valid() && Ready(s)
      modifies this
      ensures err.None? ==> Valid() && loops == old(loops) && SameOuter(old(scopes), scopes) && old(taken) <= taken
      ensures err.None? ==> Piece(old(Graph()), Graph(), Exits(loops)) && WellPlaced(s, loops != [], retTy == Void)
      ensures ReturnEmitted(old(scopes), retTy, s, old(At()), err.None?, At())
      decreases s, 2
    {
      hide FnBuilder.Valid, IdsOf, SuccsOf, Piece, Computed, Given, Emittable, Usable, Own, Numbered, CanOpen,
           Targetable, Frame, MakeLabel, LoopsOk, Opened, AfterOpen, Exits, LetsOk, LineEmitted, WithInstr, TempName,
           ReturnEmitted, ReturnExpected;
      ghost var g, ex := Graph(), Exits(loops);
      ReturnUnexpected(scopes, retTy, s, At());
      NoPieces(g, ex);
      ValidLoops();
      ValidScopes();
      KeepsOuter(scopes);
      match s
      case Block(_) => err := LowerBlock(s);
      case Let(_, _, _) => err := LowerLet(s);
      case Assign(_, _) => err := LowerAssign(s);
      case ExprStmt(e) =>
        var v := LowerExpr(e);
        if v.Error? { return Some(v.code); }
        PieceWidens(g, Graph(), {}, ex);
        err := None;
      case Return(_) => err := LowerReturn(s);
      case If(_, _, _) => err := LowerIf(s);
      case While(_, _) => err := LowerWhile(s);
      case For(_, _, _, _) => err := LowerFor(s);
      case Break =>
        if loops == [] { return Some(E011); }
        LastLoop(g, loops);
        Jumps(loops[|loops| - 1].breakTo);
        FramePiece(g, Graph(), {loops[|loops| - 1].breakTo}, ex);
        err := None;
      case Continue =>
        if loops == [] { return Some(E011); }
        LastLoop(g, loops);
        Jumps(loops[|loops| - 1].continueTo);
        FramePiece(g, Graph(), {loops[|loops| - 1].continueTo}, ex);
        err := None;
    }

    method LowerBlock(s: Stmt) returns (err: Option<Code>)
      requires Valid() && Ready(s) && s.Block?
      modifies this
      ensures err.None? ==> Valid() && loops == old(loops) && SameOuter(old(scopes), scopes) && old(taken) <= taken
      ensures err.None? ==> Piece(old(Graph()), Graph(), Exits(loops)) && WellPlaced(s, loops != [], retTy == Void)
      ensures ReturnEmitted(old(scopes), retTy, s, old(At()), err.None?, At())
      decreases s, 1
    {
      hide FnBuilder.Valid, IdsOf, SuccsOf, Piece, Computed, Given, Emittable, Usable, Own, Numbered, CanOpen,
           Targetable, Frame, MakeLabel, LoopsOk, Opened, AfterOpen, Exits, LetsOk, ReturnEmitted, ReturnExpected;
      ghost var g, ex, p, sc := Graph(), Exits(loops), At(), scopes;
      ReturnUnexpected(sc, retTy, s, p);
      NoPieces(g, ex);
      ValidScopes();
      Push();
      KeepsOuter(scopes);
      for i := 0 to |s.stmts|
        invariant Valid() && loops == old(loops) && SameOuter(old(scopes) + [map[]], scopes) && old(taken) <= taken
            && Piece(g, Graph(), ex)
        invariant forall k :: 0 <= k < i ==> WellPlaced(s.stmts[k], loops != [], retTy == Void)
        invariant i == 0 ==> At() == p && scopes == sc + [map[]]
        invariant i == 1 && |s.stmts| == 1 ==> ReturnEmitted(sc + [map[]], retTy, s.stmts[0], p, true, At())
      {
        ghost var g1 := Graph();
        PieceParams(g, g1, ex);
        LetsInside(data, s, i);
        err := LowerStmt(s.stmts[i]);
        if err.Some? {
          if |s.stmts| == 1 { BlockEmitted(sc, retTy, s, p, false, At()); }
          return;
        }
        PieceJoins(g, g1, Graph(), ex, ex, ex);
      }
      PopOuter(old(scopes), scopes);
      Pop();
      if |s.stmts| == 1 { BlockEmitted(sc, retTy, s, p, true, At()); }
      err := None;
    }

    method LowerLet(s: Stmt) returns (err: Option<Code>)
      requires Valid() && Ready(s) && s.Let?
      modifies this
      ensures err.None? ==> Valid() && loops == old(loops) && SameOuter(old(scopes), scopes) && old(taken) <= taken
      ensures err.None? ==> Piece(old(Graph()), Graph(), Exits(loops)) && WellPlaced(s, loops != [], retTy == Void)
      decreases s, 1
    {
      hide FnBuilder.Valid, IdsOf, SuccsOf, Piece, Computed, Given, Emittable, Usable, Own, Numbered, CanOpen,
           Targetable, Frame, MakeLabel, LoopsOk, Opened, AfterOpen, Exits, LetsOk, VarOk;
      ghost var g, ex := Graph(), Exits(loops);
      LetBase(data, taken, s);
      if s.typeNode.arrayLen.Some? {
        if s.init.Some? { return Some(E004); }
        var elem := ElemTy(s.typeNode);
        var base := AllocaSlot(s.name, elem, s.typeNode.arrayLen);
        SlotVar(data, elem, base, s.typeNode.arrayLen);
        Declare(s.name, InMemory(elem, base, s.typeNode.arrayLen));
        PieceWidens(g, Graph(), {}, ex);
        return None;
      }
      var ty := TyOfNode(s.typeNode);
      var slot := AllocaSlot(s.name + ".addr", ty, None);
      ghost var g1 := Graph();
      SlotVar(data, ty, slot, None);
      Declare(s.name, InMemory(ty, slot, None));
      PieceWidens(g, g1, {}, ex);
      if s.init.Some? {
        err := StoreInit(s.init.value, ty, slot);
        if err.Some? { return; }
        PieceJoins(g, g1, Graph(), ex, {}, ex);
      }
      err := None;
    }

    /** The initial value of a local, converted to its type and stored. */
    method StoreInit(e: Expr, ty: Ty, slot: Operand) returns (err: Option<Code>)
      requires Valid() && slot.Reg? && slot.ty.Ptr? && slot.name in data.slots && TypedReg(data, slot.name, Ptr)
      modifies this
      ensures err.None? ==> Valid() && loops == old(loops) && scopes == old(scopes) && old(taken) <= taken
      ensures err.None? ==> Piece(old(Graph()), Graph(), {})
      decreases e, 1
    {
      hide FnBuilder.Valid, IdsOf, SuccsOf, Piece, Computed, Given, Emittable, Usable, LineEmitted, WithInstr, TempName;
      ghost var g1 := Graph();
      var v := LowerExpr(e);
      if v.Error? { return Some(v.code); }
      ghost var g2 := Graph();
      var c := Coerce(v.value, ty);
      if c.Error? { return Some(c.code); }
      ghost var g3 := Graph();
      PieceJoins(g1, g2, g3, {}, {}, {});
      SlotUsable(g1, g3, {}, slot);
      StoreEmittable(data, ty, c.value, slot);
      Emit(Instr(Store, ty, None, [c.value, slot]));
      PieceJoins(g1, g3, Graph(), {}, {}, {});
      err := None;
    }

    method LowerAssign(s: Stmt) returns (err: Option<Code>)
      requires Valid() && s.Assign?
      modifies this
      ensures err.None? ==> Valid() && loops == old(loops) && SameOuter(old(scopes), scopes) && old(taken) <= taken
      ensures err.None? ==> Piece(old(Graph()), Graph(), Exits(loops)) && WellPlaced(s, loops != [], retTy == Void)
      decreases s, 1
    {
      hide FnBuilder.Valid, IdsOf, SuccsOf, Piece, Computed, Given, Emittable, Usable, Own, Numbered, CanOpen,
           Targetable, Frame, MakeLabel, LoopsOk, Opened, AfterOpen, Exits, LetsOk, LineEmitted, WithInstr, TempName;
      ghost var g := Graph();
      ValidScopes();
      KeepsOuter(scopes);
      var a := AddressOf(s.target);
      if a.Error? { return Some(a.code); }
      ghost var g1 := Graph();
      var v := LowerExpr(s.source);
      if v.Error? { return Some(v.code); }
      ghost var g2 := Graph();
      var c := Coerce(v.value, a.value.ty);
      if c.Error? { return Some(c.code); }
      ghost var g3 := Graph();
      PieceJoins(g1, g2, g3, {}, {}, {});
      PieceJoins(g, g1, g3, {}, {}, {});
      UsableStays(g1, g3, {}, a.value.addr);
      StoreEmittable(data, a.value.ty, c.value, a.value.addr);
      Emit(Instr(Store, a.value.ty, None, [c.value, a.value.addr]));
      PieceJoins(g, g3, Graph(), {}, {}, Exits(loops));
      err := None;
    }

    method LowerReturn(s: Stmt) returns (err: Option<Code>)
      requires Valid() && s.Return?
      modifies this
      ensures err.None? ==> Valid() && loops == old(loops) && SameOuter(old(scopes), scopes) && old(taken) <= taken
      ensures err.None? ==> Piece(old(Graph()), Graph(), Exits(loops)) && WellPlaced(s, loops != [], retTy == Void)
      ensures ReturnEmitted(old(scopes), retTy, s, old(At()), err.None?, At())
      decreases s, 1
    {
      hide FnBuilder.Valid, IdsOf, SuccsOf, Piece, Computed, Given, Emittable, Usable, Own, Numbered, CanOpen,
           Targetable, Frame, MakeLabel, LoopsOk, Opened, AfterOpen, Exits, LetsOk, LineEmitted, WithInstr, TempName,
           ReturnEmitted, ReturnExpected, Expected;
      ghost var g, p, sc := Graph(), At(), scopes;
      ReturnUnexpected(sc, retTy, s, p);
      ValidScopes();
      KeepsOuter(scopes);
      NoTargets();
      if s.result.None? {
        if retTy != Void { return Some(E009); }
        ReturnEmittable(data, Void, []);
        Terminate(Instr(Ret, Void, None, []));
        FramePiece(g, Graph(), {}, Exits(loops));
        return None;
      }
      if retTy == Void { return Some(E010); }
      var v := LowerExpr(s.result.value);
      if ReturnExpected(sc, retTy, s, p) { RightExpected(sc, s.result.value, p, Got(v), At()); }
      if v.Error? { return Some(v.code); }
      ghost var g1, p1 := Graph(), At();
      var c := Coerce(v.value, retTy);
      if c.Error? { return Some(c.code); }
      ghost var g2 := Graph();
      PieceJoins(g, g1, g2, {}, {}, {});
      ReturnEmittable(data, retTy, [c.value]);
      Terminate(Instr(Ret, retTy, None, [c.value]));
      FramePiece(g2, Graph(), {}, {});
      PieceJoins(g, g2, Graph(), {}, {}, Exits(loops));
      if ReturnExpected(sc, retTy, s, p) { ReturnDone(sc, s, p, v.value, p1, At()); }
      err := None;
    }

    method LowerCondition(e: Expr) returns (r: Lowered<Operand>)
      requires Valid()
      modifies this
      ensures r.Lowered? ==> Valid() && loops == old(loops) && scopes == old(scopes) && old(taken) <= taken
      ensures r.Lowered? ==> Piece(old(Graph()), Graph(), {}) && Given(data, r.value) && TypeOf(r.value) == I1
    {
      hide FnBuilder.Valid, IdsOf, SuccsOf, Piece, Computed, Given, Emittable, Usable, LineEmitted, WithInstr, TempName;
      var v := LowerExpr(e);
      if v.Error? { return Error(v.code); }
      r := AsBool(v.value);
    }

    /** Open block `l`, lower `body` into it and, if its end can be reached, go on to `next`. */
    method Arm(l: Label, body: Stmt, next: Label) returns (err: Option<Code>, jumped: bool)
      requires Valid() && Ready(body) && !isOpen && CanOpen(Graph(), loops, l) && l != next && Targetable(Graph(), next)
      requires l in data.avail && next in data.avail && data.avail[next] <= data.avail[l]
      modifies this
      ensures err.None? ==>
          Valid() && !isOpen && loops == old(loops) && SameOuter(old(scopes), scopes) && old(taken) <= taken
      ensures err.None? ==>
          nest == old(nest) && old(data).avail[l] <= data.here && WellPlaced(body, loops != [], retTy == Void)
      ensures err.None? ==> Frame(old(Graph()), Graph(), if jumped then Exits(loops) + {next} else Exits(loops), {l})
      decreases body, 3
    {
      hide FnBuilder.Valid, IdsOf, SuccsOf, Piece, Computed, Given, Emittable, Usable, Own, Numbered, CanOpen,
           Targetable, Frame, MakeLabel, LoopsOk, Opened, AfterOpen, Exits, LetsOk, ReturnEmitted;
      ghost var g, ex := Graph(), Exits(loops);
      OpenBlock(l);
      ghost var g1 := Graph();
      AfterOpenFacts(g, g1, l, next);
      FrameParams(g, g1, {}, {l});
      err := LowerStmt(body);
      jumped := err.None? && isOpen;
      if err.Some? { return; }
      ghost var g2 := Graph();
      PieceFrame(g1, g2, ex);
      PieceHere(g1, g2, ex);
      FrameJoins(g, g1, g2, {}, {l}, ex, {}, ex, {l});
      if jumped {
        StaysTargetable(g1, g2, ex, {}, next);
        Jumps(next);
        FrameJoins(g, g2, Graph(), ex, {l}, {next}, {}, ex + {next}, {l});
      }
    }



    /** The join is opened only if something leads to it. */
    method LowerIf(s: Stmt) returns (err: Option<Code>)
      requires Valid() && Ready(s) && s.If?
      modifies this
      ensures err.None? ==> Valid() && loops == old(loops) && SameOuter(old(scopes), scopes) && old(taken) <= taken
      ensures err.None? ==> Piece(old(Graph()), Graph(), Exits(loops)) && WellPlaced(s, loops != [], retTy == Void)
      decreases s, 1
    {
      hide FnBuilder.Valid, IdsOf, SuccsOf, Piece, Computed, Given, Emittable, Usable, Own, Numbered, CanOpen,
           Targetable, Frame, MakeLabel, LoopsOk, Opened, AfterOpen, Exits, LetsOk;
      ghost var g, ex := Graph(), Exits(loops);
      ValidLoops();
      ValidScopes();
      KeepsOuter(scopes);
      var other := if s.elsePart.Some? then IfElse else IfEnd;
      var n := NextNumber();
      ghost var gs := Graph();
      var thenL, elseL, endL := MakeLabel(IfThen, n), MakeLabel(other, n), MakeLabel(IfEnd, n);
      NumberedHere(g, gs);
      var v := LowerCondition(s.cond);
      if v.Error? { return Some(v.code); }
      ghost var g1 := Graph();
      PieceFrame(gs, g1, {});
      PieceHere(gs, g1, {});
      Choose(thenL, elseL, v.value, g, gs, {}, {}, ex + {thenL, elseL});
      FrameParams(gs, Graph(), ex + {thenL, elseL}, {});
      LabelsDiffer2(thenL, elseL);
      LabelsDiffer2(thenL, endL);
      if s.elsePart.Some? { LabelsDiffer2(elseL, endL); }
      err := LowerArms(s, thenL, elseL, endL, g, gs);
    }

    method LowerArms(s: Stmt, thenL: Label, elseL: Label, endL: Label, ghost g: Sketch, ghost gs: Sketch)
      returns (err: Option<Code>)
      requires Valid() && !isOpen && s.If? && Ready(s) && thenL != elseL
          && thenL != endL && (elseL == endL <==> s.elsePart.None?)
      requires Own(g, gs, loops, thenL) && Own(g, gs, loops, elseL) && Own(g, gs, loops, endL) && Numbered(g, gs)
          && LoopsOk(g, loops)
      requires Graph().nest == g.nest && g.data.here <= data.here
          && Frame(gs, Graph(), Exits(loops) + {thenL, elseL}, {})
      modifies this
      ensures err.None? ==> Valid() && loops == old(loops) && SameOuter(old(scopes), scopes) && old(taken) <= taken
      ensures err.None? ==> Piece(g, Graph(), Exits(loops)) && WellPlaced(s, loops != [], retTy == Void)
      decreases s, 0
    {
      hide FnBuilder.Valid, IdsOf, SuccsOf, Piece, Computed, Given, Emittable, Usable, Own, Numbered, CanOpen,
           Targetable, Frame, MakeLabel, LoopsOk, Opened, AfterOpen, Exits, LetsOk;
      ghost var g2, ex, sc := Graph(), Exits(loops), scopes;
      ghost var e, o := ex + {thenL, elseL}, {thenL};
      OwnOpens(g, gs, g2, e, {}, loops, thenL);
      OwnTarget(g, gs, g2, e, {}, loops, endL);
      OwnAvail(g, gs, g2, e, {}, loops, endL);
      OwnAvail(g, gs, g2, e, {}, loops, thenL);
      IfLets(data, s);
      var reaches;
      err, reaches := Arm(thenL, s.thenPart, endL);
      if err.Some? { return; }
      ghost var g3, e3 := Graph(), if reaches then ex + {endL} else ex;
      FrameParams(g2, g3, e3, {thenL});
      FrameJoins(gs, g2, g3, e, {}, e3, {thenL}, e + e3, o);
      e := e + e3;
      if s.elsePart.Some? {
        OwnOpens(g, gs, g3, e, o, loops, elseL);
        OwnTarget(g, gs, g3, e, o, loops, endL);
        OwnAvail(g, gs, g3, e, o, loops, endL);
        OwnAvail(g, gs, g3, e, o, loops, elseL);
        ghost var sc1 := scopes;
        var jumped;
        err, jumped := Arm(elseL, s.elsePart.value, endL);
        if err.Some? { return; }
        ghost var e4 := if jumped then ex + {endL} else ex;
        SameOuterJoins(sc, sc1, scopes);
        FrameJoins(gs, g3, Graph(), e, o, e4, {elseL}, e + e4, {thenL, elseL});
        reaches, e, o := reaches || jumped, e + e4, {thenL, elseL};
      } else {
        reaches := true;
      }
      if reaches {
        Begin(endL, g, gs, e, o, o + {endL});
        o := o + {endL};
      }
      OwnShrinks(g, gs, Graph(), e, o, loops, ex);
    }

    /** Open the head of loop `n`. */
    method OpenHead(l: Label, n: nat)
      requires Valid() && !isOpen && CanOpen(Graph(), loops, l)
      requires BodiesUnused(Graph(), n) && n < nLabel && BodyFree(l, n)
      modifies this`blocks, this`isOpen, this`nest, this`data
      ensures Valid() && isOpen && l in old(data).avail && Graph() == AfterHead(old(Graph()), l, n)
      ensures Targetable(Graph(), l) && Frame(old(Graph()), Graph(), {}, {l})
    {
      hide Ok, Frame, LoopOk, ShapeOk, StartsWith, CodeOk, NamesOk, VarOk, ScopesOk, AvailKnown, Exits, Known, Opened,
           InnerAll, BodiesUnused, BodyFree, Targetable, TempsOk;
      ghost var g := Graph();
      HeadKeeps(g, loops, l, n);
      HeadIsTarget(g, l, n);
      OpenBlock(l);
      ghost var g1 := Graph();
      nest := nest + [Nest(n, nLabel, |blocks| - 1)];
      FrameStays(g1, Graph());
      FrameJoins(g, g1, Graph(), {}, {l}, {}, {}, {}, {l});
      LoopsStay(g1, Graph(), {}, {}, loops);
      SameAvail(g1, Graph());
    }

    /** Go on to the head of loop `n`. */
    method EnterLoop(l: Label, n: nat, ghost g: Sketch, ghost gs: Sketch, ghost exits: set<Label>,
                     ghost all: set<Label>)
      requires Valid() && Own(g, gs, loops, l) && Numbered(g, gs) && LoopsOk(g, loops) && nest == g.nest
          && g.data.here <= data.here
      requires Frame(gs, Graph(), exits, {}) && all == exits + {l}
      requires BodiesUnused(Graph(), n) && n < nLabel && IsMade(l) && KeyOf(l).n == n && !BodyBase(KeyOf(l).base)
      modifies this`blocks, this`isOpen, this`nLabel, this`nest, this`data
      ensures Valid() && isOpen && |nest| == |g.nest| + 1 && nest == g.nest + [nest[|g.nest|]] && nest[|g.nest|].n == n
      ensures data.here == g.data.here && Targetable(Graph(), l) && Frame(gs, Graph(), all, {l})
    {
      hide FnBuilder.Valid, IdsOf, SuccsOf, Piece, Computed, Given, Emittable, Usable, Own, Numbered, CanOpen,
           Targetable, Frame, MakeLabel, LoopsOk, Opened, AfterOpen, Exits, LetsOk, BodiesUnused, KeyOf;
      ghost var g1 := Graph();
      Go(l, g, gs, exits, {}, all);
      ghost var g2 := Graph();
      HeadFree(g1, g2, {l}, n);
      OwnOpens(g, gs, g2, all, {}, loops, l);
      OpenHead(l, n);
      HeadFacts(g2, Graph(), l, n);
      FrameJoins(gs, g2, Graph(), all, {}, {}, {l}, all, {l});
    }

    /** The innermost loop is finished. */
    ghost method Leave(g: Sketch, gs: Sketch, exits: set<Label>, opens: set<Label>)
      requires Valid() && nest != [] && nest[..|nest| - 1] == g.nest && LoopsOk(g, loops) && Numbered(g, gs)
          && g.data.here <= data.here
      requires Frame(gs, Graph(), exits, opens) && opens !! Exits(loops)
      modifies this`nest, this`done
      ensures Valid() && nest == g.nest && data == old(data) && isOpen == old(isOpen)
      ensures Frame(gs, Graph(), exits, opens)
    {
      hide Ok, Frame, LoopOk, ShapeOk, StartsWith, CodeOk, NamesOk, VarOk, ScopesOk, AvailKnown, Exits, TempsOk;
      var g1 := Graph();
      LeaveKeeps(g1);
      done := done + {Region(nest[|nest| - 1].lo, |blocks|)};
      nest := nest[..|nest| - 1];
      FrameStays(g1, Graph());
      FrameJoins(gs, g1, Graph(), exits, opens, {}, {}, exits, opens);
      FrameJoins(g, gs, Graph(), {}, {}, exits, opens, exits, opens);
      LoopsStay(g, Graph(), exits, opens, loops);
      SameAvail(g1, Graph());
    }

    /** Finish the innermost loop and open the block after it. */
    method LeaveLoop(l: Label, ghost g: Sketch, ghost gs: Sketch, ghost exits: set<Label>, ghost opens: set<Label>)
      requires Valid() && !isOpen && nest != [] && nest[..|nest| - 1] == g.nest && LoopsOk(g, loops) && Numbered(g, gs)
          && g.data.here <= data.here
      requires Own(g, gs, loops, l) && l !in opens && forall k :: k in opens ==> Own(g, gs, loops, k)
      requires Frame(gs, Graph(), exits, opens) && exits <= Exits(loops) + opens + {l}
      modifies this`blocks, this`isOpen, this`nest, this`done, this`data
      ensures Valid() && isOpen && Piece(g, Graph(), Exits(loops))
    {
      hide FnBuilder.Valid, IdsOf, SuccsOf, Piece, Computed, Given, Emittable, Usable, Own, Numbered, CanOpen,
           Targetable, Frame, MakeLabel, LoopsOk, Opened, AfterOpen, Exits, LetsOk;
      OwnNoExits(g, gs, loops, opens);
      Leave(g, gs, exits, opens);
      Begin(l, g, gs, exits, opens, opens + {l});
      OwnShrinks(g, gs, Graph(), exits, opens + {l}, loops, Exits(loops));
    }

    /** The loop's body, inside which `continue` and `break` have their targets. */
    method LowerBody(body: Stmt, bodyL: Label, continueL: Label, endL: Label, ghost g: Sketch, ghost gs: Sketch,
                     ghost exits: set<Label>, ghost opens: set<Label>)
      returns (err: Option<Code>)
      requires Valid() && Ready(body) && !isOpen && nest != [] && nest == g.nest + [nest[|nest| - 1]]
          && LoopsOk(g, loops) && Numbered(g, gs)
      requires Own(g, gs, loops, bodyL) && Own(g, gs, loops, endL) && continueL in gs.data.avail
          && gs.data.avail[continueL] == g.data.here
      requires IsMade(bodyL) && KeyOf(bodyL).n == nest[|nest| - 1].n && BodyBase(KeyOf(bodyL).base)
          && bodyL != continueL && bodyL != endL
      requires Frame(gs, Graph(), exits, opens) && bodyL !in opens && endL !in opens && Targetable(Graph(), continueL)
          && g.data.here <= data.here
      requires Exits(loops) <= exits && {bodyL, continueL, endL} <= exits
      modifies this
      ensures err.None? ==>
          Valid() && !isOpen && loops == old(loops) && nest == old(nest) && SameOuter(old(scopes), scopes)
              && old(taken) <= taken
      ensures err.None? ==>
          Frame(gs, Graph(), exits, opens + {bodyL}) && g.data.here <= data.here
              && WellPlaced(body, true, retTy == Void)
      ensures err.None? ==> Frame(old(Graph()), Graph(), exits, {bodyL})
      decreases body, 4
    {
      hide FnBuilder.Valid, IdsOf, SuccsOf, Piece, Computed, Given, Emittable, Usable, Own, Numbered, CanOpen,
           Targetable, Frame, MakeLabel, LoopsOk, Opened, AfterOpen, Exits, LetsOk, BodyBase, KeyOf, ReturnEmitted;
      ghost var g4, lp := Graph(), loops;
      var x := Loop(continueL, endL);
      OwnTarget(g, gs, g4, exits, opens, loops, endL);
      OwnOpensInside(g, gs, g4, exits, opens, loops, bodyL, nest[|nest| - 1]);
      OwnAvail(g, gs, g4, exits, opens, loops, endL);
      OwnAvail(g, gs, g4, exits, opens, loops, bodyL);
      AvailStays(gs, g4, exits, opens, continueL);
      ValidLoops();
      LoopsPush(g4, loops, x);
      OpensInLoop(g4, loops, bodyL, x);
      Enclose(x);
      var jumped;
      err, jumped := Arm(bodyL, body, continueL);
      if err.Some? { return; }
      ghost var e5 := if jumped then Exits(loops) + {continueL} else Exits(loops);
      LastIs(lp, x);
      Unclose(lp, x);
      FrameJoins(gs, g4, Graph(), exits, opens, e5, {bodyL}, exits, opens + {bodyL});
      StartsFrame(g4);
      FrameJoins(g4, g4, Graph(), {}, {}, e5, {bodyL}, exits, {bodyL});
    }

    /** `break` and `continue` now mean this loop. */
    method Enclose(x: Loop)
      requires Valid() && LoopsOk(Graph(), loops + [x])
      modifies this`loops
      ensures Valid() && loops == old(loops) + [x]
    {
      hide VarOk, ScopesOk, NamesOk, AvailKnown, ShapeOk, StartsWith, LoopsOk, CodeOk, Ok, TempsOk;
      loops := loops + [x];
    }

    method Unclose(ghost outer: seq<Loop>, ghost x: Loop)
      requires Valid() && loops == outer + [x]
      modifies this`loops
      ensures Valid() && loops == outer
    {
      hide VarOk, ScopesOk, NamesOk, AvailKnown, ShapeOk, StartsWith, LoopsOk, CodeOk, Ok, TempsOk;
      LoopsPop(Graph(), outer, x);
      loops := loops[..|loops| - 1];
    }

    method LowerWhile(s: Stmt) returns (err: Option<Code>)
      requires Valid() && Ready(s) && s.While?
      modifies this
      ensures err.None? ==> Valid() && loops == old(loops) && SameOuter(old(scopes), scopes) && old(taken) <= taken
      ensures err.None? ==> Piece(old(Graph()), Graph(), Exits(loops)) && WellPlaced(s, loops != [], retTy == Void)
      decreases s, 1
    {
      hide FnBuilder.Valid, IdsOf, SuccsOf, Piece, Computed, Given, Emittable, Usable, Own, Numbered, CanOpen,
           Targetable, Frame, MakeLabel, LoopsOk, Opened, AfterOpen, Exits, LetsOk, KeyOf, BodiesUnused;
      ghost var g, ex := Graph(), Exits(loops);
      ValidLoops();
      ValidNever();
      var n := NextNumber();
      ghost var gs := Graph();
      StillNever(g, gs, n);
      var headL, bodyL, endL := MakeLabel(WhileHead, n), MakeLabel(WhileBody, n), MakeLabel(WhileEnd, n);
      ghost var own := {headL, bodyL, endL};
      ghost var all := ex + own;
      LabelsDiffer2(headL, bodyL);
      LabelsDiffer2(headL, endL);
      LabelsDiffer2(bodyL, endL);
      NumberedHere(g, gs);
      StartsFrame(gs);
      EnterLoop(headL, n, g, gs, {}, {headL});
      ghost var g2 := Graph();
      var v := LowerCondition(s.cond);
      if v.Error? { return Some(v.code); }
      ghost var g3 := Graph();
      PieceHere(g2, g3, {});
      PieceOn(gs, g2, g3, {headL}, {headL});
      Choose(bodyL, endL, v.value, g, gs, {headL}, {headL}, all);
      PieceTarget(g2, g3, Graph(), {}, {bodyL, endL}, headL);
      FrameParams(gs, Graph(), all, {headL});
      OwnAvail(g, gs, gs, {}, {}, loops, headL);
      LoopLets(data, s);
      err := LowerBody(s.body, bodyL, headL, endL, g, gs, all, {headL});
      if err.Some? { return; }
      LeaveLoop(endL, g, gs, all, {headL} + {bodyL});
    }

    lemma ValidNever()
      requires Valid()
      ensures BodiesUnused(Graph().(nLabel := nLabel + 1), nLabel)
    {
      hide VarOk, ScopesOk, NamesOk, AvailKnown, ShapeOk, StartsWith, LoopsOk, CodeOk, Ok, BodiesUnused, TempsOk;
      NeverUsed(Graph(), nLabel);
    }

    /** The init clause scopes to the loop. */
    method LowerFor(s: Stmt) returns (err: Option<Code>)
      requires Valid() && Ready(s) && s.For?
      modifies this
      ensures err.None? ==> Valid() && loops == old(loops) && SameOuter(old(scopes), scopes) && old(taken) <= taken
      ensures err.None? ==> Piece(old(Graph()), Graph(), Exits(loops)) && WellPlaced(s, loops != [], retTy == Void)
      decreases s, 1
    {
      hide FnBuilder.Valid, IdsOf, SuccsOf, Piece, Computed, Given, Emittable, Usable, Own, Numbered, CanOpen,
           Targetable, Frame, MakeLabel, LoopsOk, Opened, AfterOpen, Exits, LetsOk, KeyOf, BodiesUnused, WellPlaced,
           ReturnEmitted;
      ghost var g, ex := Graph(), Exits(loops);
      ValidLoops();
      ValidScopes();
      Push();
      KeepsOuter(scopes);
      ghost var sc := scopes;
      ValidNever();
      var n := NextNumber();
      ghost var gs := Graph();
      StillNever(g, gs, n);
      NumberedHere(g, gs);
      LoopLets(data, s);
      NoPieces(gs, ex);
      if s.first.Some? {
        err := LowerStmt(s.first.value);
        if err.Some? { return; }
      }
      ghost var sc1 := scopes;
      PieceParams(gs, Graph(), ex);
      err := LowerForLoop(s, n, g, gs);
      if err.Some? { return; }
      SameOuterJoins(sc, sc1, scopes);
      PopOuter(old(scopes), scopes);
      Pop();
      ForPlaced(s, loops != [], retTy == Void);
    }

    /** From the head on. */
    method LowerForLoop(s: Stmt, n: nat, ghost g: Sketch, ghost gs: Sketch) returns (err: Option<Code>)
      requires Valid() && Ready(s) && s.For? && Numbered(g, gs) && LoopsOk(g, loops)
          && Piece(gs, Graph(), Exits(loops)) && n == g.nLabel < gs.nLabel
      requires forall b: Base ::
          Own(g, gs, loops, MakeLabel(b, n)) && IsMade(MakeLabel(b, n)) && KeyOf(MakeLabel(b, n)) == Key(b, n)
      requires BodiesUnused(gs, n)
      modifies this
      ensures err.None? ==> Valid() && loops == old(loops) && SameOuter(old(scopes), scopes) && old(taken) <= taken
      ensures err.None? ==> Piece(g, Graph(), Exits(loops)) && WellPlaced(s.body, true, retTy == Void)
      ensures err.None? && s.step.Some? ==> WellPlaced(s.step.value, loops != [], retTy == Void)
      decreases s, 0, 1
    {
      hide FnBuilder.Valid, IdsOf, SuccsOf, Piece, Computed, Given, Emittable, Usable, Own, Numbered, CanOpen,
           Targetable, Frame, MakeLabel, LoopsOk, Opened, AfterOpen, Exits, LetsOk, KeyOf, BodiesUnused, WellPlaced,
           ReturnEmitted;
      var headL, bodyL, stepL, endL := MakeLabel(ForHead, n), MakeLabel(ForBody, n), MakeLabel(ForStep, n),
          MakeLabel(ForEnd, n);
      ghost var g1, ex := Graph(), Exits(loops);
      ghost var all := ex + {headL, bodyL, stepL, endL};
      ForLabels(headL, bodyL, stepL, endL);
      NumberedHere(g, gs);
      ValidScopes();
      KeepsOuter(scopes);
      PieceFrame(gs, g1, ex);
      PieceHere(gs, g1, ex);
      ExitsFree(g, gs, g1, loops, n);
      EnterLoop(headL, n, g, gs, ex, ex + {headL});
      err := ForTest(s.test, bodyL, endL, headL, g, gs, ex + {headL}, all);
      if err.Some? { return; }
      FrameParams(gs, g1, ex, {});
      FrameParams(gs, Graph(), all, {headL});
      err := ForRest(s, headL, bodyL, stepL, endL, g, gs, all);
    }

    /** Without a condition the loop is left only by `break` or `return`. */
    method ForTest(test: Option<Expr>, bodyL: Label, endL: Label, headL: Label, ghost g: Sketch, ghost gs: Sketch,
                   ghost exits: set<Label>, ghost all: set<Label>)
      returns (err: Option<Code>)
      requires Valid() && Own(g, gs, loops, bodyL) && Own(g, gs, loops, endL) && Numbered(g, gs) && bodyL != headL
          && endL != headL
      requires Frame(gs, Graph(), exits, {headL}) && exits <= all && {bodyL, endL} <= all && Targetable(Graph(), headL)
          && g.data.here == data.here
      modifies this
      ensures err.None? ==>
          Valid() && !isOpen && loops == old(loops) && scopes == old(scopes) && nest == old(nest) && old(taken) <= taken
      ensures err.None? ==> Frame(gs, Graph(), all, {headL}) && Targetable(Graph(), headL) && g.data.here <= data.here
    {
      hide FnBuilder.Valid, IdsOf, SuccsOf, Piece, Computed, Given, Emittable, Usable, Own, Numbered, CanOpen,
           Targetable, Frame, MakeLabel, LoopsOk, Opened, AfterOpen, Exits, LetsOk;
      ghost var g2 := Graph();
      NoPiece(g2);
      if test.None? {
        Go(bodyL, g, gs, exits, {headL}, all);
        PieceTarget(g2, g2, Graph(), {}, {bodyL}, headL);
      } else {
        var v := LowerCondition(test.value);
        if v.Error? { return Some(v.code); }
        ghost var g3 := Graph();
        PieceHere(g2, g3, {});
        PieceOn(gs, g2, g3, exits, {headL});
        Choose(bodyL, endL, v.value, g, gs, exits, {headL}, all);
        PieceTarget(g2, g3, Graph(), {}, {bodyL, endL}, headL);
      }
      err := None;
    }

    method ForRest(s: Stmt, headL: Label, bodyL: Label, stepL: Label, endL: Label, ghost g: Sketch, ghost gs: Sketch,
                   ghost all: set<Label>)
      returns (err: Option<Code>)
      requires Valid() && !isOpen && s.For? && Ready(s)
      requires nest != [] && nest == g.nest + [nest[|nest| - 1]] && LoopsOk(g, loops) && Numbered(g, gs)
          && g.data.here <= data.here
      requires Own(g, gs, loops, headL) && Own(g, gs, loops, bodyL) && Own(g, gs, loops, stepL)
          && Own(g, gs, loops, endL)
      requires ForOwn(headL, bodyL, stepL, endL, nest[|nest| - 1].n)
      requires Frame(gs, Graph(), all, {headL}) && Targetable(Graph(), headL)
          && all == Exits(loops) + {headL, bodyL, stepL, endL}
      modifies this
      ensures err.None? ==> Valid() && loops == old(loops) && SameOuter(old(scopes), scopes) && old(taken) <= taken
      ensures err.None? ==> Piece(g, Graph(), Exits(loops)) && WellPlaced(s.body, true, retTy == Void)
      ensures err.None? && s.step.Some? ==> WellPlaced(s.step.value, loops != [], retTy == Void)
      decreases s, 0, 0
    {
      hide FnBuilder.Valid, IdsOf, SuccsOf, Piece, Computed, Given, Emittable, Usable, Own, Numbered, CanOpen,
           Targetable, Frame, MakeLabel, LoopsOk, Opened, AfterOpen, Exits, LetsOk, KeyOf, WellPlaced, ReturnEmitted;
      ghost var g4, sc, x, o := Graph(), scopes, nest[|nest| - 1], {headL} + {bodyL};
      StartsFrame(gs);
      OwnAvail(g, gs, gs, {}, {}, loops, stepL);
      OwnTarget(g, gs, g4, all, {headL}, loops, stepL);
      LoopLets(data, s);
      err := LowerBody(s.body, bodyL, stepL, endL, g, gs, all, {headL});
      if err.Some? { return; }
      ghost var g5, sc1 := Graph(), scopes;
      FrameParams(g4, g5, all, {bodyL});
      OwnAvail(g, gs, g5, all, o, loops, headL);
      OwnAvail(g, gs, g5, all, o, loops, stepL);
      TargetLater(g4, g5, all, {bodyL}, headL);
      OwnOpensInside(g, gs, g5, all, o, loops, stepL, x);
      err := LowerStep(s.step, stepL, headL);
      if err.Some? { return; }
      SameOuterJoins(sc, sc1, scopes);
      FrameJoins(gs, g5, Graph(), all, o, Exits(loops) + {headL}, {stepL}, all, o + {stepL});
      LeaveLoop(endL, g, gs, all, o + {stepL});
    }

    method LowerStep(step: Option<Stmt>, stepL: Label, headL: Label) returns (err: Option<Code>)
      requires Valid() && !isOpen && CanOpen(Graph(), loops, stepL) && stepL != headL && Targetable(Graph(), headL)
      requires step.Some? ==> Ready(step.value)
      requires stepL in data.avail && headL in data.avail && data.avail[headL] <= data.avail[stepL]
      modifies this
      ensures err.None? ==>
          Valid() && !isOpen && loops == old(loops) && nest == old(nest) && SameOuter(old(scopes), scopes)
              && old(taken) <= taken
      ensures err.None? ==>
          Frame(old(Graph()), Graph(), Exits(loops) + {headL}, {stepL}) && old(data).avail[stepL] <= data.here
      ensures err.None? && step.Some? ==> WellPlaced(step.value, loops != [], retTy == Void)
      decreases step, 1
    {
      hide FnBuilder.Valid, IdsOf, SuccsOf, Piece, Computed, Given, Emittable, Usable, Own, Numbered, CanOpen,
           Targetable, Frame, MakeLabel, LoopsOk, Opened, AfterOpen, Exits, LetsOk, WellPlaced, ReturnEmitted;
      ghost var g, ex := Graph(), Exits(loops);
      ValidScopes();
      KeepsOuter(scopes);
      OpenBlock(stepL);
      ghost var g1 := Graph();
      AfterOpenFacts(g, g1, stepL, headL);
      FrameParams(g, g1, {}, {stepL});
      NoPieces(g1, ex);
      if step.Some? {
        err := LowerStmt(step.value);
        if err.Some? { return; }
      }
      ghost var g2 := Graph();
      PieceFrame(g1, g2, ex);
      PieceHere(g1, g2, ex);
      FrameJoins(g, g1, g2, {}, {stepL}, ex, {}, ex, {stepL});
      StaysTargetable(g1, g2, ex, {}, headL);
      Jumps(headL);
      FrameJoins(g, g2, Graph(), ex, {stepL}, {headL}, {}, ex + {headL}, {stepL});
      err := None;
    }

    // ----- the whole function -----

    /** A parameter's name is taken. */
    method Take(name: string)
      requires Valid() && (data.clean ==> PlainName(name))
      modifies this`taken
      ensures Valid() && taken == old(taken) + {Name(name)}
    {
      hide VarOk, ScopesOk, AvailKnown, ShapeOk, StartsWith, LoopsOk, CodeOk, Ok, NamesOk, TempsOk;
      MoreTaken(data, blocks, taken, nTmp, name);
      TempsTaken(data.params, blocks, taken, taken + {Name(name)}, nTmp);
      taken := taken + {Name(name)};
    }

    /** Is the block with this label reachable from the first? */
    method Reaches(l: Label) returns (r: bool)
      requires Valid() && blocks != [] && Graphs.Closed(TextGraph(blocks))
      ensures r <==> Reachable(TextGraph(blocks), l)
    {
      hide FnBuilder.Valid, BlockMap, Reachable, Frontier, BasicBlock.Successors;
      ghost var g := TextGraph(blocks);
      HasBlocks();
      var byLabel := BlockMap(blocks);
      var seen: set<Label> := {};
      var stack := [blocks[0].id];
      StartFrontier(g, stack);
      while stack != []
        invariant Frontier(g, seen, stack)
        decreases byLabel.Keys - seen, |stack|
      {
        var current := stack[|stack| - 1];
        FrontierGrows(g, seen, stack);
        if current in seen {
          FrontierSkips(g, seen, stack);
          stack := stack[..|stack| - 1];
        } else {
          seen := seen + {current};
          stack := stack[..|stack| - 1];
          if current in byLabel { stack := stack + byLabel[current].Successors(); }
        }
      }
      FrontierDone(g, seen);
      r := l in seen;
    }

    lemma HasBlocks()
      requires Valid()
      ensures blocks != [] && (isOpen ==> blocks[|blocks| - 1].Successors() == [])
    {
      hide ScopesOk, NamesOk, AvailKnown, StartsWith, LoopsOk, CodeOk, Ok, BuilderBlocks.Closed, TempsOk;
      if isOpen {
        assert ShapeAt(blocks, isOpen, |blocks| - 1);
      }
    }

    /** Close the last block if the body ran past it: with nothing to return or where no path leads,
        by a return; otherwise it is an error. */
    method CloseFunction() returns (err: Option<Code>)
      requires Valid() && blocks != [] && Graphs.Closed(TextGraph(blocks))
      modifies this`blocks, this`isOpen, this`nLabel, this`data
      ensures err.Some? <==>
          old(isOpen) && retTy != Void && Reachable(TextGraph(old(blocks)), old(blocks[|blocks| - 1].id))
      ensures err.None? ==> Valid() && !isOpen && Frame(old(Graph()), Graph(), {}, {}) && nest == old(nest)
      ensures !old(isOpen) ==> blocks == old(blocks)
    {
      hide FnBuilder.Valid, IdsOf, SuccsOf, Emittable, Frame, Reachable;
      StartsFrame(Graph());
      if !isOpen { return None; }
      NoTargets();
      HasBlocks();
      if retTy == Void {
        ReturnEmittable(data, Void, []);
        Terminate(Instr(Ret, Void, None, []));
        return None;
      }
      var reached := Reaches(blocks[|blocks| - 1].id);
      if !reached {
        ZeroEmittable(data, fl, retTy);
        Terminate(Instr(Ret, retTy, None, [ZeroOf(fl, retTy)]));
        return None;
      }
      err := Some(E009);
    }
  }

  // ----- arithmetic, exactly -----

  function Got<T>(r: Lowered<T>): Option<T> {
    if r.Lowered? then Some(r.value) else None
  }

  /** The operations of arithmetic on ints. */
  lemma ArithmeticCode(op: BinaryOp)
    requires BinOf(op).Some?
    ensures !op.ShiftLeft? && !op.ShiftRight? && BinaryCode(op, false) == Some(Bin(BinOf(op).value))
    ensures forall args :: ResultTy(Instr(Bin(BinOf(op).value), I32, None, args)) == I32
  {}

  /** Ints need no conversion; otherwise nothing is said. */
  lemma OnInts(op: BinaryOp, x: Operand, y: Operand, at: Place)
    ensures BinOf(op).Some? && TypeOf(x) == I32 && TypeOf(y) == I32 ==>
        !op.ShiftLeft? && !op.ShiftRight? && Unify(TypeOf(x), TypeOf(y)) == Some(I32)
    ensures !(BinOf(op).Some? && TypeOf(x) == I32 && TypeOf(y) == I32) ==>
        forall v, after :: OperationEmitted(op, x, y, at, v, after)
  {}

  /** Not arithmetic at all. */
  lemma OtherEmitted(scopes: Scopes, e: Expr)
    ensures !e.IntLit? && !e.VarRef? && !e.Binary? ==> !Arithmetic(scopes, e)
    ensures e.Binary? && (e.bop.Both? || e.bop.Either?) ==> !Arithmetic(scopes, e)
  {}

  lemma LiteralEmitted(scopes: Scopes, e: Expr, at: Place)
    requires e.IntLit?
    ensures LineEmitted(scopes, e, at, Got(IntLiteral(e.value)), at)
  {
    if Arithmetic(scopes, e) {
      assert Fits(e.value, I32);
      LeafEmitted(scopes, e, at, ConstInt(e.value, I32));
    }
  }

  lemma VarEmitted(scopes: Scopes, name: string, at: Place)
    requires Lookup(scopes, name).Some? && Lookup(scopes, name).value.InRegister?
    ensures LineEmitted(scopes, VarRef(name), at,
        Some(Reg(Lookup(scopes, name).value.reg, Lookup(scopes, name).value.ty)), at)
  {
    hide Lookup;
    if Arithmetic(scopes, VarRef(name)) {
      LeafEmitted(scopes, VarRef(name), at, Reg(Lookup(scopes, name).value.reg, I32));
    }
  }

  // ----- pieces of statements -----

  lemma NoPieces(g: Sketch, ex: set<Label>)
    ensures Piece(g, g, ex)
  {
    hide Piece;
    NoPiece(g);
    PieceWidens(g, g, {}, ex);
  }

  lemma PieceWidens(g: Sketch, g': Sketch, e: set<Label>, ex: set<Label>)
    requires Piece(g, g', e) && e <= ex
    ensures Piece(g, g', ex)
  {
    hide Piece;
    NoPiece(g);
    PieceJoins(g, g, g', {}, e, ex);
  }

  lemma FramePiece(g: Sketch, g': Sketch, e: set<Label>, ex: set<Label>)
    requires Frame(g, g', e, {}) && g'.nest == g.nest && g.data.here <= g'.data.here && e <= ex
    ensures Piece(g, g', ex)
  {
    hide Frame;
    PieceWidens(g, g', e, ex);
  }

  lemma PieceParams(g: Sketch, g': Sketch, ex: set<Label>)
    requires Piece(g, g', ex)
    ensures g'.data.params == g.data.params && g'.data.clean == g.data.clean
  {
    hide Frame;
    FrameParams(g, g', ex, {});
  }

  lemma UsableStays(g: Sketch, g': Sketch, exits: set<Label>, x: Operand)
    requires Piece(g, g', exits) && Usable(g.data, x)
    ensures Usable(g'.data, x)
  {
    hide NewRef, NewBlock;
    StaysUsable(g.data, g'.data, x);
  }

  ghost predicate SameOuter(a: Scopes, b: Scopes) {
    a != [] && |a| == |b| && a[..|a| - 1] == b[..|b| - 1]
  }

  lemma KeepsOuter(a: Scopes)
    requires a != []
    ensures SameOuter(a, a)
  {}

  lemma PopOuter(a: Scopes, b: Scopes)
    requires a != [] && SameOuter(a + [map[]], b)
    ensures |b| >= 2 && b[..|b| - 1] == a && SameOuter(a, a)
  {
    assert (a + [map[]])[..|a|] == a;
  }

  lemma LetsInside(d: Data, s: Stmt, i: nat)
    requires s.Block? && i < |s.stmts| && (d.clean ==> LetsOk(s))
    ensures d.clean ==> LetsOk(s.stmts[i])
  {}

  lemma LetBase(d: Data, taken: set<Name>, s: Stmt)
    requires s.Let? && d.params <= taken && (d.clean ==> LetsOk(s))
    ensures SlotBase(d, taken, s.name) && SlotBase(d, taken, s.name + ".addr")
    ensures d.clean && s.typeNode.arrayLen.Some? ==> CountKept(s.typeNode.arrayLen.value, I32)
  {
    hide PlainName;
    assert (s.name + ".addr")[|s.name|] == '.';
  }

  lemma SlotVar(d: Data, ty: Ty, slot: Operand, len: Option<int>)
    requires slot.Reg? && slot.ty.Ptr? && slot.name in d.slots && TypedReg(d, slot.name, Ptr)
    ensures VarOk(d, InMemory(ty, slot, len))
  {}

  function TyOfName(t: TypeName): Ty {
    match t
    case IntName => I32
    case LongName => I64
    case FloatName => F64
    case BoolName => I1
    case VoidName => Void
  }

  /** An array decays to its address. */
  function TyOfNode(t: TypeNode): Ty {
    if t.arrayLen.Some? then Ptr else TyOfName(t.name)
  }

  function ElemTy(t: TypeNode): Ty {
    TyOfName(t.name)
  }

  lemma NoTargets()
    ensures TargetSet(Ret.Targets()) == {}
  {}

  lemma ReturnEmittable(d: Data, ty: Ty, args: seq<Operand>)
    requires |args| <= 1 && forall k :: 0 <= k < |args| ==> Given(d, args[k])
    ensures Emittable(d, Instr(Ret, ty, None, args))
  {
    hide Usable;
  }

  lemma AfterOpenFacts(g: Sketch, g': Sketch, l: Label, k: Label)
    requires l in g.data.avail && k != l && Targetable(g, k) && g' == AfterOpen(g, l) && Frame(g, g', {}, {l})
    requires k in g.data.avail && g.data.avail[k] <= g.data.avail[l]
    ensures Targetable(g', k) && g'.data.here == g.data.avail[l] && g'.nest == g.nest
  {
    hide Targetable, Frame;
    TargetOpens(g, l, k);
  }

  lemma OwnAvail(g: Sketch, gs: Sketch, g': Sketch, exits: set<Label>, opens: set<Label>, loops: seq<Loop>, l: Label)
    requires Own(g, gs, loops, l) && Frame(gs, g', exits, opens)
    ensures l in g'.data.avail && g'.data.avail[l] == g.data.here
  {
    hide Frame, Fresh, Known, Opened, InnerAll, Exits;
    AvailStays(gs, g', exits, opens, l);
  }

  lemma IfLets(d: Data, s: Stmt)
    requires s.If? && (d.clean ==> LetsOk(s))
    ensures d.clean ==> LetsOk(s.thenPart) && (s.elsePart.Some? ==> LetsOk(s.elsePart.value))
  {}

  lemma SameOuterJoins(a: Scopes, b: Scopes, c: Scopes)
    requires SameOuter(a, b) && SameOuter(b, c)
    ensures SameOuter(a, c)
  {}

  lemma StillNever(g: Sketch, gs: Sketch, n: nat)
    requires BodiesUnused(g.(nLabel := n + 1), n) && gs.ids == g.ids && gs.succ == g.succ
    ensures BodiesUnused(gs, n)
  {
    forall v: nat, l: Label | At(gs, v, l) ensures BodyFree(l, n) { assert At(g.(nLabel := n + 1), v, l); }
    forall i: nat, l: Label | EdgeTo(gs, i, l) ensures BodyFree(l, n) { assert EdgeTo(g.(nLabel := n + 1), i, l); }
  }

  lemma HeadFree(g: Sketch, g': Sketch, exits: set<Label>, n: nat)
    requires n < g.nLabel && Frame(g, g', exits, {}) && BodiesUnused(g, n)
    requires forall l :: l in exits ==> IsMade(l) && KeyOf(l).n == n && !BodyBase(KeyOf(l).base)
    ensures BodiesUnused(g', n) && n < g'.nLabel && forall l :: l in exits ==> BodyFree(l, n)
  {
    hide BodiesUnused, NewBlock, NewRef;
    StillUnused(g, g', exits, {}, n);
  }

  lemma HeadFacts(g: Sketch, g': Sketch, l: Label, n: nat)
    requires l in g.data.avail && g' == AfterHead(g, l, n)
    ensures g'.nest == g.nest + [g'.nest[|g.nest|]] && g'.nest[|g.nest|].n == n && g'.data.here == g.data.avail[l]
  {}

  lemma OwnNoExits(g: Sketch, gs: Sketch, loops: seq<Loop>, opens: set<Label>)
    requires forall k :: k in opens ==> Own(g, gs, loops, k)
    ensures opens !! Exits(loops)
  {
    hide Exits, Known, Opened, InnerAll, Fresh;
  }

  lemma LastIs(outer: seq<Loop>, x: Loop)
    ensures (outer + [x])[..|outer|] == outer
  {}

  lemma PieceTarget(g: Sketch, g1: Sketch, g2: Sketch, e1: set<Label>, e2: set<Label>, l: Label)
    requires Piece(g, g1, e1) && Frame(g1, g2, e2, {}) && g2.nest == g1.nest && g1.data.here <= g2.data.here
        && Targetable(g, l)
    ensures Targetable(g2, l)
  {
    hide Frame, Targetable;
    StaysTargetable(g, g1, e1, {}, l);
    StaysTargetable(g1, g2, e2, {}, l);
  }

  lemma LoopLets(d: Data, s: Stmt)
    requires (s.While? || s.For?) && (d.clean ==> LetsOk(s))
    ensures d.clean ==> LetsOk(s.body)
    ensures d.clean && s.For? ==> (s.first.Some? ==> LetsOk(s.first.value)) && (s.step.Some? ==> LetsOk(s.step.value))
  {}

  ghost predicate ForOwn(headL: Label, bodyL: Label, stepL: Label, endL: Label, n: nat) {
    && headL != bodyL && headL != stepL && headL != endL && bodyL != stepL && bodyL != endL && stepL != endL
    && IsMade(bodyL) && KeyOf(bodyL) == Key(ForBody, n) && IsMade(stepL) && KeyOf(stepL) == Key(ForStep, n)
  }

  lemma ForLabels(headL: Label, bodyL: Label, stepL: Label, endL: Label)
    requires IsMade(headL) && IsMade(bodyL) && IsMade(stepL) && IsMade(endL)
    requires KeyOf(headL).base == ForHead && KeyOf(bodyL).base == ForBody && KeyOf(stepL).base == ForStep
        && KeyOf(endL).base == ForEnd
    ensures headL != bodyL && headL != stepL && headL != endL && bodyL != stepL && bodyL != endL && stepL != endL
  {}

  lemma ForPlaced(s: Stmt, inLoop: bool, isVoid: bool)
    requires s.For? && (s.first.Some? ==> WellPlaced(s.first.value, inLoop, isVoid))
    requires (s.step.Some? ==> WellPlaced(s.step.value, inLoop, isVoid)) && WellPlaced(s.body, true, isVoid)
    ensures WellPlaced(s, inLoop, isVoid)
  {}

  /** A target stays one wherever what is promised at it is available. */
  lemma TargetLater(g: Sketch, g': Sketch, exits: set<Label>, opens: set<Label>, l: Label)
    requires Frame(g, g', exits, opens) && NestGrows(g, g') && Targetable(g, l) && l !in opens
    requires MayGo(g'.data, l)
    ensures Targetable(g', l)
  {
    hide At, EdgeTo, HeadOf, IsMade, Extends, MayGo;
    if HeadOf(g, l) {
      HeadStays(g, g', l);
      KnownStays(g, g', l);
    } else {
      StaysUnopened(g, g', exits, opens, l);
    }
  }

  /** The graph of a list of blocks. */
  ghost function TextGraph(blocks: seq<BasicBlock>): Graphs.Graph
    requires blocks != []
  {
    GraphOf(Function(Name(""), [], blocks))
  }

  lemma MoreTaken(d: Data, blocks: seq<BasicBlock>, taken: set<Name>, nTmp: nat, name: string)
    requires NamesOk(d, blocks, taken, nTmp) && (d.clean ==> PlainName(name))
    ensures NamesOk(d, blocks, taken + {Name(name)}, nTmp)
  {
    hide CountDefs, TempName;
    if d.clean {
      forall n: nat | n >= nTmp ensures TempName(n) !in taken + {Name(name)} { TempIsNotPlain(n); }
    }
  }

  function ZeroOf(fl: Floats, ty: Ty): Operand {
    if ty == F64 then ConstFloat(fl.zero) else ConstInt(0, ty)
  }

  lemma ZeroEmittable(d: Data, fl: Floats, ty: Ty)
    ensures Emittable(d, Instr(Ret, ty, None, [ZeroOf(fl, ty)]))
  {}

  // ----- operands -----

  datatype Address = Address(addr: Operand, ty: Ty)

  /** The value of an expression: usable, and no global's address. */
  ghost predicate Given(d: Data, v: Operand) {
    Usable(d, v) && !v.GlobalRef? && (v.ConstInt? ==> IsInt(v.ty))
  }

  lemma GivenConst(d: Data, v: Operand)
    requires v.ConstFloat? || (v.ConstInt? && IsInt(v.ty))
    ensures Given(d, v)
  {}

  lemma ConstIsInt(d: Data, v: Operand)
    requires Given(d, v) && v.ConstInt?
    ensures IsInt(TypeOf(v))
  {}

  lemma UsableGiven(d: Data, v: Operand)
    requires Usable(d, v) && v.Reg?
    ensures Given(d, v)
  {}

  lemma GivenStays(g: Sketch, g': Sketch, exits: set<Label>, v: Operand)
    requires Piece(g, g', exits) && Given(g.data, v)
    ensures Given(g'.data, v)
  {
    hide NewRef, NewBlock;
    StaysUsable(g.data, g'.data, v);
  }

  lemma NoPiece(g: Sketch)
    ensures Piece(g, g, {})
  {
    hide Frame;
    StartsFrame(g);
  }

  lemma PieceJoins(g: Sketch, g1: Sketch, g2: Sketch, e1: set<Label>, e2: set<Label>, e: set<Label>)
    requires Piece(g, g1, e1) && Piece(g1, g2, e2) && e1 <= e && e2 <= e
    ensures Piece(g, g2, e)
  {
    hide Frame;
    FrameJoins(g, g1, g2, e1, {}, e2, {}, e, {});
  }

  /** Does an integer literal keep its value at this type? */
  predicate Fits(value: int, ty: Ty)
    requires IsInt(ty)
  {
    WrapInt(value, ty) == value
  }

  function IntLiteral(value: int): (r: Lowered<Operand>)
    ensures r.Lowered? ==> r.value.ConstInt? && IsInt(r.value.ty)
  {
    if Fits(value, I32) then Lowered(ConstInt(value, I32))
    else if Fits(value, I64) then Lowered(ConstInt(value, I64))
    else Error(E005)
  }

  /** The conversions inserted without being written. */
  function Widening(from: Ty, to: Ty): Option<ConvOp> {
    match (from, to)
    case (I32, I64) => Some(Sext)
    case (I32, F64) => Some(Sitofp)
    case (I1, I32) => Some(Zext)
    case (I1, I64) => Some(Zext)
    case _ => None
  }

  function Unify(l: Ty, r: Ty): Option<Ty> {
    if l == r then Some(l) else if Widening(l, r).Some? then Some(r) else if Widening(r, l).Some? then Some(l) else None
  }

  function BinaryCode(op: BinaryOp, isFloat: bool): Option<Op> {
    match op
    case Plus => Some(Bin(if isFloat then Fadd else Add))
    case Minus => Some(Bin(if isFloat then Fsub else Sub))
    case Times => Some(Bin(if isFloat then Fmul else Mul))
    case Over => Some(Bin(if isFloat then Fdiv else Sdiv))
    case Equal => Some(if isFloat then Fcmp(Oeq) else Icmp(Eq))
    case NotEqual => Some(if isFloat then Fcmp(One) else Icmp(Ne))
    case Less => Some(if isFloat then Fcmp(Olt) else Icmp(Slt))
    case LessEqual => Some(if isFloat then Fcmp(Ole) else Icmp(Sle))
    case Greater => Some(if isFloat then Fcmp(Ogt) else Icmp(Sgt))
    case GreaterEqual => Some(if isFloat then Fcmp(Oge) else Icmp(Sge))
    case Modulo => if isFloat then None else Some(Bin(Srem))
    case BitAnd => if isFloat then None else Some(Bin(And))
    case BitOr => if isFloat then None else Some(Bin(Or))
    case BitXor => if isFloat then None else Some(Bin(Xor))
    case _ => None
  }

  lemma ComputedConv(d: Data, op: ConvOp, ty: Ty, v: Operand)
    requires Given(d, v) && Widening(TypeOf(v), ty) == Some(op)
    ensures Computed(d, Conv(op), ty, [v])
  {
    hide Usable;
  }

  lemma ComputedLoad(d: Data, a: Address)
    requires Usable(d, a.addr)
    ensures Computed(d, Load, a.ty, [a.addr])
  {
    hide Usable;
  }

  lemma ComputedGep(d: Data, ty: Ty, addr: Operand, i: Operand)
    requires Given(d, addr) && Given(d, i)
    ensures Computed(d, Gep, ty, [addr, i])
  {
    hide Usable;
  }

  lemma ComputedUnary(d: Data, op: Op, ty: Ty, v: Operand)
    requires Given(d, v) && TypeOf(v) == ty && ((op.Neg? && ty == F64) || (op.Not? && ty != F64))
    ensures Computed(d, op, ty, [v])
  {
    hide Usable;
  }

  lemma ComputedBin(d: Data, op: BinOp, ty: Ty, x: Operand, y: Operand)
    requires Given(d, x) && Given(d, y) && TypeOf(x) == TypeOf(y) == ty && (IsFloatOp(op) <==> ty == F64)
    ensures Computed(d, Bin(op), ty, [x, y])
  {
    hide Usable;
  }

  lemma ComputedFromZero(d: Data, ty: Ty, v: Operand)
    requires Given(d, v) && TypeOf(v) == ty && ty != F64
    ensures Computed(d, Bin(Sub), ty, [ConstInt(0, ty), v])
  {}

  lemma ComputedBinary(d: Data, op: BinaryOp, ty: Ty, x: Operand, y: Operand)
    requires Given(d, x) && Given(d, y) && TypeOf(x) == TypeOf(y) == ty && BinaryCode(op, ty == F64).Some?
    ensures var code := BinaryCode(op, ty == F64).value; !code.IsTerminator() && Computed(d, code, ty, [x, y])
  {
    hide Usable, Formed;
    var code := BinaryCode(op, ty == F64).value;
    if code.Bin? {
      assert IsFloatOp(code.bin) <==> ty == F64;
      ComputedBin(d, code.bin, ty, x, y);
    } else {
      ComputedCompare(d, code, ty, x, y);
    }
  }

  lemma ComputedCompare(d: Data, code: Op, ty: Ty, x: Operand, y: Operand)
    requires Given(d, x) && Given(d, y) && TypeOf(x) == TypeOf(y) == ty
        && (if ty == F64 then code.Fcmp? else code.Icmp?)
    ensures Computed(d, code, ty, [x, y])
  {
    hide Usable;
  }

  lemma PrintEmittable(d: Data, op: Op, ty: Ty, v: Operand)
    requires (op.PrintI32? || op.PrintF64?) && Given(d, v)
    ensures Emittable(d, Instr(op, ty, None, [v]))
  {
    hide Usable;
  }

  lemma CallComputed(d: Data, callee: Name, ret: Ty, args: seq<Operand>)
    requires forall k :: 0 <= k < |args| ==> Given(d, args[k])
    ensures if ret == Void then Emittable(d, Instr(Call(callee), Void, None, args))
        else Computed(d, Call(callee), ret, args)
  {
    hide Usable;
  }

  lemma StoreEmittable(d: Data, ty: Ty, v: Operand, addr: Operand)
    requires Given(d, v) && Usable(d, addr)
    ensures Emittable(d, Instr(Store, ty, None, [v, addr]))
  {
    hide Usable;
  }

  lemma AllocaBase(d: Data, taken: set<Name>, isAnd: bool, n: nat)
    ensures SlotBase(d, taken, (if isAnd then "and." else "or.") + Digits(n))
  {
    var s := (if isAnd then "and." else "or.") + Digits(n);
    assert s[if isAnd then 3 else 2] == '.';
  }

  lemma SlotUsable(g: Sketch, g': Sketch, exits: set<Label>, slot: Operand)
    requires Piece(g, g', exits) && slot.Reg? && slot.ty.Ptr? && slot.name in g.data.slots
        && TypedReg(g.data, slot.name, Ptr)
    ensures Usable(g'.data, slot) && slot.name in g'.data.slots && TypedReg(g'.data, slot.name, Ptr)
  {
    hide NewRef, NewBlock;
  }

  function Jump(l: Label): Instr {
    Instr(Br(l), Void, None, [])
  }

  function Branch(t: Label, f: Label, test: Operand): Instr {
    Instr(BrCond(t, f), I1, None, [test])
  }

  lemma JumpTargets(l: Label)
    ensures TargetSet(Jump(l).op.Targets()) == {l} && forall k :: k in Jump(l).op.Targets() ==> k == l
  {
    assert [l][0] == l;
  }

  lemma BranchTargets(t: Label, f: Label, test: Operand)
    ensures TargetSet(Branch(t, f, test).op.Targets()) == {t, f}
    ensures forall k :: k in Branch(t, f, test).op.Targets() ==> k == t || k == f
  {
    assert [t, f][0] == t && [t, f][1] == f;
  }

  lemma JumpEmittable(d: Data, l: Label)
    ensures Emittable(d, Jump(l))
  {}

  lemma BranchEmittable(d: Data, t: Label, f: Label, test: Operand)
    requires Given(d, test) && TypeOf(test) == I1
    ensures Emittable(d, Branch(t, f, test))
  {
    hide Usable;
  }

  lemma NumberedHere(g: Sketch, gs: Sketch)
    requires Numbered(g, gs)
    ensures gs.data.here == g.data.here && gs.nest == g.nest && gs.data.params == g.data.params
        && gs.data.clean == g.data.clean
  {
    hide Frame;
    FrameParams(g, gs, {}, {});
  }

  /** A construct that opened all of its own labels that it used. */
  lemma OwnShrinks(g: Sketch, gs: Sketch, g': Sketch, exits: set<Label>, opens: set<Label>, loops: seq<Loop>,
                   ex: set<Label>)
    requires Numbered(g, gs) && Frame(gs, g', exits, opens) && g'.nest == g.nest && g.data.here <= g'.data.here
    requires forall l :: l in opens ==> Own(g, gs, loops, l)
    requires exits <= ex + opens
    ensures Piece(g, g', ex)
  {
    hide Frame, Opened, Known, InnerAll, Fresh, Exits;
    FrameJoins(g, gs, g', {}, {}, exits, opens, exits, opens);
    forall l | l in opens ensures Fresh(g, l) { assert Own(g, gs, loops, l); }
    FrameShrinks(g, g', exits, opens, ex);
  }

  lemma PieceFrame(g: Sketch, g': Sketch, exits: set<Label>)
    requires Piece(g, g', exits)
    ensures Frame(g, g', exits, {}) && g'.nest == g.nest
  {}

  lemma PieceHere(g: Sketch, g': Sketch, exits: set<Label>)
    requires Piece(g, g', exits)
    ensures g.data.here <= g'.data.here && g'.nest == g.nest
  {}

  /** A piece after other work. */
  lemma PieceOn(g: Sketch, g1: Sketch, g2: Sketch, exits: set<Label>, opens: set<Label>)
    requires Frame(g, g1, exits, opens) && Piece(g1, g2, {})
    ensures Frame(g, g2, exits, opens)
  {
    hide Frame;
    FrameJoins(g, g1, g2, exits, opens, {}, {}, exits, opens);
  }

  lemma SlotStays(g: Sketch, g': Sketch, exits: set<Label>, opens: set<Label>, slot: Operand)
    requires Frame(g, g', exits, opens) && slot.Reg? && slot.name in g.data.slots
        && TypedReg(g.data, slot.name, slot.ty)
    ensures slot.name in g'.data.slots && TypedReg(g'.data, slot.name, slot.ty) && Usable(g'.data, slot)
  {
    hide NewRef, NewBlock;
  }

  lemma LabelsDiffer2(a: Label, b: Label)
    requires IsMade(a) && IsMade(b) && KeyOf(a) != KeyOf(b)
    ensures a != b
  {}

  lemma VarUsable(d: Data, v: Var)
    requires VarOk(d, v) && d.params <= d.here
    ensures v.InRegister? ==> Given(d, Reg(v.reg, v.ty))
    ensures v.InMemory? ==> Usable(d, v.addr) && (v.arrayLen.Some? ==> Given(d, v.addr))
  {}

  lemma SameTypes(d: Data, d': Data, r: Name, ty: Ty)
    requires TypedReg(d, r, ty) && d'.types == d.types && d'.clean == d.clean
    ensures TypedReg(d', r, ty)
  {}

  lemma DerivedNext(base: string, n: nat)
    requires n > 0
    ensures Derived(base, n) == Name(base + "." + Digits(n))
  {}

  lemma SlotFormed(d: Data, ty: Ty, name: Name, count: Option<int>)
    requires TypedReg(d, name, Ptr) && (d.clean && count.Some? ==> CountKept(count.value, I32))
    ensures var ins := Instr(Alloca, ty, Some(name), if count.Some? then [ConstInt(count.value, I32)] else []);
            Formed(ins) && TypedText(d, ins)
  {}

  lemma BranchTests(ins: Instr)
    requires Formed(ins)
    ensures ins.op.BrCond? ==> ins.args != []
  {}

  lemma LinkedFrame(g: Sketch, ts: seq<Label>)
    requires |g.succ| == |g.ids| > 0
    ensures Frame(g, Linked(g, ts), TargetSet(ts), {})
  {
    var g' := Linked(g, ts);
    forall i: nat, k: Label | EdgeTo(g', i, k) ensures NewRef(g, g', TargetSet(ts), i, k) {
      if i < |g.succ| - 1 { assert EdgeTo(g, i, k); }
    }
  }

  lemma ComputedStays(g: Sketch, g': Sketch, op: Op, ty: Ty, args: seq<Operand>, r: Name)
    requires Frame(g, g', {}, {}) && g.data.here <= g'.data.here && Computed(g.data, op, ty, args)
    requires TypedReg(g'.data, r, ResultTy(Instr(op, ty, None, args)))
    ensures Emittable(g'.data, Instr(op, ty, Some(r), args))
  {
    hide NewRef, NewBlock, Usable;
    forall j | 0 <= j < |args| ensures Usable(g'.data, args[j]) { StaysUsable(g.data, g'.data, args[j]); }
  }

  lemma ResultUsable(g: Sketch, g': Sketch, v: Operand)
    requires v.Reg? && g'.data == g.data.(here := g.data.here + Result(Some(v.name))) && TypedReg(g.data, v.name, v.ty)
    ensures Usable(g'.data, v)
  {}

  lemma SameAvail(g: Sketch, g': Sketch)
    requires AvailKnown(g) && g'.nLabel == g.nLabel && g'.data.avail == g.data.avail
    ensures AvailKnown(g')
  {}

  lemma MoreHere(d: Data, d': Data)
    requires d' == d.(here := d'.here)
    ensures Extends(d, d')
  {}

  lemma EmittableStays(g: Sketch, g': Sketch, exits: set<Label>, ins: Instr)
    requires Piece(g, g', exits) && Emittable(g.data, ins) && ins.dest.None?
    ensures Emittable(g'.data, ins)
  {
    hide Formed, NewRef, NewBlock, Usable;
    forall j | 0 <= j < |ins.args| ensures Usable(g'.data, ins.args[j]) { StaysUsable(g.data, g'.data, ins.args[j]); }
  }

  /** An operation on operands that are defined here. */
  ghost predicate Computed(d: Data, op: Op, ty: Ty, args: seq<Operand>) {
    !op.Alloca? && Formed(Instr(op, ty, Some(Name("")), args)) && forall j :: 0 <= j < |args| ==> Usable(d, args[j])
  }

  lemma OwnFresh(g: Sketch, gs: Sketch, loops: seq<Loop>, l: Label)
    requires Own(g, gs, loops, l)
    ensures Fresh(g, l)
  {}

  lemma StartsFrame(g: Sketch)
    ensures Frame(g, g, {}, {})
  {
    FrameStays(g, g);
  }

  lemma NamesSame(d: Data, d': Data, blocks: seq<BasicBlock>, taken: set<Name>, nTmp: nat)
    requires d'.params == d.params && d'.clean == d.clean && d'.types == d.types && NamesOk(d, blocks, taken, nTmp)
    ensures NamesOk(d', blocks, taken, nTmp)
  {}

  lemma NumberUnused(g: Sketch, n: nat)
    requires n == g.nLabel && AvailKnown(g)
    requires Ok(g)
    ensures OwnSet(n) !! g.data.avail.Keys && forall i :: 0 <= i < |g.ids| ==> g.ids[i] !in OwnSet(n)
  {
    hide Distinct, EdgeFits, NestFits, Ordered, MakeLabel;
    EntryNotMade();
    forall b: Base ensures MakeLabel(b, n) !in g.data.avail && forall i ::
        0 <= i < |g.ids| ==> g.ids[i] != MakeLabel(b, n) {
      KeyIs(b, n);
      forall i | 0 <= i < |g.ids| ensures g.ids[i] != MakeLabel(b, n) { assert LabelAt(g, i); }
    }
  }

  lemma NumberAnnounced(g: Sketch, gs: Sketch, loops: seq<Loop>, n: nat)
    requires n == g.nLabel && gs == g.(nLabel := n + 1, data := Announced(g.data, OwnSet(n))) && AvailKnown(g)
        && LoopsOk(g, loops) && Frame(g, gs, {}, {})
    requires Ok(g)
    ensures AvailKnown(gs) && Numbered(g, gs)
    ensures forall b: Base ::
              && Own(g, gs, loops, MakeLabel(b, n)) && IsMade(MakeLabel(b, n)) && KeyOf(MakeLabel(b, n)) == Key(b, n)
  {
    hide Ok, Frame, Exits, LoopsOk, MakeLabel, InnerAll, Opened;
    forall b: Base ensures Own(g, gs, loops, MakeLabel(b, n)) && IsMade(MakeLabel(b, n))
        && KeyOf(MakeLabel(b, n)) == Key(b, n) {
      OwnLabel(g, b, n);
      NotAnExit(g, loops, MakeLabel(b, n));
      SameOpened(g.(nLabel := n + 1), gs, MakeLabel(b, n));
    }
  }

  lemma SameOpened(g: Sketch, g': Sketch, l: Label)
    requires g'.ids == g.ids && g'.nLabel == g.nLabel
    ensures (Opened(g', l) <==> Opened(g, l)) && (Known(g', l) <==> Known(g, l))
  {
    if v: nat :| At(g, v, l) { assert At(g', v, l); }
    if v: nat :| At(g', v, l) { assert At(g, v, l); }
  }

  lemma NotAnExit(g: Sketch, loops: seq<Loop>, l: Label)
    requires LoopsOk(g, loops) && Fresh(g, l)
    ensures l !in Exits(loops)
  {
    hide Exits;
    ExitsKnown(g, loops);
  }

  lemma StartOk(g: Sketch)
    requires g.ids == [ENTRY] && g.succ == [[]] && g.nest == [] && g.done == {}
    ensures Ok(g)
  {}

  lemma StartShape()
    ensures ShapeOk([BasicBlock(ENTRY, [])], true) && StartsWith([BasicBlock(ENTRY, [])], 0)
  {
    var blocks := [BasicBlock(ENTRY, [])];
    forall i | 0 <= i < |blocks| ensures ShapeAt(blocks, true, i) {}
  }

  lemma StartCode(d: Data, blocks: seq<BasicBlock>)
    requires blocks == [BasicBlock(ENTRY, [])] && d.avail == map[ENTRY := d.params] && d.here == d.params
        && d.slots == {}
    ensures CodeOk(d, blocks, true, 0)
  {
    EmptyCode(d, blocks[0]);
  }

  lemma StartNames(d: Data)
    requires d.clean ==> forall p :: p in d.params ==> PlainName(p.text)
    requires d.types.Keys == d.params
    ensures NamesOk(d, [BasicBlock(ENTRY, [])], {}, 0)
  {
    hide PlainName;
    var none: seq<BasicBlock> := [];
    assert none + [BasicBlock(ENTRY, [])] == [BasicBlock(ENTRY, [])];
    forall r ensures CountDefs([BasicBlock(ENTRY, [])], r) == 0 { CountOpened(none, ENTRY, r); }
  }
}
