/** From a declaration to a function, and what holds of every function that results. */
module Building {
  import opened Cir
  import opened Arith
  import opened Graphs
  import opened FlowGraph
  import opened Walks
  import opened Cfg
  import opened Definitions
  import opened TypedFunctions
  import opened Fold
  import opened Narrowing
  import opened Discipline
  import opened Pipeline
  import opened TextOrder
  import opened ConstFold
  import Bytecode
  import NaiveProof
  import opened MiniLang
  import opened Labels
  import opened BuilderData
  import opened BuilderGraph
  import opened BuilderFrame
  import opened BuilderBlocks
  import opened BuilderCode
  import opened BuilderNames
  import opened BuilderTemps
  import opened BuilderLines
  import opened BuilderReducible
  import opened BuilderOutput
  import opened BuilderStages
  import opened Builder

  /** No name of the source can be taken for one of the builder's, parameters have different
      names, and array lengths are ints. */
  ghost predicate CleanDecl(decl: FnDecl) {
    && (forall i, j :: 0 <= i < j < |decl.params| ==> decl.params[i].name != decl.params[j].name)
    && (forall i :: 0 <= i < |decl.params| ==> PlainName(decl.params[i].name))
    && LetsOk(decl.body)
  }

  /** A later parameter of the same name would win. */
  function ParamTypes(params: seq<Param>): map<Name, Ty> {
    if params == [] then map[]
    else
      var p := params[|params| - 1];
      ParamTypes(params[..|params| - 1])[Name(p.name) := TyOfNode(p.typeNode)]
  }

  function ParamNames(params: seq<Param>): (r: seq<Name>)
    ensures |r| == |params| && forall i :: 0 <= i < |params| ==> r[i] == Name(params[i].name)
  {
    seq(|params|, i requires 0 <= i < |params| => Name(params[i].name))
  }

  lemma {:induction false} ParamKeys(params: seq<Param>)
    ensures ParamTypes(params).Keys == (set p | p in ParamNames(params))
  {
    if params != [] {
      var n := |params| - 1;
      ParamKeys(params[..n]);
      assert ParamNames(params) == ParamNames(params[..n]) + [Name(params[n].name)];
    }
  }

  /** A parameter has its type unless a later one has its name. */
  lemma {:induction false} ParamTypeOf(params: seq<Param>, i: nat)
    requires i < |params| && forall j :: i < j < |params| ==> params[j].name != params[i].name
    ensures Name(params[i].name) in ParamTypes(params)
    ensures ParamTypes(params)[Name(params[i].name)] == TyOfNode(params[i].typeNode)
  {
    var n := |params| - 1;
    if i < n {
      assert params[..n][i] == params[i] && forall j :: i < j < n ==> params[..n][j] == params[j];
      ParamTypeOf(params[..n], i);
    }
  }

  // ----- the edges of a finished sketch -----

  lemma AllOpened(g0: Sketch, g: Sketch)
    requires g0.succ == [[]] && Frame(g0, g, {}, {}) && g.nest == []
    ensures Finished(g)
  {
    forall i: nat, l: Label | EdgeTo(g, i, l) ensures Opened(g, l) { assert NewRef(g0, g, {}, i, l); }
  }

  lemma TextClosed(blocks: seq<BasicBlock>, g: Sketch)
    requires blocks != [] && g.ids == IdsOf(blocks) && g.succ == SuccsOf(blocks) && Finished(g)
    ensures Graphs.Closed(TextGraph(blocks))
  {
    hide BlockMap, BasicBlock.Successors;
    var t := TextGraph(blocks);
    BlockMapHas(blocks, blocks[0].id);
    forall u, v | Edge(t, u, v) ensures v in t.succ {
      BlockMapHas(blocks, u);
      var i: nat :| i < |blocks| && blocks[i] == BlockMap(blocks)[u];
      assert EdgeTo(g, i, v);
      var k: nat :| At(g, k, v);
      assert blocks[k].id == v;
      BlockMapHas(blocks, v);
    }
  }

  // ----- parameters -----

  /** The state in which the parameters are declared. */
  ghost predicate Typed(d: Data, params: seq<Param>) {
    && d.params == (set p | p in ParamNames(params))
    && (d.clean ==> forall i ::
        0 <= i < |params| ==>
            PlainName(params[i].name) && TypedReg(d, Name(params[i].name), TyOfNode(params[i].typeNode)))
  }

  lemma TypedStays(g: Sketch, g': Sketch, params: seq<Param>)
    requires Piece(g, g', {}) && Typed(g.data, params)
    ensures Typed(g'.data, params)
  {
    hide NewRef, NewBlock, PlainName;
    if g'.data.clean {
      forall i | 0 <= i < |params| ensures TypedReg(g'.data, Name(params[i].name), TyOfNode(params[i].typeNode)) {
        assert TypedReg(g.data, Name(params[i].name), TyOfNode(params[i].typeNode));
      }
    }
  }

  lemma TypedAtStart(d: Data, decl: FnDecl)
    requires d.params == ParamTypes(decl.params).Keys && d.types == ParamTypes(decl.params)
        && (d.clean ==> CleanDecl(decl))
    ensures Typed(d, decl.params)
  {
    hide PlainName, LetsOk, ParamTypes;
    var ps := decl.params;
    ParamKeys(ps);
    if d.clean {
      forall i | 0 <= i < |ps| ensures PlainName(ps[i].name)
          && TypedReg(d, Name(ps[i].name), TyOfNode(ps[i].typeNode)) {
        ParamTypeOf(ps, i);
      }
    }
  }

  lemma ParamOperand(d: Data, params: seq<Param>, i: nat)
    requires Typed(d, params) && i < |params| && d.params <= d.here
    ensures var r, ty := Name(params[i].name), TyOfNode(params[i].typeNode);
            Given(d, Reg(r, ty)) && VarOk(d, InRegister(ty, r))
  {
    hide PlainName;
    assert ParamNames(params)[i] == Name(params[i].name);
    assert Name(params[i].name) in ParamNames(params);
    assert d.clean ==> TypedReg(d, Name(params[i].name), TyOfNode(params[i].typeNode));
  }

  lemma AddrBase(d: Data, taken: set<Name>, name: string)
    ensures SlotBase(d, taken, name + ".addr")
  {
    assert (name + ".addr")[|name|] == '.';
  }

  function ParamVar(p: Param): Var {
    InRegister(TyOfNode(p.typeNode), Name(p.name))
  }

  /** A parameter the body assigns gets a slot; the others stay in their registers. */
  method LowerParam(b: FnBuilder, decl: FnDecl, i: nat)
    requires b.Valid() && i < |decl.params| && Typed(b.data, decl.params)
    modifies b
    ensures b.Valid() && b.loops == old(b.loops) && Piece(old(b.Graph()), b.Graph(), {}) && Typed(b.data, decl.params)
    ensures old(b.taken) + {Name(decl.params[i].name)} <= b.taken
    ensures old(b.scopes) != [] && (decl.params[i].name !in AssignedNames(decl.body) ==>
        b.At() == old(b.At()) && b.scopes == Declared(old(b.scopes), decl.params[i].name, ParamVar(decl.params[i])))
  {
    hide FnBuilder.Valid, IdsOf, SuccsOf, Piece, Computed, Given, Emittable, Usable, VarOk, PlainName, Typed;
    ghost var g := b.Graph();
    NoPiece(g);
    var name, ty := decl.params[i].name, TyOfNode(decl.params[i].typeNode);
    b.ValidScopes();
    TypedPlain(b.data, decl.params, i);
    b.Take(name);
    b.ParamsHere();
    ParamOperand(b.data, decl.params, i);
    if name in AssignedNames(decl.body) {
      AddrBase(b.data, b.taken, name);
      var slot := b.AllocaSlot(name + ".addr", ty, None);
      ghost var g1 := b.Graph();
      GivenStays(g, g1, {}, Reg(Name(name), ty));
      SlotIsUsable(b.data, slot);
      StoreEmittable(b.data, ty, Reg(Name(name), ty), slot);
      b.Emit(Instr(Store, ty, None, [Reg(Name(name), ty), slot]));
      SlotUsable(g1, b.Graph(), {}, slot);
      SlotVar(b.data, ty, slot, None);
      b.Declare(name, InMemory(ty, slot, None));
      PieceJoins(g, g1, b.Graph(), {}, {}, {});
    } else {
      b.Declare(name, InRegister(ty, Name(name)));
    }
    TypedStays(g, b.Graph(), decl.params);
  }

  lemma TypedPlain(d: Data, params: seq<Param>, i: nat)
    requires Typed(d, params) && i < |params|
    ensures d.clean ==> PlainName(params[i].name)
  {
    hide PlainName;
  }

  lemma SlotIsUsable(d: Data, slot: Operand)
    requires slot.Reg? && slot.ty.Ptr? && slot.name in d.slots && TypedReg(d, slot.name, Ptr)
    ensures Usable(d, slot)
  {}

  // ----- the function -----

  /** Where the parameters are looked up when none is assigned. */
  function ParamScope(params: seq<Param>): map<string, Var> {
    if params == [] then map[]
    else ParamScope(params[..|params| - 1])[params[|params| - 1].name := ParamVar(params[|params| - 1])]
  }

  /** An int function whose body returns arithmetic over its parameters. */
  predicate OnlyComputes(decl: FnDecl, globals: map<string, Var>) {
    TyOfNode(decl.retType) == I32 && ReturnsArithmetic([globals, ParamScope(decl.params)], decl.body)
  }

  /** ... and what is built from it. */
  function Computation(decl: FnDecl, globals: map<string, Var>): Function
    requires OnlyComputes(decl, globals)
  {
    Function(Name(decl.name), ParamNames(decl.params),
             [BasicBlock(ENTRY, ReturnCode([globals, ParamScope(decl.params)], decl.body, 0))])
  }

  lemma NothingAssigned(scopes: Scopes, s: Stmt)
    requires ReturnsArithmetic(scopes, s)
    ensures AssignedNames(s) == {}
  {
    hide Arithmetic;
    if s.Block? { assert AssignedIn(s.stmts[1..]) == {}; }
  }

  lemma ScopeDeclared(globals: map<string, Var>, params: seq<Param>, i: nat)
    requires i < |params|
    ensures Declared([globals, ParamScope(params[..i])], params[i].name, ParamVar(params[i]))
         == [globals, ParamScope(params[..i + 1])]
  {
    assert params[..i + 1][..i] == params[..i];
  }

  lemma ComputationDone(decl: FnDecl, globals: map<string, Var>, retTy: Ty, ok: bool, p: Place)
    requires OnlyComputes(decl, globals) && retTy == I32
    requires ReturnEmitted([globals, ParamScope(decl.params)], retTy, decl.body,
        Place([BasicBlock(ENTRY, [])], true, 0),
                           ok, p)
    ensures ok && !p.isOpen && p.blocks == Computation(decl, globals).blocks
  {
    hide ReturnsArithmetic, ReturnCode, ParamScope;
    var code := ReturnCode([globals, ParamScope(decl.params)], decl.body, 0);
    assert [] + code == code;
  }

  /** What every function that is built satisfies. */
  ghost predicate Built(decl: FnDecl, types: Typing, f: Function) {
    && SoundCfg(f) && f.GoodCfg() && f.ConditionsGiven() && Reducible(GraphOf(f)) && UsesDefined(f) && TextOrdered(f)
        && BranchesPlain(f) && Bytecode.Emits(f)
    && (CleanDecl(decl) ==> NaiveProof.Lowerable(f) && ParamsFixed(f) && Once(f))
    && (CleanDecl(decl) && Numeric(f) ==> TypedFunction(types, f) && NoBoolExtension(f))
  }

  lemma BuiltFrom(decl: FnDecl, d: Data, g: Sketch, f: Function, n: nat, taken: set<Name>, nTmp: nat)
    requires Finishes(d, g, f, n) && NamesOk(d, f.blocks, taken, nTmp) && (CleanDecl(decl) ==> d.clean)
    ensures Built(decl, d.types, f)
  {
    hide CodeOk, Ok, ShapeOk, NamesOk, CleanDecl, SoundCfg, Function.GoodCfg, Reducible, UsesDefined,
         Function.ConditionsGiven, NaiveProof.Lowerable, TextOrdered, Bytecode.Emits, CountDefs, Finished,
         BranchesPlain, GraphOf, Numeric, TypedFunction, ParamsFixed;
    OutputSound(d, g, f, n);
    OutputReducible(d, g, f, n);
    UniqueText(f);
    OutputDefined(d, f, n);
    OutputOrdered(d, f, n);
    OutputPlain(d, f, n);
    OutputEmits(d, f, n);
    if CleanDecl(decl) {
      OutputSingle(d, f, taken, nTmp);
      OutputLowerable(d, f, n);
      if Numeric(f) { OutputTyped(d, f, n); }
    }
  }

  lemma UniqueText(f: Function)
    requires f.GoodCfg()
    ensures f.UniqueLabels()
  {}

  /** All parameters are declared and their names taken. */
  method LowerParams(b: FnBuilder, decl: FnDecl, ghost globals: map<string, Var>)
    requires b.Valid() && b.loops == [] && Typed(b.data, decl.params)
    modifies b
    ensures b.Valid() && b.loops == [] && Piece(old(b.Graph()), b.Graph(), {}) && b.data.params <= b.taken
    ensures Typed(b.data, decl.params)
    ensures (OnlyComputes(decl, globals) && old(b.scopes) == [globals, map[]]) ==>
        b.At() == old(b.At()) && b.scopes == [globals, ParamScope(decl.params)]
  {
    hide FnBuilder.Valid, IdsOf, SuccsOf, Frame, Typed, OnlyComputes, Declared, ParamScope, Piece;
    ghost var g0, p, sc := b.Graph(), b.At(), b.scopes;
    if OnlyComputes(decl, globals) { PlainComputation(decl, globals); }
    NoPiece(g0);
    for i := 0 to |decl.params|
      invariant b.Valid() && b.loops == [] && Piece(g0, b.Graph(), {}) && Typed(b.data, decl.params)
      invariant forall k :: 0 <= k < i ==> Name(decl.params[k].name) in b.taken
      invariant OnlyComputes(decl, globals) && sc == [globals, map[]] ==>
          b.At() == p && b.scopes == [globals, ParamScope(decl.params[..i])]
    {
      ghost var g := b.Graph();
      LowerParam(b, decl, i);
      ScopeDeclared(globals, decl.params, i);
      PieceJoins(g0, g, b.Graph(), {}, {}, {});
    }
    assert decl.params[..|decl.params|] == decl.params;
    ParamsTaken(b.data, b.taken, decl);
  }

  /** Everything the body refers to is opened by its end. */
  method CloseBuilt(b: FnBuilder, ghost g0: Sketch) returns (err: Option<Code>)
    requires b.Valid() && Piece(g0, b.Graph(), {}) && g0.succ == [[]] && g0.nest == []
    modifies b
    ensures !old(b.isOpen) ==> err.None? && b.blocks == old(b.blocks)
    ensures err.None? ==> b.Valid() && !b.isOpen && Finished(b.Graph())
    ensures err.None? ==> b.data.params == g0.data.params && b.data.clean == g0.data.clean
  {
    hide FnBuilder.Valid, IdsOf, SuccsOf, Frame, Finished;
    PieceFrame(g0, b.Graph(), {});
    AllOpened(g0, b.Graph());
    b.HasBlocks();
    TextClosed(b.blocks, b.Graph());
    ghost var g := b.Graph();
    err := b.CloseFunction();
    if err.Some? { return; }
    FrameJoins(g0, g, b.Graph(), {}, {}, {}, {}, {}, {});
    AllOpened(g0, b.Graph());
    FrameParams(g0, b.Graph(), {}, {});
  }

  /** Lower a function declaration. */
  method BuildFunction(fl: Floats, decl: FnDecl, sigs: map<string, Sig>, globals: map<string, Var>)
    returns (r: Lowered<Function>, ghost types: Typing)
    requires forall x ::
        x in globals ==> globals[x].InMemory? && globals[x].addr.GlobalRef? && globals[x].arrayLen.None?
    ensures r.Lowered? ==> Built(decl, types, r.value) && r.value.params == ParamNames(decl.params)
    ensures r.Lowered? ==> WellPlaced(decl.body, false, TyOfNode(decl.retType) == Void)
    ensures r.Lowered? && UndottedParams(decl) ==> CapturedExactly(r.value)
    ensures OnlyComputes(decl, globals) ==> r == Lowered(Computation(decl, globals))
  {
    hide FnBuilder.Valid, IdsOf, SuccsOf, Frame, Typed, PlainName, Built, LetsOk, WellPlaced, Finished, ParamTypes,
         OnlyComputes, ReturnEmitted, CapturedExactly, ParamScope, Piece, CleanDecl, UndottedParams, ReturnsArithmetic;
    if OnlyComputes(decl, globals) { PlainComputation(decl, globals); }
    types := map[];
    StartClean(decl);
    var b := new FnBuilder(fl, TyOfNode(decl.retType), sigs, globals, ParamTypes(decl.params), CleanDecl(decl));
    ghost var g0 := b.Graph();
    TypedAtStart(b.data, decl);
    b.Push();
    LowerParams(b, decl, globals);
    ghost var g1 := b.Graph();
    PieceParams(g0, g1, {});
    NoExits();
    var err := b.LowerStmt(decl.body);
    if OnlyComputes(decl, globals) { ComputationDone(decl, globals, b.retTy, err.None?, b.At()); }
    if err.Some? { return Error(err.value), types; }
    PieceJoins(g0, g1, b.Graph(), {}, {}, {});
    err := CloseBuilt(b, g0);
    if err.Some? { return Error(err.value), types; }
    var f := Function(Name(decl.name), ParamNames(decl.params), b.blocks);
    types := b.data.types;
    TypedParams(g0.data, decl.params);
    Finishing(b, decl, f);
    Capturing(b, decl, f);
    r := Lowered(f);
  }

  lemma PlainComputation(decl: FnDecl, globals: map<string, Var>)
    requires OnlyComputes(decl, globals)
    ensures AssignedNames(decl.body) == {} && ParamScope([]) == map[] && decl.params[..0] == []
    ensures TyOfNode(decl.retType) == I32
  {
    hide ReturnsArithmetic;
    NothingAssigned([globals, ParamScope(decl.params)], decl.body);
  }

  /** No parameter of the source has a dot in its name. */
  predicate UndottedParams(decl: FnDecl) {
    forall i :: 0 <= i < |decl.params| ==> '.' !in decl.params[i].name
  }

  lemma Capturing(b: FnBuilder, decl: FnDecl, f: Function)
    requires b.Valid() && f.blocks == b.blocks && f.params == ParamNames(decl.params)
        && b.data.params == (set p | p in f.params)
    ensures UndottedParams(decl) ==> CapturedExactly(f)
  {
    hide FnBuilder.Base, TempsOk, CapturedExactly;
    if UndottedParams(decl) {
      TempsCapture(f, b.taken, b.nTmp);
    }
  }

  lemma StartClean(decl: FnDecl)
    ensures CleanDecl(decl) ==> LetsOk(decl.body) && forall p :: p in ParamTypes(decl.params) ==> PlainName(p.text)
  {
    hide PlainName, LetsOk, ParamTypes;
    ParamKeys(decl.params);
    if CleanDecl(decl) {
      forall p | p in ParamTypes(decl.params) ensures PlainName(p.text) {
        assert p in ParamNames(decl.params);
      }
    }
  }

  lemma TypedParams(d: Data, params: seq<Param>)
    requires Typed(d, params)
    ensures d.params == (set p | p in ParamNames(params))
  {}

  lemma ParamsTaken(d: Data, taken: set<Name>, decl: FnDecl)
    requires Typed(d, decl.params) && forall k :: 0 <= k < |decl.params| ==> Name(decl.params[k].name) in taken
    ensures d.params <= taken
  {
    forall p | p in d.params ensures p in taken {
      var i :| 0 <= i < |decl.params| && ParamNames(decl.params)[i] == p;
    }
  }

  lemma NoExits()
    ensures Exits([]) == {}
  {}

  lemma Finishing(b: FnBuilder, decl: FnDecl, f: Function)
    requires b.Valid() && !b.isOpen && f.blocks == b.blocks && Finished(b.Graph())
        && b.data.params == (set p | p in f.params)
    requires CleanDecl(decl) ==> b.data.clean
    ensures Built(decl, b.data.types, f)
  {
    hide CodeOk, Ok, ShapeOk, NamesOk, CleanDecl, Built, ScopesOk, AvailKnown, LoopsOk, StartsWith, Finished;
    b.HasBlocks();
    BuiltFrom(decl, b.data, b.Graph(), f, b.nAlloca, b.taken, b.nTmp);
  }

  /** What is built meets every demand of the optimiser and of the bytecode emitter. */
  lemma BuiltIsReady(decl: FnDecl, types: Typing, f: Function)
    requires Built(decl, types, f) && CleanDecl(decl) && Numeric(f)
    ensures Optimisable(types, f) && NaiveProof.Lowerable(f)
  {
    hide CleanDecl, SoundCfg, Function.GoodCfg, Reducible, UsesDefined, NaiveProof.Lowerable, TextOrdered, Once,
         Numeric, TypedFunction, ParamsFixed, NoBoolExtension, Bytecode.Emits, GraphOf, BranchesPlain;
    HasText(f);
  }

  /** Optimised, it can still be structured. */
  lemma StaysReducible(decl: FnDecl, types: Typing, f: Function, f': Function)
    requires Built(decl, types, f) && Narrowed(f, f')
    ensures f'.blocks != [] && Reducible(GraphOf(f'))
  {
    hide CleanDecl, SoundCfg, Function.GoodCfg, Reducible, UsesDefined, NaiveProof.Lowerable, TextOrdered, Once,
         Numeric, TypedFunction, ParamsFixed, NoBoolExtension, Bytecode.Emits, GraphOf, BranchesPlain, NarrowedGraph;
    NarrowedKeepsReducible(f, f');
  }

  lemma HasText(f: Function)
    requires f.GoodCfg()
    ensures f.blocks != []
  {}
}
