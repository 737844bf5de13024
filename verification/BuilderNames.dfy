/** Register names: temporaries, slots named after the source, and variables in scope. */
module BuilderNames {
  import opened Cir
  import opened Arith
  import opened Fold
  import opened Definitions
  import opened MiniLang
  import opened Labels
  import opened BuilderData
  import opened BuilderBlocks

  function TempName(n: nat): Name {
    Name("t" + Digits(n))
  }

  ghost predicate TempLike(s: string) {
    exists n: nat :: Name(s) == TempName(n)
  }

  /** An identifier of the source that no temporary can have. */
  ghost predicate PlainName(s: string) {
    '.' !in s && !TempLike(s)
  }

  lemma DottedIsNoTemp(s: string)
    requires '.' in s
    ensures !TempLike(s)
  {
    forall n: nat ensures Name(s) != TempName(n) {
      assert '.' !in "t" && '.' !in Digits(n);
      assert '.' !in TempName(n).text;
    }
  }

  lemma TempsDiffer(m: nat, n: nat)
    requires TempName(m) == TempName(n)
    ensures m == n
  {
    var s, t := "t" + Digits(m), "t" + Digits(n);
    assert s[1..] == Digits(m) && t[1..] == Digits(n);
    DigitsDiffer(m, n);
  }

  /** The declarations below `s` have plain names and array lengths that fit. */
  ghost predicate LetsOk(s: Stmt) {
    match s
    case Let(name, t, _) => PlainName(name) && (t.arrayLen.Some? ==> CountKept(t.arrayLen.value, I32))
    case Block(stmts) => forall k :: 0 <= k < |stmts| ==> LetsOk(stmts[k])
    case If(_, t, e) => LetsOk(t) && (e.Some? ==> LetsOk(e.value))
    case While(_, body) => LetsOk(body)
    case For(first, _, step, body) =>
      (first.Some? ==> LetsOk(first.value)) && (step.Some? ==> LetsOk(step.value)) && LetsOk(body)
    case _ => true
  }

  /** The names tried for something the source calls `base`. */
  function Derived(base: string, n: nat): Name {
    if n == 0 then Name(base) else Name(base + "." + Digits(n))
  }

  lemma DerivedDiffer(base: string, m: nat, n: nat)
    requires Derived(base, m) == Derived(base, n)
    ensures m == n
  {
    assert m > 0 ==> |Derived(base, m).text| > |base|;
    assert n > 0 ==> |Derived(base, n).text| > |base|;
    if m > 0 && n > 0 {
      SplitAtDot(base, Digits(m), base, Digits(n));
      DigitsDiffer(m, n);
    }
  }

  lemma DerivedIsDotted(base: string, n: nat)
    requires n > 0 || '.' in base
    ensures '.' in Derived(base, n).text
  {
    if n > 0 { assert Derived(base, n).text[|base|] == '.'; }
  }

  /** A slot may be named after this: the name is dotted, or the parameters' names are taken. */
  ghost predicate SlotBase(d: Data, taken: set<Name>, base: string) {
    '.' in base || (d.params <= taken && (d.clean ==> PlainName(base)))
  }

  /** What is derived from a slot's base collides with nothing. */
  lemma DerivedUnused(d: Data, blocks: seq<BasicBlock>, taken: set<Name>, nTmp: nat, base: string, n: nat)
    requires SlotBase(d, taken, base) && Derived(base, n) !in taken
    requires NamesOk(d, blocks, taken, nTmp)
    ensures Unused(d, taken, Derived(base, n)) && (d.clean ==> !TempLike(Derived(base, n).text))
  {
    hide CountDefs, Derived;
    if d.clean {
      var r := Derived(base, n);
      if n > 0 || '.' in base {
        DerivedIsDotted(base, n);
        DottedIsNoTemp(r.text);
        forall p | p in d.params ensures p != r { assert PlainName(p.text); }
      } else {
        DerivedIsBase(base);
      }
    }
  }

  lemma DerivedIsBase(base: string)
    ensures Derived(base, 0) == Name(base)
  {}

  // ----- definitions counted -----

  lemma CountEmitted(blocks: seq<BasicBlock>, ins: Instr, r: Name)
    requires blocks != []
    ensures CountDefs(WithInstr(blocks, ins), r) == CountDefs(blocks, r) + (if ins.dest == Some(r) then 1 else 0)
  {
    var n := |blocks| - 1;
    var b := WithInstr(blocks, ins);
    assert b[..n] == blocks[..n];
    assert b[n].instrs[..|b[n].instrs| - 1] == blocks[n].instrs;
  }

  lemma CountOpened(blocks: seq<BasicBlock>, l: Label, r: Name)
    ensures CountDefs(blocks + [BasicBlock(l, [])], r) == CountDefs(blocks, r)
  {
    var b := blocks + [BasicBlock(l, [])];
    assert b[..|b| - 1] == blocks;
  }

  lemma {:induction false} CountInserted(s: seq<Instr>, n: nat, ins: Instr, r: Name)
    requires n <= |s|
    ensures CountIn(s[..n] + [ins] + s[n..], r) == CountIn(s, r) + (if ins.dest == Some(r) then 1 else 0)
  {
    var t := s[..n] + [ins] + s[n..];
    if n == |s| {
      assert t[..|t| - 1] == s;
    } else {
      var m := |s| - 1;
      assert s[..m][..n] == s[..n] && s[..m][n..] == s[n..m];
      assert t[..|t| - 1] == s[..m][..n] + [ins] + s[..m][n..];
      CountInserted(s[..m], n, ins, r);
    }
  }

  lemma {:induction false} CountSlot(blocks: seq<BasicBlock>, n: nat, ins: Instr, r: Name)
    requires blocks != [] && n <= |blocks[0].instrs|
    ensures CountDefs(WithSlot(blocks, n, ins), r) == CountDefs(blocks, r) + (if ins.dest == Some(r) then 1 else 0)
    decreases |blocks|
  {
    var w, last := WithSlot(blocks, n, ins), |blocks| - 1;
    if last == 0 {
      assert w[..0] == blocks[..0] == [];
      CountInserted(blocks[0].instrs, n, ins, r);
    } else {
      assert w[..last] == WithSlot(blocks[..last], n, ins);
      CountSlot(blocks[..last], n, ins, r);
    }
  }

  // ----- names in use -----

  /** Under clean names, every register has one definition, no parameter has any, and the
      next temporaries are unused. */
  ghost predicate NamesOk(d: Data, blocks: seq<BasicBlock>, taken: set<Name>, nTmp: nat) {
    d.clean ==>
      && (forall r :: CountDefs(blocks, r) <= 1)
      && (forall r :: CountDefs(blocks, r) == 1 ==> r in taken && r !in d.params)
      && (forall r :: r in d.types ==> r in taken || r in d.params)
      && (forall p :: p in d.params ==> PlainName(p.text))
      && (forall n: nat :: n >= nTmp ==> TempName(n) !in taken)
  }

  /** A name nothing has. */
  ghost predicate Unused(d: Data, taken: set<Name>, r: Name) {
    d.clean ==> r !in taken && r !in d.params
  }

  ghost function WithType(d: Data, r: Name, ty: Ty): Data {
    d.(types := d.types[r := ty])
  }

  lemma TempUnused(d: Data, blocks: seq<BasicBlock>, taken: set<Name>, nTmp: nat)
    requires NamesOk(d, blocks, taken, nTmp)
    ensures Unused(d, taken, TempName(nTmp))
    ensures forall ty :: NamesOk(WithType(d, TempName(nTmp), ty), blocks, taken + {TempName(nTmp)}, nTmp + 1)
  {
    hide CountDefs, TempName, PlainName;
    var r := TempName(nTmp);
    if d.clean {
      forall p | p in d.params ensures p != r { if p == r { TempIsNotPlain(nTmp); } }
      forall n: nat | n >= nTmp + 1 ensures TempName(n) !in taken + {r} {
          if TempName(n) == r { TempsDiffer(n, nTmp); } }
    }
  }

  lemma TempIsNotPlain(n: nat)
    ensures TempLike(TempName(n).text) && !PlainName(TempName(n).text)
  {
    assert Name(TempName(n).text) == TempName(n);
  }

  lemma TypeAdded(d: Data, taken: set<Name>, blocks: seq<BasicBlock>, nTmp: nat, r: Name, ty: Ty)
    requires Unused(d, taken, r) && NamesOk(d, blocks, taken, nTmp)
    ensures Extends(d, WithType(d, r, ty)) && TypedReg(WithType(d, r, ty), r, ty)
  {
    hide CountDefs, TempName;
  }

  /** A name made from the source is no temporary's. */
  lemma NameTaken(d: Data, blocks: seq<BasicBlock>, taken: set<Name>, nTmp: nat, r: Name, ty: Ty)
    requires d.clean ==> !TempLike(r.text)
    requires NamesOk(d, blocks, taken, nTmp)
    ensures NamesOk(WithType(d, r, ty), blocks, taken + {r}, nTmp)
  {
    hide CountDefs, TempName, PlainName;
    if d.clean {
      forall n: nat | n >= nTmp ensures TempName(n) !in taken + {r} { TempIsNotPlain(n); }
    }
  }

  lemma NamesEmit(d: Data, d': Data, blocks: seq<BasicBlock>, taken: set<Name>, taken': set<Name>, nTmp: nat,
                  ins: Instr)
    requires blocks != [] && d'.params == d.params && d'.clean == d.clean && d'.types == d.types
    requires d.clean && ins.dest.Some? ==>
        CountDefs(blocks, ins.dest.value) == 0 && ins.dest.value in taken && ins.dest.value !in d.params
    requires NamesOk(d, blocks, taken, nTmp)
    ensures NamesOk(d', WithInstr(blocks, ins), taken, nTmp)
  {
    hide CountDefs, TempName, PlainName, WithInstr;
    forall r ensures CountDefs(WithInstr(blocks, ins), r) == CountDefs(blocks, r) +
        (if ins.dest == Some(r) then 1 else 0) {
      CountEmitted(blocks, ins, r);
    }
  }

  lemma NamesSlot(d: Data, d': Data, blocks: seq<BasicBlock>, taken: set<Name>, nTmp: nat, n: nat, ins: Instr)
    requires blocks != [] && n <= |blocks[0].instrs| && d'.params == d.params && d'.clean == d.clean
        && d'.types == d.types
    requires d.clean && ins.dest.Some? ==>
        CountDefs(blocks, ins.dest.value) == 0 && ins.dest.value in taken && ins.dest.value !in d.params
    requires NamesOk(d, blocks, taken, nTmp)
    ensures NamesOk(d', WithSlot(blocks, n, ins), taken, nTmp)
  {
    hide CountDefs, TempName, PlainName, WithSlot;
    forall r ensures CountDefs(WithSlot(blocks, n, ins), r) == CountDefs(blocks, r) +
        (if ins.dest == Some(r) then 1 else 0) {
      CountSlot(blocks, n, ins, r);
    }
  }

  lemma NamesOpen(d: Data, d': Data, blocks: seq<BasicBlock>, taken: set<Name>, nTmp: nat, l: Label)
    requires d'.params == d.params && d'.clean == d.clean && d'.types == d.types
    requires NamesOk(d, blocks, taken, nTmp)
    ensures NamesOk(d', blocks + [BasicBlock(l, [])], taken, nTmp)
  {
    hide CountDefs, TempName, PlainName;
    forall r ensures CountDefs(blocks + [BasicBlock(l, [])], r) == CountDefs(blocks, r) { CountOpened(blocks, l, r); }
  }

  /** A name nothing has counts no definitions. */
  lemma UnusedCounts(d: Data, blocks: seq<BasicBlock>, taken: set<Name>, nTmp: nat, r: Name)
    requires Unused(d, taken, r) && NamesOk(d, blocks, taken, nTmp)
    ensures d.clean ==> CountDefs(blocks, r) == 0
  {
    hide CountDefs, TempName, PlainName;
    assert d.clean ==> CountDefs(blocks, r) <= 1;
  }

  // ----- variables in scope -----

  datatype Var =
    | InRegister(ty: Ty, reg: Name)
    | InMemory(ty: Ty, addr: Operand, arrayLen: Option<int>)

  type Scopes = seq<map<string, Var>>

  function Lookup(scopes: Scopes, name: string): (v: Option<Var>)
    ensures v.Some? ==> exists i :: 0 <= i < |scopes| && name in scopes[i] && scopes[i][name] == v.value
  {
    if scopes == [] then None
    else if name in scopes[|scopes| - 1] then Some(scopes[|scopes| - 1][name])
    else Lookup(scopes[..|scopes| - 1], name)
  }

  ghost predicate VarOk(d: Data, v: Var) {
    match v
    case InRegister(ty, reg) => reg in d.params && TypedReg(d, reg, ty)
    case InMemory(_, addr, len) =>
      || (addr.GlobalRef? && len.None?)
      || (addr.Reg? && addr.name in d.slots && addr.ty.Ptr? && TypedReg(d, addr.name, Ptr))
  }

  ghost predicate ScopesOk(d: Data, scopes: Scopes) {
    forall i, name :: 0 <= i < |scopes| && name in scopes[i] ==> VarOk(d, scopes[i][name])
  }

  lemma ScopesStay(d: Data, d': Data, scopes: Scopes)
    requires Extends(d, d') && ScopesOk(d, scopes)
    ensures ScopesOk(d', scopes)
  {
    hide VarOk, Extends;
    forall i, name | 0 <= i < |scopes| && name in scopes[i]
      ensures VarOk(d', scopes[i][name]) { VarStays(d, d', scopes[i][name]); }
  }

  lemma VarStays(d: Data, d': Data, v: Var)
    requires Extends(d, d') && VarOk(d, v)
    ensures VarOk(d', v)
  {}

  lemma FoundOk(d: Data, scopes: Scopes, name: string)
    requires ScopesOk(d, scopes) && Lookup(scopes, name).Some?
    ensures VarOk(d, Lookup(scopes, name).value)
  {
    hide VarOk, Lookup;
  }

  function Declared(scopes: Scopes, name: string, v: Var): Scopes
    requires scopes != []
  {
    var n := |scopes| - 1;
    scopes[n := scopes[n][name := v]]
  }

  lemma DeclaredOk(d: Data, scopes: Scopes, name: string, v: Var)
    requires scopes != [] && ScopesOk(d, scopes) && VarOk(d, v)
    ensures ScopesOk(d, Declared(scopes, name, v))
  {
    hide VarOk;
  }
}
