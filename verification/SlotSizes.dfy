/** Where the bytecode makes a slot of another size: it writes the count of an alloca as it stands,
    the interpreter reduces it to its type. */
module SlotSizes {
  import opened Cir
  import opened Arith
  import opened Interp
  import opened Fold
  import opened StackVm
  import opened Bytecode
  import opened LowerSteps

  const P := Name("p")
  const Q := Name("q")

  function SlotOf(v: int, isFloat: bool): Instr {
    Instr(Alloca, if isFloat then F64 else I32, Some(P), [ConstInt(v, I32)])
  }

  /** The slot the interpreter makes. */
  lemma InterpSlot(env: Env, v: int, isFloat: bool, regs: Regs, owned: set<nat>, m: Mem)
    ensures Step(env, SlotOf(v, isFloat), regs, owned, m) ==
        Next(regs[P := VPtr(m.next, 0)], owned + {m.next},
             WithCells(m, ZeroCells(ConstVal(v, I32).i, isFloat)))
  {
    hide Wrap, ZeroCells;
  }

  /** Both make the same slot exactly when reducing the count keeps the number of elements. */
  lemma SlotAgreesIff(fl: Floats, v: int, isFloat: bool, regs: Regs, owned: set<nat>, m: Mem)
    requires CleanMem(m)
    ensures var env := Env(fl, map[], false, false);
            StackStep(fl, AllocaOp(v), [], regs, owned, Erase(m))
              == VNext([VPtr(m.next, 0)], regs, owned + {m.next},
                  Erase(Step(env, SlotOf(v, isFloat), regs, owned, m).m))
            <==> CountKept(v, I32)
  {
    hide Step, StackStep, Erase, Wrap;
    var env := Env(fl, map[], false, false);
    InterpSlot(env, v, isFloat, regs, owned, m);
    AllocaStep(fl, v, isFloat, regs, owned, m);
    var a, b := ZeroCells(ConstVal(v, I32).i, isFloat), ZeroCells(v, isFloat);
    SameElements(ConstVal(v, I32).i, v, isFloat);
    SizesErased(m, a, b);
  }

  function WithCells(m: Mem, cells: seq<Cell>): Mem {
    m.(slots := m.slots[m.next := cells], next := m.next + 1)
  }

  lemma SizesErased(m: Mem, a: seq<Cell>, b: seq<Cell>)
    ensures Erase(WithCells(m, a)) == Erase(WithCells(m, b)) ==> |a| == |b|
  {
    assert |Erase(WithCells(m, a)).slots[m.next]| == |a| && |Erase(WithCells(m, b)).slots[m.next]| == |b|;
  }

  const HUGE := 2147483648

  lemma HugeWraps()
    ensures Wrap(HUGE, I32) == -HUGE
  {
    hide Pow2;
    PowSum(16, 15);
    PowSum(16, 16);
    Powers();
  }

  lemma Powers()
    ensures Pow2(15) == 32768 && Pow2(16) == 65536
  {
    PowSum(8, 8);
    PowSum(8, 7);
    assert Pow2(7) == 128 && Pow2(8) == 256;
  }

  /** An index into the slot. */
  const FIRST := Instr(Gep, I32, Some(Q), [Reg(P, Ptr), ConstInt(0, I32)])

  lemma InterpIndexes(env: Env, regs: Regs, owned: set<nat>, m: Mem, s: nat)
    requires P in regs && regs[P] == VPtr(s, 0) && s in m.slots && m.slots[s] == []
    ensures Step(env, FIRST, regs, owned, m).StepTraps?
  {
    hide EvalPure;
    TwoValues(regs, FIRST.args);
    assert FIRST.args[..2] == FIRST.args && ConstVal(0, I32).i == 0;
  }

  lemma MachineIndexes(fl: Floats, local: Regs, owned: set<nat>, m: Mem, s: nat)
    requires s in m.slots && m.slots[s] != []
    ensures StackStep(fl, GepOp, [VPtr(s, 0), VInt(0)], local, owned, m) == VNext([VPtr(s, 0)], local, owned, m)
  {
    hide EvalBin, EvalNeg, EvalNot, EvalIcmp, EvalFcmp, EvalConv, AsFloat, ValidPtr, StoreTo;
    assert Pop([VPtr(s, 0), VInt(0)], 2) == [] && [] + [VPtr(s, 0)] == [VPtr(s, 0)];
  }

  /** `int a[2147483648]`: indexing the first element traps in the interpreter and not in the bytecode. */
  lemma HugeArray(env: Env, regs: Regs, owned: set<nat>, m: Mem)
    requires CleanMem(m)
    ensures !CountKept(HUGE, I32)
    ensures var s := Step(env, SlotOf(HUGE, false), regs, owned, m);
            s.Next? && Step(env, FIRST, s.regs, s.owned, s.m).StepTraps?
    ensures var s := StackStep(env.fl, AllocaOp(HUGE), [], regs, owned, Erase(m));
            s.VNext? && StackStep(env.fl, GepOp, s.st + [VInt(0)], s.local, s.owned, s.m)
                          == VNext(s.st, s.local, s.owned, s.m)
  {
    hide Step, StackStep, Erase, Wrap;
    HugeWraps();
    InterpSlot(env, HUGE, false, regs, owned, m);
    InterpIndexes(env, regs[P := VPtr(m.next, 0)], owned + {m.next}, WithCells(m, []), m.next);
    AllocaStep(env.fl, HUGE, false, regs, owned, m);
    HugeCells(m);
    assert [VPtr(m.next, 0)] + [VInt(0)] == [VPtr(m.next, 0), VInt(0)];
    MachineIndexes(env.fl, regs, owned + {m.next}, Erase(WithCells(m, ZeroCells(HUGE, false))), m.next);
  }

  lemma HugeCells(m: Mem)
    ensures ZeroCells(-HUGE, false) == []
    ensures var s := Erase(WithCells(m, ZeroCells(HUGE, false))).slots; m.next in s && s[m.next] != []
  {
    assert |Erase(WithCells(m, ZeroCells(HUGE, false))).slots[m.next]| == HUGE;
  }
}
