/** One search for copies, on any text: what it records, and when the sweep that follows reads a
    register whose definition it drops. */
module CopySweep {
  import opened Cir
  import opened Copies
  import opened Substitution
  import opened Definitions
  import opened TypedFunctions
  import opened Passes

  /** The instructions of a function in text order. */
  function Text(blocks: seq<BasicBlock>): seq<Instr> {
    if blocks == [] then [] else Text(blocks[..|blocks| - 1]) + blocks[|blocks| - 1].instrs
  }

  // ----- the search -----

  /** The aliases recorded, and the places in the text of the copies they were recorded at. */
  datatype Search = Search(of: Sub, at: map<Name, nat>)

  /** An alias leads to a register that was not replaced yet when it was recorded. */
  ghost predicate Forward(s: Search, n: nat) {
    && s.of.Keys == s.at.Keys
    && (forall t :: t in s.of ==> s.at[t] < n)
    && forall t :: t in s.of && s.of[t].Reg? && s.of[t].name in s.of ==> s.at[t] < s.at[s.of[t].name]
  }

  /** Follow the aliases to the end: each step leads to one recorded later. */
  ghost function Chase(s: Search, n: nat, x: Operand): (y: Operand)
    requires Forward(s, n)
    ensures y.Reg? ==> y.name !in s.of
    decreases if x.Reg? && x.name in s.of then n - s.at[x.name] else 0
  {
    if x.Reg? && x.name in s.of then Chase(s, n, s.of[x.name]) else x
  }

  /** A copy that may be replaced. */
  predicate IsCopy(ins: Instr, single: set<Name>) {
    ins.dest.Some? && ins.dest.value in single && CopySource(ins).Some?
  }

  /** Copies of a register to itself, on whatever way, are left alone. */
  ghost function Record(s: Search, ins: Instr, single: set<Name>, i: nat): Search
    requires Forward(s, i)
  {
    if !IsCopy(ins, single) then s
    else
      var x := Chase(s, i, CopySource(ins).value);
      if x.Reg? && x.name == ins.dest.value then s
      else Search(s.of[ins.dest.value := x], s.at[ins.dest.value := i])
  }

  ghost predicate OnceIn(text: seq<Instr>, single: set<Name>) {
    forall i, j :: 0 <= i < j < |text| && text[i].dest.Some? && text[i].dest == text[j].dest ==>
      text[i].dest.value !in single
  }

  /** `t` was recorded at a copy of the text. */
  ghost predicate Recorded(text: seq<Instr>, single: set<Name>, s: Search, t: Name) {
    t in s.of && t in s.at && s.at[t] < |text| && IsCopy(text[s.at[t]], single) && text[s.at[t]].dest == Some(t)
  }

  ghost predicate Searches(text: seq<Instr>, single: set<Name>, s: Search, n: nat) {
    Forward(s, n) && forall t :: t in s.of ==> Recorded(text, single, s, t)
  }

  /** A register defined once in the text has not been met before its definition. */
  lemma NotMet(text: seq<Instr>, single: set<Name>, s: Search, i: nat)
    requires i < |text| && OnceIn(text, single) && IsCopy(text[i], single)
    requires Searches(text, single, s, i)
    ensures text[i].dest.value !in s.of
  {
    hide CopySource;
    var d := text[i].dest.value;
    assert d in s.of ==> Recorded(text, single, s, d);
  }

  ghost function Next(text: seq<Instr>, single: set<Name>, s: Search, i: nat): (r: Search)
    requires i < |text| && OnceIn(text, single)
    requires Searches(text, single, s, i)
    ensures Searches(text, single, r, i + 1)
  {
    RecordSearches(text, single, s, i);
    Record(s, text[i], single, i)
  }

  lemma RecordSearches(text: seq<Instr>, single: set<Name>, s: Search, i: nat)
    requires i < |text| && OnceIn(text, single)
    requires Searches(text, single, s, i)
    ensures Searches(text, single, Record(s, text[i], single, i), i + 1)
  {
    hide CopySource, OnceIn;
    var ins := text[i];
    if IsCopy(ins, single) {
      NotMet(text, single, s, i);
      var r := Record(s, ins, single, i);
      forall t | t in r.of ensures Recorded(text, single, r, t) {
        assert t in s.of ==> Recorded(text, single, s, t);
      }
    }
  }

  /** The search over the first `n` instructions. */
  ghost function Searched(text: seq<Instr>, single: set<Name>, n: nat): (s: Search)
    requires n <= |text| && OnceIn(text, single)
    ensures Searches(text, single, s, n)
    decreases n
  {
    if n == 0 then Search(map[], map[]) else Next(text, single, Searched(text, single, n - 1), n - 1)
  }

  lemma NextKeeps(text: seq<Instr>, single: set<Name>, n: nat, t: Name)
    requires n < |text| && OnceIn(text, single)
    ensures var s, r := Searched(text, single, n), Searched(text, single, n + 1);
            && (t in s.of ==> t in r.of && r.of[t] == s.of[t] && r.at[t] == s.at[t])
            && (t in r.of && t !in s.of ==>
                  && r.at[t] == n && IsCopy(text[n], single) && text[n].dest == Some(t)
                  && r.of[t] == Chase(s, n, CopySource(text[n]).value))
  {
    hide CopySource, OnceIn, Forward, Recorded;
    var s := Searched(text, single, n);
    assert Searched(text, single, n + 1) == Next(text, single, s, n);
    if IsCopy(text[n], single) { NotMet(text, single, s, n); }
  }

  lemma PlacesBefore(text: seq<Instr>, single: set<Name>, n: nat, t: Name)
    requires n <= |text| && OnceIn(text, single) && t in Searched(text, single, n).of
    ensures var s := Searched(text, single, n); t in s.at && s.at[t] < n
  {
    hide OnceIn, Recorded;
  }

  /** What was recorded stays, and nothing is recorded for a place already passed. */
  lemma {:induction false} SearchGrows(text: seq<Instr>, single: set<Name>, n: nat, m: nat, t: Name)
    requires n <= m <= |text| && OnceIn(text, single)
    ensures var s, r := Searched(text, single, n), Searched(text, single, m);
            && (t in s.of ==> t in r.of && r.of[t] == s.of[t] && r.at[t] == s.at[t])
            && (t in r.of && r.at[t] < n ==> t in s.of)
    decreases m
  {
    hide OnceIn, Searched, Searches, IsCopy, Chase;
    if n < m {
      SearchGrows(text, single, n, m - 1, t);
      NextKeeps(text, single, m - 1, t);
    }
  }

  /** An alias is where the source of the copy led when it was met. */
  lemma {:induction false} AliasIs(text: seq<Instr>, single: set<Name>, n: nat, t: Name)
    requires n <= |text| && OnceIn(text, single) && t in Searched(text, single, n).of
    ensures var s := Searched(text, single, n);
            && t in s.at && s.at[t] < n && IsCopy(text[s.at[t]], single) && text[s.at[t]].dest == Some(t)
            && s.of[t] == Chase(Searched(text, single, s.at[t]), s.at[t], CopySource(text[s.at[t]]).value)
    decreases n
  {
    hide OnceIn, Searches, IsCopy, Chase, CopySource, Next;
    PlacesBefore(text, single, n, t);
    if n > 0 {
      NextKeeps(text, single, n - 1, t);
      if t in Searched(text, single, n - 1).of {
        PlacesBefore(text, single, n - 1, t);
        AliasIs(text, single, n - 1, t);
      }
    }
  }

  ghost function Found(text: seq<Instr>, single: set<Name>): Search
    requires OnceIn(text, single)
  {
    Searched(text, single, |text|)
  }

  /** The register a replaced copy copies. */
  ghost predicate CopiesFrom(text: seq<Instr>, single: set<Name>, t: Name, r: Name)
    requires OnceIn(text, single)
  {
    var s := Found(text, single);
    t in s.of && t in s.at && s.at[t] < |text| && CopySource(text[s.at[t]]).Some?
      && CopySource(text[s.at[t]]).value.Reg? && CopySource(text[s.at[t]]).value.name == r
  }

  /** A copy whose source is itself replaced comes after the copy that replaces it. */
  ghost predicate CopiesOrdered(text: seq<Instr>, single: set<Name>)
    requires OnceIn(text, single)
  {
    var s := Found(text, single);
    forall t, r :: CopiesFrom(text, single, t, r) && r in s.at ==> s.at[r] < s.at[t]
  }

  lemma {:induction false} OrderedEnds(text: seq<Instr>, single: set<Name>, t: Name, p: nat)
    requires OnceIn(text, single) && CopiesOrdered(text, single)
    requires t in Found(text, single).of && Found(text, single).at[t] == p
    ensures var s := Found(text, single); s.of[t].Reg? ==> s.of[t].name !in s.of
    decreases p
  {
    hide OnceIn, CopySource, Searched, Recorded;
    var s, before := Found(text, single), Searched(text, single, p);
    AliasIs(text, single, |text|, t);
    var x := CopySource(text[p]).value;
    if x.Reg? {
      SearchGrows(text, single, p, |text|, x.name);
      if x.name in s.of {
        assert CopiesFrom(text, single, t, x.name);
        OrderedEnds(text, single, x.name, s.at[x.name]);
        if s.of[x.name].Reg? { SearchGrows(text, single, p, |text|, s.of[x.name].name); }
      }
    }
  }

  /** The aliases found lead out of the replaced registers exactly when the copies are in order. */
  lemma SettledIffOrdered(text: seq<Instr>, single: set<Name>)
    requires OnceIn(text, single)
    ensures Settled(Found(text, single).of) <==> CopiesOrdered(text, single)
  {
    hide OnceIn, CopySource, Searched, Recorded;
    var s := Found(text, single);
    if CopiesOrdered(text, single) {
      forall t | t in s.of && s.of[t].Reg? ensures s.of[t].name !in s.of { OrderedEnds(text, single, t, s.at[t]); }
    }
    if Settled(s.of) {
      forall t, r | CopiesFrom(text, single, t, r) && r in s.at ensures s.at[r] < s.at[t] {
        if s.at[r] >= s.at[t] { LaterUnsettled(text, single, t, r); }
      }
    }
  }

  /** A copy met before the copy it copies keeps that one's register. */
  lemma LaterUnsettled(text: seq<Instr>, single: set<Name>, t: Name, r: Name)
    requires OnceIn(text, single) && CopiesFrom(text, single, t, r) && r in Found(text, single).at
    requires Found(text, single).at[r] >= Found(text, single).at[t]
    ensures Found(text, single).of[t].Reg? && Found(text, single).of[t].name == r && r in Found(text, single).of
  {
    hide OnceIn, CopySource, Searched, Recorded;
    var s := Found(text, single);
    AliasIs(text, single, |text|, t);
    SearchGrows(text, single, s.at[t], |text|, r);
  }

  // ----- the sweep -----

  /** Some instruction reads a register of `s`. */
  ghost predicate ReadsOneOf(f: Function, s: Sub) {
    exists b, ins, k :: b in f.blocks && ins in b.instrs && Reads(ins, k, s)
  }

  predicate Reads(ins: Instr, k: int, s: Sub) {
    0 <= k < |ins.args| && ins.args[k].Reg? && ins.args[k].name in s
  }

  /** An alias that is itself replaced. */
  predicate Loose(s: Sub, t: Name) {
    t in s && s[t].Reg? && s[t].name in s
  }

  ghost predicate KeptReads(f: Function, s: Sub, t: Name) {
    exists b, ins, k :: b in f.blocks && ins in b.instrs && !Dropped(s, ins) && ReadsName(ins, k, t)
  }

  predicate ReadsName(ins: Instr, k: int, t: Name) {
    0 <= k < |ins.args| && ins.args[k].Reg? && ins.args[k].name == t
  }

  lemma {:induction false} RewriteHolds(s: Sub, instrs: seq<Instr>, ins: Instr)
    requires ins in instrs && !Dropped(s, ins)
    ensures SubstInstr(s, ins) in Rewrite(s, false, instrs)
  {
    hide SubstInstr;
    if instrs[0] != ins { RewriteHolds(s, instrs[1..], ins); }
  }

  /** After one sweep a dropped register is read exactly where an instruction that stays read a
      register whose alias is itself replaced. */
  lemma SweepReadsIff(f: Function, s: Sub)
    ensures ReadsOneOf(RewriteFunction(s, false, f), s) <==> exists t :: Loose(s, t) && KeptReads(f, s, t)
  {
    hide Rewrite;
    var f' := RewriteFunction(s, false, f);
    if ReadsOneOf(f', s) {
      var b', ins', k: int :| b' in f'.blocks && ins' in b'.instrs && Reads(ins', k, s);
      var n :| 0 <= n < |f'.blocks| && f'.blocks[n] == b';
      RewriteMembers(s, false, f.blocks[n].instrs, ins');
      var ins :| ins in f.blocks[n].instrs && !Dropped(s, ins) && ins' == RewriteInstr(s, false, ins);
      assert ReadsName(ins, k, ins.args[k].name);
      assert Loose(s, ins.args[k].name) && KeptReads(f, s, ins.args[k].name);
    }
    if t :| Loose(s, t) && KeptReads(f, s, t) {
      var b, ins, k: int :| b in f.blocks && ins in b.instrs && !Dropped(s, ins) && ReadsName(ins, k, t);
      var n :| 0 <= n < |f.blocks| && f.blocks[n] == b;
      RewriteHolds(s, b.instrs, ins);
      assert f'.blocks[n] in f'.blocks && Reads(SubstInstr(s, ins), k, s);
    }
  }

  // ----- a function and its text -----

  lemma {:induction false} CountJoin(a: seq<Instr>, b: seq<Instr>, r: Name)
    ensures CountIn(a + b, r) == CountIn(a, r) + CountIn(b, r)
  {
    if b == [] {
      assert a + b == a;
    } else {
      assert (a + b)[..|a + b| - 1] == a + b[..|b| - 1];
      CountJoin(a, b[..|b| - 1], r);
    }
  }

  lemma {:induction false} CountText(blocks: seq<BasicBlock>, r: Name)
    ensures CountIn(Text(blocks), r) == CountDefs(blocks, r)
  {
    hide CountIn;
    if blocks == [] {
      CountNone(r);
    } else {
      CountText(blocks[..|blocks| - 1], r);
      CountJoin(Text(blocks[..|blocks| - 1]), blocks[|blocks| - 1].instrs, r);
    }
  }

  lemma CountNone(r: Name)
    ensures CountIn([], r) == 0
  {}

  lemma OnceText(f: Function, single: set<Name>)
    requires AtMostOnce(f, single)
    ensures OnceIn(Text(f.blocks), single)
  {
    hide CountIn, CountDefs, Text;
    var text := Text(f.blocks);
    forall i, j | 0 <= i < j < |text| && text[i].dest.Some? && text[i].dest == text[j].dest
      ensures text[i].dest.value !in single {
      CountedIn(text, text[i].dest.value, i);
      CountText(f.blocks, text[i].dest.value);
    }
  }

  /** What one search of a function finds. */
  ghost function AliasesOf(f: Function, single: set<Name>): Sub
    requires AtMostOnce(f, single)
  {
    OnceText(f, single);
    Found(Text(f.blocks), single).of
  }

  ghost predicate TextCopiesOrdered(f: Function, single: set<Name>)
    requires AtMostOnce(f, single)
  {
    OnceText(f, single);
    CopiesOrdered(Text(f.blocks), single)
  }

  /** In order, one sweep leaves no read of what it drops; out of order, it leaves one unless no
      instruction that stays reads a copy met too early. */
  lemma SweepLosesIff(f: Function, single: set<Name>)
    requires AtMostOnce(f, single)
    ensures var s := AliasesOf(f, single);
            && (TextCopiesOrdered(f, single) <==> forall t :: !Loose(s, t))
            && (TextCopiesOrdered(f, single) ==> !ReadsOneOf(RewriteFunction(s, false, f), s))
            && ((forall t :: Loose(s, t) ==> KeptReads(f, s, t)) ==>
                  (ReadsOneOf(RewriteFunction(s, false, f), s) <==> !TextCopiesOrdered(f, single)))
  {
    hide RewriteFunction, KeptReads, CopiesOrdered, Searched, Text, ReadsOneOf, AtMostOnce, OnceIn;
    OnceText(f, single);
    var s := AliasesOf(f, single);
    SettledIffOrdered(Text(f.blocks), single);
    SweepReadsIff(f, s);
    forall t ensures Settled(s) ==> !Loose(s, t) {}
    forall t | (forall u :: !Loose(s, u)) && t in s && s[t].Reg? ensures s[t].name !in s { assert !Loose(s, t); }
  }

  lemma SettledSweep(f: Function, single: set<Name>)
    requires AtMostOnce(f, single) && Settled(AliasesOf(f, single))
    ensures TextCopiesOrdered(f, single)
    ensures var s := AliasesOf(f, single); !ReadsOneOf(RewriteFunction(s, false, f), s)
  {
    hide RewriteFunction, KeptReads, TextCopiesOrdered, ReadsOneOf, AtMostOnce, AliasesOf;
    SweepLosesIff(f, single);
  }

  // ----- block by block -----

  lemma {:induction false} TextParts(blocks: seq<BasicBlock>, n: nat)
    requires n < |blocks|
    ensures |Text(blocks[..n + 1])| == |Text(blocks[..n])| + |blocks[n].instrs| <= |Text(blocks)|
    ensures forall i :: 0 <= i < |blocks[n].instrs| ==> Text(blocks)[|Text(blocks[..n])| + i] == blocks[n].instrs[i]
    decreases |blocks|
  {
    assert blocks[..n + 1][..n] == blocks[..n];
    var m := |blocks| - 1;
    if n < m {
      assert blocks[..m][..n] == blocks[..n] && blocks[..m][..n + 1] == blocks[..n + 1];
      TextParts(blocks[..m], n);
    } else {
      assert blocks[..n + 1] == blocks;
    }
  }

  /** The aliases after the blocks before `n` and `i` instructions of block `n`. */
  ghost function AliasesAt(f: Function, single: set<Name>, n: nat, i: nat): Sub
    requires AtMostOnce(f, single) && n < |f.blocks| && i <= |f.blocks[n].instrs|
  {
    OnceText(f, single);
    TextParts(f.blocks, n);
    Searched(Text(f.blocks), single, |Text(f.blocks[..n])| + i).of
  }

  /** One more instruction, when no alias is replaced itself. */
  function Aliasing(s: Sub, ins: Instr, single: set<Name>): Sub {
    if !IsCopy(ins, single) then s
    else
      var x := SubstOperand(s, CopySource(ins).value);
      if x.Reg? && x.name == ins.dest.value then s else s[ins.dest.value := x]
  }

  lemma AliasesStart(f: Function, single: set<Name>)
    requires AtMostOnce(f, single) && f.blocks != []
    ensures AliasesAt(f, single, 0, 0) == map[]
  {
    hide OnceIn, AtMostOnce;
    OnceText(f, single);
    assert f.blocks[..0] == [];
  }

  lemma SettledStep(text: seq<Instr>, single: set<Name>, s: Search, i: nat)
    requires i < |text| && OnceIn(text, single) && (IsCopy(text[i], single) ==> Settled(s.of))
    requires Searches(text, single, s, i)
    ensures Next(text, single, s, i).of == Aliasing(s.of, text[i], single)
  {
    hide CopySource, OnceIn, Recorded, Forward;
    if IsCopy(text[i], single) {
      var x := CopySource(text[i]).value;
      assert Chase(s, i, x) == SubstOperand(s.of, x);
    }
  }

  lemma AliasesNext(f: Function, single: set<Name>, n: nat, i: nat)
    requires AtMostOnce(f, single) && n < |f.blocks| && i < |f.blocks[n].instrs|
    requires IsCopy(f.blocks[n].instrs[i], single) ==> Settled(AliasesAt(f, single, n, i))
    ensures AliasesAt(f, single, n, i + 1) == Aliasing(AliasesAt(f, single, n, i), f.blocks[n].instrs[i], single)
  {
    hide Text, CopySource, OnceIn, AtMostOnce, Recorded, Forward;
    OnceText(f, single);
    TextParts(f.blocks, n);
    var text, k := Text(f.blocks), |Text(f.blocks[..n])| + i;
    SettledStep(text, single, Searched(text, single, k), k);
    assert Searched(text, single, k + 1) == Next(text, single, Searched(text, single, k), k);
  }

  lemma AliasesOn(f: Function, single: set<Name>, n: nat)
    requires AtMostOnce(f, single) && n < |f.blocks|
    ensures n + 1 < |f.blocks| ==>
        AliasesAt(f, single, n, |f.blocks[n].instrs|) == AliasesAt(f, single, n + 1, 0)
    ensures n + 1 == |f.blocks| ==> AliasesAt(f, single, n, |f.blocks[n].instrs|) == AliasesOf(f, single)
  {
    hide Text, OnceIn, Searched, AtMostOnce;
    OnceText(f, single);
    TextParts(f.blocks, n);
    if n + 1 == |f.blocks| { assert f.blocks[..n + 1] == f.blocks; }
  }
}
