/** Running structured code, and running the graph it came from. */
module StructuredRun {
  import opened Cir
  import opened Structurer

  /** How the condition of a conditional branch comes out after a given number
      of blocks has run.  Quantifying over it covers every execution. */
  type Oracle = (nat, Operand) -> bool

  // ----- the graph -----

  datatype FlowState =
    | At(next: Label, trace: seq<BasicBlock>)
    | Finished(ret: Instr, trace: seq<BasicBlock>)
    | Lost(trace: seq<BasicBlock>)

  /** Run one whole block and follow its terminator. */
  function FlowStep(blocks: map<Label, BasicBlock>, oracle: Oracle, s: FlowState): FlowState {
    if !s.At? then s
    else if s.next !in blocks || blocks[s.next].Terminator().None? then Lost(s.trace)
    else
      var b := blocks[s.next];
      var t := b.Terminator().value;
      var trace := s.trace + [b];
      match t.op
      case Br(l) => At(l, trace)
      case BrCond(l, m) => if t.args == [] then Lost(trace) else At(if oracle(|trace|, t.args[0]) then l else m, trace)
      case _ => Finished(t, trace)
  }

  function FlowRun(blocks: map<Label, BasicBlock>, oracle: Oracle, s: FlowState, k: nat): FlowState
    decreases k
  {
    if k == 0 then s else FlowRun(blocks, oracle, FlowStep(blocks, oracle, s), k - 1)
  }

  lemma {:induction false} FlowStays(blocks: map<Label, BasicBlock>, oracle: Oracle, s: FlowState, k: nat)
    requires !s.At?
    ensures FlowRun(blocks, oracle, s, k) == s
    decreases k
  {
    if k > 0 {
      FlowStays(blocks, oracle, s, k - 1);
    }
  }

  // ----- structured code, as WebAssembly 1.0 section 4.4.5 reads it -----

  /** An enclosing construct and what follows it. */
  datatype Frame =
    | BlockFrame(name: Label, rest: seq<Node>)
    | LoopFrame(name: Label, body: seq<Node>, rest: seq<Node>)
    | IfFrame(rest: seq<Node>)

  datatype RunState =
    | Running(code: seq<Node>, stack: seq<Frame>, trace: seq<BasicBlock>)
    | Returned(ret: Instr, trace: seq<BasicBlock>)
    | Trapped(trace: seq<BasicBlock>)

  predicate Targets(f: Frame, dest: Label, kind: BranchKind) {
    match f
    case BlockFrame(name, _) => kind == ToBlock && name == dest
    case LoopFrame(name, _, _) => kind == ToLoop && name == dest
    case IfFrame(_) => false
  }

  /** The stack cut down to the innermost frame the branch names. */
  function Unwind(stack: seq<Frame>, dest: Label, kind: BranchKind): (r: seq<Frame>)
    ensures |r| <= |stack|
    ensures r != [] ==> Targets(r[0], dest, kind)
  {
    if stack == [] then []
    else if Targets(stack[0], dest, kind) then stack
    else Unwind(stack[1..], dest, kind)
  }

  /** A branch to a block leaves it; a branch to a loop starts its body again. */
  function TakeBranch(stack: seq<Frame>, dest: Label, kind: BranchKind, trace: seq<BasicBlock>): RunState {
    var s := Unwind(stack, dest, kind);
    if s == [] then Trapped(trace)
    else match s[0]
      case BlockFrame(_, rest) => Running(rest, s[1..], trace)
      case LoopFrame(_, body, _) => Running(body, s, trace)
      case IfFrame(_) => Trapped(trace)
  }

  function RunStep(oracle: Oracle, s: RunState): RunState {
    if !s.Running? then s
    else if s.code == [] then
      if s.stack == [] then Trapped(s.trace)       // the trailing `unreachable`
      else Running(s.stack[0].rest, s.stack[1..], s.trace)
    else
      var rest := s.code[1..];
      match s.code[0]
      case Block(name, body) => Running(body, [BlockFrame(name, rest)] + s.stack, s.trace)
      case Loop(name, body) => Running(body, [LoopFrame(name, body, rest)] + s.stack, s.trace)
      case Code(b) => Running(rest, s.stack, s.trace + [b])
      case If(c, thenNodes, elseNodes) =>
        Running(if oracle(|s.trace|, c) then thenNodes else elseNodes, [IfFrame(rest)] + s.stack, s.trace)
      case Branch(dest, kind) => TakeBranch(s.stack, dest, kind, s.trace)
      case Return(i) => Returned(i, s.trace)
  }

  function Run(oracle: Oracle, s: RunState, k: nat): RunState
    decreases k
  {
    if k == 0 then s else Run(oracle, RunStep(oracle, s), k - 1)
  }

  lemma {:induction false} RunJoin(oracle: Oracle, s: RunState, j: nat, k: nat)
    ensures Run(oracle, s, j + k) == Run(oracle, Run(oracle, s, j), k)
    decreases j
  {
    if j > 0 {
      RunJoin(oracle, RunStep(oracle, s), j - 1, k);
    }
  }

  lemma {:induction false} RunStays(oracle: Oracle, s: RunState, k: nat)
    requires !s.Running?
    ensures Run(oracle, s, k) == s
    decreases k
  {
    if k > 0 {
      RunStays(oracle, s, k - 1);
    }
  }

  /** The trace only grows. */
  lemma {:induction false} RunTrace(oracle: Oracle, s: RunState, k: nat)
    ensures s.trace <= Run(oracle, s, k).trace
    decreases k
  {
    if k > 0 {
      RunTrace(oracle, RunStep(oracle, s), k - 1);
    }
  }
}
