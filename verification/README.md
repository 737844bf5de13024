# A verified model of the CIR compiler

The repository is a compiler around one intermediate representation, CIR: three-address code over
basic blocks, not in single-assignment form. MiniLang is lowered to CIR by a stateful builder,
checked by a graph and a definedness check, optimised by three passes, and translated either to
structured WebAssembly regions or to bytecode for a stack machine. A reference interpreter fixes
what CIR means.

The Dafny files model those stages with the branches, constants and error conditions of the Python
code and prove what each stage promises, for every program and every run. Runs are functions with
fuel, so endless programs are covered by what they do on any amount of it. The stages are:

- `Graphs`, `ReversePostorder`, `DomTree`, `Dominators`, `Reducibility`, `Structurer*`,
  `StructuredRun`, `Structuring`, `Dispatch`: depth-first order, immediate dominators, reducibility,
  and the translation of a control-flow graph to nested block/loop/if regions or to the dispatch loop
  (branches mean what section 4.4.5 of the WebAssembly Core Specification 1.0 says).
- `Arith`, `Interp`, `Interpreter`, `Checks`: the meaning of CIR, as functions and as the
  interpreter's own loop over mutable state.
- `Bytecode`, `StackVm`, `BytecodeMachine`, `Layout`, `LowerSteps`, `Naive*`, `Peephole*`,
  `StackHeights`, `BytecodeProof`, `FloatSlots`, `StoreCheck`, `StoredSlot`, `EndToEnd`, `ZeroFill`, `SlotSizes`:
  lowering to bytecode, the peephole, the machine, and the equivalence of machine and interpreter;
  `AddressPatching`: the two-pass layout with absolute addresses of the C++ emitter.
- `Cfg`, `FlowGraph`, `Walks`, `Definedness`, `Trails`: the two checks of `cfg.py`.
- `Substitution*`, `Passes`, `Definitions`, `TypedFunctions`, `Fold`, `ConstFold`, `Copies`,
  `CopyFacts`, `CopySweep`, `CopyProp`, `Renaming`, `Pruning*`, `Dce`, `TrapKeeping`, `Narrowing`, `TextOrder`,
  `Ordering`, `Supply`, `Discipline`, `Elimination`, `Provenance`, `Pipeline`, `Reassigned`: the
  optimiser.
- `MiniLang`, `Labels`, `Builder*`, `Building`, `Captured`: the builder, from an abstract syntax tree.
- `Lowering`, `Compiler`: the stages joined.

Main results: the dominator loop ends on every graph with exactly the immediate dominators;
`structure` refuses exactly the irreducible graphs and otherwise its regions follow the same blocks,
as the dispatch loop does for every graph;
the emitted bytecode shows what the interpreter shows, in both directions; each pass keeps every run;
every function the builder returns passes both checks, is reducible, and stays structurable and
lowerable however often it is optimised; and the bytecode of the optimised functions does what the
functions as built do and nothing else, with conditions on the functions as built only.

## Model

| member | source | states |
|---|---|---|
| `ReversePostorder.Compute` | src/backend/wasm/structurer.py:83-97 | The order lists exactly the nodes reachable from the entry, each once and the entry first; an edge that does not go forward in it ends at a depth-first ancestor of its source. |
| `Dominators.Intersect` | src/backend/wasm/structurer.py:105-109 | For two placed nodes the walk ends at a node whose ancestors are exactly the common ancestors of both. |
| `Dominators.OnePass` | src/backend/wasm/structurer.py:112-121 | A later pass that changes anything strictly lowers the summed numbers of the parents, on every graph; if every retreating edge is a back edge, the first pass already yields the dominator tree, and a pass over the dominator tree changes nothing. |
| `Dominators.Immediate` | src/backend/wasm/structurer.py:100-122 | The loop ends on every graph, reducible or not, and then a node is an ancestor of `v` in the result exactly when it lies on every entry path to `v`; with back edges only, two passes are enough. |
| `Dominators.ParentIsImmediate` | src/backend/wasm/structurer.py:100-122 | The parent of a node strictly dominates it, and every other strict dominator dominates the parent. |
| `Reducibility.ReducibleIff` | src/backend/wasm/structurer.py:142-149 | Whatever order the search took: every cycle has a node dominating all of it exactly when every edge that does not go forward ends at a dominator of its source. |
| `Reducibility.ReducibleBackEdges` | src/backend/wasm/structurer.py:112-121 | On a reducible graph the condition under which one pass is enough holds. |
| `Structuring.Structure` | src/backend/wasm/structurer.py:132-181 | Refuses exactly the irreducible graphs, naming a loop and an edge into it that closes a cycle, does not go forward, and whose source is reached without passing the loop; otherwise the regions visit the same blocks with the same branch outcomes and the same return as the graph for any number of steps, every branch lies inside the region it names, and each reachable block is emitted once and no other. |
| `Dispatch.EmitDispatch` | src/backend/wasm/emit_wat.py:164-184 | For every function, reducible or not, the loop over a program counter visits the same blocks with the same branch outcomes and the same return as the graph for any number of steps, and never falls out of the loop. |
| `Dispatch.EmitControl` | src/backend/wasm/emit_wat.py:126-141 | Regions come out exactly for reducible functions and the dispatch loop otherwise; either follows the graph, so the two agree wherever both exist. |
| `Interpreter.Machine.Call` | src/cir/interp.py:115-176 | The interpreter's loop over registers, slots, globals and output returns, traps, fails or runs on exactly as the functional meaning says, and leaves no slot of its own behind. |
| `Interp.ExecMoreFuel` | src/cir/interp.py:115-176 | More fuel gives the same outcome, or extends the output of a run that was cut short. |
| `BytecodeMachine.Processor.Call` | src/backend/stackvm/vm.py:62-117 | The fetch loop of the machine does exactly what its functional meaning says. |
| `Bytecode.PeepholeScan` | src/backend/wasm/reg2stack.py:69-94 | The scan with an index and an output list drops exactly the adjacent store/load pairs of dead locals. |
| `Bytecode.EmitFunction` | src/backend/stackvm/emit_sbc.py:102-117 | Emission fails exactly when some instruction has no lowering; otherwise its lines are the peepholed code of the blocks in order, every block but the first under its label. |
| `Bytecode.ParseLines` | src/backend/stackvm/vm.py:38-55 | Reading the lines back numbers the operations and gives each label the position of the operation after it. |
| `Layout.Assembled` | src/backend/stackvm/vm.py:38-55 | After emission and reading back, the code of each block stands at the sum of the lengths before it and its label names that position. |
| `PeepholeCorrect.PeepholeKeepsUp` | src/backend/wasm/reg2stack.py:69-94 | On the same fuel the peepholed program shows at least what the unoptimised one shows, with the same result and memory, for blocks that loop to themselves included. |
| `PeepholeCorrect.PeepholeAddsNothing` | src/backend/wasm/reg2stack.py:172-200 | ... and it shows nothing the unoptimised program does not show on enough fuel. |
| `AddressPatching.LayOut` | src/backend/stackvm/EmitSbc.cpp:108-179 | The first pass lays the blocks out in order, leaves out jumps to the next block, and notes the start of every block and the place of every jump, each once. |
| `AddressPatching.PatchAll` | src/backend/stackvm/EmitSbc.cpp:181-190 | The second pass turns every block number laid out into the address where that block starts and an unknown one into a trap, touches nothing else, and reports exactly whether all labels were known, but for that of a jump at the very end, which is never laid out if it is unknown. |
| `AddressPatching.FlatCodeFollows` | src/backend/stackvm/VM.cpp:543-561 | Run by program counter, the patched code comes to the first operation of each next block with the same operations run, for any number of blocks, blocks without code and left-out jumps included; and at every step it has run nothing that the blocks do not run. |
| `StackHeights.ProgramStacksFit` | src/backend/stackvm/emit_sbc.py:48-92 | In every run of an emitted program, at every depth of calls, the operand stack is empty at every block start, and a return finds on it exactly what the block returns: nothing, for `ret void`. |
| `FloatSlots.CallSame` | src/cir/interp.py:134-139 | Where every f64 slot is stored to on every path before each load from it, failing at a load of an unwritten f64 element changes no run; nothing a call hands out gives access to an unwritten f64 element. |
| `StoreCheck.StoredIffDefined` | src/cir/cfg.py:116-178 | That condition on the text is a question of definedness: it holds exactly when the function with stores read as definitions and loads as uses has all its uses defined on every path. |
| `StoredSlot.FilledIsSound` | src/cir/interp.py:134-141 | A program with an f64 slot meets every condition asked of whole programs, by its text. |
| `EndToEnd.BytecodeReaches` | src/backend/stackvm/vm.py:58-127 | For a program whose functions can be lowered and whose globals start alike, called with numbers, whose run never fails (an operand of the wrong kind or undefined, a dead address, an unknown callee), and which stores to f64 slots before loading from them, by its text or, where arrays or passed addresses leave that open, in the run: whatever the interpreter shows on any fuel, the emitted bytecode shows on enough fuel: the same result, memory and output, the same trap, or at least the same output so far. |
| `EndToEnd.BytecodeAddsNothing` | src/backend/stackvm/vm.py:58-127 | ... and whatever the bytecode shows, the interpreter shows on enough fuel, so both return, both trap or both run for ever. |
| `Checks.CallChecks` | src/cir/interp.py:100-176 | Dropping the optional range check, the initialisation check or both changes no run that does not fail; one that fails has printed no more than the run without them. |
| `Cfg.ReachableLabels` | src/cir/cfg.py:55-72 | The worklist ends with exactly the labels an entry path reaches. |
| `Cfg.Predecessors` | src/cir/cfg.py:40-52 | Each block lists each of its predecessors once and nothing else. |
| `Cfg.CheckCfg` | src/cir/cfg.py:75-113 | For every function, no diagnostics exactly when labels are unique, each block has one terminator and in last place, targets exist and the entry has no predecessor. |
| `Definedness.CheckDefs` | src/cir/cfg.py:116-178 | The sweep ends, whatever order the blocks come in, and reports nothing exactly when every use on every path from the entry is preceded by a definition or reads a parameter. |
| `Definedness.CheckFunction` | src/cir/cfg.py:181-188 | For every function, well formed or not: no diagnostics exactly when the graph is sound and every use is defined on every path. |
| `Trails.RunReadsDefined` | src/cir/cfg.py:116-178 | A run of accepted functions finds a value for every register operand at every step, callees included. |
| `Trails.CallReadsDefinedAlways` | src/cir/cfg.py:116-178 | ... from any call with enough arguments. |
| `Definitions.SingleDefs` | src/opt/copyprop.py:72-78 | The set holds exactly the registers one instruction of the text defines. |
| `Fold.FoldAgrees` | src/opt/constfold.py:108-175 | Whenever an instruction folds, the interpreter computes that constant on the reduced operands at every integer width and never traps, except for sign extension of a true bit. |
| `ConstFold.Analyse` | src/opt/constfold.py:217-237 | Everything recorded is the fold of the one definition of its register under what is recorded. |
| `ConstFold.FoldFunction` | src/opt/constfold.py:217-252 | For a typed function that assigns no parameter and in which no sign extension of an i1 is ever recorded for a known true bit: the loop ends; the result, put in place of the function in any program, gives the same outcome, traps and memory included, for every run that does not fail; it has no new edge and no new instruction, nothing foldable is left, and what the other passes rely on is kept. |
| `CopyProp.FindAliases` | src/opt/copyprop.py:87-100 | On text that defines before it uses, the search finds what a search of any text is specified to find (`CopySweep.AliasesOf`); every alias, chased through those before it, ends at an operand that is not itself replaced, so the sweep leaves no read of what it drops; if none is found, no copy is left. |
| `CopySweep.SettledIffOrdered` | src/opt/copyprop.py:87-100 | For any text: no alias found is itself replaced exactly when every replaced copy whose source is replaced comes after the copy that replaces that source. |
| `CopySweep.SweepReadsIff` | src/opt/copyprop.py:102-117 | After one sweep a dropped register is read exactly where an instruction that stays read a register whose alias is itself replaced. |
| `CopySweep.SweepLosesIff` | src/opt/copyprop.py:87-117 | Together: with the copies in that order one sweep loses no read; out of order it loses one, unless no instruction that stays reads a copy met too early. |
| `CopyProp.PropagateFunction` | src/opt/copyprop.py:81-121 | The rounds end with no copy left; the result gives the same outcome in any program for every run whose integer operands stay in range, and keeps types, order and definedness. |
| `Dce.RemoveUnreachable` | src/opt/dce.py:43-49 | Keeps exactly the blocks an entry path reaches, in order. |
| `Dce.EliminateDead` | src/opt/dce.py:71-78 | The rounds end with every block reachable and no removable definition unread, and what is gone is exactly cut blocks and definitions nothing kept reads. |
| `Dce.EliminationKeepsRuns` | src/opt/dce.py:43-78 | Up to the numbering of memory slots: a run that returns returns the same value with the same output and globals, one still going is the same, and the output of one that traps or fails is a prefix. |
| `TrapKeeping.RemovableTraps` | src/opt/dce.py:59-62 | A removable instruction can trap on some operands exactly when it is a division, a remainder, an index or a conversion from float. |
| `TrapKeeping.EliminationExact` | src/opt/dce.py:52-78 | A removable definition in a reachable block is still there exactly when an instruction that must stay reads it, directly or through other definitions. |
| `TrapKeeping.SupportedIffKept` | src/opt/dce.py:52-78 | Every reachable definition that can trap is read in that sense exactly when elimination keeps all of them. |
| `TrapKeeping.EliminationKeepsTraps` | src/opt/dce.py:52-78 | For programs that satisfy this, elimination keeps traps too: a run traps exactly when the optimised one does, with the same output. |
| `Passes.ProgramPreserved` | src/opt/__init__.py:45-49 | Preserving passes applied to any functions of a program together preserve its runs. |
| `Narrowing.NarrowedKeepsReducible` | src/backend/wasm/structurer.py:32-34 | Taking edges away keeps a function reducible. |
| `Discipline.RewriteKeepsDiscipline` | src/opt/copyprop.py:102-121 | A sound rewriting keeps a good graph, definedness on every path, text order and single definitions. |
| `Elimination.EliminationKeepsDiscipline` | src/opt/dce.py:43-78 | ... and so does elimination, with the types. |
| `Pipeline.RunRound` | src/opt/__init__.py:43-44 | The first pass that changes something ends the round; the result keeps runs and what every pass asks for; if nothing changed, no pass has anything left to do. |
| `Pipeline.OptimiseFunction` | src/opt/__init__.py:41-44 | After at most eight rounds the result keeps every run, has no new edge, and every instruction left is one of the input with registers replaced by registers or constants of the same type, or a conditional branch made plain; it can be optimised again; if a round changed nothing, nothing is left. |
| `Pipeline.OptimiseModule` | src/opt/__init__.py:31-45 | All functions of a module optimised one after the other keep every run of every program made of them, edges and instructions only taken away or rewritten in that way; level 0 changes nothing. |
| `Builder.FnBuilder.Emit` | src/cir/builder.py:198-211 | An instruction whose operands are defined here is appended, to a fresh block if the last one is closed, and the builder stays in order: labels unique, only the last block open, every operand defined on every path, slots first. |
| `Builder.FnBuilder.EmitNew` | src/cir/builder.py:168-172 | The result is in the next temporary, whose number is used up whether or not its name is taken; into an open block exactly that instruction is emitted. |
| `Builder.FnBuilder.AllocaSlot` | src/cir/builder.py:240-250 | The slot is one of those at the head of the entry block, under a name of its own, so it may be used from here on in any block. |
| `Builder.FnBuilder.LowerExpr` | src/cir/builder.py:456-476 | The value is an operand defined on every path to here; scopes and loops are as before, and what was added is a finished piece: fresh labels, no edge out of it, and everything defined before still defined. |
| `Builder.FnBuilder.ShortCircuit` | src/cir/builder.py:569-596 | The same for the two blocks of `&&` and `||`, through the slot of their result. |
| `Builder.FnBuilder.LowerIf` | src/cir/builder.py:367-401 | What was added is a finished piece whose edges leave it only for the targets of the enclosing loops; scopes outside it and loops are as before; `break`, `continue` and `return` below stand where they may. |
| `Builder.FnBuilder.LowerWhile` | src/cir/builder.py:403-419 | The same, the piece being a loop entered only at its head. |
| `Builder.FnBuilder.LowerFor` | src/cir/builder.py:421-451 | The same with `continue` leading to the step, and the names of the first clause gone afterwards. |
| `Builder.FnBuilder.Reaches` | src/cir/builder.py:695-709 | The search answers whether an entry path leads to the label. |
| `Builder.FnBuilder.CloseFunction` | src/cir/builder.py:279-293 | Fails exactly when a path from the entry reaches the open end of a function that returns a value; otherwise every block is closed afterwards. |
| `BuilderReducible.SketchReducible` | src/cir/builder.py:367-451 | The graph of nested conditionals, loops, breaks, continues and short circuits is reducible. |
| `Building.BuildFunction` | src/cir/builder.py:255-293 | Every function returned passes both checks, is reducible, has definitions before uses in the text and a lowering for every instruction, whatever the declaration; if no source name looks like one of the builder's, parameters have different names and array lengths keep their size as ints, it can also be lowered faithfully, defines each register once and no parameter, and if it computes with numbers only it is typed; `break`, `continue` and `return` stood where they may; if no parameter has a dot in its name, exactly the parameters named like a temporary made are assigned, and exactly the slots so named are assigned twice; and arithmetic over int parameters becomes exactly its code. |
| `BuilderTemps.CapturedIff` | src/cir/builder.py:168-184 | Then no parameter is assigned and no register defined twice exactly when no temporary made has the name of a parameter or a slot. |
| `Building.BuiltIsReady` | src/driver.py:67-89 | Such a function meets every demand of the optimiser and of the bytecode emitter. |
| `Building.StaysReducible` | src/backend/wasm/structurer.py:32-34 | Optimised, it can still be structured. |
| `Lowering.StaysLowerable` | src/backend/stackvm/emit_sbc.py:48-92 | A function the passes made from one that can be lowered can be lowered. |
| `Compiler.BuildAll` | src/cir/builder.py:758-762 | Every function of a program that is built satisfies the promise of its own build. |
| `Compiler.OptimiseBuilt` | src/driver.py:67-89 | Optimising what was built keeps every run, and leaves functions that can be lowered and structured; and the bytecode of the result is faithful: for every steady run of the functions as built it does the same, and nothing else. |
| `Compiler.StructureBuilt` | src/backend/wasm/emit_wat.py:138-161 | Structuring what was built or optimised never fails, and its regions follow the function. |
| `Compiler.OptimisedIsSound` | src/driver.py:67-89 | If a run of the functions as built, with range and initialisation checks on, neither traps nor fails, globals start alike and the arguments are numbers (a steady run), the optimised functions meet every condition of the bytecode theorems. |
| `Compiler.CompiledKeepsUp` | src/driver.py:67-89 | Everything a steady run of the functions as built does, the bytecode of the optimised functions does on enough fuel: the same result, output and globals, or at least the output so far. |
| `Compiler.CompiledAddsNothing` | src/driver.py:67-89 | ... and on enough fuel the functions as built do everything the bytecode does: the bytecode neither traps nor fails, prints no more and returns nothing else. |
| `Compiler.TrappingKeepsUp` | src/driver.py:67-89 | For runs that may trap: if the optimised functions' own runs never fail and store to f64 slots before loading, the bytecode prints at least what the run as built printed in range, trap or not. |
| `Captured.ProductIsSteady` | src/driver.py:67-89 | A built function with an argument has a steady run. |
| `Dce.TrapVanishes` | src/opt/__init__.py:12-13 | A finding: a program that divides by zero and ignores the result traps, and after elimination returns. |
| `Fold.FoldSextIff` | src/opt/constfold.py:168-169 | A finding: folding a sign extension agrees with the interpreter exactly when the operand is not a true bit. |
| `Reassigned.CopyMoves` | src/opt/copyprop.py:72-100 | A finding: with the source of a copy assigned again, propagation changes what the program prints. |
| `Reassigned.ParameterFolds` | src/opt/constfold.py:178-185 | A finding: with a parameter assigned a constant, folding replaces the argument as well. |
| `Reassigned.AliasLost` | src/opt/copyprop.py:102-117 | A finding: with a definition later in the text than a copy of it, the search finds both copies out of order, and a register is read whose definition the same sweep dropped. |
| `Reassigned.BothAccepted` | src/cir/cfg.py:75-178 | The first two of these functions pass the graph check and the definedness check. |
| `ZeroFill.PrintsDiffer` | src/backend/stackvm/vm.py:92-95 | A finding: negating and printing an f64 slot nothing was stored to prints differently on interpreter and machine. |
| `ZeroFill.LoadAgreesIff` | src/backend/stackvm/vm.py:96-97 | An element reads the same on both exactly when it is not an unwritten f64 element. |
| `EndToEnd.GlobalAgreesIff` | src/backend/stackvm/emit_sbc.py:104-106 | A finding: interpreter and bytecode start a global alike exactly when its integer initialiser is in range and an f64 global has one. |
| `SlotSizes.SlotAgreesIff` | src/backend/stackvm/emit_sbc.py:73-74 | A finding: interpreter and bytecode make the same slot exactly when reducing the count to its type keeps the number of elements. |
| `SlotSizes.HugeArray` | src/backend/stackvm/vm.py:92-95 | The input: in `int a[2147483648]` indexing the first element traps in the interpreter and not in the bytecode. |
| `AddressPatching.LastJumpUnasked` | src/backend/stackvm/EmitSbc.cpp:85-92 | A finding: a last block that jumps to a label there is not gets no jump and no report. |
| `Captured.TempsTakeNames` | src/cir/builder.py:168-172 | A finding: the function built from `(p + 1) * p` returns 2 on 1 with the parameter called `x`, and 4 with it called `t0`, because the first temporary is `t0` as well and the parameter is assigned. |

## Findings

Where the code does not meet its documentation, or two parts disagree, the model follows the code
and the results say when the property holds.

- A pass may remove a trap, although src/opt/__init__.py:12-13 says none does: `dce.py:59-62` deletes
  unread divisions, indexings and float conversions. `Dce.TrapVanishes` is the input;
  `Dce.EliminationKeepsRuns` is what always holds; `TrapKeeping.EliminationKeepsTraps` holds for
  programs whose reachable trapping definitions are all read by something that must stay, and
  `TrapKeeping.SupportedIffKept` says that these are exactly the programs that lose none.
- `copyprop.py:72-100` counts the definitions of the replaced register only. CIR registers may be
  assigned more than once (cfg.py:127), and with a reassigned source the output changes
  (`Reassigned.CopyMoves`); `CopyProp.PropagateFunction` asks for sources with at most one definition.
  There is no converse: a source assigned again with the same value, or only after the last read of
  the copy, does no harm.
- Neither `_single_defs` counts a parameter as a definition (constfold.py:178-185, copyprop.py:72-78);
  `Reassigned.ParameterFolds` is the input, and the passes ask that no parameter is assigned. There is
  no converse here either: assigning a parameter before every read of it does no harm.
- One sweep of copy propagation substitutes one step and deletes definitions (copyprop.py:102-117), so
  a definition later in the text than its copy is lost (`Reassigned.AliasLost`); verifier.py:20-23
  refuses such text, and the passes ask for text order. `CopySweep.SweepLosesIff` says for every text
  when a sweep is free of this, and `CopySweep.SweepReadsIff` which reads are lost otherwise.
- The machine fills an f64 slot with the integer 0 (vm.py:94), the interpreter with 0.0
  (interp.py:138); the difference can be printed (`ZeroFill.PrintsDiffer`).
  `EndToEnd.BytecodeReaches` therefore asks that f64 slots are stored to before they are loaded from.
  For slots of one element whose address stays in the function that is a condition on the text, which
  `check_defs` itself can decide (`StoreCheck.StoredIffDefined`).
- A global's integer initialiser is reduced to its type by emit_sbc.py:104-106 and not by
  interp.py:102; `EndToEnd.GlobalAgreesIff` says when they agree.
- Folding `sext` of a true bit gives 1 (constfold.py:168-169), the interpreter -1 (interp.py:87);
  `Fold.FoldSextIff` says when they agree, and `ConstFold.FoldFunction` asks only that no bit so
  extended becomes known to be true. The builder never extends a bit by its sign (builder.py:81-82).
- The emitter writes the count of an alloca as it stands (emit_sbc.py:73-74), the interpreter reduces
  it to i32 (interp.py:136), so an array of 2147483648 elements has none there
  (`SlotSizes.HugeArray`); `SlotSizes.SlotAgreesIff` says when they agree, and faithful lowering is
  promised for functions whose counts do.
- The first pass of the C++ emitter takes the number of an unknown label, which is the number of
  blocks, for the block after the last, and leaves a final jump there out without a report
  (`AddressPatching.LastJumpUnasked`); `AddressPatching.PatchAll` says exactly what is reported.
- Temporaries are named without consulting the names taken (builder.py:168-172), so a parameter or an
  array called like one is assigned by it (`Captured.TempsTakeNames` is the input). For every
  declaration whose parameters have no dot in their names, `Building.BuildFunction` says exactly which
  are: those called `t` and a number below the count of temporaries made; `BuilderTemps.CapturedIff`
  puts it as a condition on the result. Faithful lowering is promised for declarations without names
  of that form.

## Left out

- EndToEnd.BytecodeReaches: that the run never fails (an operand of the wrong kind, a dead address, an unknown callee, where the Python code raises a host error) stays a condition on the run; typing it statically is the job of sema, which is not part of this model. For f64 arrays, and f64 slots whose address is passed on, storing before loading is a condition on the run as well. Programs whose globals start differently are left to `EndToEnd.GlobalAgreesIff`, and addresses as arguments of the whole program are left out.
- EndToEnd.BytecodeAddsNothing: the same.
- Building.BuildFunction: which names are captured is said in terms of the number of temporaries the function makes, which is known once it is built.
- Definedness.CheckDefs: asks for a graph that `check_cfg` accepts, as check_function (cfg.py:181-188) does; `Definedness.CheckFunction` asks for nothing.
- Structuring.Structure: asks for such a graph and for an operand on every conditional branch, which structurer.py:172 indexes.
- Dce.EliminationKeepsRuns: one-sided for runs that trap; the exact case is `TrapKeeping.EliminationKeepsTraps`.
- CopyProp.PropagateFunction: keeps runs whose integer operands are in the range of their types, because identities such as `add x, 0` reduce their operand.
- Pipeline.OptimiseFunction: asks for at most one definition of every register, while the single passes ask for less; removing a block can otherwise put a use before its definition in the text. The builder's functions satisfy it.
- Pipeline.OptimiseModule: states that traps are kept only as far as elimination keeps them.
- Compiler.OptimiseBuilt: asks that operations work on numbers only, which the type checker enforces and the builder alone does not.
- Compiler.CompiledAddsNothing: says nothing about runs that trap, because of the first finding.
- Compiler.CompiledKeepsUp: asks that the run as built neither traps nor fails with the checks on; for runs that may trap, `Compiler.TrappingKeepsUp` asks for conditions on the optimised functions instead.
- ConstFold.FoldFunction: says nothing about functions in which a bit extended by its sign becomes known to be true.
- Floating point: f64 values and their operations are shared opaque parameters (`Arith.Floats`), NaN tests included; printing formats are events.
- AddressPatching.FlatCodeFollows: starts from terminated blocks whose straight-line code is given, and says which operations run, not what they compute; the operations themselves are those of the Python machine.
- Dispatch.EmitDispatch: follows blocks, like the regions; the WebAssembly instructions inside a block are not part of the model, nor is the br_table tower of EmitWat.cpp.
- The frames and linear memory of VM.cpp and RegToStack.cpp: the Python machine has slots instead.
- The text formats: lexers, parsers and printers of MiniLang, CIR and bytecode; instructions, lines and syntax trees are values here.
- sema, name resolution diagnostics and the wording of errors; error codes are kept.
- The globals of `build` (builder.py:730-756): they enter the model as given.
- The C++ copies of builder, passes and verifier, and the LLVM emitter.
- Limits on recursion and steps; runs are bounded by fuel instead.
