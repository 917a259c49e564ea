# MagicLisp, modelled and proved in Dafny

MagicLisp is a small Lisp: a reader, a one-pass bytecode compiler, a virtual machine
with a cycle collector, a binary module format and a printer. This project models its
algorithms and proves what they are for. `dafny verify dfyconfig.toml` checks all of it.

Code that the implementation writes as expressions and recursion is a function here;
code that changes state is a class or a method with a loop, proved against a function
whose properties are then proved as lemmas.

## The parts

**Compiler and machine.** `Syntax` has the core forms. `Source` is a reference evaluator
with environments, a store, closures and a call-depth limit. `Compile` says what bytes
the compiler appends, jump targets already final. `Emitter`, `Chains`, `Selecting` and
`Compiling` are the compiler as it runs: appending to a chunk, emitting jumps to nowhere
and patching them, moving the shared slot counter up and back. `Vm` is the machine one
instruction at a time, with its pending calls written out; `Executing` is the loop that
calls itself for closures and starts over for tail calls. `Simulation` (with `Relation`,
`Points`, `Steps`, `Variables`, `Slots`) relates evaluator and machine: locals by slot,
upvalues by depth and slot, shared cells, pools, padding. `Programs` draws the theorems
about whole programs, and `Drift`, `Leaks` and `Misreads` say why they have a side condition.
`Limits` says which programs compile. `Language` and `Derived` pin down the reference
evaluator itself: what a call binds, what is false, what is equivalent, and what the derived
forms mean in terms of `if`, `begin` and `let`. `Structure` and `StructuredCode` prove without
the side condition, of every chunk of every accepted program, that the code is structured:
decoded from end to end, jumps forward, one stack height per boundary. `Integrity` draws from
that what every run keeps, `Faults` what a run can never do, and `TailCalls` that tail calls
refine ordinary calls.

**Collector.** `RcHeap` is a heap with reference counts and an arbitrary multiset of
outside references. `Tracing` and `GcTheory` say what counting through lists finds and
when a surplus means an outside reference. `EnvGc` is the collector as it runs; `Sweeping`
and `Reclaiming` prove that it is safe and complete.

**Reader.** `Reader` is the grammar as functions on texts, `Scanner` the scanner with its
cursor and depth. `Boundary` is the per-character automaton, `BoundaryProof` shows that it
misses no delimited datum. `Spelling` and `Grammar` say what the reader reads: all spellings
of a datum, with quote marks, number prefixes, comments and hidden data, and nothing else.
`Stability` says which reads are final whatever text follows, and `Streaming` is the retry
loop over chunks.

**Printer.** `Printer` writes finite data, `RoundTrip` reads it back. `HeapPrinter` is the
printer over a heap that may be cyclic, `Unfolding` ties the two together.

**Module format.** `Codec` encodes and decodes, `CodecProof` proves the round trip,
`CodecRun` is the encoder and the byte reader as they run. `Accepting` says that nothing but
encodings is accepted, `Vectors` has bytes written down by hand.

**Smaller algorithms.** `Quasi` (quasiquote expansion), `Equality` and `EqualPaths` (`equal?`
on cyclic data), `MacroData`, `MacroValues` and `Normals` (code to data and back), `Division`
(64-bit integer division).

`Prelude`, `LittleEndian`, `Data` and `Instr` hold the shared vocabulary.

## Reading the theorems

- Native procedures are an arbitrary function of name, arguments and world, so what is
  proved holds for any set of natives that do not call closures. The evaluator's `fuel`
  bounds nested closure bodies; running out is the outcome `Timeout`, never an answer.
- `SafeForms` is the condition of the preservation theorem. `and`, `or`, `when` and
  `unless` do not rewind or pad slots, so an operand or body that may not run introduces
  no variable unless it is in tail position. `cond` rewinds before each clause although
  the variables of earlier tests are already in the frame, so a test introduces a variable
  only in a `cond` in tail position in which nothing behind that clause introduces any. A body
  does not start with `define`. `if` and `case` need no condition. The lemmas of `Drift` say
  for each of the five forms exactly when a run of it has the slots as the compiler counts
  them. Outside the condition a program may stop with an error that the language does not
  know (`Leaks.ConditionalSlotsLeak`), and it may end quietly with another result, because a
  variable is then looked up in the slot of another one (`Misreads.FailedTestMisreads`).
- `Need` measures a program against the compiler's limits. `slots` are the variables taken in
  one function, of several branches those of the largest, `inner` the most in any function
  inside it, and `far` the number of functions a name is looked for in before the one that
  binds it.
- `Fits` says that pools and code stay below 2^32, where operands would wrap.
- `Structured` has no side condition but `Fits`: it is about the bytes, whatever slots they
  name. Only `MisplacedVariable`, a local or an upvalue looked for where it is not, is left
  to `SafeForms`.
- `SinglyOwned` says that each list of the graph that leads to a closure or a mutable
  object has one holder; lists of plain data may be shared. The collector opens a list once
  per holder: `GcTheory.SurplusAccounting` says on every heap how much is counted too often,
  and `Reclaiming.SharedListIsUnsound` is a heap where that destroys a reachable closure.
- `Covered` is what safety takes on any heap, and what `SinglyOwned` implies: each node that
  something outside the graph refers to is marked, and so is each node that a list so referred
  to leads to. `Reclaiming.MarkIsExact` says that marking is exact if and only if it holds, and
  `Reclaiming.MarkedIsLed` what marked means in numbers of references.
- `Honest` says of a host that its `run` treats `quote`, `list`, `append`, `fold-right` with
  `cons` and `list->vector` as the language does, in every state a program can leave behind.
- `Grounded` says that a comparison comes to no circle of comparisons that are not recorded;
  it holds wherever no list lies on a cycle.
- `Spells` says of a text that it is a spelling of a datum behind a gap of white space and
  comments, and of its nesting that it is within the limit. A spelling chooses a quote mark or the
  list it stands for, a number prefix and the case of its digits, escapes, names of characters, and
  what stands between tokens.
- `Says` is equality of bytes but for a larger number in place of a 1, as a flag may have;
  `Strict` says that no bytes but its own encoding are decoded to a text.
- `Tracks` says what the boundary automaton has been fed; `Sane` and `Ordinary` say that
  letters, digits and punctuation are not white space, and the like.

Three places where code and documentation part are modelled as the code has them:

- `src/vm.rs:2690-2720` promises a fresh attempt to read at every possible boundary, but an
  atom that has been put off is tried again only when what follows counts as content at once:
  a closing parenthesis or one of `'`, `` ` `` and `,`. White space, an opening parenthesis, a
  string quote or a semicolon also ends the atom and does not wake the reader
  (`Streaming.DelimiterWakes`, `Streaming.DelimiterAlone`, and `Streaming.NativeRead` for a
  whole stream; `Streaming.AtomThenSpaceWaits` is an instance).
- `src/compiler.rs:391-402` says that only a captured name more than 255 levels away is an
  error; the walk fails after 255 levels before it knows whether there is such a name, so
  a global is rejected there too (`Variables.ResolveFails` says exactly when,
  `Variables.DeepGlobalUncompilable` is a program).
- `src/vm.rs:733-764` argues safety for every heap; it holds where what is referred to from
  outside is covered, as it is where each list that leads to a closure or a mutable object has
  one holder, and it fails on a shared one (`Sweeping.SweepIsSafe`, `Reclaiming.MarkIsExact`,
  `Reclaiming.SharedListIsUnsound`).

## Model

| member | source | states |
|---|---|---|
| Programs.CompilerPreservesMeaning | src/compiler.rs:606-620 | for every program in the condition and every initial state, the machine on the compiled module reaches exactly the evaluator's outcome: same globals and world, or same error; while the evaluator is out of fuel the machine has taken at least that many steps and is still running |
| Programs.MachineIsMeaning | src/vm.rs:1731-1752 | the converse: a machine that has ended after k steps has done what the evaluator does with fuel k + 1, so both define the same behaviour and diverge on the same programs |
| StructuredCode.ProgramIsStructured | src/compiler.rs:606-620 | every chunk of every accepted program, called or not, decodes from its first byte to its last; every boundary has one stack height, the entry 0, and it agrees along every instruction and at both ends of every jump; jumps lead strictly forward to boundaries; constants, names and function indices exist; after a TAIL_CALL come only jumps to RETURN |
| StructuredCode.ExprBuilt | src/compiler.rs:2050-2173 | wherever the bytes of an expression sit and at whatever height they start, they are a closed stretch of structured code that leaves the stack one higher, and every function compiled on the way is structured |
| StructuredCode.SelectBuilt | src/compiler.rs:1826-1929 | clauses, no-match path and one stub per clause join at one height, whatever their number |
| Structure.WalkedHasHeight | src/disasm.rs:62-84 | no boundary met by decoding one instruction after the other is without a height |
| Integrity.EveryRunIsSound | src/vm.rs:1189-1442 | at every step of every run of every accepted program: the stack never underflows, the code, its constants, names, functions and cells are never missed, the step budget is never exhausted, and the call depth is the number of pending calls, each just past its CALL instruction |
| Faults.MachineNeverFaults | src/vm.rs:1236-1439 | programs in the condition also never look for a local or an upvalue where it is not, so that their runs stop only for errors of the language |
| TailCalls.TailCallsRefineCalls | src/vm.rs:1378-1425 | for every accepted program: if the machine in which TAIL_CALL is CALL ends otherwise than by the call depth, the machine ends with the same value and memory or the same error; and if the machine ends, that one ends alike or exceeds the call depth |
| TailCalls.StepAlike | src/vm.rs:1378-1425 | each step of the machine is matched by steps of the other one, which differs only in frames that have nothing left to do but return |
| TailCalls.TailCallsExit | src/compiler.rs:2150-2172 | every TAIL_CALL of every chunk is followed by nothing but jumps to RETURN |
| Leaks.ConditionalSlotsLeak | src/compiler.rs:1711-1737 | the condition is needed: after `and` has skipped a `let`, the next `let` of the same body is looked up one slot too far and the machine stops with a slot error where the evaluator gives a value |
| Misreads.FailedTestMisreads | src/compiler.rs:1851-1852 | for tests of `cond` the condition is needed too: a program whose compiled form runs to its end and leaves 1 in a global, from any initial state and with any natives, where the evaluator leaves 2, because a clause reads the variable of the test that failed before it |
| Drift.AndExactly | src/compiler.rs:1711-1737 | outside tail position, an `and` with any operands yields its value, and the frame then has as many locals as the compiler counts exactly when the operands it did not run would have introduced none |
| Drift.OrExactly | src/compiler.rs:1742-1770 | the same for `or` |
| Drift.WhenExactly | src/compiler.rs:1774-1795 | the same for a `when` whose body does not run |
| Drift.UnlessExactly | src/compiler.rs:1799-1820 | the same for an `unless` whose body does not run |
| Drift.CondExactly | src/compiler.rs:1850-1893 | the tests of a `cond` fail one after the other as in the evaluator, and the frame at the start of a clause has as many locals as the compiler counts there exactly when the tests before it have moved the slot counter by nothing; once one has, control follows the evaluator up to the first test that binds a variable itself |
| Drift.TakenExactly | src/compiler.rs:1884-1889 | the body of the clause taken begins with the compiler's number of locals exactly when the failed tests left none behind, and otherwise with that many more |
| Drift.NoneExactly | src/compiler.rs:1895-1908 | the same after a `cond` outside tail position that takes no clause |
| Language.ArgumentsReceived | src/vm.rs:1577-1608 | a call succeeds exactly with as many arguments as parameters, or at least as many before a rest parameter; each parameter receives its argument, and the rest parameter the empty list or one fresh list of exactly the arguments left over |
| Language.ApplyBinds | src/vm.rs:1444-1471 | calling a closure runs its body where each parameter names a fresh variable with its argument, later parameters hiding earlier ones, and every other name means what it meant where the closure was made; at 150000 pending calls it is an error |
| Language.ExtendEnters | src/compiler.rs:372-378 | the environment of a body: parameters over what the closure captured |
| Language.OnlyFalseIsFalse | src/value.rs:353-355 | of all values only `#f` takes the other branch |
| Language.FloatsEquivalent | src/value.rs:357-362 | two floats, by sign, exponent and mantissa, are equivalent when their bits are the same or both are not a number |
| Language.OthersEquivalent | src/value.rs:373-398 | other values are equivalent exactly when they are the same, allocations by identity |
| Derived.WhenIsIf | src/compiler.rs:1772-1820 | `when` and `unless` mean the two branches of `if` |
| Derived.AndIsIf | src/compiler.rs:1708-1737 | `and` means nested `if`s |
| Derived.OrIsFirst | src/compiler.rs:1739-1770 | `or` means its first value that is not `#f`, evaluated once |
| Derived.CondIsIf | src/compiler.rs:1822-1929 | `cond` means a chain of `if`s that ends in `else` or in nothing |
| Derived.ArrowCalls | src/compiler.rs:1850-1893 | `=>` calls its receiver with the value of the test, evaluated once |
| Derived.CaseCompares | src/compiler.rs:1931-2048 | `case` compares the key, evaluated once, with the literals |
| Derived.LetStarIsLets | src/compiler.rs:1479-1504 | `let*` means nested `let`s |
| Derived.LetBindsTwo | src/compiler.rs:1449-1477 | the initial values of `let` are evaluated outside it, from left to right |
| Derived.SetThenGet | src/compiler.rs:1682-1706 | what is assigned is what the variable then holds, and nothing else is changed |
| Simulation.SimExpr | src/compiler.rs:2050-2173 | from any frame that matches an environment, the code of any expression reaches the state that matches its value, one value higher on the stack and with as many locals as the compiler counts, or fails with its error, or returns to the caller when in tail position |
| Simulation.SimIf | src/compiler.rs:1120-1199 | whichever branch of an `if` ran, the frame has the same number of locals afterwards |
| Simulation.SimCond | src/compiler.rs:1826-1929 | the same for the clauses of `cond`, with `=>` and `else`; a test may bind variables where the `cond` is in tail position and nothing behind its clause binds any |
| Simulation.SimCase | src/compiler.rs:1935-2048 | the same for `case`: the first clause with an equivalent literal runs, the key leaves the stack on every path |
| Simulation.SimClosureCall | src/vm.rs:1444-1471 | calling a closure binds fresh cells for its parameters over the captured environment, in an ordinary and in a tail call, under the same depth limit on both sides |
| Simulation.SimAssign | src/compiler.rs:1682-1706 | assignment writes the one cell that every closure over the variable shares |
| Simulation.SimLambda | src/compiler.rs:1434-1447 | a closure is born with the cells of its frame, so later assignments on either side are seen by both |
| Variables.ResolveFinds | src/compiler.rs:372-420 | the place a name is compiled to holds the cell of the binding the name denotes: the innermost local, the right slot that many environments out, or a global when there is no binding |
| Variables.ResolveFails | src/compiler.rs:403-420 | the walk outward fails exactly when there are more than 255 enclosing functions and none of the first 255 binds the name |
| Variables.DeepGlobalUncompilable | src/compiler.rs:403-420 | a global used inside 255 nested functions makes the program uncompilable |
| Slots.SlotsExpr | src/compiler.rs:345-370 | an expression whose evaluation introduces no variable leaves the slot counter where it was |
| Slots.FreeExpr | src/compiler.rs:345-370 | the code of such an expression, its constants and its functions do not depend on the slot counter at all |
| Steps.PadRuns | src/compiler.rs:1204-1212 | running the padding tops the locals up to the target and changes no variable |
| Instr.FetchEncoded | src/disasm.rs:62-84 | wherever the bytes of an instruction sit in a chunk, fetching there gives that instruction and the offset just past it |
| Accepting.FetchesExactly | src/disasm.rs:62-84 | the machine fetches an instruction at an offset exactly when its bytes stand there, and 20 opcodes are defined |
| Vectors.Instructions | src/bytecode.rs:19-45 | the bytes of every instruction, written down by hand, operands lowest byte first |
| LittleEndian.RoundTrip | src/bytecode.rs:215-218 | a number written in k little-endian bytes is read back |
| Compiling.CompileProgram | src/compiler.rs:606-620 | the one-pass compiler with patched jumps gives exactly the module, or the error, of the specification |
| Limits.CompilesWhen | src/compiler.rs:606-620 | a program compiles if and only if no call has more than 255 arguments, nothing is nested deeper than 512, no function takes more than 255 slots and no name is looked for in more than 255 functions in vain, all measured on the forms; and an error is about a limit that is exceeded |
| Compiling.CompileExpr | src/compiler.rs:2050-2173 | the emitting pass over any expression appends the specified bytes, leaves constants, functions and slot counter as specified, or fails with the specified error |
| Compiling.CompileSequence | src/compiler.rs:693-711 | every expression but the last is followed by POP and compiled out of tail position |
| Compiling.CompileCall | src/compiler.rs:2150-2172 | callee, arguments, then CALL or TAIL_CALL; more than 255 arguments are refused after compiling them |
| Compiling.CompileIf | src/compiler.rs:1120-1199 | one pass over the branches with patched jumps and per-branch padding gives the specified code |
| Compiling.JoinBranches | src/compiler.rs:1163-1197 | each branch ends in padding up to the larger need and both jumps reach the join |
| Compiling.CompileWhen | src/compiler.rs:1774-1795 | the two patched jumps lead past the body and past the unspecified value |
| Compiling.CompileUnless | src/compiler.rs:1799-1820 | the two patched jumps lead to the body and past it |
| Compiling.CompileAnd | src/compiler.rs:1711-1737 | the collected jumps, patched at the end, give the specified chain of operands |
| Compiling.CompileOr | src/compiler.rs:1742-1770 | the same with the inner jump past the jump out |
| Compiling.CompileCond | src/compiler.rs:1826-1929 | clauses emitted in order, then the no-match path, then one padding stub per clause, all jumps patched, give the specified code |
| Compiling.CompileCase | src/compiler.rs:1935-2048 | the same with the literal tests and the key discarded on every path |
| Compiling.EmitStubs | src/compiler.rs:1911-1927 | every clause's jump leads to its own stub and every stub to the common end |
| Compiling.CompileLet | src/compiler.rs:1453-1502 | `let` and `let*` compile their initial values in the outer or in the growing scope and number the slots in order |
| Compiling.CompileFunction | src/compiler.rs:805-845 | a function is compiled in a fresh frame, appended after the functions inside it, and its index returned |
| Emitter.Body.PatchJump | src/bytecode.rs:215-218 | patching writes the current end into the four operand bytes and nothing else |
| Emitter.HoleFilled | src/bytecode.rs:205-218 | an emitted jump, patched, is the jump with its final target, wherever it sits |
| Emitter.Body.PadLocalsTo | src/compiler.rs:1204-1212 | the loop emits one placeholder per missing slot and moves the counter |
| Chains.ChainPatched | src/compiler.rs:1726-1769 | patching all collected jumps of a chain to the end gives the chain with final targets |
| Selecting.MidwayStep | src/compiler.rs:1911-1918 | patching one clause's jump and emitting its stub takes the code one clause further |
| Selecting.StubsClosed | src/compiler.rs:1920-1922 | patching the jumps to the common end closes all stubs at once |
| Selecting.DataPatched | src/compiler.rs:1987-2008 | patching the jumps of the matching literals gives the tests with final targets |
| Executing.Interpreter.Exec | src/vm.rs:1189-1442 | the instruction loop with its trampoline, run within any fuel, reaches the configuration that the machine reaches in as many steps: the result given to its callers, the error, or no end yet; the call depth is restored |
| Executing.Interpreter.CallClosure | src/vm.rs:1444-1471 | a native recursive call does to the caller what pushing a frame and returning does |
| Executing.Interpreter.TailCallInstruction | src/vm.rs:1378-1425 | a tail call replaces the activation in place and leaves the call depth alone |
| Executing.Interpreter.BindArguments | src/vm.rs:1577-1608 | arguments become fresh cells, surplus ones a list, a wrong count an error |
| Executing.RunModule | src/vm.rs:1731-1752 | running a module within any fuel ends as the machine does: same globals and world, same error, or still running |
| Executing.RunProgram | src/vm.rs:1731-1752 | compiling and then running a program, both as implemented, computes its meaning |
| EnvGc.EnvGc.Sweep | src/vm.rs:970-1185 | one pass compacts the registry and leaves a heap that is the old one with exactly the slots cleared that hold a closure over an unmarked environment |
| EnvGc.EnvGc.Register | src/vm.rs:957-963 | after every registration the registry is shorter than the next threshold, and all automatic sweeps together have scanned at most twice the number of registrations |
| EnvGc.Discover | src/vm.rs:991-1038 | the walk finds every carrier reachable from a tracked environment's cells through pairs, vectors, hashes and lists, each once |
| EnvGc.FindChildren | src/vm.rs:1040-1088 | each node's children are exactly its tracked targets, with multiplicity |
| EnvGc.InDegrees | src/vm.rs:1096-1117 | the counters are the numbers of references from inside the tracked graph |
| EnvGc.Surpluses | src/vm.rs:1119-1133 | the worklist starts with exactly the nodes whose strong count exceeds what the graph explains |
| EnvGc.Mark | src/vm.rs:1135-1165 | the worklist loop marks exactly what the surplus nodes lead to |
| EnvGc.Clear | src/vm.rs:882-926 | of the slots of tracked carriers, clearing overwrites those that hold, or lead through lists to, a closure over a dead environment, and nothing else |
| GcTheory.SurplusAccounting | src/vm.rs:1096-1133 | on every heap: strong count less internal count is the outside references less what is counted again each further time a list is opened, and nothing but a list is opened twice |
| GcTheory.SurplusIsOutside | src/vm.rs:1119-1133 | where lists that lead somewhere are singly owned, a strong count above the internal count means exactly that a reference from outside the tracked graph exists |
| Sweeping.SweepIsSafe | src/vm.rs:970-1185 | on any heap in which what is referred to from outside the tracked graph is covered: nothing reachable from there is dead, and no slot of it is changed |
| Sweeping.SinglyOwnedCovered | src/vm.rs:937-945 | where lists that lead somewhere are singly owned, it is covered |
| Reclaiming.MarkedIsReachable | src/vm.rs:1135-1165 | on every heap, shared lists included, a marked node is reachable from outside the tracked graph |
| Reclaiming.MarkedIsLed | src/vm.rs:1119-1165 | on every heap, a node is marked exactly when edges lead to it from a node with more references from outside than are counted again each further time a list is opened |
| Reclaiming.MarkIsExact | src/vm.rs:1135-1165 | on any heap, "marked" and "reachable from outside the tracked graph" are the same for all nodes if and only if what is referred to from outside is covered: such a node, and every node such a list leads to, is marked |
| Reclaiming.SweepReclaims | src/vm.rs:1096-1184 | after clearing, reference counting alone, in any order, frees every registered environment not reachable from outside, on every heap; and it keeps everything reachable as it was where what is referred to from outside is covered |
| Reclaiming.ReleaseSettles | src/vm.rs:1167-1184 | reference counting always comes to rest |
| Reclaiming.ReleasedKeepsReachable | src/vm.rs:1167-1184 | freeing what has count zero never frees or changes what a root reaches |
| Reclaiming.SharedListIsUnsound | src/vm.rs:937-945 | that condition is needed: with a list held twice a sweep clears a slot that a root reaches |
| RcHeap.HeldCounts | src/vm.rs:1040-1088 | the references an allocation holds, slot by slot |
| Scanner.ReadOneText | src/reader.rs:532-536 | the scanner with its cursor, loops and depth counter reads what the grammar reads and leaves what it leaves |
| Scanner.Scanner.Form | src/reader.rs:195-210 | one form from any position and depth: same datum, same rest, same error, depth restored |
| Scanner.Scanner.SkipBlockComment | src/reader.rs:142-163 | the nested-comment loop consumes exactly the comment or fails when it is open at the end |
| Spelling.SpellingReads | src/reader.rs:195-473 | however a datum is spelled, with any of the four quote marks, decimal, `#x`, `#b` or `#o` integers in either case, escapes, character names, dotted tails, white space, line, block and datum comments between tokens, reading it gives the datum and leaves exactly the text behind it |
| Grammar.ReadsExactlySpellings | src/reader.rs:195-473 | the converse too: for every text, the reader gives a datum and a rest if and only if the text in front of the rest is a spelling of that datum within the nesting limit |
| Grammar.EndsExactlyGaps | src/reader.rs:71-140 | the reader finds the end of the text, and no error, if and only if nothing is left but white space and comments |
| Stability.StableForm | src/reader.rs:195-414 | a read that succeeded and did not end in a growing atom at the end of the text is unchanged by any text appended |
| BoundaryProof.BoundaryNeverMissed | src/vm.rs:2426-2529 | when the last character of a list, vector, string or other delimited datum arrives, the automaton reports a possible boundary, under nested comments, datum comments, string escapes and character literals, on texts in which no `#` within a token stands before a backslash, a bar or a semicolon |
| BoundaryProof.MarkerHidesEnd | src/vm.rs:2426-2529 | the condition is needed: the reader reads the list of one symbol whose name is `a#` and a bar, the automaton takes the bar for the start of a comment and misses the end of the list |
| BoundaryProof.FormPasses | src/vm.rs:2426-2515 | reading any form moves the automaton from outside a token to outside a token with its bracket depth unchanged |
| BoundaryProof.LenientForm | src/reader.rs:400-413 | what is read when a token may hold no such `#` is what the reader reads |
| Streaming.AdvanceAndMaybeRead | src/vm.rs:2609-2689 | feeding the new part of the buffer returns a datum only if it is the answer for the whole stream, and otherwise no delimited datum ended in that part |
| Streaming.NativeRead | src/vm.rs:2726-2782 | however the stream is cut into chunks, the reply and the rest are those of reading the whole stream at once; no chunk is taken after one that completes a delimited datum; and an atom put off is returned with the chunk that brings its delimiter exactly when that chunk wakes the automaton |
| Streaming.DelimiterWakes | src/vm.rs:2426-2529 | of all delimiters exactly the closing parenthesis and the quote marks wake the automaton after an atom has been put off |
| Streaming.DelimiterAlone | src/vm.rs:2690-2720 | the same for a chunk that is the delimiter alone, at any point of any stream |
| Streaming.AtomThenSpaceWaits | src/vm.rs:2690-2720 | the limit of promptness: a delimiter that completes an atom in a later chunk is no boundary |
| RoundTrip.ReadBack | src/value.rs:145-331 | reading the text of a datum before any separated rest gives that datum and exactly that rest, at any depth, or the nesting error exactly when it is too deep |
| RoundTrip.WriteThenRead | src/value.rs:343-351 | write and read are inverse for every printable datum of depth up to 512, and deeper ones are refused |
| Printer.MeaningOf | src/compiler.rs:484-521 | what is read back denotes the datum that was written, dotted tails merged |
| HeapPrinter.Writer.FmtValue | src/value.rs:191-229 | printing terminates on every heap, appends the specified text and restores the set of open ancestors |
| HeapPrinter.Writer.FmtPairChain | src/value.rs:244-305 | the loop along the spine, with its removal of every pair it entered |
| HeapPrinter.Writer.FmtVector | src/value.rs:309-331 | the same for vectors |
| HeapPrinter.CyclesShow | src/value.rs:231-331 | what is met inside itself is an ellipsis: `(a ...)`, `((...))`, `((...) ...)` and `#(#(...))` |
| HeapPrinter.OpaqueShow | src/value.rs:191-229 | procedures, hashes, the end of input and the unspecified value, in either style |
| Printer.StylesAgree | src/value.rs:191-229 | the displayed form, in which strings are their characters and characters themselves at any depth, is the written one exactly when there is no string and no character |
| Unfolding.PrintsUnfolding | src/value.rs:191-331 | on an acyclic heap, shared or not, the text is that of the tree the value unfolds to: the written form in style `Write`, the displayed one in style `Display` |
| CodecProof.ConstBack | src/bytecode.rs:428-496 | decoding the encoding of a constant before any bytes gives that constant and exactly those bytes if its depth is within the limit, and an error otherwise |
| CodecProof.ModuleBack | src/bytecode.rs:539-601 | decoding an encoded module gives it back exactly when every constant's depth is at most 512 and the entry exists; otherwise the stated error |
| Accepting.OnlyEncodings | src/bytecode.rs:539-601 | every file that is accepted is the encoding of the module it is decoded to, but for a flag that says true with another number than 1 and for what stands behind it; that module is within all limits |
| Accepting.ConstIs | src/bytecode.rs:416-496 | the same for a constant before any bytes |
| Accepting.PreambleIs | src/bytecode.rs:539-553 | a file is refused unless it starts with the eight bytes 77 76 66 67 1 2 0 0 |
| Vectors.Constants | src/bytecode.rs:267-294 | the bytes of one constant of each kind, written down by hand |
| Vectors.Compounds | src/bytecode.rs:284-323 | the same for lists, vectors and chains of pairs |
| Vectors.Container | src/bytecode.rs:341-368 | the bytes of a whole file |
| CodecRun.Encoder.PutModule | src/bytecode.rs:341-368 | the pushing encoder writes the specified bytes |
| CodecRun.Encoder.PutChain | src/bytecode.rs:295-322 | the loop along a pair spine writes what the recursive encoding of the pair says |
| CodecRun.ByteReader.GetConst | src/bytecode.rs:416-426 | the cursor-moving decoder of constants agrees with the specification on result and position |
| CodecRun.ByteReader.GetChain | src/bytecode.rs:428-496 | the spine loop collects the cars and folds them back into pairs, without using depth for spine links |
| CodecRun.DecodeModule | src/bytecode.rs:539-601 | the whole decoder, header to last chunk, on any bytes |
| Quasi.ProgramMeans | src/compiler.rs:967-1118 | in any language whose `run` treats `quote`, `list`, `append`, `fold-right` with `cons` and `list->vector` as it should, running the program text that replaces a template, at any level, runs the same unquoted programs in the same order as instantiating the template and ends in the same state with fresh structure of the shape it describes, or fails as it does |
| Quasi.TextMeans | src/compiler.rs:1090-1118 | such a language runs the text of each emitted form as the step it stands for, arguments from left to right |
| Quasi.ExtendedIsHonest | src/vm.rs:1803-1859 | any language, whatever it does with other programs, can be extended to one that treats these forms so |
| Quasi.ExpansionMeans | src/compiler.rs:967-1118 | the steps an expansion stands for give what instantiating the template gives, with dotted tails, vectors, splices and deeper levels |
| Quasi.ExpandsWhen | src/compiler.rs:967-1088 | the expansion succeeds exactly when no splice stands where it cannot and the nesting stays within the limit |
| Quasi.MarkedForms | src/compiler.rs:883-891 | a form is marked exactly when it is the list of the tag's symbol and one form |
| Quasi.EmittedText | src/compiler.rs:1009-1118 | the program text of each emitted form, letter for letter |
| Quasi.ListExpands | src/compiler.rs:1058-1118 | the program text for a quoted symbol, an unquoted form and a splice |
| Quasi.OthersExpand | src/compiler.rs:996-1037 | the program text for a vector and for a dotted tail |
| Quasi.DeeperExpands | src/compiler.rs:973-988 | inside a nested quasiquote the marks are built, and only the inner unquote is run |
| Equality.VerdictIsRight | src/value.rs:430-488 | on every heap, lists and cycles included, a verdict of the loop is true exactly when no path of car, cdr and index tells the two values apart |
| EqualPaths.EqualWhenPathsAgree | src/value.rs:415-429 | equal means: every path of car, cdr and index that one side can follow the other can follow too, to places that look the same, lists being pairs and a list and a chain of pairs alike; stated on the heap alone |
| EqualPaths.VerdictByPaths | src/value.rs:430-488 | on every heap, whenever the loop ends, its verdict is whether all such paths agree |
| Equality.EndsWhenGrounded | src/value.rs:430-488 | on every heap, the comparison of equal values ends exactly when it comes to no circle of comparisons that are not recorded |
| Equality.AcyclicListsGrounded | src/value.rs:434-452 | where no list lies on a cycle, it comes to no such circle |
| Equality.ValueEqual | src/value.rs:430-488 | the loop over its worklist, under that condition, ends with the right verdict |
| Equality.ListsEscape | src/value.rs:434-452 | on a cycle through lists the loop comes back to its own state forever, because list pairs are never recorded |
| MacroData.CodeDataCode | src/compiler.rs:484-521 | code turned into constants and back is the code with dotted lists normalised, exactly when the element, depth and work limits allow it, and an error otherwise |
| Normals.OneNormalForm | src/compiler.rs:484-521 | the normal form denotes what the form denotes, has no tail that could be merged, and is the same for two forms exactly when they denote the same datum |
| MacroValues.Convert | src/vm.rs:296-498 | the conversion as it runs, with its loops along spines and lists and the set of pairs passed, gives what the specification gives |
| MacroValues.ValueToCode | src/vm.rs:335-498 | on any heap, shared or cyclic, a value becomes code exactly when it unfolds to finite data within the limits, and then the code that those data are |
| MacroValues.CodeValueCode | src/vm.rs:192-230 | code turned into constants, these into values by `const_to_value`, and the values into code again on any later heap: the code with dotted lists normalised, exactly when the limits allow it |
| Division.QuotientRemainder | src/vm.rs:3409-3445 | truncating division with wrap-around: quotient times divisor plus remainder is the dividend modulo 2^64, exactly except for MIN / -1 |
| Division.ModuloLaw | src/vm.rs:3447-3471 | modulo is congruent to the dividend, has the divisor's sign and a smaller magnitude, without overflow |
| Division.StepsExact | src/vm.rs:3316-3336 | a chain of exact steps ends exactly when the product of the divisors divides the first argument, and its result times that product is the first argument modulo 2^64 |
| Division.NativeDivide | src/vm.rs:3338-3388 | variadic division fails exactly when some divisor is zero and is exact exactly when every step divides evenly; otherwise it is the float division by all divisors from the first that leaves a remainder on |

## Left out

- Command line, files, exit codes, the REPL thread and the channels behind standard input: plumbing around the algorithms; the input stream is a list of chunks.
- Native stack sizes, dedicated threads and `Drop` recursion: properties of Rust and the platform.
- Floats: opaque 64-bit patterns; their text form is a parameter of the reader and they are not printed, because `+inf.0` and `+nan.0` read back as symbols.
- Unicode tables and UTF-8: character classes and text encoding are parameters; a chunk that ends inside a character is a flag.
- `letrec`, named `let`, `do`, bodies that start with `define`, macro calls and quasiquote inside the compiled fragment: they bind through one global per source site and are not lexically exact under re-entry; recognising special forms in lists is left out with them.
- StructuredCode.ProgramIsStructured: these forms are not part of it either, although they emit nothing but MAKE_FUNCTION, DEF_GLOBAL, POP and calls.
- REPL entries and the trampoline budget of macro bodies.
- The remaining natives, error message texts, the textual disassembly and `expt`.
- Cells are indices into a growing store and captured environments are values; the collector works on its own heap model, so the machine's allocation of environments and the collector's heap are not one model.
- Natives that call closures back, such as `map`, `apply` or `fold-right` over user procedures (src/vm.rs:2974-3092): a native here sees its arguments and the world only.
- Running the machine over the collector's heap, with a registration at each MAKE_FUNCTION: that collection changes no result of a run is not stated.
- Programs.CompilerPreservesMeaning: one direction of its side condition only; a program outside `SafeForms` may still run well when the operand in question does run, or when no later code depends on the slots that are off.
- Integrity.EveryRunIsSound: a closure that no MAKE_FUNCTION made, put into the initial globals or returned by a native procedure, is reported as an error of its own and not excluded.
- BoundaryProof.BoundaryNeverMissed: texts with a `#` within a token before a backslash, a bar or a semicolon are outside it; `BoundaryProof.MarkerHidesEnd` shows that it fails on one.
- Streaming.NativeRead: a chunk of several characters may complete an atom and wake the automaton only later in the chunk; `Wakes` says so for the chunk as a whole.
- Sweeping.SweepIsSafe: needs what is referred to from outside to be covered, as it is where each list that leads to a closure or a mutable object has one holder; `Reclaiming.SharedListIsUnsound` shows that it fails without.
- Equality.ValueEqual: comparisons that are not grounded, on which the loop need not end: `Equality.EndsWhenGrounded` says exactly when for equal values, `Equality.ListsEscape` is an instance.
- RoundTrip.WriteThenRead: the symbol `#` is outside it, because before a vector's parenthesis it reads as part of the vector.
- Accepting.OnlyEncodings: which 1s of an encoding are flags is not stated; for flags that are written as 1, `CodecProof.ModuleBack` is the other direction.
- Quasi.ProgramMeans: a state is what programs can see, so building fresh structure leaves it as it is, and whether two results share storage is not stated; programs that redefine the natives the expansion calls are outside it.
- MacroValues.CodeValueCode: the value is converted back as it was made; `MacroValues.ValueToCode` covers values that a program has changed.
- Compiling.CompileClause: the jump to the next clause is patched when the clause ends and not when the next one begins; nothing is emitted in between.
