# HashWX in Dafny

HashWX turns a 32-byte seed into 32 random programs for a small 64-bit virtual machine and
hashes a nonce by running them: first with register operands, filling a scratchpad of 256
words, then with scratchpad operands. The programs are interpreted, or compiled to x86-64, to
AArch64 or to WebAssembly. This project models the generator, the interpreter and the three
compilers, and proves that **for every seed and nonce all of them give the same hash**.

The modules build on one another.

| part | modules |
|---|---|
| machine words and their laws in numbers, optional values, code slices, jump displacements | `Words`, `WordLaws`, `Wrappers`, `Slices`, `Displacements` |
| virtual machine, what its opcodes compute, phases, interpreter | `Vm`, `Arithmetic`, `Phases`, `Interpreter`, `Budget` |
| AArch64: machine, emitter, decoder, schedule, proof, hazard rules | `A64Machine`, `A64Compiler`, `A64Decode`, `A64Schedule`, `A64Order`, `A64Emitted`, `A64Simulation`, `A64Program`, `A64Correct`, `A64Hazards` |
| x86-64 | `X86Machine`, `X86Compiler`, `X86Decode`, `X86Simulation`, `X86Program`, `X86Frame`, `X86Correct` |
| scratchpad and register file in memory | `Stack` |
| WebAssembly: machine, binary format, emitter, proof | `WasmMachine`, `WasmBinary`, `WasmCompiler`, `WasmEmitted`, `WasmSimulation`, `WasmProgram`, `WasmCorrect` |
| random numbers, program generator | `Siphash`, `SourceTable`, `FisherYates`, `Generator`, `Multiplier` |
| the hash, calls of compiled code, contexts, end to end | `HashFunction`, `NativeCall`, `HashContext`, `EndToEnd` |

The shape of each compiler proof is the same. The emitting methods write a buffer in place and
are proved against a function that gives the emitted code (`ListCode`, `ModuleBytes`). A decoder
written from the target's own encoding rules reads that code back, and a step machine (for
WebAssembly a structured evaluator) gives it a meaning; both know only what is emitted, and
anything else is a fault, so a run that returns never left what was decoded. A simulation then
shows that running the code from its first byte, with a register file in memory, ends with
R0-R7 as the interpreter leaves them, after an exact number of steps.

- **AArch64** reorders heavily. `A64Schedule.ScheduleSound` proves once that any order which
  inverts only independent pairs keeps the meaning of straight-line code; `A64Order` shows that
  the emitted orders are such schedules for every well-formed program, from the hazard rules.
  `A64Hazards` shows that the rules are exact: where one is broken, there is a state in which
  the reordered loop gets another result than the interpreter.
- **x86-64** works in place and enters its loops two bytes behind their head. The invariant of
  the loop says where the counter is, in ebx or, while the zero flag is set, in ebp.
- **WebAssembly** is parsed back from all 11278 bytes: sections, padded sizes, expression.

`EndToEnd` puts the parts together for contexts: `HashContext.Context.Exec` hashes with the
interpreter or by running the compiled code of the context, and `EndToEnd.SplitHash` is the
sequence exec_begin, module, exec_final over one linear memory.

What interpreter and compilers share is described independently of its definition, so that they
cannot agree on something wrong: the word operations in `WordLaws` by integers and by bits, and
with them every opcode in `Arithmetic`; a round and the states of the random number generator by
what leads back from them; a generated program field by field in `Generator.Described`, which
leaves nothing open but the operands of HALT; keys by the bytes they hold, initial registers and
final mix by the generator's states and rounds.

The generator is shown to yield well-formed programs for every key. The conditions on operands
come from a table of 625 rows, which is proved to hold exactly the permitted permutations.

Where the code and its documentation disagree, the model follows the code. Outputs of a
generator state are drawn from the last word to the first (`src/siphash_rng.h:37-46`), while
`doc/specification.md:303` lists them first to last. The MUL immediates are 1, 9 and 33
(`src/program.c:23-25`), not those of the comment at `src/program.c:422`. The size assertions
at `src/compiler_wasm.c:310` and `src/compiler_wasm.c:406` name 173 and 179 bytes, but 170 and
176 are emitted, which is what adds up to the module size asserted at
`src/compiler_wasm.c:425`; `WasmCompiler.SizeAssertions` states both.

`dafny verify dfyconfig.toml` checks the project.

## Model

| member | source | states |
|---|---|---|
| Vm.Run | src/program_exec.c:13-76 | every run of a laid-out program terminates, by (branch counter, remaining instructions), and ends at the HALT in slot 9 |
| Vm.RunIsPasses | src/program_exec.c:17-75 | the fetch-execute loop computes pass-by-pass execution, and fetches exactly 10 + 8 * taken instructions |
| Vm.BodyKeepsFlag | src/program_exec.c:31-35 | the register that decides the branch still holds the RMCG result when BRANCH is reached |
| WordLaws.AddNumber | src/program_exec.c:39-41 | addition of words is addition modulo 2^64 |
| WordLaws.SubNumber | src/program_exec.c:42-44 | subtraction is subtraction modulo 2^64 |
| WordLaws.MulNumber | src/program_exec.c:22-30 | multiplication is multiplication modulo 2^64 |
| WordLaws.BitwiseBits | src/program_exec.c:22-64 | exclusive or, or and and act on every bit of the numbers |
| WordLaws.LsrNumber | src/program_exec.c:54-62 | the logical shift by n is the quotient by 2^n |
| WordLaws.AsrSigned | src/program_exec.c:45-53 | the arithmetic shift by n divides the two's-complement number by 2^n and rounds down |
| WordLaws.RotrNumber | src/program_exec.c:9-11 | a rotation to the right keeps the quotient by 2^n and moves the rest to the top |
| WordLaws.RotrUndone | src/program_exec.c:9-11 | rotating by 64 - n undoes rotating by n, for every n |
| WordLaws.RotlNumber | src/siphash_rng.h:10 | a rotation to the left multiplies by 2^n and puts what overflows below |
| WordLaws.Low32Number | src/program_exec.c:34 | narrowing to 32 bits is the rest modulo 2^32 |
| Arithmetic.ResultComputes | src/program_exec.c:22-62 | every opcode, for all operands, computes its meaning in integers: product, sum or difference modulo 2^64, or exclusive or bit by bit, of the rotated, signed-shifted or shifted destination and the source |
| Interpreter.FetchRun | src/program_exec.c:69-70 | a fetch ends the run exactly at HALT |
| Interpreter.ProgramExecuteReg | src/program_exec.c:13-76 | updates the register file in place to the outcome of the program and returns the remaining branch budget |
| Interpreter.ProgramExecuteMem | src/program_exec.c:78-141 | the same with operands mem[(x/8) % 256] |
| Interpreter.ProgramListExecute | src/program_exec.c:143-159 | both phases: the registers end as Execute says, whatever the uninitialised scratchpad held |
| Phases.CellsPartition | src/program_exec.c:149-151 | every scratchpad cell belongs to exactly one program and register |
| Phases.ScratchpadImage | src/program_exec.c:147-152 | after the writing phase cell 255 - 8 i - j holds Rj as program i left it |
| Phases.BlankIsEnough | src/program_exec.c:145-152 | what the scratchpad held before influences neither registers nor final scratchpad |
| Phases.WriteCostExact | src/program_exec.c:144-152 | n programs of the first phase fetch 10 n + 8 * taken instructions, at most 576 |
| Phases.ReadCostExact | src/program_exec.c:154-158 | the same for the second phase, whose budget starts again at 32 |
| Phases.WriteKeepsMultiplier | src/program_exec.c:147-152 | no run of the first phase writes R8 or R9 |
| Phases.ReadKeepsMultiplier | src/program_exec.c:156-158 | no run of the second phase writes R8 or R9 |
| Budget.BudgetTest | src/compiler_wasm.c:178-200 | bit 5 of (32 - budget) or flag is clear exactly when the budget is not used up and flag bit 5 is clear |
| Budget.CounterUp | src/compiler_wasm.c:190-196 | taking a branch adds one to the counter |
| Budget.CounterRange | src/compiler_a64.c:57-60 | the counter stays in 0..32 and is 32 exactly when the budget is used up |
| A64Compiler.EmitIsn | src/compiler_a64.c:15-22 | appends one word to the buffer and keeps what was emitted before |
| A64Compiler.EmitRegLoop | src/compiler_a64.c:189-227 | emits, instruction by instruction, the loop of a program in register mode |
| A64Compiler.EmitRegTail | src/compiler_a64.c:228-240 | emits the last instruction between the four stores chosen from its destination |
| A64Compiler.EmitMemLoop | src/compiler_a64.c:245-310 | emits, instruction by instruction, the loop of a program in scratchpad mode |
| A64Compiler.CompileProgramReg | src/compiler_a64.c:185-242 | appends the 26 words of a program in register mode |
| A64Compiler.CompileProgramMem | src/compiler_a64.c:244-316 | appends the 34 words of a program in scratchpad mode |
| A64Compiler.Compile | src/compiler_a64.c:319-339 | the buffer starts with the code of the list, 1936 of its 2048 words |
| A64Decode.PreXasDecodes | src/compiler_a64.c:140-151 | the emitted word decodes to ror, asr or lsr by the immediate |
| A64Decode.XasDecodes | src/compiler_a64.c:153-164 | the emitted word decodes to eor, add or sub |
| A64Decode.PremulDecodes | src/compiler_a64.c:111-138 | for immediates 1, 9 and 33 the template decodes to orr, eor or add with that value, as an immediate or from x10 or x11 |
| A64Decode.And2040Decodes | src/compiler_a64.c:179-183 | the logical immediate of the emitted word is 2040 |
| A64Decode.StorePairDecodes | src/compiler_a64.c:122-130 | the table entries decode to the pair stores at their offsets |
| A64Decode.BeqDecodes | src/compiler_a64.c:166-171 | for every distance in the range of the 19-bit displacement, the emitted b.eq leads back to its target |
| A64Schedule.Commute | src/compiler_a64.c:185-316 | two independent instructions have the same effect in either order, faults included |
| A64Schedule.ScheduleSound | src/compiler_a64.c:185-316 | an order that inverts only independent pairs keeps the meaning of straight-line code from every state |
| A64Order.RegSchedule | src/compiler_a64.c:189-227 | the emitted order of a register-mode loop is such a schedule, given two of the hazard rules |
| A64Order.MemSchedule | src/compiler_a64.c:246-310 | the emitted order of a scratchpad-mode loop is such a schedule |
| A64Order.TailOrderFacts | src/compiler_a64.c:228-240 | the four stores chosen from dst8 are all four pairs, each once |
| A64Order.TailSchedule | src/compiler_a64.c:228-240 | the pair that holds dst8 is stored after its last write, so the interleaving is a schedule |
| A64Emitted.RegLoopEncodes | src/compiler_a64.c:189-225 | each emitted word decodes to the scheduled instruction |
| A64Emitted.MemLoopEncodes | src/compiler_a64.c:246-308 | the same for scratchpad mode |
| A64Emitted.TailEncodes | src/compiler_a64.c:228-240 | the same for the last instruction and the stores |
| A64Simulation.BranchSim | src/compiler_a64.c:57-60 | orr, tst and cinc set the flag as the interpreter decides and count a taken branch |
| A64Simulation.XasMemSim | src/compiler_a64.c:173-183 | masking, loading from the stack and operating agree with the interpreter |
| A64Program.RegPass | src/compiler_a64.c:188-227 | one pass of the emitted loop computes the body of the program and branches as the interpreter does |
| A64Program.RegRun | src/compiler_a64.c:188-240 | the loop and its tail end with the outcome of the program, and R0-R7 are stored |
| A64Program.MemRun | src/compiler_a64.c:244-316 | likewise in scratchpad mode |
| A64Correct.StoredSpills | src/compiler_a64.c:122-130 | the four stores leave the block of a program: R0 on top, R7 at the bottom |
| A64Correct.WritePrograms | src/compiler_a64.c:324-326 | after n programs registers, counter and scratchpad on the stack are those of the writing phase |
| A64Correct.ReadPrograms | src/compiler_a64.c:330-332 | likewise for the reading phase |
| A64Correct.CallComputes | src/compiler_a64.c:319-339 | calling the code returns after an exact number of steps with the interpreter's result in the register file, and changes no other memory |
| A64Hazards.MemBroken | src/compiler_a64.c:244-316 | for each broken rule of the scratchpad loop, a state in which the reordered code gets another result than the interpreter |
| A64Hazards.HazardsExact | src/compiler_a64.c:244-316 | for operands in range, the reordered scratchpad loop agrees with the interpreter in every state if and only if the program obeys the hazard rules, and only then are all inverted pairs independent |
| A64Hazards.RegHazardsExact | src/compiler_a64.c:189-227 | the same for the register loop, which needs two of the rules |
| X86Compiler.EmitJz | src/compiler_x86.c:195-210 | emits the short or the near form, as the distance requires |
| X86Compiler.CompileProgramReg | src/compiler_x86.c:212-272 | appends 78 bytes, whatever the opcodes are |
| X86Compiler.CompileProgramMem | src/compiler_x86.c:274-342 | appends 141 bytes |
| X86Compiler.Compile | src/compiler_x86.c:344-362 | the buffer starts with the code of the list, 7628 of its 8192 bytes |
| X86Compiler.ShortOffsets | src/compiler_x86.c:198-201 | both loops are short enough for the two-byte jump |
| X86Decode.DecodeMulImm | src/compiler_x86.c:117-121 | the template decodes to or, xor or add with the immediate |
| X86Decode.DecodePreXas | src/compiler_x86.c:123-127 | the template decodes to ror, sar or shr by the immediate |
| X86Decode.DecodeXasReg | src/compiler_x86.c:129-133 | the template decodes to xor, add or sub of two registers |
| X86Decode.DecodeXasMem | src/compiler_x86.c:135-139 | the template decodes to xor, add or sub with the operand at [rsp+rax] |
| X86Decode.DecodeImul4d | src/compiler_x86.c:149-155 | the bytes decode to imul of two registers of R0-R7 |
| X86Decode.DecodeImul4c | src/compiler_x86.c:141-147 | the bytes decode to imul with a multiplier in rsi or rdi |
| X86Decode.DecodeImulMem | src/compiler_x86.c:157-164 | the bytes decode to imul with the operand at [rsp+rax] |
| X86Decode.DecodeTarget | src/compiler_x86.c:87-90 | the loop head decodes to test and, two bytes on, cmovz |
| X86Decode.DecodeBranch | src/compiler_x86.c:92-96 | the bytes decode to or, lea and test |
| X86Decode.DecodeJz | src/compiler_x86.c:195-210 | for every distance the jump, short or near, lands two bytes behind the loop head |
| X86Decode.DecodeNearJz | src/compiler_x86.c:203-208 | the displacement of the near form, counted from the end of its six bytes, is four more than the distance, backwards |
| X86Simulation.MaskedAddress | src/compiler_x86.c:109-111 | and eax, 2040 gives the byte offset of the word that (x/8) % 256 selects |
| X86Simulation.InPlaceResult | src/compiler_x86.c:219-257 | with distinct operands the two-address code computes the interpreter's result |
| X86Simulation.InPlaceNeedsDistinct | src/compiler_x86.c:219-257 | with equal operands it does not, for any opcode and immediate |
| X86Simulation.XasRegRun | src/compiler_x86.c:241-257 | running the emitted bytes of an XAS gives the interpreter's registers |
| X86Simulation.MulRegRun | src/compiler_x86.c:219-228 | the same for a MUL |
| X86Simulation.XasMemRun | src/compiler_x86.c:307-327 | the same with a scratchpad operand |
| X86Simulation.MulMemRun | src/compiler_x86.c:281-294 | the same for a MUL with a scratchpad operand |
| X86Simulation.HeadRun | src/compiler_x86.c:87-90 | entered from above, ebp is not zero and the test clears the flag |
| X86Simulation.RmcgRun | src/compiler_x86.c:229-240 | from two bytes into the head: ebx becomes the counter, RMCG is executed and its result saved for the branch |
| X86Simulation.BranchRun | src/compiler_x86.c:258-264 | the jump is taken as the interpreter decides, and where it lands the next cmovz counts it |
| X86Program.RegLoopRun | src/compiler_x86.c:212-272 | ebx counts exactly the branches taken, over all passes of a loop |
| X86Program.RegRun | src/compiler_x86.c:212-272 | entered from above, a register-mode program ends with its outcome |
| X86Program.MemRun | src/compiler_x86.c:274-342 | likewise a scratchpad-mode program |
| X86Program.PushesRun | src/compiler_x86.c:98-107 | the pushes store R0-R7 downwards |
| Stack.PushedSpills | src/compiler_x86.c:98-107 | which leaves the block of the program that the interpreter's scratchpad holds |
| Stack.SpillFills | src/program_exec.c:149-151 | storing such a block extends the image of the scratchpad by one program |
| X86Frame.SaveRun | src/compiler_x86.c:44-49 | the prologue saves the callee-saved registers |
| X86Frame.LoadRun | src/compiler_x86.c:50-59 | the prologue loads R0-R9 from the register file |
| X86Frame.StoreRun | src/compiler_x86.c:66-73 | the epilogue stores R0-R7 |
| X86Frame.RestoreRun | src/compiler_x86.c:74-79 | the epilogue restores the callee-saved registers |
| X86Correct.ClearStep | src/compiler_x86.c:113-115 | clearing ebx alone restarts the counter, although ebp keeps its value |
| X86Correct.WritePrograms | src/compiler_x86.c:349-352 | after n programs registers, counter and scratchpad on the stack are those of the writing phase |
| X86Correct.ReadPrograms | src/compiler_x86.c:356-358 | likewise for the reading phase |
| X86Correct.CallComputes | src/compiler_x86.c:344-362 | calling the code returns after an exact number of steps with the interpreter's result in the register file, callee-saved registers restored and no other memory changed |
| WasmBinary.SignedRoundTrip | src/compiler_wasm.c:101-103 | one- and two-byte signed LEB128 constants decode to themselves |
| WasmBinary.IsnRoundTrip | src/compiler_wasm.c:43-68 | decoding an encoded instruction gives it back |
| WasmBinary.RoundTrip | src/compiler_wasm.c:234-408 | decoding an encoded expression, with its nested blocks, gives it back wherever it lies |
| WasmCompiler.CompileProgramReg | src/compiler_wasm.c:234-312 | appends the 170 bytes of a program in register mode |
| WasmCompiler.CompileProgramMem | src/compiler_wasm.c:331-408 | appends the 176 bytes of a program in scratchpad mode |
| WasmCompiler.Compile | src/compiler_wasm.c:410-426 | the module fills the buffer of 11278 bytes exactly |
| WasmCompiler.PrefixLength | src/compiler_wasm.c:237-308 | positions within a program do not depend on its opcodes |
| WasmCompiler.SizeAssertions | src/compiler_wasm.c:20-21 | the size of the whole module is as asserted, those of single programs are three bytes less than asserted |
| WasmEmitted.OpsBytes | src/compiler_wasm.c:239-297 | the bytes of an arithmetic instruction are the encoding of its stack code, in both modes |
| WasmEmitted.BranchBytes | src/compiler_wasm.c:178-200 | the bytes of the branch are the encoding of the if with its br 1 |
| WasmEmitted.CodeSectionParses | src/compiler_wasm.c:89 | the padded section size 11227 reaches exactly to the end of the module |
| WasmEmitted.CodeParses | src/compiler_wasm.c:90 | the padded body size 11223 is exact, with 13 i64 locals |
| WasmEmitted.ModuleDecodes | src/compiler_wasm.c:75-104 | the emitted module parses, and its function has the body that the list means |
| WasmSimulation.ArithSim | src/compiler_wasm.c:258-297 | an arithmetic instruction gives the interpreter's registers, leaves the operand stack as it was, and RMCG leaves its result in the flag |
| WasmSimulation.SelectedRun | src/compiler_wasm.c:314-329 | the source sequence pushes the scratchpad word that the register selects |
| WasmProgram.BranchSim | src/compiler_wasm.c:178-200 | a taken branch counts and targets the loop, another falls through |
| WasmProgram.LoopSim | src/compiler_wasm.c:234-312 | the loop repeats once for each branch the interpreter takes and ends with a balanced stack and the outcome of the program |
| WasmCorrect.WritePrograms | src/compiler_wasm.c:414-416 | after n programs locals, $mp and scratchpad are those of the writing phase |
| WasmCorrect.ReadPrograms | src/compiler_wasm.c:420-422 | likewise for the reading phase |
| WasmCorrect.InvokeComputes | src/compiler_wasm.c:410-426 | calling the function of the emitted module leaves a balanced operand stack, the interpreter's result in the register file and all 256 words of its scratchpad at $mp, and changes no other memory |
| SourceTable.RowPermitted | src/program.c:40-354 | every row of the table obeys the permutation test and the rules for its eight positions |
| SourceTable.RowDigits | src/program.c:40-354 | read digit by digit, every row is a permutation of 0..7 |
| SourceTable.PermittedRow | src/program.c:40-354 | every permutation that obeys the rules is a row: the table is complete |
| SourceTable.RowsIncrease | src/program.c:40-354 | the rows increase lexicographically, so the 625 are distinct |
| SourceTable.HazardRules | src/program.c:379-385 | no instruction reads its own destination or a result that a compiler delays |
| SourceTable.DigitNumber | src/program.c:40-354 | digit i of a row is its number divided by 16^(7 - i), modulo 16 |
| FisherYates.ShuffleStep | src/program.c:371-376 | one more step puts the next number at place j, moves what was there to the end and keeps the rest |
| FisherYates.ShufflePermutes | src/program.c:368-377 | the shuffle of any number of elements is a permutation |
| FisherYates.ShuffleOnto | src/program.c:368-377 | every permutation is reached |
| FisherYates.ShuffleOneToOne | src/program.c:368-377 | by exactly one digit vector |
| Generator.GenDestinations | src/program.c:368-377 | the loop over the array computes the shuffle: a permutation whose k-th digit is the k-th selection word modulo k + 2 |
| Generator.GenSources | src/program.c:379-385 | source 0 is R8 or R9 by the parity of the word, source i the destination at digit i of row (word modulo 625) |
| Generator.GenImm | src/program.c:387-395 | 1, 9 or 33 for a MUL by the word modulo 3; 1 to 63 for a rotation and 1 to 3 for a shift, one more than the rest of the word modulo 63 or 3 |
| Generator.GenMulOpcode | src/program.c:356-360 | the opcode is number low % 3 of the enumeration, for the low half of the word; the high half is returned |
| Generator.GenXasOpcode | src/program.c:362-366 | the opcode is number 4 + low % 9 of the enumeration; the high half is returned |
| Generator.GenOpcodes | src/program.c:431-439 | seven draws set the opcodes, in the enumeration 4 + low % 9 and low % 3 in turn for the low halves of the words, and the destination selection to the high halves; nothing else of the program changes |
| Generator.ProgramGenerate | src/program.c:397-462 | the program in the buffer is a function of the sixteen words drawn and of the slot of its HALT, and is the one that they describe: opcodes by their numbers, destinations by the digits of the shuffle, sources by the row of the table, immediates by congruence |
| Generator.ProgramDescribed | src/program.c:397-462 | every generated program is the one that its words describe, field by field |
| Generator.DescriptionComplete | src/program.c:397-462 | two programs that the same words describe differ at most in the operands of HALT |
| Generator.ListDescribed | src/program.c:464-470 | for every key, program i is the one that outputs 16 i to 16 i + 15 describe |
| Generator.ProgramWellFormed | src/program.c:397-462 | whatever the words are, the program meets every condition that interpreter and compilers rely on |
| Generator.ProgramListGenerate | src/program.c:464-470 | program i is generated from outputs 16 i to 16 i + 15 of the generator salted with all ones, and is the one that they describe |
| Generator.GeneratedWellFormed | src/program.c:464-470 | for every key all 32 programs are well formed |
| Generator.LeftoversIrrelevant | src/program.c:456-461 | what the uninitialised HALT slots hold has no influence on the result |
| Siphash.Round | src/siphash_rng.h:11-18 | the step-by-step macro computes SipRound, and each of its four results by an equation in the operands and the other results |
| Siphash.RoundLaws | src/siphash_rng.h:11-18 | the four equations between the words before and after a round |
| Siphash.SipRoundInverse | src/siphash_rng.h:11-18 | SipRound is a bijection on four words, with its inverse |
| Siphash.InitUndone | src/siphash_rng.c:6-31 | three rounds back, the second salting and one round back lead from the initial state to the four constants, combined with the key and the salt |
| Siphash.SaltInjective | src/siphash_rng.c:6-31 | for a fixed key distinct salts give distinct states, although the salt enters twice |
| Siphash.MixUndone | src/siphash_rng.c:33-50 | four rounds back lead from the mixed state to the words before, combined with the key |
| Siphash.MixInverse | src/siphash_rng.c:33-50 | the mix step permutes the states |
| Siphash.FirstOutputs | src/siphash_rng.h:37-46 | the first four outputs are the state, last word first |
| Siphash.NextOutputs | src/siphash_rng.h:37-46 | after four outputs the stream goes on as that of the mixed state |
| Siphash.SiphashRng.constructor | src/siphash_rng.c:6-31 | the object starts the stream of the keyed and salted state, from which three rounds back, the second salting and one round back lead to the four keyed constants |
| Siphash.SiphashRng.Mix | src/siphash_rng.c:33-50 | the four words are mixed in place; four rounds back lead to the words before, each combined with its half of the key |
| Siphash.SiphashRng.Next | src/siphash_rng.h:37-46 | the k-th call returns word 3 - k % 4 of the state mixed k / 4 times |
| Multiplier.InverseExists | src/program_exec.c:31-35 | every odd word has an inverse modulo 2^64 |
| Multiplier.RmcgBijection | src/program_exec.c:31-35 | RMCG with an odd multiplier is a bijection on its destination, with its inverse |
| HashFunction.InitialRegisters | src/hashwx.c:44-53 | R3-R0 are the state of the generator salted with the nonce, R7-R4 the state after one mix, R8 and R9 are R4 and R7 with 3 and 5 for their rest modulo 8 |
| HashFunction.FinalMix | src/hashwx.c:64-67 | if R0-R3 and R4-R7 are what one round back makes of p and q, the hash is p.v3 ^ q.v3 ^ R9 |
| HashFunction.InitialMultipliers | src/hashwx.c:50-53 | R8 is 3 and R9 is 5 modulo 8 |
| Vm.PassesFrom | src/program_exec.c:63-68 | after k branches taken, what remains of a run is the run from the registers of pass k |
| HashFunction.WriteRmcgBijective | src/hashwx.c:50-53 | so every RMCG of every well-formed program, in every pass of its loop, is a bijection in the first phase |
| HashFunction.ReadRmcgBijective | src/hashwx.c:50-53 | and in the second, from what the first has left |
| HashFunction.DistinctNonces | src/hashwx.c:44-49 | distinct nonces start from register files that differ in R0-R3 |
| HashFunction.KeysHoldSeed | src/hashwx.c:25-29 | byte by byte, least significant first, the first key holds bytes 0-15 of the seed and the second bytes 16-31 |
| HashFunction.KeysDetermineSeed | src/hashwx.c:25-29 | the two keys hold the whole seed |
| HashFunction.GeneratedForSeed | src/hashwx.c:13-20 | any list generated for a seed is well formed and hashes as the seed determines |
| HashContext.Context.Make | src/hashwx.c:22-38 | the context holds the key of bytes 16-31 and programs generated from a key that holds bytes 0-15, least significant byte first, interpreted or compiled |
| NativeCall.Call86 | src/hashwx.c:56-58 | running x86-64 code that was compiled from a list, from any processor state with room for it, turns the register file into the result of the list |
| NativeCall.Call64 | src/hashwx.c:56-58 | the same for AArch64 code |
| HashContext.Context.Execute | src/hashwx.c:54-63 | the programs are interpreted or the code of the context is called, with the same result |
| HashContext.Context.Exec | src/hashwx.c:40-68 | a context made for a seed, interpreting or compiled for the host, returns the hash of seed and nonce |
| HashContext.Mix | src/hashwx.c:64-67 | the last two rounds over the register array give that hash |
| HashContext.Context.ExecBegin | src/hashwx.c:95-109 | the first half of the split leaves the initial registers in the context: generator state, state after a mix, and the two adjusted multipliers |
| HashContext.Context.ExecFinal | src/hashwx.c:111-126 | the second half makes the hash of the registers of the context, p.v3 ^ q.v3 ^ R9 if R0-R3 and R4-R7 are what one round back makes of p and q |
| EndToEnd.X86Hash | src/hashwx.c:40-68 | for every seed and nonce, calling the x86-64 code of the seed returns and leaves registers that give the hash |
| EndToEnd.A64Hash | src/hashwx.c:40-68 | the same for the AArch64 code |
| EndToEnd.WasmHash | src/hashwx.c:95-126 | for every seed and nonce, the module leaves registers in memory that give the hash |
| EndToEnd.X86Context | src/hashwx.c:40-68 | the x86-64 code in a context made for a seed returns, from any caller, with registers that give the hash |
| EndToEnd.A64Context | src/hashwx.c:40-68 | the same for the AArch64 code of a context |
| EndToEnd.SplitHash | js/hashwx.js:67-75 | exec_begin, the module of the context over the linear memory that holds its registers and scratchpad, and exec_final return the hash, and leave registers and scratchpad as the interpreter does |
| EndToEnd.CallersExist | src/hashwx.c:22-68 | the premises of the three theorems can be met for every seed and nonce: a generated list, its code, and a caller's registers and memory |

## Left out

- Memory is a map from addresses to 8-byte words. Accesses that straddle two words have no meaning in the machines; none is emitted for an aligned caller.
- A64Compiler.EmitIsn: the buffer holds 32-bit words where the original writes four little-endian bytes; every store into it is one aligned word.
- X86Correct.CallComputes: the return address that call and ret pass on the stack is not part of the memory; the Windows calling convention is not modelled.
- WasmCorrect.InvokeComputes: static validation of the module is replaced by a dynamic check that operands have the right type and that blocks leave their stack empty; of the module structure only the five emitted sections are read.
- HashContext.Context.Exec: the call through a function pointer is a run of the step machine from a state that the caller gives. Contexts with a WebAssembly module are hashed by EndToEnd.SplitHash only: their union holds the bytes of the module, which the direct call would read as programs (src/context.h:18-22).
- Page protection, cache flushing, allocation and the loading of modules by the JavaScript glue: operating system and host calls without a property of their own.
- Debug assertions on pointers and on has_program.
- The full instruction sets: only what is emitted decodes.
- Statistical quality of the random programs, known-answer hashes and benchmarks.
