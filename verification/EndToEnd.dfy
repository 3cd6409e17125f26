/** End to end: for every seed and nonce, the code of each compiler leaves registers from
    which the final mix makes the same hash as the interpreter; and so does every context
    that was made for the seed. */
module EndToEnd {
  import opened Words
  import opened Vm
  import opened Phases
  import opened HashFunction
  import opened Stack
  import opened HashContext
  import Siphash
  import M86 = X86Machine
  import C86 = X86Correct
  import M64 = A64Machine
  import C64 = A64Correct
  import X86Compiler
  import A64Compiler
  import WasmMachine
  import WasmCompiler
  import WasmCorrect

  lemma ExecutedHash(l: ProgramList, seed: Seed, input: u64)
    requires GeneratedFor(l, seed)
    ensures && AllWellFormed(l)
            && Finalize(Execute(l, InitialRegs(RegisterKey(seed), input))) == Hash(seed, input)
  {
    hide Execute, InitialRegs, Finalize, Hash, AllWellFormed, GeneratedFor;
    GeneratedForSeed(l, seed);
    assert HashOf(l, RegisterKey(seed), input) == Hash(seed, input);
  }

  /** The call of x86-64 code returns, and stays returned, with registers that give the hash. */
  ghost predicate Hashed86(code: seq<u8>, l: ProgramList, seed: Seed, input: u64, s: M86.State, t: M86.State, r: Regs)
  {
    hide RegsAt, InitialRegs, Finalize, Hash, C86.StepCount, M86.Steps, M86.Address;
    && s.Live? && t.Live? && t.sp == s.sp && RegsAt(t.mem, M86.Address(s.x[7]), r) && Finalize(r) == Hash(seed, input)
    && forall n :: n >= C86.StepCount(l, InitialRegs(RegisterKey(seed), input)) ==>
         M86.Steps(code, M86.Running(0, s), n) == M86.Returned(t)
  }

  /** The call of AArch64 code, likewise. */
  ghost predicate Hashed64(code: seq<u32>, l: ProgramList, seed: Seed, input: u64, s: M64.State, t: M64.State, r: Regs)
  {
    hide RegsAt, InitialRegs, Finalize, Hash, C64.StepCount, M64.Steps, M64.Address;
    && s.Live? && t.Live? && t.sp == s.sp && RegsAt(t.mem, M64.Address(s.x[0]), r) && Finalize(r) == Hash(seed, input)
    && forall n :: n >= C64.StepCount(l, InitialRegs(RegisterKey(seed), input)) ==>
         M64.Steps(code, M64.Running(0, s), n) == M64.Returned(t)
  }

  lemma X86Hash(code: seq<u8>, l: ProgramList, seed: Seed, input: u64, s: M86.State) returns (t: M86.State, r: Regs)
    requires GeneratedFor(l, seed) && AllWellFormed(l) && C86.Compiled(code, l)
    requires C86.Callable(s, InitialRegs(RegisterKey(seed), input))
    ensures Hashed86(code, l, seed, input, s, t, r)
  {
    hide RegsAt, InitialRegs, Finalize, Hash, C86.StepCount, M86.Steps, M86.Address, Owns, Execute, AllWellFormed,
         GeneratedFor;
    hide C86.Compiled;
    var start := InitialRegs(RegisterKey(seed), input);
    t := C86.CallComputes(code, l, s, start);
    r := Execute(l, start);
    ExecutedHash(l, seed, input);
    var k := C86.StepCount(l, start);
    forall n | n >= k ensures M86.Steps(code, M86.Running(0, s), n) == M86.Returned(t) {
      M86.StepsAdd(code, M86.Running(0, s), k, n - k);
      M86.StepsReturned(code, t, n - k);
    }
  }

  lemma A64Hash(code: seq<u32>, l: ProgramList, seed: Seed, input: u64, s: M64.State) returns (t: M64.State, r: Regs)
    requires GeneratedFor(l, seed) && AllWellFormed(l) && C64.Compiled(code, l)
    requires C64.Callable(s, InitialRegs(RegisterKey(seed), input))
    ensures Hashed64(code, l, seed, input, s, t, r)
  {
    hide RegsAt, InitialRegs, Finalize, Hash, C64.StepCount, M64.Steps, M64.Address, Owns, Execute, AllWellFormed,
         GeneratedFor;
    hide C64.Compiled;
    var start := InitialRegs(RegisterKey(seed), input);
    t := C64.CallComputes(code, l, s, start);
    r := Execute(l, start);
    ExecutedHash(l, seed, input);
    var k := C64.StepCount(l, start);
    forall n | n >= k ensures M64.Steps(code, M64.Running(0, s), n) == M64.Returned(t) {
      M64.StepsAdd(code, M64.Running(0, s), k, n - k);
      M64.StepsReturned(code, t, n - k);
    }
  }

  /** WebAssembly: exec_begin puts the registers into memory, the module works on them, and
      exec_final makes the hash. */
  lemma WasmHash(l: ProgramList, seed: Seed, input: u64, mem: Memory, rp: WasmMachine.Word32, mp: WasmMachine.Word32, fuel: nat)
    returns (r: Regs)
    requires GeneratedFor(l, seed) && AllWellFormed(l) && WasmCompiler.AllLaidOut(l)
    requires WasmCorrect.Callable(mem, rp, mp, InitialRegs(RegisterKey(seed), input)) && BRANCH_LIMIT <= fuel
    ensures var e := WasmCorrect.Invoke(WasmCompiler.ModuleBytes(l), rp, mp, mem, fuel);
            && e.Next? && e.s.Live? && e.s.stack == WasmMachine.Empty
            && RegsAt(e.s.mem, rp, r) && Finalize(r) == Hash(seed, input)
  {
    hide RegsAt, InitialRegs, Finalize, Hash, WasmCorrect.Invoke, WasmCompiler.ModuleBytes, WasmCompiler.AllLaidOut;
    hide WasmCorrect.Callable, Execute, AllWellFormed, GeneratedFor;
    var start := InitialRegs(RegisterKey(seed), input);
    WasmCorrect.InvokeComputes(l, mem, rp, mp, start, fuel);
    r := Execute(l, start);
    ExecutedHash(l, seed, input);
  }

  // ----- contexts -----

  /** The code in a context that was made for a seed, called from any caller. */
  lemma X86Context(c: Context, seed: Seed, input: u64, s: M86.State) returns (t: M86.State, r: Regs)
    requires c.Allocated() && c.MadeFor(seed) && c.kind.CompiledX86?
    requires C86.Callable(s, InitialRegs(c.key, input))
    ensures Hashed86(c.x86[..], c.list, seed, input, s, t, r)
  {
    hide C86.Callable, InitialRegs, Finalize, Hash, C86.StepCount, M86.Steps, AllWellFormed, GeneratedFor;
    t, r := X86Hash(c.x86[..], c.list, seed, input, s);
  }

  lemma A64Context(c: Context, seed: Seed, input: u64, s: M64.State) returns (t: M64.State, r: Regs)
    requires c.Allocated() && c.MadeFor(seed) && c.kind.CompiledA64?
    requires C64.Callable(s, InitialRegs(c.key, input))
    ensures Hashed64(c.a64[..], c.list, seed, input, s, t, r)
  {
    hide C64.Callable, InitialRegs, Finalize, Hash, C64.StepCount, M64.Steps, AllWellFormed, GeneratedFor;
    t, r := A64Hash(c.a64[..], c.list, seed, input, s);
  }

  /** What a hash leaves in linear memory: the registers, and the scratchpad of the first phase. */
  predicate LeftIn(mem: Memory, rp: int, mp: int, r: Regs, l: ProgramList, key: Siphash.Key, input: u64) {
    hide InitialRegs, AllWellFormed;
    RegsAt(mem, rp, r) && PadAt(mem, mp, WasmCorrect.FinalPad(l, InitialRegs(key, input)))
  }

  /** The module of a context, in a linear memory that holds the context's registers at rp and
      its scratchpad at mp: the first half of the split fills the registers, the module works
      on them where they lie, and the second half makes the hash of what they are then. */
  method SplitHash(c: Context, input: u64, memory: Memory, rp: WasmMachine.Word32, mp: WasmMachine.Word32,
                   ghost seed: Seed)
    returns (h: u64, after: Memory)
    requires c.Allocated() && c.kind.CompiledWasm? && c.MadeFor(seed) && WasmCorrect.Linked(memory, rp, mp)
    modifies c.reg
    ensures h == Hash(seed, input) && LeftIn(after, rp, mp, c.reg[..], c.list, c.key, input)
  {
    hide InitialRegs, Finalize, Hash, WasmCorrect.Invoke, WasmCompiler.ModuleBytes, WasmCompiler.AllLaidOut, Execute,
         AllWellFormed, GeneratedFor, WithRegs, WasmCorrect.FinalPad, PadAt, RegistersFor, FinalHash;
    c.ExecBegin(input);
    ghost var start := c.reg[..];
    var m := WithRegs(memory, rp, c.reg[..]);
    WithRegsAt(memory, rp, start);
    var e := WasmCorrect.Invoke(c.wasm[..], rp, mp, m, BRANCH_LIMIT);
    WasmCorrect.InvokeComputes(c.list, m, rp, mp, start, BRANCH_LIMIT);
    after := e.s.mem;
    ghost var r := Execute(c.list, start);
    for j := 0 to REG_SIZE
      invariant forall k :: 0 <= k < j ==> c.reg[k] == r[k]
    {
      assert rp + 8 * j in after && after[rp + 8 * j] == r[j];
      c.reg[j] := after[rp + 8 * j];
    }
    assert c.reg[..] == r;
    ExecutedHash(c.list, seed, input);
    h := c.ExecFinal();
  }

  // ----- the premises can be met -----

  /** The premises of the three theorems are met by some caller, for every seed and nonce. */
  lemma CallersExist(seed: Seed, input: u64)
    returns (l: ProgramList, c86: seq<u8>, s86: M86.State, c64: seq<u32>, s64: M64.State, mem: Memory)
    ensures hide GeneratedFor, AllWellFormed, InitialRegs, WasmCompiler.AllLaidOut;
            GeneratedFor(l, seed) && AllWellFormed(l)
    ensures hide GeneratedFor, AllWellFormed, InitialRegs, C86.Compiled, C86.Callable;
            C86.Compiled(c86, l) && C86.Callable(s86, InitialRegs(RegisterKey(seed), input))
    ensures hide GeneratedFor, AllWellFormed, InitialRegs, C64.Compiled, C64.Callable;
            C64.Compiled(c64, l) && C64.Callable(s64, InitialRegs(RegisterKey(seed), input))
    ensures hide GeneratedFor, AllWellFormed, InitialRegs, WasmCompiler.AllLaidOut, WasmCorrect.Callable;
            WasmCompiler.AllLaidOut(l) && WasmCorrect.Callable(mem, 4096, 2048, InitialRegs(RegisterKey(seed), input))
  {
    hide InitialRegs, AllWellFormed, C86.Compiled, C86.Callable, C64.Compiled, C64.Callable, WasmCorrect.Callable;
    hide WasmCompiler.AllLaidOut, Programs, GeneratedFor, RegisterKey, X86Compiler.ListCode, A64Compiler.ListCode;
    var r := InitialRegs(RegisterKey(seed), input);
    l := Programs(seed);
    ProgramsGenerated(seed);
    GeneratedForSeed(l, seed);
    CodeExists(l);
    c86, c64 := X86Compiler.ListCode(l), A64Compiler.ListCode(l);
    C86.CompiledItself(l);
    C64.CompiledItself(l);
    WasmCorrect.AllLayout(l);
    s86 := C86.SomeCaller(r);
    s64 := C64.SomeCaller(r);
    mem := WasmCorrect.SomeCaller(r);
  }

  lemma ProgramsGenerated(seed: Seed)
    ensures GeneratedFor(Programs(seed), seed)
  {
  }

  lemma CodeExists(l: ProgramList)
    requires AllWellFormed(l)
    ensures forall i :: 0 <= i < NUM_PROGRAMS ==> Compilable(l[i]) && Compilable(l[i])
  {
    hide Layout, OperandsOk, HazardFree;
  }
}
