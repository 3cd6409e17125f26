/** Contexts: a seed makes a list of programs or the code compiled from it, and a nonce is
    hashed by interpreting the programs or by calling the code. */
module HashContext {
  import opened Words
  import opened Vm
  import opened Phases
  import opened Siphash
  import opened Generator
  import opened HashFunction
  import opened NativeCall
  import Interpreter
  import A64Compiler
  import A64Correct
  import A64Machine
  import X86Compiler
  import X86Correct
  import X86Machine
  import WasmBinary
  import WasmCompiler

  datatype Kind = Interpreted | CompiledX86 | CompiledA64 | CompiledWasm

  /** The processor, its registers and memory at the moment when compiled code is called. */
  datatype Host = HostX86(x86: X86Machine.State) | HostA64(a64: A64Machine.State)

  /** What a direct hash needs of its host. A module is not called in this way: its context
      holds the bytes of the module where others hold programs. */
  predicate Serves(host: Host, kind: Kind) {
    match kind
    case Interpreted => true
    case CompiledX86 => host.HostX86? && X86Correct.Ready(host.x86)
    case CompiledA64 => host.HostA64? && A64Correct.Ready(host.a64)
    case CompiledWasm => false
  }

  /** The value of a list of program buffers. */
  ghost function Rows(programs: seq<array<Instruction>>): (l: ProgramList)
    requires |programs| == NUM_PROGRAMS && forall i :: 0 <= i < NUM_PROGRAMS ==> programs[i].Length == PROGRAM_SIZE
    reads programs
  {
    seq(NUM_PROGRAMS, i requires 0 <= i < NUM_PROGRAMS reads programs => programs[i][..])
  }

  /** Fresh memory for a list of programs. */
  method NewPrograms() returns (programs: seq<array<Instruction>>)
    ensures Buffers(programs) && forall i :: 0 <= i < NUM_PROGRAMS ==> fresh(programs[i])
  {
    programs := [];
    for i := 0 to NUM_PROGRAMS
      invariant |programs| == i
      invariant forall k :: 0 <= k < i ==> programs[k].Length == PROGRAM_SIZE && fresh(programs[k])
      invariant forall j, k :: 0 <= j < k < i ==> programs[j] != programs[k]
    {
      var p := new Instruction[PROGRAM_SIZE](_ => Instruction(HALT, 0, 0, 0));
      programs := programs + [p];
    }
  }

  method Read(programs: seq<array<Instruction>>) returns (l: ProgramList)
    requires Buffers(programs)
    ensures l == Rows(programs)
  {
    var s: seq<Program> := [];
    for i := 0 to NUM_PROGRAMS
      invariant |s| == i && forall k :: 0 <= k < i ==> s[k] == programs[k][..]
    {
      s := s + [programs[i][..]];
    }
    l := s;
  }

  /** Generates the programs of a seed in place. */
  method Initialize(key: Key, programs: seq<array<Instruction>>, ghost seed: Seed)
    requires Buffers(programs) && key == ProgramKey(seed)
    modifies programs
    ensures GeneratedFor(Rows(programs), seed)
  {
    hide GeneratedList, ProgramKey, Described, Words16;
    ghost var left := Leftovers(programs);
    ProgramListGenerate(key, programs);
    assert Rows(programs) == GeneratedList(key, left);
  }

  /** The programs of a seed, generated in memory that is not kept. */
  method LocalPrograms(key: Key, ghost seed: Seed) returns (l: ProgramList)
    requires key == ProgramKey(seed)
    ensures GeneratedFor(l, seed) && AllWellFormed(l)
  {
    hide GeneratedFor, AllWellFormed, ProgramKey;
    var local := NewPrograms();
    Initialize(key, local, seed);
    l := Read(local);
    GeneratedForSeed(l, seed);
  }

  /** The last mix, in place. */
  method Mix(r: array<u64>) returns (h: u64)
    requires r.Length == REG_SIZE
    modifies r
    ensures h == Finalize(old(r[..]))
    ensures FinalHash(old(r[..]), h)
  {
    hide SipRound, Xor, FinalHash;
    FinalMixAll(r[..]);
    r[0], r[1], r[2], r[3] := Round(r[0], r[1], r[2], r[3]);
    r[4], r[5], r[6], r[7] := Round(r[4], r[5], r[6], r[7]);
    h := Xor(Xor(r[3], r[7]), r[9]);
  }

  class Context {
    const kind: Kind
    const programs: seq<array<Instruction>>
    const x86: array<u8>
    const a64: array<u32>
    const wasm: array<WasmBinary.Byte>
    const reg: array<u64>
    var key: Key
    ghost var list: ProgramList

    ghost predicate Allocated() {
      && Buffers(programs)
      && x86.Length == X86Compiler.CODE_SIZE && a64.Length == A64Compiler.CODE_WORDS
      && wasm.Length == WasmCompiler.CODE_SIZE
      && reg.Length == REG_SIZE
    }

    /** The context holds a list in the form of its kind. */
    ghost predicate Holds(l: ProgramList)
      requires Allocated() && AllWellFormed(l)
      reads programs, x86, a64, wasm
    {
      match kind
      case Interpreted => Rows(programs) == l
      case CompiledX86 => X86Correct.Compiled(x86[..], l)
      case CompiledA64 => A64Correct.Compiled(a64[..], l)
      case CompiledWasm => WasmCompiler.AllLaidOut(l) && wasm[..] == WasmCompiler.ModuleBytes(l)
    }

    /** The context holds what its kind needs to hash with a seed. */
    ghost predicate MadeFor(seed: Seed)
      requires Allocated()
      reads this, programs, x86, a64, wasm
    {
      hide GeneratedFor, AllWellFormed, Holds, RegisterKey;
      key == RegisterKey(seed) && GeneratedFor(list, seed) && AllWellFormed(list) && Holds(list)
    }

    constructor (kind: Kind)
      ensures Allocated() && this.kind == kind
      ensures fresh(x86) && fresh(a64) && fresh(wasm) && fresh(reg)
      ensures forall i :: 0 <= i < NUM_PROGRAMS ==> fresh(programs[i])
    {
      this.kind := kind;
      var ps := NewPrograms();
      programs := ps;
      x86 := new u8[X86Compiler.CODE_SIZE];
      a64 := new u32[A64Compiler.CODE_WORDS];
      wasm := new WasmBinary.Byte[WasmCompiler.CODE_SIZE](_ => 0);
      reg := new u64[REG_SIZE];
      key := Key(0, 0);
      list := Blank32();
    }

    /** Compiles a list into the buffer of the context. */
    method Compile(l: ProgramList)
      requires Allocated() && AllWellFormed(l) && !kind.Interpreted?
      modifies x86, a64, wasm
      ensures Holds(l)
    {
      hide AllWellFormed, X86Compiler.ListCode, A64Compiler.ListCode, WasmCompiler.ModuleBytes;
      CompilableAll(l);
      match kind {
        case CompiledX86 => var _ := X86Compiler.Compile(x86, l);
        case CompiledA64 => var _ := A64Compiler.Compile(a64, l);
        case CompiledWasm => var _ := WasmCompiler.Compile(wasm, l);
      }
    }

    /** Makes the context for a seed: 32 bytes that hold two keys. */
    method Make(seed: Seed)
      requires Allocated()
      modifies this, programs, x86, a64, wasm
      ensures MadeFor(seed)
      ensures KeyHolds(key, seed[16..]) && GeneratedFromBytes(list, seed[..16])
    {
      hide KeyHolds, GeneratedFromBytes, GeneratedFor, AllWellFormed, WordAt, X86Correct.Compiled, A64Correct.Compiled, WasmCompiler.ModuleBytes,
           WasmCompiler.AllLaidOut;
      var k0 := Key(WordAt(seed, 0), WordAt(seed, 1));
      var k1 := Key(WordAt(seed, 2), WordAt(seed, 3));
      KeysHoldSeed(seed);
      if kind.Interpreted? {
        Initialize(k0, programs, seed);
        key, list := k1, Rows(programs);
        GeneratedForSeed(list, seed);
      } else {
        var l := LocalPrograms(k0, seed);
        key, list := k1, l;
        Compile(l);
      }
      GeneratedForBytes(list, seed);
    }

    /** Eight words drawn from the generator salted with the nonce, and the multipliers. */
    method InitRegisters(r: array<u64>, input: u64)
      requires r.Length == REG_SIZE
      modifies r
      ensures r[..] == InitialRegs(key, input)
    {
      hide Output, AdjustR8, AdjustR9, InitState, Mixes, SipUnround, Xor;
      var gen := new SiphashRng(key, input);
      ghost var q := InitState(key, input);
      for i := 0 to 8
        invariant gen.Valid() && fresh(gen) && fresh(gen.state) && gen.key == key && gen.start == q && gen.drawn == i
        invariant forall k :: 0 <= k < i ==> r[k] == Output(key, q, k)
      {
        r[i] := gen.Next();
      }
      r[8] := AdjustR8(r[4]);
      r[9] := AdjustR9(r[7]);
      assert r[..] == InitialRegs(key, input);
    }

    /** Both phases over the registers, interpreted or by the compiled code. */
    method Execute(r: array<u64>, host: Host)
      requires Allocated() && r.Length == REG_SIZE && Serves(host, kind)
      requires AllWellFormed(list) && Holds(list)
      modifies r
      ensures r[..] == Phases.Execute(list, old(r[..]))
    {
      hide AllWellFormed, Phases.Execute, X86Correct.Compiled, A64Correct.Compiled, X86Correct.Ready, A64Correct.Ready;
      match kind {
        case CompiledX86 => Call86(x86, r, host.x86, list);
        case CompiledA64 => Call64(a64, r, host.a64, list);
        case Interpreted =>
          var l := Read(programs);
          Interpreter.ProgramListExecute(l, r);
      }
    }

    /** Hashes a nonce, by interpretation or by calling the compiled code. */
    method Exec(input: u64, host: Host, ghost seed: Seed) returns (h: u64)
      requires Allocated() && MadeFor(seed) && Serves(host, kind)
      ensures h == Hash(seed, input)
    {
      hide GeneratedFor, AllWellFormed, InitialRegs, Phases.Execute, Finalize, Hash, Serves, Holds;
      var r := new u64[REG_SIZE];
      InitRegisters(r, input);
      GeneratedForSeed(list, seed);
      Execute(r, host);
      h := Mix(r);
      assert h == HashOf(list, key, input);
    }

    /** First half of the split hash: the registers are left for the module. */
    method ExecBegin(input: u64)
      requires Allocated()
      modifies reg
      ensures reg[..] == InitialRegs(key, input)
      ensures RegistersFor(key, input, reg[..])
    {
      hide InitialRegs, RegistersFor;
      InitialRegisters(key, input);
      InitRegisters(reg, input);
    }

    /** Second half of the split hash. */
    method ExecFinal() returns (h: u64)
      requires Allocated()
      ensures h == Finalize(reg[..])
      ensures FinalHash(reg[..], h)
    {
      hide SipRound, Xor, FinalHash;
      FinalMixAll(reg[..]);
      var r0, r1, r2, r3 := reg[0], reg[1], reg[2], reg[3];
      var r4, r5, r6, r7 := reg[4], reg[5], reg[6], reg[7];
      var r9 := reg[9];
      r0, r1, r2, r3 := Round(r0, r1, r2, r3);
      r4, r5, r6, r7 := Round(r4, r5, r6, r7);
      h := Xor(Xor(r3, r7), r9);
    }
  }

  function Blank32(): ProgramList {
    seq(NUM_PROGRAMS, _ => seq(PROGRAM_SIZE, _ => Instruction(HALT, 0, 0, 0)))
  }

  lemma CompilableAll(l: ProgramList)
    requires AllWellFormed(l)
    ensures && (forall i :: 0 <= i < NUM_PROGRAMS ==> Compilable(l[i]))
            && (forall i :: 0 <= i < NUM_PROGRAMS ==> Compilable(l[i]))
            && WasmCompiler.AllLaidOut(l)
  {
    hide Layout, OperandsOk, HazardFree;
  }
}
