/** The WebAssembly back end: the bytes of the module it emits for a list of programs, and
    the emitting methods. */
module WasmCompiler {
  import opened Vm
  import opened Phases
  import opened WasmBinary

  // ----- the format -----

  const ALIGN: Byte := 3

  const PAR_RP: Byte := 0x00
  const PAR_MP: Byte := 0x01
  const LOC_R0: Byte := 0x02
  const LOC_BC: Byte := 0x0c
  const LOC_BF: Byte := 0x0d
  const LOC_MM: Byte := 0x0e

  const OP_LOOP: Byte := 0x03
  const OP_IF: Byte := 0x04
  const OP_END: Byte := 0x0b
  const OP_BR: Byte := 0x0c
  const OP_GET: Byte := 0x20
  const OP_SET: Byte := 0x21
  const OP_TEE: Byte := 0x22
  const OP_LOAD: Byte := 0x29
  const OP_STORE: Byte := 0x37
  const OP_CONST_32: Byte := 0x41
  const OP_CONST_64: Byte := 0x42
  const OP_EQZ: Byte := 0x50
  const OP_ADD_32: Byte := 0x6a
  const OP_SUB_32: Byte := 0x6b
  const OP_ADD_64: Byte := 0x7c
  const OP_SUB_64: Byte := 0x7d
  const OP_MUL: Byte := 0x7e
  const OP_AND: Byte := 0x83
  const OP_OR: Byte := 0x84
  const OP_XOR: Byte := 0x85
  const OP_SHRS: Byte := 0x87
  const OP_SHRU: Byte := 0x88
  const OP_ROR: Byte := 0x8a
  const OP_WRAP_32: Byte := 0xa7

  const TYPE_VOID: Byte := 0x40
  const TYPE_FUNC: Byte := 0x60
  const TYPE_I64: Byte := 0x7e
  const TYPE_I32: Byte := 0x7f

  // ----- constant pieces -----

  /** Everything before the first instruction: the magic number and the version, the type,
      import, function and export sections, and the start of the code section with the
      padded sizes 11227 and 11223. */
  function HeaderByte(k: nat): Byte
    requires k < 58
  {
    match k
    case 0 => 0x00 case 1 => 0x61 case 2 => 0x73 case 3 => 0x6d
    case 4 => 0x01 case 5 => 0x00 case 6 => 0x00 case 7 => 0x00
    case 8 => 0x01 case 9 => 0x06 case 10 => 0x01
    case 11 => TYPE_FUNC case 12 => 2 case 13 => TYPE_I32 case 14 => TYPE_I32 case 15 => 0
    case 16 => 0x02 case 17 => 0x0f case 18 => 0x01 case 19 => 0x03 case 20 => 0x65 case 21 => 0x6e case 22 => 0x76
    case 23 => 0x06 case 24 => 0x6d case 25 => 0x65 case 26 => 0x6d case 27 => 0x6f case 28 => 0x72 case 29 => 0x79
    case 30 => 0x02 case 31 => 0x00 case 32 => 0x01
    case 33 => 0x03 case 34 => 0x02 case 35 => 0x01 case 36 => 0x00
    case 37 => 0x07 case 38 => 0x08 case 39 => 0x01
    case 40 => 0x04 case 41 => 0x65 case 42 => 0x78 case 43 => 0x65 case 44 => 0x63 case 45 => 0x00 case 46 => 0x00
    case 47 => 0x0a case 48 => 0xdb case 49 => 0xd7 case 50 => 0x00 case 51 => 1
    case 52 => 0xd7 case 53 => 0xd7 case 54 => 0x00 case 55 => 1 case 56 => 13 case _ => TYPE_I64
  }

  function Header(): (b: seq<Byte>)
    ensures |b| == 58
  {
    seq(58, k requires 0 <= k < 58 => HeaderByte(k))
  }

  /** Loads register k from the register file. */
  function LoadRow(k: nat): (b: seq<Byte>)
    requires k < REG_SIZE
    ensures |b| == 7
  {
    [OP_GET, PAR_RP, OP_LOAD, ALIGN, 8 * k, OP_SET, LOC_R0 + k]
  }

  function LoadRows(n: nat): (b: seq<Byte>)
    requires n <= REG_SIZE
    ensures |b| == 7 * n
  {
    if n == 0 then [] else LoadRows(n - 1) + LoadRow(n - 1)
  }

  /** Sets the branch counter and the address mask and moves $mp to the end of the scratchpad. */
  function Setup(): (b: seq<Byte>)
    ensures |b| == 17
  {
    [OP_CONST_64, 0, OP_SET, LOC_BC,
     OP_CONST_64, 0xf8, 0x0f, OP_SET, LOC_MM,
     OP_CONST_32, 0x80, 0x10, OP_GET, PAR_MP, OP_ADD_32, OP_SET, PAR_MP]
  }

  function CodePrologue(): (b: seq<Byte>)
    ensures |b| == 145
  {
    Header() + LoadRows(REG_SIZE) + Setup()
  }

  /** Stores register k at a pointer. */
  function StoreRow(pointer: Byte, k: nat, off: Byte): (b: seq<Byte>)
    requires k < 8
    ensures |b| == 7
  {
    [OP_GET, pointer, OP_GET, LOC_R0 + k, OP_STORE, ALIGN, off]
  }

  /** The first n stores of R0-R7 at the register file, upwards. */
  function ResultRows(n: nat): (b: seq<Byte>)
    requires n <= 8
    ensures |b| == 7 * n
  {
    if n == 0 then [] else ResultRows(n - 1) + StoreRow(PAR_RP, n - 1, 8 * (n - 1))
  }

  /** The first n stores of R0-R7 at $mp, downwards. */
  function SpillRows(n: nat): (b: seq<Byte>)
    requires n <= 8
    ensures |b| == 7 * n
  {
    if n == 0 then [] else SpillRows(n - 1) + StoreRow(PAR_MP, n - 1, 56 - 8 * (n - 1))
  }

  function CodeEpilogue(): (b: seq<Byte>)
    ensures |b| == 57
  {
    ResultRows(8) + [OP_END]
  }

  function CodeClearBc(): (b: seq<Byte>)
    ensures |b| == 4
  {
    [OP_CONST_64, 0x00, OP_SET, LOC_BC]
  }

  function CodeRegPrologue(): (b: seq<Byte>)
    ensures |b| == 10
  {
    [OP_GET, PAR_MP, OP_CONST_32, 0xc0, 0x00, OP_SUB_32, OP_SET, PAR_MP, OP_LOOP, TYPE_VOID]
  }

  function CodeRegEpilogue(): (b: seq<Byte>)
    ensures |b| == 57
  {
    [OP_END] + SpillRows(8)
  }

  function CodeBranch(): (b: seq<Byte>)
    ensures |b| == 21
  {
    [OP_GET, LOC_BC, OP_GET, LOC_BF, OP_OR, OP_CONST_64, 32, OP_AND, OP_EQZ, OP_IF, TYPE_VOID,
     OP_CONST_64, 1, OP_GET, LOC_BC, OP_ADD_64, OP_SET, LOC_BC, OP_BR, 0x01, OP_END]
  }

  // ----- the code of one instruction -----

  function LookupPre(op: Opcode): Byte {
    match op
    case MULOR => OP_OR
    case MULXOR => OP_XOR
    case MULADD => OP_ADD_64
    case XORROR => OP_ROR case ADDROR => OP_ROR case SUBROR => OP_ROR
    case XORASR => OP_SHRS case ADDASR => OP_SHRS case SUBASR => OP_SHRS
    case XORLSR => OP_SHRU case ADDLSR => OP_SHRU case SUBLSR => OP_SHRU
    case _ => 0x00
  }

  function LookupPost(op: Opcode): Byte {
    match op
    case MULOR => OP_MUL case MULXOR => OP_MUL case MULADD => OP_MUL
    case XORROR => OP_XOR case ADDROR => OP_ADD_64 case SUBROR => OP_SUB_64
    case XORASR => OP_XOR case ADDASR => OP_ADD_64 case SUBASR => OP_SUB_64
    case XORLSR => OP_XOR case ADDLSR => OP_ADD_64 case SUBLSR => OP_SUB_64
    case _ => 0x00
  }

  /** The immediate is one byte and, being below 64, a complete signed LEB128 integer. */
  function ImmByte(i: Instruction): (b: Byte)
    ensures b < 64
  {
    i.imm as nat
  }

  function MulRegBytes(i: Instruction): (b: seq<Byte>)
    ensures |b| == 10
  {
    [OP_GET, LOC_R0 + i.dst, OP_CONST_64, ImmByte(i), LookupPre(i.opcode), OP_GET, LOC_R0 + i.src, OP_MUL,
     OP_SET, LOC_R0 + i.dst]
  }

  function RmcgBytes(i: Instruction): (b: seq<Byte>)
    ensures |b| == 12
  {
    [OP_GET, LOC_R0 + i.dst, OP_GET, LOC_R0 + i.src, OP_MUL, OP_CONST_64, ImmByte(i), OP_ROR,
     OP_TEE, LOC_R0 + i.dst, OP_SET, LOC_BF]
  }

  function XasRegBytes(i: Instruction): (b: seq<Byte>)
    ensures |b| == 10
  {
    [OP_GET, LOC_R0 + i.dst, OP_CONST_64, ImmByte(i), LookupPre(i.opcode), OP_GET, LOC_R0 + i.src, LookupPost(i.opcode),
     OP_SET, LOC_R0 + i.dst]
  }

  /** Loads the scratchpad word that a register selects. */
  function MemSrcBytes(src: RegIndex): (b: seq<Byte>)
    ensures |b| == 12
  {
    [OP_GET, LOC_R0 + src, OP_GET, LOC_MM, OP_AND, OP_WRAP_32, OP_GET, PAR_MP, OP_ADD_32, OP_LOAD, ALIGN, 0]
  }

  function MulMemBytes(i: Instruction): (b: seq<Byte>)
    ensures |b| == 20
  {
    MemSrcBytes(i.src)
    + [OP_GET, LOC_R0 + i.dst, OP_CONST_64, ImmByte(i), LookupPre(i.opcode), OP_MUL, OP_SET, LOC_R0 + i.dst]
  }

  function XasMemBytes(i: Instruction): (b: seq<Byte>)
    ensures |b| == 20
  {
    [OP_GET, LOC_R0 + i.dst, OP_CONST_64, ImmByte(i), LookupPre(i.opcode)] + MemSrcBytes(i.src)
    + [LookupPost(i.opcode), OP_SET, LOC_R0 + i.dst]
  }

  /** What is emitted for one instruction of the first or, with mem, the second phase. */
  function IsnBytes(mem: bool, i: Instruction): (b: seq<Byte>)
    ensures |b| == if i.opcode.RMCG? then 12 else if i.opcode.BRANCH? then 21 else if i.opcode.HALT? then 0
                   else if mem then 20 else 10
  {
    if i.opcode.RMCG? then RmcgBytes(i)
    else if i.opcode.BRANCH? then CodeBranch()
    else if i.opcode.HALT? then []
    else if i.opcode.IsMul() then if mem then MulMemBytes(i) else MulRegBytes(i)
    else if mem then XasMemBytes(i) else XasRegBytes(i)
  }

  // ----- the code of a program -----

  function Prefix(mem: bool, p: Program, n: nat): seq<Byte>
    requires n <= PROGRAM_SIZE
  {
    if n == 0 then [] else Prefix(mem, p, n - 1) + IsnBytes(mem, p[n - 1])
  }

  /** Where the code of instruction i starts, counted from the first instruction; the
      opcodes do not matter. */
  function Offset(mem: bool, i: nat): nat
    requires i <= PROGRAM_SIZE
  {
    if i == 0 then 0
    else if i <= 7 then 12 + (if mem then 20 else 10) * (i - 1)
    else if i == 8 then if mem then 153 else 93
    else if mem then 173 else 103
  }

  lemma {:induction false} PrefixLength(mem: bool, p: Program, i: nat)
    requires Layout(p) && i <= PROGRAM_SIZE
    ensures |Prefix(mem, p, i)| == Offset(mem, i)
  {
    hide IsnBytes;
    if i > 0 {
      PrefixLength(mem, p, i - 1);
      var op := p[i - 1].opcode;
      assert op.RMCG? <==> i == 1;
      assert op.BRANCH? <==> i == 8;
      assert op.HALT? <==> i == 10;
    }
  }

  const REG_BYTES: nat := 170
  const MEM_BYTES: nat := 176

  function RegCode(p: Program): (b: seq<Byte>)
    requires Layout(p)
    ensures |b| == REG_BYTES
  {
    PrefixLength(false, p, PROGRAM_SIZE);
    CodeRegPrologue() + Prefix(false, p, PROGRAM_SIZE) + CodeRegEpilogue()
  }

  function MemCode(p: Program): (b: seq<Byte>)
    requires Layout(p)
    ensures |b| == MEM_BYTES
  {
    PrefixLength(true, p, PROGRAM_SIZE);
    [OP_LOOP, TYPE_VOID] + Prefix(true, p, PROGRAM_SIZE) + [OP_END]
  }

  predicate AllLaidOut(l: ProgramList) {
    forall i :: 0 <= i < NUM_PROGRAMS ==> Layout(l[i])
  }

  function RegCodes(l: ProgramList, n: nat): (b: seq<Byte>)
    requires n <= NUM_PROGRAMS && AllLaidOut(l)
    ensures |b| == REG_BYTES * n
  {
    if n == 0 then [] else RegCodes(l, n - 1) + RegCode(l[n - 1])
  }

  function MemCodes(l: ProgramList, n: nat): (b: seq<Byte>)
    requires n <= NUM_PROGRAMS && AllLaidOut(l)
    ensures |b| == MEM_BYTES * n
  {
    if n == 0 then [] else MemCodes(l, n - 1) + MemCode(l[n - 1])
  }

  const CODE_SIZE: nat := 11278

  /** The module that is emitted for a list of programs. */
  function ModuleBytes(l: ProgramList): (b: seq<Byte>)
    requires AllLaidOut(l)
    ensures |b| == CODE_SIZE
  {
    hide CodePrologue, RegCodes, MemCodes, CodeEpilogue, CodeClearBc;
    CodePrologue() + RegCodes(l, NUM_PROGRAMS) + CodeClearBc() + MemCodes(l, NUM_PROGRAMS) + CodeEpilogue()
  }

  /** The sizes that the debug assertions expect of the two kinds of programs. */
  const WASM_REG_PROGRAM_SIZE: nat := 173
  const WASM_MEM_PROGRAM_SIZE: nat := 179

  /** The assertion on the whole module holds for every list, and those on single programs
      for none: the sizes they name do not even add up to that of the module. */
  lemma SizeAssertions(l: ProgramList, i: nat)
    requires AllLaidOut(l) && i < NUM_PROGRAMS
    ensures |ModuleBytes(l)| == CODE_SIZE
    ensures |RegCode(l[i])| == WASM_REG_PROGRAM_SIZE - 3 && |MemCode(l[i])| == WASM_MEM_PROGRAM_SIZE - 3
    ensures |CodePrologue()| + NUM_PROGRAMS * (WASM_REG_PROGRAM_SIZE + WASM_MEM_PROGRAM_SIZE) + |CodeClearBc()| + |CodeEpilogue()|
            == CODE_SIZE + 192
  {
    hide ModuleBytes, RegCode, MemCode, CodePrologue, CodeClearBc, CodeEpilogue, Layout;
  }

  // ----- the emitting methods -----

  method EmitBytes(code: array<Byte>, pos: nat, bytes: seq<Byte>) returns (next: nat)
    requires pos + |bytes| <= code.Length
    modifies code
    ensures next == pos + |bytes|
    ensures code[..next] == old(code[..pos]) + bytes
  {
    for k := 0 to |bytes|
      invariant code[..pos + k] == old(code[..pos]) + bytes[..k]
    {
      code[pos + k] := bytes[k];
    }
    next := pos + |bytes|;
  }

  method EmitMemSrc(code: array<Byte>, pos: nat, src: RegIndex) returns (next: nat)
    requires pos + 12 <= code.Length
    modifies code
    ensures next == pos + 12 && code[..next] == old(code[..pos]) + MemSrcBytes(src)
  {
    next := EmitBytes(code, pos, MemSrcBytes(src));
  }

  method EmitIsnReg(code: array<Byte>, pos: nat, i: Instruction) returns (next: nat)
    requires pos + |IsnBytes(false, i)| <= code.Length
    modifies code
    ensures next == pos + |IsnBytes(false, i)|
    ensures code[..next] == old(code[..pos]) + IsnBytes(false, i)
  {
    hide MulRegBytes, RmcgBytes, XasRegBytes, CodeBranch;
    next := pos;
    match i.opcode {
      case MULOR | MULXOR | MULADD =>
        next := EmitBytes(code, pos, MulRegBytes(i));
      case RMCG =>
        next := EmitBytes(code, pos, RmcgBytes(i));
      case BRANCH =>
        next := EmitBytes(code, pos, CodeBranch());
      case HALT =>
      case _ =>
        next := EmitBytes(code, pos, XasRegBytes(i));
    }
  }

  method EmitMulMem(code: array<Byte>, pos: nat, i: Instruction) returns (next: nat)
    requires pos + 20 <= code.Length
    modifies code
    ensures next == pos + 20 && code[..next] == old(code[..pos]) + MulMemBytes(i)
  {
    hide MemSrcBytes, LookupPre;
    next := EmitMemSrc(code, pos, i.src);
    next := EmitBytes(code, next,
      [OP_GET, LOC_R0 + i.dst, OP_CONST_64, ImmByte(i), LookupPre(i.opcode), OP_MUL, OP_SET, LOC_R0 + i.dst]);
  }

  method EmitXasMem(code: array<Byte>, pos: nat, i: Instruction) returns (next: nat)
    requires pos + 20 <= code.Length
    modifies code
    ensures next == pos + 20 && code[..next] == old(code[..pos]) + XasMemBytes(i)
  {
    hide MemSrcBytes, LookupPre, LookupPost;
    next := EmitBytes(code, pos, [OP_GET, LOC_R0 + i.dst, OP_CONST_64, ImmByte(i), LookupPre(i.opcode)]);
    next := EmitMemSrc(code, next, i.src);
    next := EmitBytes(code, next, [LookupPost(i.opcode), OP_SET, LOC_R0 + i.dst]);
  }

  method EmitIsnMem(code: array<Byte>, pos: nat, i: Instruction) returns (next: nat)
    requires pos + |IsnBytes(true, i)| <= code.Length
    modifies code
    ensures next == pos + |IsnBytes(true, i)|
    ensures code[..next] == old(code[..pos]) + IsnBytes(true, i)
  {
    hide MulMemBytes, XasMemBytes, RmcgBytes, CodeBranch;
    next := pos;
    match i.opcode {
      case MULOR | MULXOR | MULADD =>
        next := EmitMulMem(code, pos, i);
      case RMCG =>
        next := EmitBytes(code, pos, RmcgBytes(i));
      case BRANCH =>
        next := EmitBytes(code, pos, CodeBranch());
      case HALT =>
      case _ =>
        next := EmitXasMem(code, pos, i);
    }
  }

  lemma PrefixStep(mem: bool, p: Program, i: nat)
    requires Layout(p) && i < PROGRAM_SIZE
    ensures |Prefix(mem, p, i)| == Offset(mem, i)
    ensures Prefix(mem, p, i + 1) == Prefix(mem, p, i) + IsnBytes(mem, p[i])
    ensures Offset(mem, i + 1) == Offset(mem, i) + |IsnBytes(mem, p[i])| <= Offset(mem, PROGRAM_SIZE)
  {
    hide IsnBytes;
    PrefixLength(mem, p, i);
    PrefixLength(mem, p, i + 1);
  }

  method CompileProgramReg(program: Program, code: array<Byte>, start: nat) returns (pos: nat)
    requires Layout(program) && start + REG_BYTES <= code.Length
    modifies code
    ensures pos == start + REG_BYTES
    ensures code[..pos] == old(code[..start]) + RegCode(program)
  {
    hide Layout, IsnBytes, Prefix, Offset, CodeRegPrologue, CodeRegEpilogue;
    pos := EmitBytes(code, start, CodeRegPrologue());
    PrefixZero(false, program);
    for i := 0 to PROGRAM_SIZE
      invariant pos == start + 10 + Offset(false, i) <= code.Length
      invariant code[..pos] == old(code[..start]) + CodeRegPrologue() + Prefix(false, program, i)
    {
      PrefixStep(false, program, i);
      pos := EmitIsnReg(code, pos, program[i]);
    }
    pos := EmitBytes(code, pos, CodeRegEpilogue());
  }

  lemma PrefixZero(mem: bool, p: Program)
    ensures Prefix(mem, p, 0) == [] && Offset(mem, 0) == 0
    ensures Offset(false, PROGRAM_SIZE) == 103 && Offset(true, PROGRAM_SIZE) == 173
  {
  }

  method CompileProgramMem(program: Program, code: array<Byte>, start: nat) returns (pos: nat)
    requires Layout(program) && start + MEM_BYTES <= code.Length
    modifies code
    ensures pos == start + MEM_BYTES
    ensures code[..pos] == old(code[..start]) + MemCode(program)
  {
    hide Layout, IsnBytes, Prefix, Offset;
    ghost var head: seq<Byte> := [OP_LOOP, TYPE_VOID];
    pos := EmitBytes(code, start, [OP_LOOP, TYPE_VOID]);
    PrefixZero(true, program);
    for i := 0 to PROGRAM_SIZE
      invariant pos == start + 2 + Offset(true, i) <= code.Length
      invariant code[..pos] == old(code[..start]) + head + Prefix(true, program, i)
    {
      PrefixStep(true, program, i);
      pos := EmitIsnMem(code, pos, program[i]);
    }
    pos := EmitBytes(code, pos, [OP_END]);
  }

  /** Compiles a list of programs; the module fills the buffer exactly. */
  method Compile(code: array<Byte>, l: ProgramList) returns (pos: nat)
    requires code.Length == CODE_SIZE && AllLaidOut(l)
    modifies code
    ensures pos == CODE_SIZE && code[..] == ModuleBytes(l)
  {
    hide Layout, RegCode, MemCode, CodePrologue, CodeEpilogue, CodeClearBc;
    pos := EmitBytes(code, 0, CodePrologue());
    for i := 0 to NUM_PROGRAMS
      invariant pos == 145 + REG_BYTES * i
      invariant code[..pos] == CodePrologue() + RegCodes(l, i)
    {
      pos := CompileProgramReg(l[i], code, pos);
    }
    pos := EmitBytes(code, pos, CodeClearBc());
    ghost var first := CodePrologue() + RegCodes(l, NUM_PROGRAMS) + CodeClearBc();
    for i := 0 to NUM_PROGRAMS
      invariant pos == |first| + MEM_BYTES * i
      invariant code[..pos] == first + MemCodes(l, i)
    {
      pos := CompileProgramMem(l[i], code, pos);
    }
    pos := EmitBytes(code, pos, CodeEpilogue());
    assert code[..pos] == code[..];
  }
}
