/** The x86-64 back end (System V calling convention): the bytes it emits for a program,
    and the emitting methods. */
module X86Compiler {
  import opened Words
  import opened Displacements
  import opened Vm
  import opened Phases

  // ----- constant pieces -----

  function PrologueByte(k: nat): u8
    requires k < 57
  {
    match k
    case 0 => 0x48 case 1 => 0x89 case 2 => 0xf9
    case 3 => 0x53
    case 4 => 0x55
    case 5 => 0x41 case 6 => 0x54
    case 7 => 0x41 case 8 => 0x55
    case 9 => 0x41 case 10 => 0x56
    case 11 => 0x41 case 12 => 0x57
    case 13 => 0x4c case 14 => 0x8b case 15 => 0x01
    case 16 => 0x4c case 17 => 0x8b case 18 => 0x49 case 19 => 0x08
    case 20 => 0x4c case 21 => 0x8b case 22 => 0x51 case 23 => 0x10
    case 24 => 0x4c case 25 => 0x8b case 26 => 0x59 case 27 => 0x18
    case 28 => 0x4c case 29 => 0x8b case 30 => 0x61 case 31 => 0x20
    case 32 => 0x4c case 33 => 0x8b case 34 => 0x69 case 35 => 0x28
    case 36 => 0x4c case 37 => 0x8b case 38 => 0x71 case 39 => 0x30
    case 40 => 0x4c case 41 => 0x8b case 42 => 0x79 case 43 => 0x38
    case 44 => 0x48 case 45 => 0x8b case 46 => 0x71 case 47 => 0x40
    case 48 => 0x48 case 49 => 0x8b case 50 => 0x79 case 51 => 0x48
    case 52 => 0x31 case 53 => 0xdb
    case 54 => 0x8d case 55 => 0x6b case _ => 0x01
  }

  function CodePrologue(): (b: seq<u8>)
    ensures |b| == 57
  {
    seq(57, k requires 0 <= k < 57 => PrologueByte(k))
  }

  function EpilogueByte(k: nat): u8
    requires k < 49
  {
    match k
    case 0 => 0x48 case 1 => 0x81 case 2 => 0xc4 case 3 => 0x00 case 4 => 0x08 case 5 => 0x00 case 6 => 0x00
    case 7 => 0x4c case 8 => 0x89 case 9 => 0x01
    case 10 => 0x4c case 11 => 0x89 case 12 => 0x49 case 13 => 0x08
    case 14 => 0x4c case 15 => 0x89 case 16 => 0x51 case 17 => 0x10
    case 18 => 0x4c case 19 => 0x89 case 20 => 0x59 case 21 => 0x18
    case 22 => 0x4c case 23 => 0x89 case 24 => 0x61 case 25 => 0x20
    case 26 => 0x4c case 27 => 0x89 case 28 => 0x69 case 29 => 0x28
    case 30 => 0x4c case 31 => 0x89 case 32 => 0x71 case 33 => 0x30
    case 34 => 0x4c case 35 => 0x89 case 36 => 0x79 case 37 => 0x38
    case 38 => 0x41 case 39 => 0x5f
    case 40 => 0x41 case 41 => 0x5e
    case 42 => 0x41 case 43 => 0x5d
    case 44 => 0x41 case 45 => 0x5c
    case 46 => 0x5d
    case 47 => 0x5b
    case _ => 0xc3
  }

  function CodeEpilogue(): (b: seq<u8>)
    ensures |b| == 49
  {
    seq(49, k requires 0 <= k < 49 => EpilogueByte(k))
  }

  /** test ebp, ebp; cmovz ebx, ebp */
  function CodeTarget(): (b: seq<u8>)
    ensures |b| == 5
  {
    [0x85, 0xed, 0x0f, 0x44, 0xdd]
  }

  /** or edx, ebx; lea ebp, [rbx+1]; test dl, 32 */
  function CodeBranch(): (b: seq<u8>)
    ensures |b| == 8
  {
    [0x09, 0xda, 0x8d, 0x6b, 0x01, 0xf6, 0xc2, 0x20]
  }

  /** push r8, ..., push r15 */
  function CodeStore(): (b: seq<u8>)
    ensures |b| == 16
  {
    [0x41, 0x50, 0x41, 0x51, 0x41, 0x52, 0x41, 0x53, 0x41, 0x54, 0x41, 0x55, 0x41, 0x56, 0x41, 0x57]
  }

  /** and eax, 2040 */
  function CodeAddress(): (b: seq<u8>)
    ensures |b| == 5
  {
    [0x25, 0xf8, 0x07, 0x00, 0x00]
  }

  /** xor ebx, ebx */
  function CodeClearBc(): (b: seq<u8>)
    ensures |b| == 2
  {
    [0x31, 0xdb]
  }

  // ----- templates -----

  /** or, xor, add */
  function TplMul(k: nat): u32 {
    match k
    case 0 => 0x00c8_8349
    case 1 => 0x00f0_8349
    case _ => 0x00c0_8349
  }

  /** ror, sar, shr */
  function TplPreXas(k: nat): u32 {
    match k
    case 0 => 0x00c8_c149
    case 1 => 0x00f8_c149
    case _ => 0x00e8_c149
  }

  /** xor, add, sub */
  function TplXasReg(k: nat): u32 {
    match k
    case 0 => 0xc031
    case 1 => 0xc001
    case _ => 0xc029
  }

  /** xor, add, sub */
  function TplXasMem(k: nat): u32 {
    match k
    case 0 => 0x0404_334c
    case 1 => 0x0404_034c
    case _ => 0x0404_2b4c
  }

  function ImulReg4c(dst: u32, src: u32): (b: seq<u8>)
    ensures |b| == 4
  {
    Bytes32(0xc0af_0f4c | (src << 24) | (dst << 27))
  }

  function ImulReg4d(dst: u32, src: u32): (b: seq<u8>)
    ensures |b| == 4
  {
    Bytes32(0xc0af_0f4d | (src << 24) | (dst << 27))
  }

  /** imul dst, qword ptr [rsp+rax] */
  function ImulMem(dst: u32): (b: seq<u8>)
    ensures |b| == 5
  {
    [0x4c] + Bytes32(0x0404_af0f | (dst << 19))
  }

  function OpImmBytes(tpl: u32, dst: u32, imm: u32): (b: seq<u8>)
    ensures |b| == 4
  {
    Bytes32(tpl | (dst << 16) | (imm << 24))
  }

  /** The two low bytes of a template, behind a prefix. */
  function OpRegBytes(prefix: u8, tpl: u32, dst: u32, src: u32): (b: seq<u8>)
    ensures |b| == 3
  {
    var w := tpl | (dst << 8) | (src << 11);
    [prefix, Byte0(w), Byte1(w)]
  }

  function OpMemBytes(tpl: u32, dst: u32): (b: seq<u8>)
    ensures |b| == 4
  {
    Bytes32(tpl | (dst << 19))
  }

  /** A backward jump over dist bytes, which lands two bytes behind its target. The
      displacement is relative to the end of the jump: two bytes, or six when it is near. */
  function JzBytes(dist: nat): seq<u8>
    requires dist < 0x1_0000_0000
  {
    JzOffset(Back(Word32(dist)))
  }

  function Back(w: u32): u32 { 0 - w }

  function JzOffset(offset: u32): seq<u8> {
    if offset >= 0xffff_ff80 then [0x74, Byte0(offset)] else [0x0f, 0x84] + Bytes32(offset - 4)
  }

  // ----- the code of one instruction -----

  function RmcgBytes(i: Instruction): (b: seq<u8>)
    requires i.src >= 8
    ensures |b| == 16
  {
    CodeTarget() + ImulReg4c(U32(i.dst), U32(i.src - 2)) + OpImmBytes(0x00c8_c149, U32(i.dst), i.imm)
    + OpRegBytes(0x4c, 0xc089, 2, U32(i.dst))
  }

  function MulRegBytes(i: Instruction): (b: seq<u8>)
    requires i.opcode.IsMul()
    ensures |b| == 8
  {
    OpImmBytes(TplMul(i.opcode.Num()), U32(i.dst), i.imm) + ImulReg4d(U32(i.dst), U32(i.src))
  }

  function XasRegBytes(i: Instruction): (b: seq<u8>)
    requires i.opcode.IsXas()
    ensures |b| == 7
  {
    OpImmBytes(TplPreXas((i.opcode.Num() - 4) / 3), U32(i.dst), i.imm)
    + OpRegBytes(0x4d, TplXasReg((i.opcode.Num() - 4) % 3), U32(i.dst), U32(i.src))
  }

  function MulMemBytes(i: Instruction): (b: seq<u8>)
    requires i.opcode.IsMul()
    ensures |b| == 17
  {
    OpRegBytes(0x4c, 0xc089, 0, U32(i.src)) + OpImmBytes(TplMul(i.opcode.Num()), U32(i.dst), i.imm)
    + CodeAddress() + ImulMem(U32(i.dst))
  }

  function XasMemBytes(i: Instruction): (b: seq<u8>)
    requires i.opcode.IsXas()
    ensures |b| == 16
  {
    OpRegBytes(0x4c, 0xc089, 0, U32(i.src)) + OpImmBytes(TplPreXas((i.opcode.Num() - 4) / 3), U32(i.dst), i.imm)
    + CodeAddress() + OpMemBytes(TplXasMem((i.opcode.Num() - 4) % 3), U32(i.dst))
  }

  // ----- the code of a program -----

  const REG_SPAN: nat := 69
  const MEM_SPAN: nat := 123
  const REG_BYTES: nat := 78
  const MEM_BYTES: nat := 141
  const STORE_BYTES: nat := 16

  /** From the loop head to the branch, 69 or 123 bytes, so that the jump is short. */
  function RegBody(p: Program): (b: seq<u8>)
    requires Compilable(p)
    ensures |b| == REG_SPAN
  {
    RmcgBytes(p[0]) + XasRegBytes(p[1]) + MulRegBytes(p[2]) + XasRegBytes(p[3]) + MulRegBytes(p[4])
    + XasRegBytes(p[5]) + MulRegBytes(p[6]) + CodeBranch()
  }

  function MemBody(p: Program): (b: seq<u8>)
    requires Compilable(p)
    ensures |b| == MEM_SPAN
  {
    RmcgBytes(p[0]) + XasMemBytes(p[1]) + MulMemBytes(p[2]) + XasMemBytes(p[3]) + MulMemBytes(p[4])
    + XasMemBytes(p[5]) + MulMemBytes(p[6]) + CodeBranch()
  }

  /** Both spans are short enough for the two-byte jump. */
  lemma ShortJump(w: u32)
    ensures w == 69 ==> JzOffset(Back(w)) == [0x74, 0xbb]
    ensures w == 123 ==> JzOffset(Back(w)) == [0x74, 0x85]
  {
  }

  lemma ShortOffsets(dist: nat)
    requires dist == REG_SPAN || dist == MEM_SPAN
    ensures JzBytes(dist) == [0x74, if dist == REG_SPAN then 0xbb else 0x85]
  {
    hide JzOffset, Back;
    if dist == 69 {
      assert Word32(dist) == 69;
    } else {
      assert Word32(dist) == 123;
    }
    ShortJump(Word32(dist));
  }

  function RegCode(p: Program): (b: seq<u8>)
    requires Compilable(p)
    ensures |b| == REG_BYTES
  {
    hide JzBytes, RegBody, XasRegBytes;
    ShortOffsets(REG_SPAN);
    RegBody(p) + JzBytes(REG_SPAN) + XasRegBytes(p[8])
  }

  function MemCode(p: Program): (b: seq<u8>)
    requires Compilable(p)
    ensures |b| == MEM_BYTES
  {
    hide JzBytes, MemBody, XasMemBytes;
    ShortOffsets(MEM_SPAN);
    MemBody(p) + JzBytes(MEM_SPAN) + XasMemBytes(p[8])
  }

  function RegCodes(l: ProgramList, n: nat): (b: seq<u8>)
    requires n <= NUM_PROGRAMS && forall i :: 0 <= i < NUM_PROGRAMS ==> Compilable(l[i])
    ensures |b| == (REG_BYTES + STORE_BYTES) * n
  {
    if n == 0 then [] else RegCodes(l, n - 1) + RegCode(l[n - 1]) + CodeStore()
  }

  function MemCodes(l: ProgramList, n: nat): (b: seq<u8>)
    requires n <= NUM_PROGRAMS && forall i :: 0 <= i < NUM_PROGRAMS ==> Compilable(l[i])
    ensures |b| == MEM_BYTES * n
  {
    if n == 0 then [] else MemCodes(l, n - 1) + MemCode(l[n - 1])
  }

  /** The function that is emitted for a list of programs. */
  function ListCode(l: ProgramList): seq<u8>
    requires forall i :: 0 <= i < NUM_PROGRAMS ==> Compilable(l[i])
  {
    CodePrologue() + RegCodes(l, NUM_PROGRAMS) + CodeClearBc() + MemCodes(l, NUM_PROGRAMS) + CodeEpilogue()
  }

  // ----- instruction by instruction -----

  /** What is emitted for one instruction. */
  function RegIsnBytes(i: Instruction): (b: seq<u8>)
    requires i.opcode.RMCG? ==> i.src >= 8
    ensures |b| == if i.opcode.RMCG? then 16 else if i.opcode.BRANCH? then 10 else if i.opcode.HALT? then 0
                   else if i.opcode.IsMul() then 8 else 7
  {
    hide RmcgBytes, XasRegBytes, MulRegBytes, JzBytes, CodeBranch;
    ShortOffsets(REG_SPAN);
    if i.opcode.RMCG? then RmcgBytes(i)
    else if i.opcode.BRANCH? then CodeBranch() + JzBytes(REG_SPAN)
    else if i.opcode.HALT? then []
    else if i.opcode.IsMul() then MulRegBytes(i)
    else XasRegBytes(i)
  }

  function MemIsnBytes(i: Instruction): (b: seq<u8>)
    requires i.opcode.RMCG? ==> i.src >= 8
    ensures |b| == if i.opcode.RMCG? then 16 else if i.opcode.BRANCH? then 10 else if i.opcode.HALT? then 0
                   else if i.opcode.IsMul() then 17 else 16
  {
    hide RmcgBytes, XasMemBytes, MulMemBytes, JzBytes, CodeBranch;
    ShortOffsets(MEM_SPAN);
    if i.opcode.RMCG? then RmcgBytes(i)
    else if i.opcode.BRANCH? then CodeBranch() + JzBytes(MEM_SPAN)
    else if i.opcode.HALT? then []
    else if i.opcode.IsMul() then MulMemBytes(i)
    else XasMemBytes(i)
  }

  function RegPrefix(p: Program, n: nat): seq<u8>
    requires Compilable(p) && n <= PROGRAM_SIZE
  {
    if n == 0 then [] else RegPrefix(p, n - 1) + RegIsnBytes(p[n - 1])
  }

  function MemPrefix(p: Program, n: nat): seq<u8>
    requires Compilable(p) && n <= PROGRAM_SIZE
  {
    if n == 0 then [] else MemPrefix(p, n - 1) + MemIsnBytes(p[n - 1])
  }

  /** Where the code of instruction i starts, counted from the loop head. */
  function RegOffset(i: nat): nat
    requires i <= PROGRAM_SIZE
  {
    match i
    case 0 => 0 case 1 => 16 case 2 => 23 case 3 => 31 case 4 => 38 case 5 => 46
    case 6 => 53 case 7 => 61 case 8 => 71 case 9 => 78 case _ => 78
  }

  function MemOffset(i: nat): nat
    requires i <= PROGRAM_SIZE
  {
    match i
    case 0 => 0 case 1 => 16 case 2 => 32 case 3 => 49 case 4 => 65 case 5 => 82
    case 6 => 98 case 7 => 115 case 8 => 125 case 9 => 141 case _ => 141
  }

  lemma IsnLengths(p: Program, i: nat)
    requires Compilable(p) && i < PROGRAM_SIZE
    ensures RegOffset(i + 1) == RegOffset(i) + |RegIsnBytes(p[i])|
    ensures MemOffset(i + 1) == MemOffset(i) + |MemIsnBytes(p[i])|
  {
    assert i == 0 ==> p[i].src >= 8;
    hide OperandsOk, RegIsnBytes, MemIsnBytes;
    match i
    case 0 => case 1 => case 2 => case 3 => case 4 => case 5 => case 6 => case 7 => case 8 => case 9 =>
  }

  lemma {:induction false} PrefixLengths(p: Program, i: nat)
    requires Compilable(p) && i <= PROGRAM_SIZE
    ensures |RegPrefix(p, i)| == RegOffset(i) && |MemPrefix(p, i)| == MemOffset(i)
  {
    hide OperandsOk, Layout, RegIsnBytes, MemIsnBytes;
    if i > 0 {
      PrefixLengths(p, i - 1);
      IsnLengths(p, i - 1);
    }
  }

  lemma Positions(p: Program, i: nat)
    requires Compilable(p) && i < PROGRAM_SIZE
    ensures p[i].opcode.RMCG? <==> i == 0
    ensures p[i].opcode.BRANCH? <==> i == 7
    ensures p[i].opcode.RMCG? ==> p[i].src >= 8
  {
  }

  lemma RegStep(p: Program, i: nat)
    requires Compilable(p) && i < PROGRAM_SIZE
    ensures && (p[i].opcode.RMCG? ==> p[i].src >= 8)
            && RegPrefix(p, i + 1) == RegPrefix(p, i) + RegIsnBytes(p[i])
            && RegOffset(i + 1) == RegOffset(i) + |RegIsnBytes(p[i])|
  {
    hide RegIsnBytes, RegOffset;
    Positions(p, i);
    IsnLengths(p, i);
  }

  lemma MemStep(p: Program, i: nat)
    requires Compilable(p) && i < PROGRAM_SIZE
    ensures && (p[i].opcode.RMCG? ==> p[i].src >= 8)
            && MemPrefix(p, i + 1) == MemPrefix(p, i) + MemIsnBytes(p[i])
            && MemOffset(i + 1) == MemOffset(i) + |MemIsnBytes(p[i])|
  {
    hide MemIsnBytes, MemOffset;
    Positions(p, i);
    IsnLengths(p, i);
  }

  lemma RegPrefixEmpty(p: Program)
    requires Compilable(p)
    ensures RegPrefix(p, 0) == []
  {
  }

  lemma MemPrefixEmpty(p: Program)
    requires Compilable(p)
    ensures MemPrefix(p, 0) == []
  {
  }

  lemma RegKinds(p: Program)
    requires Compilable(p)
    ensures && p[0].src >= 8
            && RegIsnBytes(p[0]) == RmcgBytes(p[0]) && RegIsnBytes(p[1]) == XasRegBytes(p[1])
            && RegIsnBytes(p[2]) == MulRegBytes(p[2]) && RegIsnBytes(p[3]) == XasRegBytes(p[3])
            && RegIsnBytes(p[4]) == MulRegBytes(p[4]) && RegIsnBytes(p[5]) == XasRegBytes(p[5])
            && RegIsnBytes(p[6]) == MulRegBytes(p[6]) && RegIsnBytes(p[7]) == CodeBranch() + JzBytes(REG_SPAN)
            && RegIsnBytes(p[8]) == XasRegBytes(p[8]) && RegIsnBytes(p[9]) == []
  {
    hide RmcgBytes, XasRegBytes, MulRegBytes, CodeBranch, JzBytes, DistinctDestinations, OperandOk, ImmOk;
  }

  /** Put together, the pieces are the code of the program. */
  lemma RegPieces(p: Program)
    requires Compilable(p)
    ensures hide RegCode, Compilable; RegPrefix(p, PROGRAM_SIZE) == RegCode(p)
  {
    hide OperandsOk, RmcgBytes, XasRegBytes, MulRegBytes, JzBytes, CodeBranch, RegPrefix, RegIsnBytes, RegOffset,
         Layout;
    RegKinds(p);
    RegPrefixEmpty(p);
    RegStep(p, 0);
    RegStep(p, 1);
    RegStep(p, 2);
    RegStep(p, 3);
    RegStep(p, 4);
    RegStep(p, 5);
    RegStep(p, 6);
    RegStep(p, 7);
    RegStep(p, 8);
    RegStep(p, 9);
    var b := RegPrefix(p, 7);
    assert RegBody(p) == b + CodeBranch();
    assert b + (CodeBranch() + JzBytes(REG_SPAN)) == b + CodeBranch() + JzBytes(REG_SPAN);
  }

  lemma MemKinds(p: Program)
    requires Compilable(p)
    ensures && p[0].src >= 8
            && MemIsnBytes(p[0]) == RmcgBytes(p[0]) && MemIsnBytes(p[1]) == XasMemBytes(p[1])
            && MemIsnBytes(p[2]) == MulMemBytes(p[2]) && MemIsnBytes(p[3]) == XasMemBytes(p[3])
            && MemIsnBytes(p[4]) == MulMemBytes(p[4]) && MemIsnBytes(p[5]) == XasMemBytes(p[5])
            && MemIsnBytes(p[6]) == MulMemBytes(p[6]) && MemIsnBytes(p[7]) == CodeBranch() + JzBytes(MEM_SPAN)
            && MemIsnBytes(p[8]) == XasMemBytes(p[8]) && MemIsnBytes(p[9]) == []
  {
    hide RmcgBytes, XasMemBytes, MulMemBytes, CodeBranch, JzBytes, DistinctDestinations, OperandOk, ImmOk;
  }

  /** Put together, the pieces are the code of the program. */
  lemma MemPieces(p: Program)
    requires Compilable(p)
    ensures hide MemCode, Compilable; MemPrefix(p, PROGRAM_SIZE) == MemCode(p)
  {
    hide OperandsOk, RmcgBytes, XasMemBytes, MulMemBytes, JzBytes, CodeBranch, MemPrefix, MemIsnBytes, MemOffset,
         Layout;
    MemKinds(p);
    MemPrefixEmpty(p);
    MemStep(p, 0);
    MemStep(p, 1);
    MemStep(p, 2);
    MemStep(p, 3);
    MemStep(p, 4);
    MemStep(p, 5);
    MemStep(p, 6);
    MemStep(p, 7);
    MemStep(p, 8);
    MemStep(p, 9);
    var b := MemPrefix(p, 7);
    assert MemBody(p) == b + CodeBranch();
    assert b + (CodeBranch() + JzBytes(MEM_SPAN)) == b + CodeBranch() + JzBytes(MEM_SPAN);
  }

  // ----- the emitting methods -----

  const CODE_SIZE: nat := 8192

  /** Copies bytes to the buffer and advances. */
  method EmitBytes(code: array<u8>, pos: nat, bytes: seq<u8>) returns (next: nat)
    requires pos + |bytes| <= code.Length
    modifies code
    ensures next == pos + |bytes|
    ensures code[..next] == old(code[..pos]) + bytes
  {
    for k := 0 to |bytes|
      invariant code[..pos + k] == old(code[..pos]) + bytes[..k]
    {
      code[pos + k] := bytes[k];
    }
    next := pos + |bytes|;
  }

  /** A conditional jump back; short when the displacement fits a byte. */
  method EmitJz(code: array<u8>, pos: nat, target: nat) returns (next: nat)
    requires target <= pos && pos + 6 <= code.Length < 0x1_0000_0000
    modifies code
    ensures next == pos + |JzBytes(pos - target)|
    ensures code[..next] == old(code[..pos]) + JzBytes(pos - target)
  {
    hide Byte0, Bytes32;
    var offset := Back(Word32(pos - target));
    assert JzBytes(pos - target) == JzOffset(offset);
    if offset >= 0xffff_ff80 {
      next := EmitBytes(code, pos, [0x74, Byte0(offset)]);
    } else {
      next := EmitBytes(code, pos, [0x0f, 0x84]);
      next := EmitBytes(code, next, Bytes32(offset - 4));
    }
  }

  method EmitRmcg(code: array<u8>, pos: nat, i: Instruction) returns (next: nat)
    requires i.src >= 8 && pos + 16 <= code.Length
    modifies code
    ensures next == pos + 16 && code[..next] == old(code[..pos]) + RmcgBytes(i)
  {
    hide CodeTarget, ImulReg4c, OpImmBytes, OpRegBytes, U32;
    next := EmitBytes(code, pos, CodeTarget());
    next := EmitBytes(code, next, ImulReg4c(U32(i.dst), U32(i.src - 2)));
    next := EmitBytes(code, next, OpImmBytes(0x00c8_c149, U32(i.dst), i.imm));
    next := EmitBytes(code, next, OpRegBytes(0x4c, 0xc089, 2, U32(i.dst)));
  }

  method EmitMulReg(code: array<u8>, pos: nat, i: Instruction) returns (next: nat)
    requires i.opcode.IsMul() && pos + 8 <= code.Length
    modifies code
    ensures next == pos + 8 && code[..next] == old(code[..pos]) + MulRegBytes(i)
  {
    hide TplMul, OpImmBytes, ImulReg4d, U32;
    next := EmitBytes(code, pos, OpImmBytes(TplMul(i.opcode.Num()), U32(i.dst), i.imm));
    next := EmitBytes(code, next, ImulReg4d(U32(i.dst), U32(i.src)));
  }

  method EmitXasReg(code: array<u8>, pos: nat, i: Instruction) returns (next: nat)
    requires i.opcode.IsXas() && pos + 7 <= code.Length
    modifies code
    ensures next == pos + 7 && code[..next] == old(code[..pos]) + XasRegBytes(i)
  {
    hide TplPreXas, TplXasReg, OpImmBytes, OpRegBytes, U32;
    var k := i.opcode.Num() - 4;
    next := EmitBytes(code, pos, OpImmBytes(TplPreXas(k / 3), U32(i.dst), i.imm));
    next := EmitBytes(code, next, OpRegBytes(0x4d, TplXasReg(k % 3), U32(i.dst), U32(i.src)));
  }

  method EmitMulMem(code: array<u8>, pos: nat, i: Instruction) returns (next: nat)
    requires i.opcode.IsMul() && pos + 17 <= code.Length
    modifies code
    ensures next == pos + 17 && code[..next] == old(code[..pos]) + MulMemBytes(i)
  {
    hide TplMul, OpImmBytes, OpRegBytes, CodeAddress, ImulMem, U32;
    next := EmitBytes(code, pos, OpRegBytes(0x4c, 0xc089, 0, U32(i.src)));
    next := EmitBytes(code, next, OpImmBytes(TplMul(i.opcode.Num()), U32(i.dst), i.imm));
    next := EmitBytes(code, next, CodeAddress());
    next := EmitBytes(code, next, ImulMem(U32(i.dst)));
  }

  method EmitXasMem(code: array<u8>, pos: nat, i: Instruction) returns (next: nat)
    requires i.opcode.IsXas() && pos + 16 <= code.Length
    modifies code
    ensures next == pos + 16 && code[..next] == old(code[..pos]) + XasMemBytes(i)
  {
    hide TplPreXas, TplXasMem, OpImmBytes, OpRegBytes, OpMemBytes, CodeAddress, U32;
    var k := i.opcode.Num() - 4;
    next := EmitBytes(code, pos, OpRegBytes(0x4c, 0xc089, 0, U32(i.src)));
    next := EmitBytes(code, next, OpImmBytes(TplPreXas(k / 3), U32(i.dst), i.imm));
    next := EmitBytes(code, next, CodeAddress());
    next := EmitBytes(code, next, OpMemBytes(TplXasMem(k % 3), U32(i.dst)));
  }

  /** The code of one instruction; target is where the loop starts. */
  method EmitIsnReg(code: array<u8>, pos: nat, target: nat, i: Instruction) returns (next: nat)
    requires (i.opcode.RMCG? ==> i.src >= 8) && (i.opcode.BRANCH? ==> target + REG_SPAN == pos + 8)
    requires pos + |RegIsnBytes(i)| + 4 <= code.Length < 0x1_0000_0000
    modifies code
    ensures next == pos + |RegIsnBytes(i)|
    ensures code[..next] == old(code[..pos]) + RegIsnBytes(i)
  {
    hide JzBytes, CodeBranch, RmcgBytes, MulRegBytes, XasRegBytes;
    if i.opcode.RMCG? {
      next := EmitRmcg(code, pos, i);
    } else if i.opcode.BRANCH? {
      ShortOffsets(REG_SPAN);
      next := EmitBytes(code, pos, CodeBranch());
      next := EmitJz(code, next, target);
    } else if i.opcode.HALT? {
      next := pos;
    } else if i.opcode.IsMul() {
      next := EmitMulReg(code, pos, i);
    } else {
      next := EmitXasReg(code, pos, i);
    }
  }

  lemma RegOffsets()
    ensures RegOffset(0) == 0 && RegOffset(7) + 8 == REG_SPAN && RegOffset(PROGRAM_SIZE) == REG_BYTES
    ensures forall i :: 0 <= i <= PROGRAM_SIZE ==> RegOffset(i) <= REG_BYTES
  {
  }

  /** The code of one instruction; target is where the loop starts. */
  method EmitIsnMem(code: array<u8>, pos: nat, target: nat, i: Instruction) returns (next: nat)
    requires (i.opcode.RMCG? ==> i.src >= 8) && (i.opcode.BRANCH? ==> target + MEM_SPAN == pos + 8)
    requires pos + |MemIsnBytes(i)| + 4 <= code.Length < 0x1_0000_0000
    modifies code
    ensures next == pos + |MemIsnBytes(i)|
    ensures code[..next] == old(code[..pos]) + MemIsnBytes(i)
  {
    hide JzBytes, CodeBranch, RmcgBytes, MulMemBytes, XasMemBytes;
    if i.opcode.RMCG? {
      next := EmitRmcg(code, pos, i);
    } else if i.opcode.BRANCH? {
      ShortOffsets(MEM_SPAN);
      next := EmitBytes(code, pos, CodeBranch());
      next := EmitJz(code, next, target);
    } else if i.opcode.HALT? {
      next := pos;
    } else if i.opcode.IsMul() {
      next := EmitMulMem(code, pos, i);
    } else {
      next := EmitXasMem(code, pos, i);
    }
  }

  lemma MemOffsets()
    ensures MemOffset(0) == 0 && MemOffset(7) + 8 == MEM_SPAN && MemOffset(PROGRAM_SIZE) == MEM_BYTES
    ensures forall i :: 0 <= i <= PROGRAM_SIZE ==> MemOffset(i) <= MEM_BYTES
  {
  }

  method CompileProgramReg(program: Program, code: array<u8>, start: nat) returns (pos: nat)
    requires Compilable(program) && start + REG_BYTES + 4 <= code.Length < 0x1_0000_0000
    modifies code
    ensures pos == start + REG_BYTES
    ensures code[..pos] == old(code[..start]) + RegCode(program)
  {
    hide Compilable, RegCode, RegPrefix, RegIsnBytes, RegOffset;
    RegOffsets();
    RegPrefixEmpty(program);
    pos := start;
    var target := 0;
    for i := 0 to PROGRAM_SIZE
      invariant pos == start + RegOffset(i)
      invariant i > 0 ==> target == start
      invariant code[..pos] == old(code[..start]) + RegPrefix(program, i)
    {
      var instr := program[i];
      Positions(program, i);
      RegStep(program, i);
      if instr.opcode.RMCG? {
        target := pos;
      }
      pos := EmitIsnReg(code, pos, target, instr);
    }
    RegPieces(program);
  }

  method CompileProgramMem(program: Program, code: array<u8>, start: nat) returns (pos: nat)
    requires Compilable(program) && start + MEM_BYTES + 4 <= code.Length < 0x1_0000_0000
    modifies code
    ensures pos == start + MEM_BYTES
    ensures code[..pos] == old(code[..start]) + MemCode(program)
  {
    hide Compilable, MemCode, MemPrefix, MemIsnBytes, MemOffset;
    MemOffsets();
    MemPrefixEmpty(program);
    pos := start;
    var target := 0;
    for i := 0 to PROGRAM_SIZE
      invariant pos == start + MemOffset(i)
      invariant i > 0 ==> target == start
      invariant code[..pos] == old(code[..start]) + MemPrefix(program, i)
    {
      var instr := program[i];
      Positions(program, i);
      MemStep(program, i);
      if instr.opcode.RMCG? {
        target := pos;
      }
      pos := EmitIsnMem(code, pos, target, instr);
    }
    MemPieces(program);
  }

  /** Compiles a list of programs; the code fits the buffer with room to spare. */
  method Compile(code: array<u8>, l: ProgramList) returns (pos: nat)
    requires code.Length == CODE_SIZE && forall i :: 0 <= i < NUM_PROGRAMS ==> Compilable(l[i])
    modifies code
    ensures pos == 7628 && code[..pos] == ListCode(l)
  {
    hide Compilable, RegCode, MemCode, CodePrologue, CodeEpilogue, CodeStore, CodeClearBc;
    pos := EmitBytes(code, 0, CodePrologue());
    for i := 0 to NUM_PROGRAMS
      invariant pos == 57 + (REG_BYTES + STORE_BYTES) * i
      invariant code[..pos] == CodePrologue() + RegCodes(l, i)
    {
      pos := CompileProgramReg(l[i], code, pos);
      pos := EmitBytes(code, pos, CodeStore());
    }
    pos := EmitBytes(code, pos, CodeClearBc());
    ghost var first := CodePrologue() + RegCodes(l, NUM_PROGRAMS) + CodeClearBc();
    for i := 0 to NUM_PROGRAMS
      invariant pos == |first| + MEM_BYTES * i
      invariant code[..pos] == first + MemCodes(l, i)
    {
      pos := CompileProgramMem(l[i], code, pos);
    }
    pos := EmitBytes(code, pos, CodeEpilogue());
  }
}
