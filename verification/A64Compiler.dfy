/** The AArch64 back end: the words it emits for a program, and the emitting methods.
    Every store into the code buffer is one aligned 32-bit word, so the buffer is an array
    of words. */
module A64Compiler {
  import opened Words
  import opened Displacements
  import opened Vm
  import opened Phases

  // ----- instruction words -----

  function MulWord(dst: u32, src: u32): u32 {
    0x9b00_7c00 | (src << 16) | (dst << 5) | dst
  }

  function RorWord(dst: u32, count: u32): u32 {
    0x93c0_0000 | (dst << 16) | (dst << 5) | dst | (count << 10)
  }

  function LsrWord(dst: u32, count: u32): u32 {
    0xd340_fc00 | (count << 16) | (dst << 5) | dst
  }

  function AsrWord(dst: u32, count: u32): u32 {
    0x9340_fc00 | (count << 16) | (dst << 5) | dst
  }

  function MovWord(dst: u32, src: u32): u32 {
    0xaa00_03e0 | (src << 16) | dst
  }

  function SubWord(dst: u32, src: u32): u32 {
    0xcb00_0000 | (src << 16) | (dst << 5) | dst
  }

  function AddWord(dst: u32, src: u32): u32 {
    0x8b00_0000 | (src << 16) | (dst << 5) | dst
  }

  function EorWord(dst: u32, src: u32): u32 {
    0xca00_0000 | (src << 16) | (dst << 5) | dst
  }

  function OrrWord(dst: u32, src1: u32, src2: u32): u32 {
    0xaa00_0000 | (src2 << 16) | (src1 << 5) | dst
  }

  /** ldr dst, [sp, dst] */
  function LdrSpWord(dst: u32): u32 {
    0xf860_6be0 | (dst << 16) | dst
  }

  /** and dst, src, 2040 */
  function And2040Word(dst: u32, src: u32): u32 {
    0x927d_1c00 | (src << 5) | dst
  }

  /** Rows or, eor, add; columns for the immediates 1, 9 and 33. */
  const PREMUL_TPLS: seq<seq<u32>> := [
    [0xb240_0000, 0xaa0a_0000, 0xaa0b_0000],
    [0xd240_0000, 0xca0a_0000, 0xca0b_0000],
    [0x9100_0400, 0x9100_2400, 0x9100_8400]
  ]

  /** The immediates 1, 9 and 33, divided by 8, become the columns 0, 1 and 2. */
  const MUL_IMM_INV: seq<nat> := [0, 1, 2, 2, 2]

  function PremulWord(i: Instruction): u32
    requires i.opcode.IsMul() && ImmOk(i)
  {
    var column := MUL_IMM_INV[(i.imm / 8) as nat];
    Premul(PREMUL_TPLS[i.opcode.Num()][column], U32(i.dst))
  }

  function Premul(tpl: u32, dst: u32): u32 {
    tpl | (dst << 5) | dst
  }

  function PreXasWord(i: Instruction): u32
    requires i.opcode.IsXas()
  {
    match (i.opcode.Num() - 4) / 3
    case 0 => RorWord(U32(i.dst), i.imm)
    case 1 => AsrWord(U32(i.dst), i.imm)
    case _ => LsrWord(U32(i.dst), i.imm)
  }

  function XasWord(i: Instruction, src: u32): u32
    requires i.opcode.IsXas()
  {
    match (i.opcode.Num() - 4) % 3
    case 0 => EorWord(U32(i.dst), src)
    case 1 => AddWord(U32(i.dst), src)
    case _ => SubWord(U32(i.dst), src)
  }

  /** The byte distance to the target is masked to the field that the encoding shifts up. */
  function BeqWord(pos: nat, target: nat): u32
    requires target <= pos < 0x100_0000
  {
    Beq(Word32((0x1_0000_0000 - 4 * (pos - target)) % 0x1_0000_0000))
  }

  function Beq(offset: u32): u32 {
    0x5400_0000 | ((offset & 0x1f_fffc) << 3)
  }

  function StorePair(k: nat): u32
    requires k < 7
  {
    match k
    case 0 => 0xa902_0be3
    case 1 => 0xa901_13e5
    case 2 => 0xa900_1be7
    case 3 => 0xa903_03e1
    case 4 => 0xa902_0be3
    case 5 => 0xa901_13e5
    case _ => 0xa900_1be7
  }

  function Prologue(): (w: seq<u32>)
    ensures |w| == 9
  {
    [
      0xa944_340c,
      0xaa00_03e8,
      0xa943_1c06,
      0xa942_1404,
      0xa941_0c02,
      0xa940_0400,
      0xd280_0009,
      0xd280_012a,
      0xd280_042b
    ]
  }

  function Epilogue(): (w: seq<u32>)
    ensures |w| == 6
  {
    [
      0xa903_1d06,
      0x9120_03ff,
      0xa902_1504,
      0xa901_0d02,
      0xa900_0500,
      0xd65f_03c0
    ]
  }

  /** tst x14, 32; cinc x9, x9, eq */
  function BranchCode(): (w: seq<u32>)
    ensures |w| == 2
  {
    [0xf27b_01df, 0x9a89_1529]
  }

  /** mov x9, 0 */
  function ClearBc(): u32 { 0xd280_0009 }

  /** sub sp, sp, 64 */
  function Reserve(): u32 { 0xd101_03ff }

  // ----- the code of a program -----

  const REG_WORDS: nat := 26
  const MEM_WORDS: nat := 34

  /** The loop of a program in register mode, up to the backward branch, word by word. */
  function RegWord(p: Program, k: nat): u32
    requires Compilable(p) && k < 18
  {
    match k
    case 0 => MulWord(U32(p[0].dst), U32(p[0].src + 4))
    case 1 => PreXasWord(p[1])
    case 2 => MovWord(14, U32(p[1].src))
    case 3 => PremulWord(p[2])
    case 4 => XasWord(p[1], 14)
    case 5 => MulWord(U32(p[2].dst), U32(p[2].src))
    case 6 => PreXasWord(p[3])
    case 7 => RorWord(U32(p[0].dst), p[0].imm)
    case 8 => XasWord(p[3], U32(p[3].src))
    case 9 => PremulWord(p[4])
    case 10 => MulWord(U32(p[4].dst), U32(p[4].src))
    case 11 => PreXasWord(p[5])
    case 12 => OrrWord(14, U32(p[0].dst), 9)
    case 13 => XasWord(p[5], U32(p[5].src))
    case 14 => PremulWord(p[6])
    case 15 => BranchCode()[0]
    case 16 => BranchCode()[1]
    case _ => MulWord(U32(p[6].dst), U32(p[6].src))
  }

  function RegLoop(p: Program): (w: seq<u32>)
    requires Compilable(p)
    ensures |w| == 18
  {
    seq(18, k requires 0 <= k < 18 => RegWord(p, k))
  }

  /** The last instruction interleaved with the four stores of register pairs. */
  function TailWord(p: Program, k: nat): u32
    requires Compilable(p) && k < 6
  {
    var pair := p[8].dst / 2;
    match k
    case 0 => StorePair(pair)
    case 1 => PreXasWord(p[8])
    case 2 => StorePair(pair + 1)
    case 3 => XasWord(p[8], U32(p[8].src))
    case 4 => StorePair(pair + 2)
    case _ => StorePair(pair + 3)
  }

  function RegTail(p: Program): (w: seq<u32>)
    requires Compilable(p)
    ensures |w| == 6
  {
    seq(6, k requires 0 <= k < 6 => TailWord(p, k))
  }

  function RegCode(p: Program): (w: seq<u32>)
    requires Compilable(p)
    ensures |w| == REG_WORDS
  {
    [Reserve()] + RegLoop(p) + [BeqWord(18, 0)] + RegTail(p)
  }

  /** The loop of a program in scratchpad mode. */
  function MemWord(p: Program, k: nat): u32
    requires Compilable(p) && k < 31
  {
    match k
    case 0 => And2040Word(15, U32(p[1].src))
    case 1 => LdrSpWord(15)
    case 2 => PreXasWord(p[1])
    case 3 => MulWord(U32(p[0].dst), U32(p[0].src + 4))
    case 4 => XasWord(p[1], 15)
    case 5 => And2040Word(16, U32(p[2].src))
    case 6 => LdrSpWord(16)
    case 7 => And2040Word(17, U32(p[3].src))
    case 8 => LdrSpWord(17)
    case 9 => PremulWord(p[2])
    case 10 => PreXasWord(p[3])
    case 11 => RorWord(U32(p[0].dst), p[0].imm)
    case 12 => MulWord(U32(p[2].dst), 16)
    case 13 => XasWord(p[3], 17)
    case 14 => And2040Word(16, U32(p[4].src))
    case 15 => LdrSpWord(16)
    case 16 => And2040Word(17, U32(p[5].src))
    case 17 => LdrSpWord(17)
    case 18 => PremulWord(p[4])
    case 19 => PreXasWord(p[5])
    case 20 => OrrWord(14, U32(p[0].dst), 9)
    case 21 => MulWord(U32(p[4].dst), 16)
    case 22 => XasWord(p[5], 17)
    case 23 => And2040Word(16, U32(p[6].src))
    case 24 => LdrSpWord(16)
    case 25 => And2040Word(17, U32(p[8].src))
    case 26 => LdrSpWord(17)
    case 27 => PremulWord(p[6])
    case 28 => BranchCode()[0]
    case 29 => BranchCode()[1]
    case _ => MulWord(U32(p[6].dst), 16)
  }

  function MemLoop(p: Program): (w: seq<u32>)
    requires Compilable(p)
    ensures |w| == 31
  {
    seq(31, k requires 0 <= k < 31 => MemWord(p, k))
  }

  function MemCode(p: Program): (w: seq<u32>)
    requires Compilable(p)
    ensures |w| == MEM_WORDS
  {
    MemLoop(p) + [BeqWord(31, 0), PreXasWord(p[8]), XasWord(p[8], 17)]
  }

  function RegCodes(l: ProgramList, n: nat): (w: seq<u32>)
    requires n <= NUM_PROGRAMS && forall i :: 0 <= i < NUM_PROGRAMS ==> Compilable(l[i])
    ensures |w| == REG_WORDS * n
  {
    if n == 0 then [] else RegCodes(l, n - 1) + RegCode(l[n - 1])
  }

  function MemCodes(l: ProgramList, n: nat): (w: seq<u32>)
    requires n <= NUM_PROGRAMS && forall i :: 0 <= i < NUM_PROGRAMS ==> Compilable(l[i])
    ensures |w| == MEM_WORDS * n
  {
    if n == 0 then [] else MemCodes(l, n - 1) + MemCode(l[n - 1])
  }

  /** The function that is emitted for a list of programs. */
  function ListCode(l: ProgramList): seq<u32>
    requires forall i :: 0 <= i < NUM_PROGRAMS ==> Compilable(l[i])
  {
    Prologue() + RegCodes(l, NUM_PROGRAMS) + [ClearBc()] + MemCodes(l, NUM_PROGRAMS) + Epilogue()
  }

  /** The size of the buffer in words. */
  const CODE_WORDS: nat := 2048

  // ----- the emitting methods -----

  /** Writes one word at pos and advances. */
  method EmitIsn(code: array<u32>, pos: nat, w: u32) returns (next: nat)
    requires pos < code.Length
    modifies code
    ensures next == pos + 1
    ensures code[..next] == old(code[..pos]) + [w]
  {
    code[pos] := w;
    next := pos + 1;
  }

  /** Writes words one after another. */
  method EmitAll(code: array<u32>, pos: nat, ws: seq<u32>) returns (next: nat)
    requires pos + |ws| <= code.Length
    modifies code
    ensures next == pos + |ws|
    ensures code[..next] == old(code[..pos]) + ws
  {
    next := pos;
    for k := 0 to |ws|
      invariant next == pos + k
      invariant code[..next] == old(code[..pos]) + ws[..k]
    {
      next := EmitIsn(code, next, ws[k]);
    }
  }

  /** The branch word depends only on the distance. */
  lemma BeqWordRelative(target: nat, d: nat)
    requires target + d < 0x100_0000
    ensures BeqWord(target + d, target) == BeqWord(d, 0)
  {
  }

  /** Writes one word, which is the k-th of those that are due after the first ones. */
  method EmitNext(code: array<u32>, pos: nat, w: u32, ghost before: seq<u32>, ghost ws: seq<u32>, ghost k: nat)
    returns (next: nat)
    requires pos < code.Length && k < |ws| && w == ws[k] && code[..pos] == before + ws[..k]
    modifies code
    ensures next == pos + 1 && code[..next] == before + ws[..k + 1]
  {
    next := EmitIsn(code, pos, w);
  }

  /** The words of a register-mode loop, in the order of the schedule: the first 6. */
  method EmitRegLoopFirst(code: array<u32>, start: nat, program: Program, ghost before: seq<u32>) returns (pos: nat)
    requires Compilable(program) && start + 6 <= code.Length && code[..start] == before + RegLoop(program)[..0]
    modifies code
    ensures pos == start + 6 && code[..pos] == before + RegLoop(program)[..6]
  {
    hide MulWord, RorWord, MovWord, OrrWord, PreXasWord, XasWord, PremulWord, LdrSpWord, And2040Word, U32, BranchCode,
         StorePair, DistinctDestinations, ImmOk;
    var i0, i1, i2 := program[0], program[1], program[2];
    ghost var ws := RegLoop(program);
    pos := start;
    pos := EmitNext(code, pos, MulWord(U32(i0.dst), U32(i0.src + 4)), before, ws, 0);
    pos := EmitNext(code, pos, PreXasWord(i1), before, ws, 1);
    pos := EmitNext(code, pos, MovWord(14, U32(i1.src)), before, ws, 2);
    pos := EmitNext(code, pos, PremulWord(i2), before, ws, 3);
    pos := EmitNext(code, pos, XasWord(i1, 14), before, ws, 4);
    pos := EmitNext(code, pos, MulWord(U32(i2.dst), U32(i2.src)), before, ws, 5);
  }

  /** The next 6. */
  method EmitRegLoopSecond(code: array<u32>, start: nat, program: Program, ghost before: seq<u32>) returns (pos: nat)
    requires Compilable(program) && start + 6 <= code.Length && code[..start] == before + RegLoop(program)[..6]
    modifies code
    ensures pos == start + 6 && code[..pos] == before + RegLoop(program)[..12]
  {
    hide MulWord, RorWord, MovWord, OrrWord, PreXasWord, XasWord, PremulWord, LdrSpWord, And2040Word, U32, BranchCode,
         StorePair, DistinctDestinations, ImmOk;
    var i0, i3, i4, i5 := program[0], program[3], program[4], program[5];
    ghost var ws := RegLoop(program);
    pos := start;
    pos := EmitNext(code, pos, PreXasWord(i3), before, ws, 6);
    pos := EmitNext(code, pos, RorWord(U32(i0.dst), i0.imm), before, ws, 7);
    pos := EmitNext(code, pos, XasWord(i3, U32(i3.src)), before, ws, 8);
    pos := EmitNext(code, pos, PremulWord(i4), before, ws, 9);
    pos := EmitNext(code, pos, MulWord(U32(i4.dst), U32(i4.src)), before, ws, 10);
    pos := EmitNext(code, pos, PreXasWord(i5), before, ws, 11);
  }

  /** The last 6. */
  method EmitRegLoopThird(code: array<u32>, start: nat, program: Program, ghost before: seq<u32>) returns (pos: nat)
    requires Compilable(program) && start + 6 <= code.Length && code[..start] == before + RegLoop(program)[..12]
    modifies code
    ensures pos == start + 6 && code[..pos] == before + RegLoop(program)[..18]
  {
    hide MulWord, RorWord, MovWord, OrrWord, PreXasWord, XasWord, PremulWord, LdrSpWord, And2040Word, U32, BranchCode,
         StorePair, DistinctDestinations, ImmOk;
    var i0, i5, i6 := program[0], program[5], program[6];
    ghost var ws := RegLoop(program);
    pos := start;
    pos := EmitNext(code, pos, OrrWord(14, U32(i0.dst), 9), before, ws, 12);
    pos := EmitNext(code, pos, XasWord(i5, U32(i5.src)), before, ws, 13);
    pos := EmitNext(code, pos, PremulWord(i6), before, ws, 14);
    pos := EmitNext(code, pos, BranchCode()[0], before, ws, 15);
    pos := EmitNext(code, pos, BranchCode()[1], before, ws, 16);
    pos := EmitNext(code, pos, MulWord(U32(i6.dst), U32(i6.src)), before, ws, 17);
  }

  method EmitRegLoop(code: array<u32>, start: nat, program: Program) returns (pos: nat)
    requires Compilable(program) && start + 18 <= code.Length
    modifies code
    ensures pos == start + 18 && code[..pos] == old(code[..start]) + RegLoop(program)
  {
    hide Compilable, RegLoop;
    ghost var before := code[..start];
    pos := EmitRegLoopFirst(code, start, program, before);
    pos := EmitRegLoopSecond(code, pos, program, before);
    pos := EmitRegLoopThird(code, pos, program, before);
  }

  /** The last instruction, interleaved with the stores of the register pairs. */
  method EmitRegTail(code: array<u32>, start: nat, program: Program) returns (pos: nat)
    requires Compilable(program) && start + 6 <= code.Length
    modifies code
    ensures pos == start + 6 && code[..pos] == old(code[..start]) + RegTail(program)
  {
    hide MulWord, RorWord, MovWord, OrrWord, PreXasWord, XasWord, PremulWord, LdrSpWord, And2040Word, U32, BranchCode,
         StorePair, DistinctDestinations, ImmOk;
    var i8 := program[8];
    var pair := i8.dst / 2;
    ghost var before, ws := code[..start], RegTail(program);
    pos := start;
    pos := EmitNext(code, pos, StorePair(pair), before, ws, 0);
    pos := EmitNext(code, pos, PreXasWord(i8), before, ws, 1);
    pos := EmitNext(code, pos, StorePair(pair + 1), before, ws, 2);
    pos := EmitNext(code, pos, XasWord(i8, U32(i8.src)), before, ws, 3);
    pos := EmitNext(code, pos, StorePair(pair + 2), before, ws, 4);
    pos := EmitNext(code, pos, StorePair(pair + 3), before, ws, 5);
  }

  method CompileProgramReg(program: Program, code: array<u32>, start: nat) returns (pos: nat)
    requires Compilable(program) && start + REG_WORDS <= code.Length < 0x100_0000
    modifies code
    ensures pos == start + REG_WORDS
    ensures code[..pos] == old(code[..start]) + RegCode(program)
  {
    hide Compilable, RegLoop, RegTail, BeqWord;
    pos := EmitIsn(code, start, Reserve());
    var target := pos;
    pos := EmitRegLoop(code, pos, program);
    BeqWordRelative(target, 18);
    pos := EmitIsn(code, pos, BeqWord(pos, target));
    pos := EmitRegTail(code, pos, program);
  }

  /** The words of a scratchpad-mode loop, in the order of the schedule: the first 10. */
  method EmitMemLoopFirst(code: array<u32>, start: nat, program: Program, ghost before: seq<u32>) returns (pos: nat)
    requires Compilable(program) && start + 10 <= code.Length && code[..start] == before + MemLoop(program)[..0]
    modifies code
    ensures pos == start + 10 && code[..pos] == before + MemLoop(program)[..10]
  {
    hide MulWord, RorWord, MovWord, OrrWord, PreXasWord, XasWord, PremulWord, LdrSpWord, And2040Word, U32, BranchCode,
         StorePair, DistinctDestinations, ImmOk;
    var i0, i1, i2, i3 := program[0], program[1], program[2], program[3];
    ghost var ws := MemLoop(program);
    pos := start;
    pos := EmitNext(code, pos, And2040Word(15, U32(i1.src)), before, ws, 0);
    pos := EmitNext(code, pos, LdrSpWord(15), before, ws, 1);
    pos := EmitNext(code, pos, PreXasWord(i1), before, ws, 2);
    pos := EmitNext(code, pos, MulWord(U32(i0.dst), U32(i0.src + 4)), before, ws, 3);
    pos := EmitNext(code, pos, XasWord(i1, 15), before, ws, 4);
    pos := EmitNext(code, pos, And2040Word(16, U32(i2.src)), before, ws, 5);
    pos := EmitNext(code, pos, LdrSpWord(16), before, ws, 6);
    pos := EmitNext(code, pos, And2040Word(17, U32(i3.src)), before, ws, 7);
    pos := EmitNext(code, pos, LdrSpWord(17), before, ws, 8);
    pos := EmitNext(code, pos, PremulWord(i2), before, ws, 9);
  }

  /** The next 10. */
  method EmitMemLoopSecond(code: array<u32>, start: nat, program: Program, ghost before: seq<u32>) returns (pos: nat)
    requires Compilable(program) && start + 10 <= code.Length && code[..start] == before + MemLoop(program)[..10]
    modifies code
    ensures pos == start + 10 && code[..pos] == before + MemLoop(program)[..20]
  {
    hide MulWord, RorWord, MovWord, OrrWord, PreXasWord, XasWord, PremulWord, LdrSpWord, And2040Word, U32, BranchCode,
         StorePair, DistinctDestinations, ImmOk;
    var i0, i2, i3, i4, i5 := program[0], program[2], program[3], program[4], program[5];
    ghost var ws := MemLoop(program);
    pos := start;
    pos := EmitNext(code, pos, PreXasWord(i3), before, ws, 10);
    pos := EmitNext(code, pos, RorWord(U32(i0.dst), i0.imm), before, ws, 11);
    pos := EmitNext(code, pos, MulWord(U32(i2.dst), 16), before, ws, 12);
    pos := EmitNext(code, pos, XasWord(i3, 17), before, ws, 13);
    pos := EmitNext(code, pos, And2040Word(16, U32(i4.src)), before, ws, 14);
    pos := EmitNext(code, pos, LdrSpWord(16), before, ws, 15);
    pos := EmitNext(code, pos, And2040Word(17, U32(i5.src)), before, ws, 16);
    pos := EmitNext(code, pos, LdrSpWord(17), before, ws, 17);
    pos := EmitNext(code, pos, PremulWord(i4), before, ws, 18);
    pos := EmitNext(code, pos, PreXasWord(i5), before, ws, 19);
  }

  /** The next 5. */
  method EmitMemLoopThird(code: array<u32>, start: nat, program: Program, ghost before: seq<u32>) returns (pos: nat)
    requires Compilable(program) && start + 5 <= code.Length && code[..start] == before + MemLoop(program)[..20]
    modifies code
    ensures pos == start + 5 && code[..pos] == before + MemLoop(program)[..25]
  {
    hide MulWord, RorWord, MovWord, OrrWord, PreXasWord, XasWord, PremulWord, LdrSpWord, And2040Word, U32, BranchCode,
         StorePair, DistinctDestinations, ImmOk;
    var i0, i4, i5, i6 := program[0], program[4], program[5], program[6];
    ghost var ws := MemLoop(program);
    pos := start;
    pos := EmitNext(code, pos, OrrWord(14, U32(i0.dst), 9), before, ws, 20);
    pos := EmitNext(code, pos, MulWord(U32(i4.dst), 16), before, ws, 21);
    pos := EmitNext(code, pos, XasWord(i5, 17), before, ws, 22);
    pos := EmitNext(code, pos, And2040Word(16, U32(i6.src)), before, ws, 23);
    pos := EmitNext(code, pos, LdrSpWord(16), before, ws, 24);
  }

  /** The next 3. */
  method EmitMemLoopFourth(code: array<u32>, start: nat, program: Program, ghost before: seq<u32>) returns (pos: nat)
    requires Compilable(program) && start + 3 <= code.Length && code[..start] == before + MemLoop(program)[..25]
    modifies code
    ensures pos == start + 3 && code[..pos] == before + MemLoop(program)[..28]
  {
    hide MulWord, RorWord, MovWord, OrrWord, PreXasWord, XasWord, PremulWord, LdrSpWord, And2040Word, U32, BranchCode,
         StorePair, DistinctDestinations, ImmOk;
    var i6, i8 := program[6], program[8];
    ghost var ws := MemLoop(program);
    pos := start;
    pos := EmitNext(code, pos, And2040Word(17, U32(i8.src)), before, ws, 25);
    pos := EmitNext(code, pos, LdrSpWord(17), before, ws, 26);
    pos := EmitNext(code, pos, PremulWord(i6), before, ws, 27);
  }

  /** The last 3. */
  method EmitMemLoopFifth(code: array<u32>, start: nat, program: Program, ghost before: seq<u32>) returns (pos: nat)
    requires Compilable(program) && start + 3 <= code.Length && code[..start] == before + MemLoop(program)[..28]
    modifies code
    ensures pos == start + 3 && code[..pos] == before + MemLoop(program)[..31]
  {
    hide MulWord, RorWord, MovWord, OrrWord, PreXasWord, XasWord, PremulWord, LdrSpWord, And2040Word, U32, BranchCode,
         StorePair, DistinctDestinations, ImmOk;
    var i6 := program[6];
    ghost var ws := MemLoop(program);
    pos := start;
    pos := EmitNext(code, pos, BranchCode()[0], before, ws, 28);
    pos := EmitNext(code, pos, BranchCode()[1], before, ws, 29);
    pos := EmitNext(code, pos, MulWord(U32(i6.dst), 16), before, ws, 30);
  }

  method EmitMemLoop(code: array<u32>, start: nat, program: Program) returns (pos: nat)
    requires Compilable(program) && start + 31 <= code.Length
    modifies code
    ensures pos == start + 31 && code[..pos] == old(code[..start]) + MemLoop(program)
  {
    hide Compilable, MemLoop;
    ghost var before := code[..start];
    pos := EmitMemLoopFirst(code, start, program, before);
    pos := EmitMemLoopSecond(code, pos, program, before);
    pos := EmitMemLoopThird(code, pos, program, before);
    pos := EmitMemLoopFourth(code, pos, program, before);
    pos := EmitMemLoopFifth(code, pos, program, before);
  }

  method CompileProgramMem(program: Program, code: array<u32>, start: nat) returns (pos: nat)
    requires Compilable(program) && start + MEM_WORDS <= code.Length < 0x100_0000
    modifies code
    ensures pos == start + MEM_WORDS
    ensures code[..pos] == old(code[..start]) + MemCode(program)
  {
    hide OperandsOk, MemLoop, BeqWord, PreXasWord, XasWord;
    var target := start;
    pos := EmitMemLoop(code, start, program);
    BeqWordRelative(target, 31);
    pos := EmitIsn(code, pos, BeqWord(pos, target));
    pos := EmitIsn(code, pos, PreXasWord(program[8]));
    pos := EmitIsn(code, pos, XasWord(program[8], 17));
  }

  /** Compiles a list of programs; the code fits the buffer with room to spare. */
  method Compile(code: array<u32>, l: ProgramList) returns (pos: nat)
    requires code.Length == CODE_WORDS && forall i :: 0 <= i < NUM_PROGRAMS ==> Compilable(l[i])
    modifies code
    ensures pos == 1936 && code[..pos] == ListCode(l)
  {
    hide Compilable, RegCode, MemCode;
    pos := EmitAll(code, 0, Prologue());
    for i := 0 to NUM_PROGRAMS
      invariant pos == |Prologue()| + REG_WORDS * i
      invariant code[..pos] == Prologue() + RegCodes(l, i)
    {
      pos := CompileProgramReg(l[i], code, pos);
    }
    pos := EmitIsn(code, pos, ClearBc());
    ghost var first := Prologue() + RegCodes(l, NUM_PROGRAMS) + [ClearBc()];
    for i := 0 to NUM_PROGRAMS
      invariant pos == |first| + MEM_WORDS * i
      invariant code[..pos] == first + MemCodes(l, i)
    {
      pos := CompileProgramMem(l[i], code, pos);
    }
    pos := EmitAll(code, pos, Epilogue());
  }
}
