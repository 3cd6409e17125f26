/** The words that the AArch64 back end emits decode to the instructions it means. */
module A64Decode {
  import opened Wrappers
  import opened Words
  import opened Displacements
  import opened Vm
  import opened A64Machine
  import opened A64Compiler

  // ----- the intended instructions -----

  function MulIsn(i: Instruction, src: Reg): Isn { Alu(MUL, i.dst, i.dst, src) }

  function RorIsn(i: Instruction): Isn { Shift(ROR, i.dst, i.dst, i.imm) }

  function PreXasIsn(i: Instruction): Isn
    requires i.opcode.IsXas()
  {
    var op := if i.opcode.Num() <= 6 then ROR else if i.opcode.Num() <= 9 then ASR else LSR;
    Shift(op, i.dst, i.dst, i.imm)
  }

  function XasIsn(i: Instruction, src: Reg): Isn
    requires i.opcode.IsXas()
  {
    match i.opcode
    case XORROR => Alu(EOR, i.dst, i.dst, src)
    case XORASR => Alu(EOR, i.dst, i.dst, src)
    case XORLSR => Alu(EOR, i.dst, i.dst, src)
    case ADDROR => Alu(ADD, i.dst, i.dst, src)
    case ADDASR => Alu(ADD, i.dst, i.dst, src)
    case ADDLSR => Alu(ADD, i.dst, i.dst, src)
    case _ => Alu(SUB, i.dst, i.dst, src)
  }

  /** The immediates 9 and 33 do not fit a logical immediate, so x10 and x11 hold them. */
  function PremulIsn(i: Instruction): Isn
    requires i.opcode.IsMul()
  {
    var d := i.dst;
    match i.opcode
    case MULOR =>
      if i.imm == 1 then AluImm(ORRI, d, d, 1) else Alu(ORR, d, d, if i.imm == 9 then 10 else 11)
    case MULXOR =>
      if i.imm == 1 then AluImm(EORI, d, d, 1) else Alu(EOR, d, d, if i.imm == 9 then 10 else 11)
    case _ => AluImm(ADDI, d, d, i.imm as u64)
  }

  // ----- one lemma for each shape of word -----

  lemma RegField(r: Reg)
    ensures U32(r) < 31 && R(U32(r)) == r
  {
    Cast32(r);
  }

  function Pack(tpl: u32, d: u32, n: u32, m: u32): u32 {
    tpl | (m << 16) | (n << 5) | d
  }

  lemma Fields(tpl: u32, d: u32, n: u32, m: u32)
    requires d < 32 && n < 32 && m < 32 && tpl & 0x001f_03ff == 0
    ensures var w := Pack(tpl, d, n, m); Rd(w) == d && Rn(w) == n && Rm(w) == m && w & 0xffe0_fc00 == tpl
  {
  }

  predicate ThreeTemplate(tpl: u32, op: AluOp) {
    match op
    case MUL => tpl == 0x9b00_7c00
    case ADD => tpl == 0x8b00_0000
    case SUB => tpl == 0xcb00_0000
    case EOR => tpl == 0xca00_0000
    case ORR => tpl == 0xaa00_0000
  }

  lemma DecodeThree(op: AluOp, tpl: u32, d: u32, n: u32, m: u32)
    requires d < 31 && n < 31 && m < 31 && ThreeTemplate(tpl, op)
    ensures Decode(Pack(tpl, d, n, m)) == Some(Alu(op, R(d), R(n), R(m)))
  {
    hide R, Pack, Rd, Rm, DecodeBranch, DecodePair, DecodeArith, DecodeLogical, DecodeShift;
    Fields(tpl, d, n, m);
  }

  lemma DecodeMov(d: u32, m: u32)
    requires d < 31 && m < 31
    ensures Decode(Pack(0xaa00_0000, d, 31, m)) == Some(Mov(R(d), R(m)))
  {
    hide R, Pack, Rd, Rm, DecodeBranch, DecodePair, DecodeArith, DecodeLogical, DecodeShift;
    Fields(0xaa00_0000, d, 31, m);
  }

  lemma DecodeLdrSp(d: u32)
    requires d < 31
    ensures Decode(Pack(0xf860_6800, d, 31, d)) == Some(LdrSp(R(d), R(d)))
  {
    hide R, Pack, Rd, Rm, DecodeBranch, DecodePair, DecodeArith, DecodeLogical, DecodeShift;
    Fields(0xf860_6800, d, 31, d);
  }

  /** extr d, d, d, #count is the rotation. */
  lemma DecodeRor(d: u32, count: Count)
    requires d < 31
    ensures Decode(Pack(0x93c0_0000 | (count << 10), d, d, d)) == Some(Shift(ROR, R(d), R(d), count))
  {
    hide R, Pack, Rd, Rn, Rm, DecodeBranch, DecodePair, DecodeArith, DecodeLogical, DecodeShift;
    Fields(0x93c0_0000 | (count << 10), d, d, d);
    var w := Pack(0x93c0_0000 | (count << 10), d, d, d);
  }

  /** A word with a six-bit field at bit 16, as in the bit-field and logical groups. */
  function PackImmr(tpl: u32, d: u32, n: u32, immr: u32): u32 {
    tpl | (immr << 16) | (n << 5) | d
  }

  lemma FieldsImmr(tpl: u32, d: u32, n: u32, immr: u32)
    requires d < 32 && n < 32 && immr < 64 && tpl & 0x003f_03ff == 0
    ensures var w := PackImmr(tpl, d, n, immr);
            Rd(w) == d && Rn(w) == n && (w >> 16) & 63 == immr && w & 0xffc0_fc00 == tpl
  {
  }

  lemma DecodeShiftImm(op: ShiftOp, tpl: u32, d: u32, count: Count)
    requires d < 31 && ((op.ASR? && tpl == 0x9340_fc00) || (op.LSR? && tpl == 0xd340_fc00))
    ensures Decode(PackImmr(tpl, d, d, count)) == Some(Shift(op, R(d), R(d), count))
  {
    hide R, PackImmr, Rd, Rn, DecodeBranch, DecodePair, DecodeArith, DecodeLogical, DecodeReg;
    FieldsImmr(tpl, d, d, count);
  }

  lemma BitMasks()
    ensures BitMask(0, 0) == 1 && BitMask(61, 7) == 2040 && BitMask(59, 0) == 32
  {
  }

  lemma DecodeAnd2040(d: u32, n: u32)
    requires d < 31 && n < 31
    ensures Decode(PackImmr(0x9240_1c00, d, n, 61)) == Some(AluImm(ANDI, R(d), R(n), 2040))
  {
    hide R, PackImmr, Rd, Rn, BitMask, DecodeBranch, DecodePair, DecodeArith, DecodeShift, DecodeReg;
    FieldsImmr(0x9240_1c00, d, n, 61);
    BitMasks();
    var w := PackImmr(0x9240_1c00, d, n, 61);
    assert (w >> 10) & 63 == 7;
  }

  lemma DecodeLogicalOne(op: ImmOp, tpl: u32, d: u32)
    requires d < 31 && ((op.ORRI? && tpl == 0xb240_0000) || (op.EORI? && tpl == 0xd240_0000))
    ensures Decode(PackImmr(tpl, d, d, 0)) == Some(AluImm(op, R(d), R(d), 1))
  {
    hide R, PackImmr, Rd, Rn, BitMask, DecodeBranch, DecodePair, DecodeArith, DecodeShift, DecodeReg;
    FieldsImmr(tpl, d, d, 0);
    BitMasks();
    var w := PackImmr(tpl, d, d, 0);
    assert (w >> 10) & 63 == 0;
  }

  function PackAdd(d: u32, imm12: u32): u32 {
    0x9100_0000 | (imm12 << 10) | (d << 5) | d
  }

  lemma DecodeAddImm(d: u32, imm12: u32)
    requires d < 31 && imm12 < 64
    ensures Decode(PackAdd(d, imm12)) == Some(AluImm(ADDI, R(d), R(d), imm12 as u64))
  {
    hide R, PackAdd, Rd, Rn, BitMask, DecodeBranch, DecodePair, DecodeLogical, DecodeShift, DecodeReg;
    var w := PackAdd(d, imm12);
    FieldsAdd(d, imm12);
  }

  lemma FieldsAdd(d: u32, imm12: u32)
    requires d < 31 && imm12 < 64
    ensures var w := PackAdd(d, imm12);
            Rd(w) == d && Rn(w) == d && (w >> 10) & 0xfff == imm12 && w & 0xffc0_0000 == 0x9100_0000
            && w & 0xffc0_03ff != 0x9100_03ff
  {
  }

  // ----- the emitters -----

  lemma MulDecodes(i: Instruction, src: Reg)
    ensures Decode(MulWord(U32(i.dst), U32(src))) == Some(MulIsn(i, src))
  {
    hide U32, Decode, R;
    RegField(i.dst);
    RegField(src);
    DecodeThree(MUL, 0x9b00_7c00, U32(i.dst), U32(i.dst), U32(src));
  }

  lemma RorPack(d: u32, count: Count)
    ensures RorWord(d, count) == Pack(0x93c0_0000 | (count << 10), d, d, d)
  {
  }

  lemma RorDecodes(i: Instruction)
    ensures Decode(RorWord(U32(i.dst), i.imm)) == Some(RorIsn(i))
  {
    hide U32, Decode, R, RorWord, Pack;
    RegField(i.dst);
    RorPack(U32(i.dst), i.imm);
    DecodeRor(U32(i.dst), i.imm);
  }

  lemma MovDecodes(d: Reg, src: RegIndex)
    ensures Decode(MovWord(U32(d), U32(src))) == Some(Mov(d, src))
  {
    hide U32, Decode, R, MovWord, Pack;
    RegField(d);
    RegField(src);
    DecodeMov(U32(d), U32(src));
    MovPack(U32(d), U32(src));
  }

  lemma MovPack(d: u32, m: u32)
    ensures MovWord(d, m) == Pack(0xaa00_0000, d, 31, m)
  {
  }

  lemma OrrDecodes(d: Reg, n: Reg, m: Reg)
    ensures Decode(OrrWord(U32(d), U32(n), U32(m))) == Some(Alu(ORR, d, n, m))
  {
    hide U32, Decode, R;
    RegField(d);
    RegField(n);
    RegField(m);
    DecodeThree(ORR, 0xaa00_0000, U32(d), U32(n), U32(m));
  }

  lemma LdrSpDecodes(d: Reg)
    ensures Decode(LdrSpWord(U32(d))) == Some(LdrSp(d, d))
  {
    hide U32, Decode, R, LdrSpWord, Pack;
    RegField(d);
    DecodeLdrSp(U32(d));
    LdrSpPack(U32(d));
  }

  lemma LdrSpPack(d: u32)
    ensures LdrSpWord(d) == Pack(0xf860_6800, d, 31, d)
  {
  }

  lemma And2040Decodes(d: Reg, n: RegIndex)
    ensures Decode(And2040Word(U32(d), U32(n))) == Some(AluImm(ANDI, d, n, 2040))
  {
    hide U32, Decode, R, And2040Word, PackImmr;
    RegField(d);
    RegField(n);
    DecodeAnd2040(U32(d), U32(n));
    And2040Pack(U32(d), U32(n));
  }

  lemma And2040Pack(d: u32, n: u32)
    ensures And2040Word(d, n) == PackImmr(0x9240_1c00, d, n, 61)
  {
  }

  lemma ShiftPack(d: u32, count: Count)
    ensures AsrWord(d, count) == PackImmr(0x9340_fc00, d, d, count)
    ensures LsrWord(d, count) == PackImmr(0xd340_fc00, d, d, count)
  {
  }

  lemma ShiftDecodes(i: Instruction)
    ensures Decode(AsrWord(U32(i.dst), i.imm)) == Some(Shift(ASR, i.dst, i.dst, i.imm))
    ensures Decode(LsrWord(U32(i.dst), i.imm)) == Some(Shift(LSR, i.dst, i.dst, i.imm))
  {
    hide U32, Decode, R, AsrWord, LsrWord, PackImmr;
    ShiftPack(U32(i.dst), i.imm);
    RegField(i.dst);
    DecodeShiftImm(ASR, 0x9340_fc00, U32(i.dst), i.imm);
    DecodeShiftImm(LSR, 0xd340_fc00, U32(i.dst), i.imm);
  }

  lemma PreXasDecodes(i: Instruction)
    requires i.opcode.IsXas()
    ensures Decode(PreXasWord(i)) == Some(PreXasIsn(i))
  {
    hide U32, Decode, RorWord, AsrWord, LsrWord;
    RorDecodes(i);
    ShiftDecodes(i);
  }

  lemma AluDecodes(i: Instruction, src: Reg)
    ensures Decode(EorWord(U32(i.dst), U32(src))) == Some(Alu(EOR, i.dst, i.dst, src))
    ensures Decode(AddWord(U32(i.dst), U32(src))) == Some(Alu(ADD, i.dst, i.dst, src))
    ensures Decode(SubWord(U32(i.dst), U32(src))) == Some(Alu(SUB, i.dst, i.dst, src))
  {
    hide U32, Decode, R;
    RegField(i.dst);
    RegField(src);
    var d, m := U32(i.dst), U32(src);
    DecodeThree(EOR, 0xca00_0000, d, d, m);
    DecodeThree(ADD, 0x8b00_0000, d, d, m);
    DecodeThree(SUB, 0xcb00_0000, d, d, m);
  }

  lemma XasDecodes(i: Instruction, src: Reg)
    requires i.opcode.IsXas()
    ensures Decode(XasWord(i, U32(src))) == Some(XasIsn(i, src))
  {
    hide U32, Decode, EorWord, AddWord, SubWord;
    AluDecodes(i, src);
    match i.opcode
    case XORROR => case ADDROR => case SUBROR =>
    case XORASR => case ADDASR => case SUBASR =>
    case XORLSR => case ADDLSR => case SUBLSR =>
  }

  /** The template already names x10 or x11, or carries the immediate. */
  lemma PremulRegister(tpl: u32, d: u32, m: u32)
    ensures Premul(tpl | (m << 16), d) == Pack(tpl, d, d, m)
  {
  }

  lemma PremulLogical(tpl: u32, d: u32, immr: u32)
    requires immr == 0
    ensures Premul(tpl, d) == PackImmr(tpl, d, d, immr)
  {
    assert tpl | (immr << 16) == tpl;
  }

  lemma PremulAdd(tpl: u32, d: u32, imm: u32)
    requires tpl == 0x9100_0000 | (imm << 10)
    ensures Premul(tpl, d) == PackAdd(d, imm)
  {
    assert Premul(tpl, d) == tpl | (d << 5) | d;
  }

  lemma PremulOr(i: Instruction)
    requires i.opcode.MULOR? && ImmOk(i)
    ensures Decode(PremulWord(i)) == Some(PremulIsn(i))
  {
    hide U32, Decode, Premul, Pack, PackImmr, R;
    RegField(i.dst);
    var d := U32(i.dst);
    if i.imm == 1 {
      PremulLogical(0xb240_0000, d, 0);
      DecodeLogicalOne(ORRI, 0xb240_0000, d);
    } else {
      var m := if i.imm == 9 then 10 else 11;
      RegConst();
      PremulRegister(0xaa00_0000, d, m);
      DecodeThree(ORR, 0xaa00_0000, d, d, m);
    }
  }

  lemma PremulXor(i: Instruction)
    requires i.opcode.MULXOR? && ImmOk(i)
    ensures Decode(PremulWord(i)) == Some(PremulIsn(i))
  {
    hide U32, Decode, Premul, Pack, PackImmr, R;
    RegField(i.dst);
    var d := U32(i.dst);
    if i.imm == 1 {
      PremulLogical(0xd240_0000, d, 0);
      DecodeLogicalOne(EORI, 0xd240_0000, d);
    } else {
      var m := if i.imm == 9 then 10 else 11;
      RegConst();
      PremulRegister(0xca00_0000, d, m);
      DecodeThree(EOR, 0xca00_0000, d, d, m);
    }
  }

  lemma PremulSum(i: Instruction)
    requires i.opcode.MULADD? && ImmOk(i)
    ensures Decode(PremulWord(i)) == Some(PremulIsn(i))
  {
    hide U32, Decode, Premul, PackAdd, R;
    RegField(i.dst);
    PremulAdd(0x9100_0000 | (i.imm << 10), U32(i.dst), i.imm);
    DecodeAddImm(U32(i.dst), i.imm);
  }

  lemma RegConst()
    ensures R(10) == 10 && R(11) == 11
  {
  }

  lemma PremulDecodes(i: Instruction)
    requires i.opcode.IsMul() && ImmOk(i)
    ensures Decode(PremulWord(i)) == Some(PremulIsn(i))
  {
    hide PremulWord, PremulIsn, Decode;
    match i.opcode
    case MULOR => PremulOr(i);
    case MULXOR => PremulXor(i);
    case MULADD => PremulSum(i);
  }

  lemma BranchCodeDecodes()
    ensures Decode(BranchCode()[0]) == Some(Tst(14, 32))
    ensures Decode(BranchCode()[1]) == Some(CincEq(9, 9))
    ensures Decode(ClearBc()) == Some(Movz(9, 0))
    ensures Decode(Reserve()) == Some(SubSp(64))
  {
  }

  lemma StorePairDecodes(k: nat)
    requires k < 7
    ensures Decode(StorePair(k)) == Some(match k % 4
                                         case 0 => StpSp(3, 2, 32)
                                         case 1 => StpSp(5, 4, 16)
                                         case 2 => StpSp(7, 6, 0)
                                         case _ => StpSp(1, 0, 48))
  {
    hide DecodeReg, DecodeArith, DecodeLogical, DecodeShift, DecodeBranch;
    match k
    case 0 => case 1 => case 2 => case 3 => case 4 => case 5 => case 6 =>
  }

  /** Within the range of its 19 bits, the branch goes back to its target. */
  lemma BeqDecodes(pos: nat, target: nat)
    requires target < pos < 0x100_0000 && pos - target <= 0x4_0000
    ensures Decode(BeqWord(pos, target)) == Some(BEq(target - pos))
  {
    hide Decode, Beq, Word32, Number32, Flip, Ones, SmallBack;
    var d := pos - target;
    var v := Word32(d - 1);
    WordBack32(d - 1);
    SmallWord(v);
    OffsetWord(v);
    NumberBack32(0x1_0000_0000 - 4 * d, Flip(0xffff_ffff, Ones(v)));
    BranchBits(v);
    ImmNumber(v);
  }

  predicate SmallBack(v: u32) { v < 0x4_0000 }

  lemma SmallWord(v: u32)
    ensures Number32(v) < 0x4_0000 ==> SmallBack(v)
  {
  }

  /** Four times the distance less one, plus three. */
  function Ones(v: u32): u32 { (v << 2) | 3 }

  lemma OffsetWord(v: u32)
    requires SmallBack(v)
    ensures Number32(Flip(0xffff_ffff, Ones(v))) == 0xffff_ffff - (4 * Number32(v) + 3)
  {
    OnesNumber(v);
    OnesMask(v);
    AllNumber();
    hide Number32, Flip, Ones, Mask;
    Flipped(0xffff_ffff, Ones(v));
  }

  lemma OnesNumber(v: u32)
    requires SmallBack(v)
    ensures Number32(Ones(v)) == 4 * Number32(v) + 3
  {
    OnesTwice(v);
    hide Number32, Ones, SmallBack;
    Doubled(v);
    Doubled((v << 1) | 1);
  }

  lemma OnesTwice(v: u32)
    requires SmallBack(v)
    ensures v < 0x8000_0000 && (v << 1) | 1 < 0x8000_0000 && Ones(v) == (((v << 1) | 1) << 1) | 1
  {
  }

  lemma OnesMask(v: u32)
    ensures Mask(0xffff_ffff, Ones(v))
  {
  }

  lemma AllNumber()
    ensures Number32(0xffff_ffff) == 0xffff_ffff && Number32(0x7_ffff) == 0x7_ffff
  {
  }

  lemma BranchBits(v: u32)
    requires SmallBack(v)
    ensures Decode(Beq(Flip(0xffff_ffff, Ones(v)))) == Some(BEq(Number32(Flip(0x7_ffff, v)) - 0x8_0000))
  {
    hide Decode, Beq, Flip, Ones, Number32;
    BranchFields(v);
    NegativeBranch(Beq(Flip(0xffff_ffff, Ones(v))), Flip(0x7_ffff, v));
  }

  lemma NegativeBranch(w: u32, imm19: u32)
    requires w & 0xff00_001f == 0x5400_0000 && w & 0xff00_0000 == 0x5400_0000 && w != 0xd65f_03c0
    requires (w >> 5) & 0x7_ffff == imm19 && imm19 >= 0x4_0000
    ensures Decode(w) == Some(BEq(Number32(imm19) - 0x8_0000))
  {
    hide DecodePair, DecodeArith, DecodeLogical, DecodeReg, DecodeShift;
  }

  lemma BranchFields(v: u32)
    requires SmallBack(v)
    ensures var w := Beq(Flip(0xffff_ffff, Ones(v)));
            && w & 0xff00_001f == 0x5400_0000 && w & 0xff00_0000 == 0x5400_0000 && w != 0xd65f_03c0
            && (w >> 5) & 0x7_ffff == Flip(0x7_ffff, v) && Flip(0x7_ffff, v) >= 0x4_0000
  {
  }

  lemma ImmNumber(v: u32)
    requires SmallBack(v)
    ensures Number32(Flip(0x7_ffff, v)) == 0x7_ffff - Number32(v)
  {
    assert Mask(0x7_ffff, v);
    AllNumber();
    hide Flip, Number32, Mask, SmallBack;
    Flipped(0x7_ffff, v);
  }

  lemma PrologueDecodes()
    ensures Decode(Prologue()[0]) == Some(Ldp(12, 13, 0, 64))
    ensures Decode(Prologue()[1]) == Some(Mov(8, 0))
    ensures Decode(Prologue()[2]) == Some(Ldp(6, 7, 0, 48))
    ensures Decode(Prologue()[3]) == Some(Ldp(4, 5, 0, 32))
    ensures Decode(Prologue()[4]) == Some(Ldp(2, 3, 0, 16))
    ensures Decode(Prologue()[5]) == Some(Ldp(0, 1, 0, 0))
    ensures Decode(Prologue()[6]) == Some(Movz(9, 0))
    ensures Decode(Prologue()[7]) == Some(Movz(10, 9))
    ensures Decode(Prologue()[8]) == Some(Movz(11, 33))
  {
  }

  lemma EpilogueDecodes()
    ensures Decode(Epilogue()[0]) == Some(Stp(6, 7, 8, 48))
    ensures Decode(Epilogue()[1]) == Some(AddSp(2048))
    ensures Decode(Epilogue()[2]) == Some(Stp(4, 5, 8, 32))
    ensures Decode(Epilogue()[3]) == Some(Stp(2, 3, 8, 16))
    ensures Decode(Epilogue()[4]) == Some(Stp(0, 1, 8, 0))
    ensures Decode(Epilogue()[5]) == Some(Ret)
  {
  }
}
