/** The bytes that the x86-64 back end emits decode to the instructions it means. */
module X86Decode {
  import opened Wrappers
  import opened Words
  import opened Displacements
  import opened Slices
  import opened X86Machine
  import opened X86Compiler

  lemma ByteAt(code: seq<u8>, pc: nat, b: seq<u8>, k: nat)
    requires CodeAt(code, pc, b) && k < |b|
    ensures At(code, pc + k) == b[k] as u32
  {
    assert code[pc..pc + |b|][k] == code[pc + k];
  }

  // ----- fields -----

  lemma RegField(r: nat)
    requires r < 8
    ensures U32(r) < 8 && G(U32(r), true) == r + 8 && G(U32(r), false) == r
  {
    Cast32(r);
  }

  /** A ModRM byte assembled from its three fields. */
  function Pack(mod: u32, reg: u32, rm: u32): u32 {
    (mod << 6) | (reg << 3) | rm
  }

  lemma Fields(mod: u32, reg: u32, rm: u32)
    requires mod < 4 && reg < 8 && rm < 8
    ensures var m := Pack(mod, reg, rm); ModOf(m) == mod && RegOf(m) == reg && RmOf(m) == rm && m < 256
  {
  }

  lemma OpImmFields(tpl: u32, d: u32, imm: u32)
    requires tpl & 0xff07_0000 == 0 && d < 8 && imm < 64
    ensures var w := tpl | (d << 16) | (imm << 24);
            && Byte0(w) as u32 == tpl & 0xff && Byte1(w) as u32 == (tpl >> 8) & 0xff
            && Byte2(w) as u32 == ((tpl >> 16) & 0xff) | d && Byte3(w) as u32 == imm
  {
  }

  /** The four bytes of an operation with an immediate. */
  lemma OpImmBytesAt(code: seq<u8>, pc: nat, tpl: u32, d: u32, imm: u32)
    requires CodeAt(code, pc, OpImmBytes(tpl, d, imm)) && tpl & 0xff07_0000 == 0 && d < 8 && imm < 64
    ensures At(code, pc) == tpl & 0xff && At(code, pc + 1) == (tpl >> 8) & 0xff
    ensures At(code, pc + 2) == ((tpl >> 16) & 0xff) | d && At(code, pc + 3) == imm
  {
    hide At, Byte0, Byte1, Byte2, Byte3, CodeAt;
    OpImmFields(tpl, d, imm);
    var b := OpImmBytes(tpl, d, imm);
    ByteAt(code, pc, b, 0);
    ByteAt(code, pc, b, 1);
    ByteAt(code, pc, b, 2);
    ByteAt(code, pc, b, 3);
  }

  /** With a REX.W prefix, the second byte chooses the group. */
  lemma DecodeIsWide(code: seq<u8>, pc: nat)
    requires At(code, pc) & 0xf8 == 0x48 && At(code, pc + 1) != 0x81
    ensures Decode(code, pc) == DecodeWide(At(code, pc), At(code, pc + 1), At(code, pc + 2), At(code, pc + 3), At(code, pc + 4))
  {
    hide DecodeWide, DecodeNarrow, DecodeExtendedStack, At;
  }

  predicate MulTemplate(k: nat, op: ImmOp) {
    match op case ORI => k == 0 case XORI => k == 1 case ADDI => k == 2
  }

  lemma DecodeMulImm(code: seq<u8>, pc: nat, k: nat, op: ImmOp, d: u32, imm: u32)
    requires CodeAt(code, pc, OpImmBytes(TplMul(k), d, imm)) && MulTemplate(k, op) && d < 8 && imm < 64
    ensures Decode(code, pc) == Some(Coded(OpImm(op, G(d, true), imm as u64), 4))
  {
    hide CodeAt, Decode, At, OpImmBytes, G, ModOf, RegOf, RmOf, Pack;
    OpImmBytesAt(code, pc, TplMul(k), d, imm);
    DecodeIsWide(code, pc);
    Fields(3, 1, d);
    Fields(3, 6, d);
    Fields(3, 0, d);
    PackImm(d);
  }

  lemma PackImm(d: u32)
    requires d < 8
    ensures 0xc8 | d == Pack(3, 1, d) && 0xf0 | d == Pack(3, 6, d) && 0xc0 | d == Pack(3, 0, d)
    ensures 0xf8 | d == Pack(3, 7, d) && 0xe8 | d == Pack(3, 5, d)
  {
  }

  predicate ShiftTemplate(k: nat, op: ShiftOp) {
    match op case ROR => k == 0 case SAR => k == 1 case SHR => k == 2
  }

  lemma DecodePreXas(code: seq<u8>, pc: nat, k: nat, op: ShiftOp, d: u32, imm: Count)
    requires CodeAt(code, pc, OpImmBytes(TplPreXas(k), d, imm)) && ShiftTemplate(k, op) && d < 8
    ensures Decode(code, pc) == Some(Coded(Shift(op, G(d, true), imm), 4))
  {
    hide CodeAt, Decode, At, OpImmBytes, G, ModOf, RegOf, RmOf, Pack;
    OpImmBytesAt(code, pc, TplPreXas(k), d, imm);
    DecodeIsWide(code, pc);
    Fields(3, 1, d);
    Fields(3, 7, d);
    Fields(3, 5, d);
    PackImm(d);
  }

  lemma OpRegFields(tpl: u32, d: u32, s: u32)
    requires tpl & 0xffff_3f00 == 0 && tpl & 0xc000 == 0xc000 && d < 8 && s < 8
    ensures var w := tpl | (d << 8) | (s << 11);
            Byte0(w) as u32 == tpl & 0xff && Byte1(w) as u32 == Pack(3, s, d)
  {
  }

  lemma OpRegBytesAt(code: seq<u8>, pc: nat, prefix: u8, tpl: u32, d: u32, s: u32)
    requires CodeAt(code, pc, OpRegBytes(prefix, tpl, d, s))
    requires tpl & 0xffff_3f00 == 0 && tpl & 0xc000 == 0xc000 && d < 8 && s < 8
    ensures At(code, pc) == prefix as u32 && At(code, pc + 1) == tpl & 0xff && At(code, pc + 2) == Pack(3, s, d)
  {
    hide At, Byte0, Byte1, CodeAt, Pack;
    OpRegFields(tpl, d, s);
    var b := OpRegBytes(prefix, tpl, d, s);
    ByteAt(code, pc, b, 0);
    ByteAt(code, pc, b, 1);
    ByteAt(code, pc, b, 2);
  }

  predicate RegTemplate(k: nat, op: AluOp) {
    match op case XOR => k == 0 case ADD => k == 1 case SUB => k == 2 case MOV => false
  }

  lemma DecodeXasReg(code: seq<u8>, pc: nat, k: nat, op: AluOp, d: u32, s: u32)
    requires CodeAt(code, pc, OpRegBytes(0x4d, TplXasReg(k), d, s)) && RegTemplate(k, op) && d < 8 && s < 8
    ensures Decode(code, pc) == Some(Coded(OpReg(op, G(d, true), G(s, true)), 3))
  {
    hide CodeAt, Decode, At, OpRegBytes, G, ModOf, RegOf, RmOf, Pack;
    OpRegBytesAt(code, pc, 0x4d, TplXasReg(k), d, s);
    DecodeIsWide(code, pc);
    Fields(3, s, d);
  }

  /** mov into rax or rdx. */
  lemma DecodeMov(code: seq<u8>, pc: nat, d: u32, s: u32)
    requires CodeAt(code, pc, OpRegBytes(0x4c, 0xc089, d, s)) && d < 4 && s < 8
    ensures Decode(code, pc) == Some(Coded(OpReg(MOV, G(d, false), G(s, true)), 3))
  {
    hide CodeAt, Decode, At, OpRegBytes, G, ModOf, RegOf, RmOf, Pack;
    OpRegBytesAt(code, pc, 0x4c, 0xc089, d, s);
    DecodeIsWide(code, pc);
    Fields(3, s, d);
  }

  lemma ImulFields(tpl: u32, d: u32, s: u32)
    requires tpl & 0x3f00_0000 == 0 && tpl & 0xc000_0000 == 0xc000_0000 && d < 8 && s < 8
    ensures var w := tpl | (s << 24) | (d << 27);
            && Byte0(w) as u32 == tpl & 0xff && Byte1(w) as u32 == (tpl >> 8) & 0xff
            && Byte2(w) as u32 == (tpl >> 16) & 0xff && Byte3(w) as u32 == Pack(3, d, s)
  {
  }

  lemma Bytes32At(code: seq<u8>, pc: nat, w: u32)
    requires CodeAt(code, pc, Bytes32(w))
    ensures At(code, pc) == Byte0(w) as u32 && At(code, pc + 1) == Byte1(w) as u32
    ensures At(code, pc + 2) == Byte2(w) as u32 && At(code, pc + 3) == Byte3(w) as u32
  {
    hide At, Byte0, Byte1, Byte2, Byte3, CodeAt;
    var b := Bytes32(w);
    ByteAt(code, pc, b, 0);
    ByteAt(code, pc, b, 1);
    ByteAt(code, pc, b, 2);
    ByteAt(code, pc, b, 3);
  }

  lemma DecodeImul4d(code: seq<u8>, pc: nat, d: u32, s: u32)
    requires CodeAt(code, pc, ImulReg4d(d, s)) && d < 8 && s < 8
    ensures Decode(code, pc) == Some(Coded(Imul(G(d, true), G(s, true)), 4))
  {
    hide CodeAt, Decode, At, G, ModOf, RegOf, RmOf, Pack, Byte0, Byte1, Byte2, Byte3;
    Bytes32At(code, pc, 0xc0af_0f4d | (s << 24) | (d << 27));
    ImulFields(0xc0af_0f4d, d, s);
    DecodeIsWide(code, pc);
    Fields(3, d, s);
  }

  /** With a multiplier in rsi or rdi. */
  lemma DecodeImul4c(code: seq<u8>, pc: nat, d: u32, s: u32)
    requires CodeAt(code, pc, ImulReg4c(d, s)) && d < 8 && 6 <= s < 8
    ensures Decode(code, pc) == Some(Coded(Imul(G(d, true), G(s, false)), 4))
  {
    hide CodeAt, Decode, At, G, ModOf, RegOf, RmOf, Pack, Byte0, Byte1, Byte2, Byte3;
    Bytes32At(code, pc, 0xc0af_0f4c | (s << 24) | (d << 27));
    ImulFields(0xc0af_0f4c, d, s);
    DecodeIsWide(code, pc);
    Fields(3, d, s);
  }

  lemma StackFields(tpl: u32, d: u32)
    requires tpl & 0x00f8_0000 == 0 && d < 8
    ensures var w := tpl | (d << 19);
            && Byte0(w) as u32 == tpl & 0xff && Byte1(w) as u32 == (tpl >> 8) & 0xff
            && Byte2(w) as u32 == ((tpl >> 16) & 7) | (d << 3) && Byte3(w) as u32 == (tpl >> 24) & 0xff
    ensures 4 | (d << 3) == Pack(0, d, 4)
  {
  }

  lemma DecodeImulMem(code: seq<u8>, pc: nat, d: u32)
    requires CodeAt(code, pc, ImulMem(d)) && d < 8
    ensures Decode(code, pc) == Some(Coded(ImulSp(G(d, true)), 5))
  {
    hide CodeAt, Decode, At, G, ModOf, RegOf, RmOf, Pack, Byte0, Byte1, Byte2, Byte3;
    var w := 0x0404_af0f | (d << 19);
    CodeAtPart(code, pc, [0x4c], Bytes32(w));
    ByteAt(code, pc, [0x4c], 0);
    Bytes32At(code, pc + 1, w);
    StackFields(0x0404_af0f, d);
    DecodeIsWide(code, pc);
    Fields(0, d, 4);
  }

  lemma DecodeXasMem(code: seq<u8>, pc: nat, k: nat, op: AluOp, d: u32)
    requires CodeAt(code, pc, OpMemBytes(TplXasMem(k), d)) && RegTemplate(k, op) && d < 8
    ensures Decode(code, pc) == Some(Coded(OpSp(op, G(d, true)), 4))
  {
    hide CodeAt, Decode, At, G, ModOf, RegOf, RmOf, Pack, Byte0, Byte1, Byte2, Byte3;
    Bytes32At(code, pc, TplXasMem(k) | (d << 19));
    StackFields(TplXasMem(k), d);
    DecodeIsWide(code, pc);
    Fields(0, d, 4);
  }

  // ----- constant pieces -----

  lemma DecodeTarget(code: seq<u8>, pc: nat)
    requires CodeAt(code, pc, CodeTarget())
    ensures && Decode(code, pc) == Some(Coded(Test32(5, 5), 2))
            && Decode(code, pc + 2) == Some(Coded(Cmovz32(3, 5), 3))
  {
    hide CodeAt, At, DecodeWide, DecodeExtendedStack;
    var b := CodeTarget();
    ByteAt(code, pc, b, 0);
    ByteAt(code, pc, b, 1);
    ByteAt(code, pc, b, 2);
    ByteAt(code, pc, b, 3);
    ByteAt(code, pc, b, 4);
  }

  lemma DecodeBranch(code: seq<u8>, pc: nat)
    requires CodeAt(code, pc, CodeBranch())
    ensures && Decode(code, pc) == Some(Coded(Or32(2, 3), 2))
            && Decode(code, pc + 2) == Some(Coded(Lea32(5, 3, 1), 3))
            && Decode(code, pc + 5) == Some(Coded(TestByte(2, 32), 3))
  {
    hide CodeAt, At, DecodeWide, DecodeExtendedStack;
    var b := CodeBranch();
    ByteAt(code, pc, b, 0);
    ByteAt(code, pc, b, 1);
    ByteAt(code, pc, b, 2);
    ByteAt(code, pc, b, 3);
    ByteAt(code, pc, b, 4);
    ByteAt(code, pc, b, 5);
    ByteAt(code, pc, b, 6);
    ByteAt(code, pc, b, 7);
  }

  lemma DecodeAddress(code: seq<u8>, pc: nat)
    requires CodeAt(code, pc, CodeAddress())
    ensures Decode(code, pc) == Some(Coded(AndEax(2040), 5))
  {
    hide CodeAt, At, DecodeWide, DecodeExtendedStack;
    var b := CodeAddress();
    ByteAt(code, pc, b, 0);
    ByteAt(code, pc, b, 1);
    ByteAt(code, pc, b, 2);
    ByteAt(code, pc, b, 3);
    ByteAt(code, pc, b, 4);
  }

  lemma DecodeClear(code: seq<u8>, pc: nat)
    requires CodeAt(code, pc, CodeClearBc())
    ensures Decode(code, pc) == Some(Coded(Xor32(3, 3), 2))
  {
    hide CodeAt, At, DecodeWide, DecodeExtendedStack;
    ByteAt(code, pc, CodeClearBc(), 0);
    ByteAt(code, pc, CodeClearBc(), 1);
  }

  lemma DecodePush(code: seq<u8>, pc: nat, k: nat)
    requires CodeAt(code, pc, CodeStore()) && k < 8
    ensures Decode(code, pc + 2 * k) == Some(Coded(Push(8 + k), 2))
  {
    hide CodeAt, At, DecodeWide, DecodeNarrow;
    ByteAt(code, pc, CodeStore(), 2 * k);
    ByteAt(code, pc, CodeStore(), 2 * k + 1);
    match k
    case 0 => case 1 => case 2 => case 3 => case 4 => case 5 => case 6 => case 7 =>
  }

  // ----- jumps -----

  /** Whatever the distance, the jump lands two bytes behind the loop head, which is dist bytes
      in front of it: with n bytes of its own, its displacement is 2 - n - dist. */
  lemma DecodeJz(code: seq<u8>, pc: nat, dist: nat)
    requires dist < 0x7fff_0000 && CodeAt(code, pc, JzBytes(dist))
    ensures var n := |JzBytes(dist)|;
            (n == if 1 <= dist <= 128 then 2 else 6) && Decode(code, pc) == Some(Coded(Jz(2 - n - dist), n))
  {
    hide CodeAt, Decode, JzOffset, Back, Number32, Word32, ShortDistance, NearDistance;
    WordBack32(dist);
    var w := Word32(dist);
    Distances(w);
    if 1 <= dist <= 128 {
      DecodeShortJz(code, pc, w);
    } else {
      DecodeNearJz(code, pc, w);
    }
  }

  predicate ShortDistance(w: u32) { 1 <= w <= 128 }

  predicate NearDistance(w: u32) { w == 0 || 128 < w < 0x7fff_0000 }

  lemma Distances(w: u32)
    ensures 1 <= Number32(w) <= 128 ==> ShortDistance(w)
    ensures Number32(w) == 0 || 128 < Number32(w) < 0x7fff_0000 ==> NearDistance(w)
  {
  }

  lemma DecodeShortJz(code: seq<u8>, pc: nat, w: u32)
    requires ShortDistance(w) && CodeAt(code, pc, JzOffset(Back(w)))
    ensures |JzOffset(Back(w))| == 2 && Decode(code, pc) == Some(Coded(Jz(0 - Number32(w)), 2))
  {
    hide CodeAt, At, Decode, JzOffset, Back, Byte0, Number32, SignExtend8, ShortDistance;
    ShortForm(w);
    ByteAt(code, pc, [0x74, Byte0(Back(w))], 0);
    ByteAt(code, pc, [0x74, Byte0(Back(w))], 1);
    ShortByte(w);
    ShortDecodes(code, pc);
  }

  lemma ShortForm(w: u32)
    requires ShortDistance(w)
    ensures JzOffset(Back(w)) == [0x74, Byte0(Back(w))]
  {
    hide Byte0;
  }

  /** The byte is the complement of the distance less one. */
  lemma ShortByte(w: u32)
    requires ShortDistance(w)
    ensures var b := Byte0(Back(w)) as u32; b < 256 && SignExtend8(b) == 0 - Number32(w)
  {
    hide Byte0, Back, Number32, SignExtend8, Next, NotLast, Flip, Mask, ShortDistance;
    var u := ShortBits(w);
    Flipped(0xff, u);
    Successor(u);
    ByteNumber();
    ByteExtended(Flip(0xff, u));
  }

  lemma ShortBits(w: u32) returns (u: u32)
    requires ShortDistance(w)
    ensures && Byte0(Back(w)) as u32 == Flip(0xff, u) && 128 <= Flip(0xff, u) < 256
            && Mask(0xff, u) && NotLast(u) && Next(u) == w
  {
    u := w - 1;
  }

  lemma ByteNumber()
    ensures Number32(0xff) == 255
  {
  }

  lemma ByteExtended(b: u32)
    requires 128 <= b < 256
    ensures SignExtend8(b) == Number32(b) - 256
  {
  }

  lemma ShortDecodes(code: seq<u8>, pc: nat)
    requires At(code, pc) == 0x74 && At(code, pc + 1) < 256
    ensures Decode(code, pc) == Some(Coded(Jz(SignExtend8(At(code, pc + 1))), 2))
  {
    hide At, SignExtend8, DecodeWide, DecodeExtendedStack;
  }

  /** The near form, for other distances: its displacement is counted from the end of its six
      bytes. */
  lemma DecodeNearJz(code: seq<u8>, pc: nat, w: u32)
    requires NearDistance(w) && CodeAt(code, pc, JzOffset(Back(w)))
    ensures |JzOffset(Back(w))| == 6 && Decode(code, pc) == Some(Coded(Jz(0 - Number32(w) - 4), 6))
  {
    hide CodeAt, At, Decode, JzOffset, Back, Displacement, Bytes32, SignExtend32, Number32, NearDistance;
    NearForm(w);
    var d := Displacement(w);
    CodeAtPart(code, pc, [0x0f, 0x84], Bytes32(d));
    ByteAt(code, pc, [0x0f, 0x84], 0);
    ByteAt(code, pc, [0x0f, 0x84], 1);
    Bytes32At(code, pc + 2, d);
    NearDecodes(code, pc);
    NearWord(code, pc + 2, d);
    NearNumber(w);
  }

  /** What the near form stores. */
  function Displacement(w: u32): u32 { 0 - w - 4 }

  lemma NearForm(w: u32)
    requires NearDistance(w)
    ensures JzOffset(Back(w)) == [0x0f, 0x84] + Bytes32(Displacement(w))
    ensures |Bytes32(Displacement(w))| == 4
  {
    hide Bytes32;
  }

  /** The word is the complement of the distance plus three. */
  lemma NearNumber(w: u32)
    requires NearDistance(w)
    ensures SignExtend32(Displacement(w)) == 0 - Number32(w) - 4
  {
    hide SignExtend32, Number32, Displacement, Next, NotLast, Flip, Mask, NearDistance;
    NearBits(w);
    Successor(w);
    Successor(Next(w));
    Successor(Next(Next(w)));
    Flipped(0xffff_ffff, Next(Next(Next(w))));
    AllOnes();
    SignExtended(w);
  }

  lemma NearBits(w: u32)
    requires NearDistance(w)
    ensures NotLast(w) && NotLast(Next(w)) && NotLast(Next(Next(w)))
    ensures var x := Next(Next(Next(w)));
            Mask(0xffff_ffff, x) && Displacement(w) == Flip(0xffff_ffff, x)
  {
    hide Mask, Flip, Displacement;
    ThreeMore(w);
    AllMask(Next(Next(Next(w))));
    NearFlips(w, Next(Next(Next(w))));
  }

  lemma ThreeMore(w: u32)
    ensures Next(Next(Next(w))) == w + 3
  {
  }

  lemma AllMask(x: u32)
    ensures Mask(0xffff_ffff, x)
  {
  }

  lemma NearFlips(w: u32, x: u32)
    requires x == w + 3
    ensures Displacement(w) == Flip(0xffff_ffff, x)
  {
  }

  lemma AllOnes()
    ensures Number32(0xffff_ffff) == 0xffff_ffff
  {
  }

  lemma SignExtended(w: u32)
    requires NearDistance(w)
    ensures SignExtend32(Displacement(w)) == Number32(Displacement(w)) - 0x1_0000_0000
  {
  }

  lemma NearWord(code: seq<u8>, pc: nat, d: u32)
    requires At(code, pc) == Byte0(d) as u32 && At(code, pc + 1) == Byte1(d) as u32
    requires At(code, pc + 2) == Byte2(d) as u32 && At(code, pc + 3) == Byte3(d) as u32
    ensures Imm32(code, pc) == d
  {
    hide At, Byte0, Byte1, Byte2, Byte3;
    LoadBytes32(d);
  }

  lemma NearDecodes(code: seq<u8>, pc: nat)
    requires At(code, pc) == 0x0f && At(code, pc + 1) == 0x84
    ensures Decode(code, pc) == Some(Coded(Jz(SignExtend32(Imm32(code, pc + 2))), 6))
  {
    hide At, Imm32, SignExtend32, DecodeWide, DecodeExtendedStack;
  }
}
