/** The AArch64 instructions that the back end emits: their meaning, and a decoder from
    32-bit words. Anything else does not decode, and an access outside the memory that the
    machine was given is a fault, so a run that ends well used neither. */
module A64Machine {
  import opened Wrappers
  import opened Words

  type Reg = n: int | 0 <= n < 31

  type RegFile = x: seq<u64> | |x| == 31 witness seq(31, _ => 0)

  type Count = w: u32 | w < 64

  datatype AluOp = MUL | ADD | SUB | EOR | ORR

  datatype ImmOp = ADDI | ANDI | EORI | ORRI

  datatype ShiftOp = ROR | ASR | LSR

  datatype Isn =
    | Alu(op: AluOp, rd: Reg, rn: Reg, rm: Reg)
    | AluImm(iop: ImmOp, rd: Reg, rn: Reg, imm: u64)
    | Shift(sop: ShiftOp, rd: Reg, rn: Reg, count: Count)
    | Mov(rd: Reg, rm: Reg)
    | Movz(rd: Reg, imm: u64)
    | Tst(rn: Reg, imm: u64)
    | CincEq(rd: Reg, rn: Reg)
    | LdrSp(rt: Reg, rm: Reg)
    | StpSp(rt: Reg, rt2: Reg, off: nat)
    | Ldp(rt: Reg, rt2: Reg, rn: Reg, off: nat)
    | Stp(rt: Reg, rt2: Reg, rn: Reg, off: nat)
    | AddSp(n: nat)
    | SubSp(n: nat)
    | BEq(disp: int)
    | Ret

  datatype State =
    | Live(x: RegFile, sp: int, zf: bool, mem: Memory)
    | Fault

  function Address(x: u64): nat {
    x as nat
  }

  function AluValue(op: AluOp, a: u64, b: u64): u64 {
    match op
    case MUL => Mul(a, b)
    case ADD => Add(a, b)
    case SUB => Sub(a, b)
    case EOR => Xor(a, b)
    case ORR => Or(a, b)
  }

  function ImmValue(op: ImmOp, a: u64, imm: u64): u64 {
    match op
    case ADDI => Add(a, imm)
    case ANDI => And(a, imm)
    case EORI => Xor(a, imm)
    case ORRI => Or(a, imm)
  }

  function ShiftValue(op: ShiftOp, a: u64, n: Count): u64 {
    match op
    case ROR => Rotr(a, n)
    case ASR => Asr(a, n)
    case LSR => Lsr(a, n)
  }

  function Load2(s: State, rt: Reg, rt2: Reg, a: int): State
    requires s.Live?
  {
    if a in s.mem && a + 8 in s.mem then s.(x := s.x[rt := s.mem[a]][rt2 := s.mem[a + 8]]) else Fault
  }

  /** Memory after the store of a pair. */
  function Put(mem: Memory, a: int, u: u64, v: u64): Memory {
    mem[a := u][a + 8 := v]
  }

  function Store2(s: State, rt: Reg, rt2: Reg, a: int): State
    requires s.Live?
  {
    if a in s.mem && a + 8 in s.mem then s.(mem := Put(s.mem, a, s.x[rt], s.x[rt2])) else Fault
  }

  /** Straight-line execution; control transfers belong to the fetch loop. */
  function Exec(i: Isn, s: State): State {
    if s.Fault? then s
    else
      match i
      case Alu(op, rd, rn, rm) => s.(x := s.x[rd := AluValue(op, s.x[rn], s.x[rm])])
      case AluImm(op, rd, rn, imm) => s.(x := s.x[rd := ImmValue(op, s.x[rn], imm)])
      case Shift(op, rd, rn, count) => s.(x := s.x[rd := ShiftValue(op, s.x[rn], count)])
      case Mov(rd, rm) => s.(x := s.x[rd := s.x[rm]])
      case Movz(rd, imm) => s.(x := s.x[rd := imm])
      case Tst(rn, imm) => s.(zf := And(s.x[rn], imm) == 0)
      case CincEq(rd, rn) => s.(x := s.x[rd := if s.zf then Add(s.x[rn], 1) else s.x[rn]])
      case LdrSp(rt, rm) =>
        var a := s.sp + Address(s.x[rm]);
        if a in s.mem then s.(x := s.x[rt := s.mem[a]]) else Fault
      case StpSp(rt, rt2, off) => Store2(s, rt, rt2, s.sp + off)
      case Ldp(rt, rt2, rn, off) => Load2(s, rt, rt2, Address(s.x[rn]) + off)
      case Stp(rt, rt2, rn, off) => Store2(s, rt, rt2, Address(s.x[rn]) + off)
      case AddSp(n) => s.(sp := s.sp + n)
      case SubSp(n) => s.(sp := s.sp - n)
      case BEq(_) => Fault
      case Ret => Fault
  }

  function Block(b: seq<Isn>, s: State): State {
    if b == [] then s else Block(b[1..], Exec(b[0], s))
  }

  lemma {:induction false} BlockAppend(a: seq<Isn>, b: seq<Isn>, s: State)
    ensures Block(a + b, s) == Block(b, Block(a, s))
  {
    hide Exec;
    if a == [] {
      assert a + b == b;
    } else {
      assert (a + b)[0] == a[0] && (a + b)[1..] == a[1..] + b;
      BlockAppend(a[1..], b, Exec(a[0], s));
    }
  }

  lemma Block1(i: Isn, s: State)
    ensures Block([i], s) == Exec(i, s)
  {
    hide Exec;
    assert [i][1..] == [];
  }

  lemma Block2(i: Isn, j: Isn, s: State)
    ensures Block([i, j], s) == Exec(j, Exec(i, s))
  {
    hide Exec;
    var e: seq<Isn> := [];
    assert [i, j][1..] == [j] && [j][1..] == e;
    assert Block(e, Exec(j, Exec(i, s))) == Block([j], Exec(i, s)) == Block([i, j], s);
  }

  lemma Block4(i: Isn, j: Isn, k: Isn, l: Isn, s: State)
    ensures Block([i, j, k, l], s) == Exec(l, Exec(k, Exec(j, Exec(i, s))))
  {
    hide Exec;
    assert [i, j, k, l] == [i, j] + [k, l];
    BlockAppend([i, j], [k, l], s);
    Block2(i, j, s);
    Block2(k, l, Block([i, j], s));
  }

  // ----- decoding -----

  /** ones(imms + 1) rotated right by immr, the 64-bit logical immediate. */
  function BitMask(immr: u32, imms: u32): u64
    requires immr < 64 && imms < 63
  {
    Rotr(((1 as u64) << (imms + 1)) - 1, immr)
  }

  function Rd(w: u32): u32 { w & 31 }

  function Rn(w: u32): u32 { (w >> 5) & 31 }

  function Rm(w: u32): u32 { (w >> 16) & 31 }

  function Rt2(w: u32): u32 { (w >> 10) & 31 }

  function R(field: u32): Reg
    requires field < 31
  {
    field as nat
  }

  function DecodeLogical(w: u32): Option<Isn> {
    var immr, imms := (w >> 16) & 63, (w >> 10) & 63;
    if imms == 63 || Rn(w) == 31 then None
    else
      var imm := BitMask(immr, imms);
      if w & 0xffc0_001f == 0xf240_001f then Some(Tst(R(Rn(w)), imm))
      else if Rd(w) == 31 then None
      else if w & 0xffc0_0000 == 0x9240_0000 then Some(AluImm(ANDI, R(Rd(w)), R(Rn(w)), imm))
      else if w & 0xffc0_0000 == 0xd240_0000 then Some(AluImm(EORI, R(Rd(w)), R(Rn(w)), imm))
      else if w & 0xffc0_0000 == 0xb240_0000 then Some(AluImm(ORRI, R(Rd(w)), R(Rn(w)), imm))
      else None
  }

  function DecodeArith(w: u32): Option<Isn> {
    if w & 0xffc0_03ff == 0x9100_03ff then Some(AddSp(((w >> 10) & 0xfff) as nat))
    else if w & 0xffc0_03ff == 0xd100_03ff then Some(SubSp(((w >> 10) & 0xfff) as nat))
    else if Rd(w) == 31 || Rn(w) == 31 then None
    else if w & 0xffc0_0000 == 0x9100_0000 then
      Some(AluImm(ADDI, R(Rd(w)), R(Rn(w)), ((w >> 10) & 0xfff) as u64))
    else None
  }

  function DecodeReg(w: u32): Option<Isn> {
    if Rd(w) == 31 || Rm(w) == 31 then None
    else if w & 0xffe0_ffe0 == 0xaa00_03e0 then Some(Mov(R(Rd(w)), R(Rm(w))))
    else if Rn(w) == 31 then
      if w & 0xffe0_ffe0 == 0xf860_6be0 then Some(LdrSp(R(Rd(w)), R(Rm(w)))) else None
    else if w & 0xffe0_fc00 == 0x9b00_7c00 then Some(Alu(MUL, R(Rd(w)), R(Rn(w)), R(Rm(w))))
    else if w & 0xffe0_fc00 == 0x8b00_0000 then Some(Alu(ADD, R(Rd(w)), R(Rn(w)), R(Rm(w))))
    else if w & 0xffe0_fc00 == 0xcb00_0000 then Some(Alu(SUB, R(Rd(w)), R(Rn(w)), R(Rm(w))))
    else if w & 0xffe0_fc00 == 0xca00_0000 then Some(Alu(EOR, R(Rd(w)), R(Rn(w)), R(Rm(w))))
    else if w & 0xffe0_fc00 == 0xaa00_0000 then Some(Alu(ORR, R(Rd(w)), R(Rn(w)), R(Rm(w))))
    else if w & 0xffe0_0000 == 0x93c0_0000 && Rn(w) == Rm(w) then
      Some(Shift(ROR, R(Rd(w)), R(Rn(w)), (w >> 10) & 63))
    else if w & 0xffe0_fc00 == 0x9a80_1400 && Rn(w) == Rm(w) then Some(CincEq(R(Rd(w)), R(Rn(w))))
    else None
  }

  function DecodeShift(w: u32): Option<Isn> {
    if Rd(w) == 31 || Rn(w) == 31 then None
    else if w & 0xffc0_fc00 == 0x9340_fc00 then Some(Shift(ASR, R(Rd(w)), R(Rn(w)), (w >> 16) & 63))
    else if w & 0xffc0_fc00 == 0xd340_fc00 then Some(Shift(LSR, R(Rd(w)), R(Rn(w)), (w >> 16) & 63))
    else None
  }

  function DecodePair(w: u32): Option<Isn> {
    var imm7 := (w >> 15) & 127;
    var off := 8 * (imm7 as nat);
    if Rd(w) == 31 || Rt2(w) == 31 || imm7 >= 64 then None
    else if w & 0xffc0_03e0 == 0xa900_03e0 then Some(StpSp(R(Rd(w)), R(Rt2(w)), off))
    else if Rn(w) == 31 then None
    else if w & 0xffc0_0000 == 0xa900_0000 then Some(Stp(R(Rd(w)), R(Rt2(w)), R(Rn(w)), off))
    else if w & 0xffc0_0000 == 0xa940_0000 then Some(Ldp(R(Rd(w)), R(Rt2(w)), R(Rn(w)), off))
    else None
  }

  /** The displacement is a signed count of words, relative to the branch itself. */
  function DecodeBranch(w: u32): Option<Isn> {
    var imm19 := (w >> 5) & 0x7_ffff;
    if w & 0xff00_001f != 0x5400_0000 then None
    else if imm19 < 0x4_0000 then Some(BEq(imm19 as int))
    else Some(BEq(imm19 as int - 0x8_0000))
  }

  /** The main encoding groups, told apart by the top byte. */
  function Decode(w: u32): Option<Isn> {
    if w == 0xd65f_03c0 then Some(Ret)
    else if w & 0xff00_0000 == 0x5400_0000 then DecodeBranch(w)
    else if w & 0xff00_0000 == 0xa900_0000 then DecodePair(w)
    else if w & 0x1f80_0000 == 0x1100_0000 then DecodeArith(w)
    else if w & 0x1f80_0000 == 0x1200_0000 && w & 0x0040_0000 != 0 then DecodeLogical(w)
    else if w & 0xffe0_0000 == 0xd280_0000 then
      if Rd(w) == 31 then None else Some(Movz(R(Rd(w)), ((w >> 5) & 0xffff) as u64))
    else if w & 0x1f80_0000 == 0x1300_0000 then
      if w & 0xff80_0000 == 0x9380_0000 then DecodeReg(w) else DecodeShift(w)
    else DecodeReg(w)
  }

  // ----- fetch and execute -----

  /** Code is an array of words and the program counter an index into it. */
  datatype Cpu = Running(pc: nat, s: State) | Returned(s: State)

  function Fetch(code: seq<u32>, pc: nat): Option<Isn> {
    if pc < |code| then Decode(code[pc]) else None
  }

  function Step(code: seq<u32>, c: Cpu): Cpu {
    if c.Returned? || c.s.Fault? then c
    else
      match Fetch(code, c.pc)
      case None => Running(c.pc, Fault)
      case Some(Ret) => Returned(c.s)
      case Some(BEq(disp)) =>
        if !c.s.zf then Running(c.pc + 1, c.s)
        else if c.pc + disp < 0 then Running(c.pc, Fault)
        else Running(c.pc + disp, c.s)
      case Some(i) => Running(c.pc + 1, Exec(i, c.s))
  }

  function Steps(code: seq<u32>, c: Cpu, n: nat): Cpu
    decreases n
  {
    if n == 0 then c else Steps(code, Step(code, c), n - 1)
  }

  lemma StepsZero(code: seq<u32>, c: Cpu)
    ensures Steps(code, c, 0) == c
  {
  }

  lemma {:induction false} StepsAdd(code: seq<u32>, c: Cpu, m: nat, n: nat)
    ensures Steps(code, c, m + n) == Steps(code, Steps(code, c, m), n)
    decreases m
  {
    hide Step;
    if m > 0 {
      StepsAdd(code, Step(code, c), m - 1, n);
    }
  }

  /** Once returned, further steps change nothing. */
  lemma {:induction false} StepsReturned(code: seq<u32>, s: State, n: nat)
    ensures Steps(code, Returned(s), n) == Returned(s)
  {
    if n > 0 {
      StepsReturned(code, s, n - 1);
    }
  }

  lemma StepsSnoc(code: seq<u32>, c: Cpu, n: nat)
    ensures Steps(code, c, n + 1) == Step(code, Steps(code, c, n))
  {
    StepsAdd(code, c, n, 1);
    hide Step;
    assert Steps(code, Steps(code, c, n), 1) == Steps(code, Step(code, Steps(code, c, n)), 0);
  }

  /** A run returns once: every longer run is the same, and every shorter one is still on. */
  lemma ReturnsOnce(code: seq<u32>, c: Cpu, limit: nat, t: State, n: nat)
    requires Steps(code, c, limit) == Returned(t)
    ensures Steps(code, c, n).Returned? ==> Steps(code, c, n) == Returned(t)
    ensures !Steps(code, c, n).Returned? ==> n < limit
  {
    hide Step, Steps;
    if n >= limit {
      StepsAdd(code, c, limit, n - limit);
      StepsReturned(code, t, n - limit);
    } else if Steps(code, c, n).Returned? {
      StepsAdd(code, c, n, limit - n);
      StepsReturned(code, Steps(code, c, n).s, limit - n);
    }
  }

  /** The words at an address are the encodings of a list of instructions. */
  predicate Holds(code: seq<u32>, pc: nat, b: seq<Isn>) {
    forall k :: 0 <= k < |b| ==> Fetch(code, pc + k) == Some(b[k])
  }

  predicate Straight(b: seq<Isn>) {
    forall k :: 0 <= k < |b| ==> !b[k].BEq? && !b[k].Ret?
  }

  /** Fetching a straight-line block that does not fault executes it. */
  lemma {:induction false} FetchBlock(code: seq<u32>, pc: nat, b: seq<Isn>, s: State)
    requires Holds(code, pc, b) && Straight(b) && Block(b, s).Live?
    ensures Steps(code, Running(pc, s), |b|) == Running(pc + |b|, Block(b, s))
    decreases |b|
  {
    hide Fetch;
    if b != [] {
      FaultStays(b, s);
      assert Fetch(code, pc + 0) == Some(b[0]);
      var t := Exec(b[0], s);
      assert Step(code, Running(pc, s)) == Running(pc + 1, t);
      hide Exec, Step;
      forall k | 0 <= k < |b[1..]| ensures Fetch(code, pc + 1 + k) == Some(b[1..][k]) {
        assert Fetch(code, pc + (k + 1)) == Some(b[k + 1]);
      }
      FetchBlock(code, pc + 1, b[1..], t);
    }
  }

  lemma {:induction false} FaultStays(b: seq<Isn>, s: State)
    ensures s.Fault? ==> Block(b, s).Fault?
  {
    if b != [] {
      FaultStays(b[1..], Exec(b[0], s));
    }
  }
}
