/** The x86-64 instructions that the back end emits: their meaning, and a decoder from
    bytes. Anything else does not decode, reading a flag that an instruction leaves
    unspecified is a fault, and so is an access outside the memory that the machine was
    given: a run that ends well did none of these. */
module X86Machine {
  import opened Wrappers
  import opened Words

  /** rax, rcx, rdx, rbx, rsp, rbp, rsi, rdi, r8-r15; the stack pointer is kept apart. */
  type Gpr = n: int | 0 <= n < 16

  type GprFile = x: seq<u64> | |x| == 16 witness seq(16, _ => 0)

  type Count = w: u32 | w < 64

  datatype ImmOp = ORI | XORI | ADDI

  datatype ShiftOp = ROR | SAR | SHR

  datatype AluOp = XOR | ADD | SUB | MOV

  datatype Isn =
    | OpImm(iop: ImmOp, rm: Gpr, imm: u64)
    | Shift(sop: ShiftOp, rm: Gpr, count: Count)
    | OpReg(op: AluOp, rm: Gpr, reg: Gpr)
    | OpSp(op: AluOp, reg: Gpr)
    | Imul(reg: Gpr, rm: Gpr)
    | ImulSp(reg: Gpr)
    | Test32(rm: Gpr, reg: Gpr)
    | Cmovz32(reg: Gpr, rm: Gpr)
    | Or32(rm: Gpr, reg: Gpr)
    | Xor32(rm: Gpr, reg: Gpr)
    | Lea32(reg: Gpr, base: Gpr, plus: u32)
    | TestByte(rm: Gpr, mask: u64)
    | AndEax(mask32: u32)
    | Push(reg: Gpr)
    | Pop(reg: Gpr)
    | Load(reg: Gpr, base: Gpr, off: nat)
    | Store(reg: Gpr, base: Gpr, off: nat)
    | AddSp(n: nat)
    | Jz(disp: int)
    | Ret

  /** zf is None while the architecture leaves the zero flag undefined or while its value
      comes from an instruction whose flags are not modelled. */
  datatype State =
    | Live(x: GprFile, sp: int, zf: Option<bool>, mem: Memory)
    | Fault

  function Address(x: u64): nat {
    x as nat
  }

  function ImmValue(op: ImmOp, a: u64, imm: u64): u64 {
    match op
    case ORI => Or(a, imm)
    case XORI => Xor(a, imm)
    case ADDI => Add(a, imm)
  }

  function ShiftValue(op: ShiftOp, a: u64, n: Count): u64 {
    match op
    case ROR => Rotr(a, n)
    case SAR => Asr(a, n)
    case SHR => Lsr(a, n)
  }

  function AluValue(op: AluOp, a: u64, b: u64): u64 {
    match op
    case XOR => Xor(a, b)
    case ADD => Add(a, b)
    case SUB => Sub(a, b)
    case MOV => b
  }

  /** Moves leave the flags alone; other arithmetic leaves a zero flag that is not modelled. */
  function FlagAfter(op: AluOp, zf: Option<bool>): Option<bool> {
    if op.MOV? then zf else None
  }

  function Or32Value(a: u64, b: u64): u64 {
    ZeroExtend(Low32(a) | Low32(b))
  }

  function Lea32Value(a: u64, disp: u32): u64 {
    ZeroExtend(Low32(a) + disp)
  }

  function And32Value(a: u64, mask: u32): u64 {
    ZeroExtend(Low32(a) & mask)
  }

  /** The operand at [rsp+rax]. */
  function SpOperand(s: State): Option<u64>
    requires s.Live?
  {
    var a := s.sp + Address(s.x[0]);
    if a in s.mem then Some(s.mem[a]) else None
  }

  function Exec(i: Isn, s: State): State {
    hide ImmValue, ShiftValue, AluValue, Or32Value, Lea32Value, And32Value, SpOperand, Address, Mul, Low32,
         ZeroExtend, And;
    if s.Fault? then s
    else
      match i
      case OpImm(op, rm, imm) => s.(x := s.x[rm := ImmValue(op, s.x[rm], imm)], zf := None)
      case Shift(op, rm, count) => s.(x := s.x[rm := ShiftValue(op, s.x[rm], count)], zf := None)
      case OpReg(op, rm, reg) => s.(x := s.x[rm := AluValue(op, s.x[rm], s.x[reg])], zf := FlagAfter(op, s.zf))
      case Imul(reg, rm) => s.(x := s.x[reg := Mul(s.x[reg], s.x[rm])], zf := None)
      case OpSp(op, reg) =>
        if SpOperand(s).None? then Fault
        else s.(x := s.x[reg := AluValue(op, s.x[reg], SpOperand(s).value)], zf := None)
      case ImulSp(reg) =>
        if SpOperand(s).None? then Fault
        else s.(x := s.x[reg := Mul(s.x[reg], SpOperand(s).value)], zf := None)
      case Test32(rm, reg) => s.(zf := Some(Low32(s.x[rm]) & Low32(s.x[reg]) == 0))
      case TestByte(rm, mask) => s.(zf := Some(And(s.x[rm], mask) == 0))
      case Cmovz32(reg, rm) =>
        if s.zf.None? then Fault
        else s.(x := s.x[reg := ZeroExtend(Low32(if s.zf.value then s.x[rm] else s.x[reg]))])
      case Or32(rm, reg) => s.(x := s.x[rm := Or32Value(s.x[rm], s.x[reg])], zf := None)
      case Xor32(rm, reg) => s.(x := s.x[rm := ZeroExtend(Low32(s.x[rm]) ^ Low32(s.x[reg]))], zf := None)
      case Lea32(reg, base, disp) => s.(x := s.x[reg := Lea32Value(s.x[base], disp)])
      case AndEax(mask) => s.(x := s.x[0 := And32Value(s.x[0], mask)], zf := None)
      case Push(reg) =>
        if s.sp - 8 in s.mem then s.(sp := s.sp - 8, mem := s.mem[s.sp - 8 := s.x[reg]]) else Fault
      case Pop(reg) =>
        if s.sp in s.mem then s.(x := s.x[reg := s.mem[s.sp]], sp := s.sp + 8) else Fault
      case Load(reg, base, off) =>
        var a := Address(s.x[base]) + off;
        if a in s.mem then s.(x := s.x[reg := s.mem[a]]) else Fault
      case Store(reg, base, off) =>
        var a := Address(s.x[base]) + off;
        if a in s.mem then s.(mem := s.mem[a := s.x[reg]]) else Fault
      case AddSp(n) => s.(sp := s.sp + n, zf := None)
      case Jz(_) => Fault
      case Ret => Fault
  }

  // ----- decoding -----

  /** An instruction and its length in bytes. */
  datatype Coded = Coded(isn: Isn, len: nat)

  function At(code: seq<u8>, pc: nat): u32 {
    if pc < |code| then code[pc] as u32 else 0
  }

  function Imm32(code: seq<u8>, pc: nat): u32 {
    At(code, pc) | (At(code, pc + 1) << 8) | (At(code, pc + 2) << 16) | (At(code, pc + 3) << 24)
  }

  /** The fields of a ModRM byte; REX.R and REX.B supply the fourth bit. */
  function ModOf(m: u32): u32 { (m >> 6) & 3 }

  function RegOf(m: u32): u32 { (m >> 3) & 7 }

  function RmOf(m: u32): u32 { m & 7 }

  function G(field: u32, high: bool): Gpr
    requires field < 8
  {
    field as nat + if high then 8 else 0
  }

  function SignExtend8(b: u32): int
    requires b < 256
  {
    if b < 128 then b as int else b as int - 256
  }

  function SignExtend32(w: u32): int {
    if w < 0x8000_0000 then w as int else w as int - 0x1_0000_0000
  }

  function IsStackOperand(m: u32, sib: u32): bool {
    ModOf(m) == 0 && RmOf(m) == 4 && sib == 0x04
  }

  /** Opcode 83 and C1 with an eight-bit immediate; only non-negative ones are decoded. */
  function DecodeImm(op: u32, m: u32, imm: u32): Option<Coded> {
    if ModOf(m) != 3 || imm >= 64 then None
    else
      var rm := G(RmOf(m), true);
      if op == 0x83 && RegOf(m) == 1 then Some(Coded(OpImm(ORI, rm, imm as u64), 4))
      else if op == 0x83 && RegOf(m) == 6 then Some(Coded(OpImm(XORI, rm, imm as u64), 4))
      else if op == 0x83 && RegOf(m) == 0 then Some(Coded(OpImm(ADDI, rm, imm as u64), 4))
      else if op == 0xc1 && RegOf(m) == 1 then Some(Coded(Shift(ROR, rm, imm), 4))
      else if op == 0xc1 && RegOf(m) == 7 then Some(Coded(Shift(SAR, rm, imm), 4))
      else if op == 0xc1 && RegOf(m) == 5 then Some(Coded(Shift(SHR, rm, imm), 4))
      else None
  }

  function DecodeTwo(op: u32, m: u32, r: bool, b: bool): Option<Coded> {
    if ModOf(m) != 3 || (!b && RmOf(m) == 4) || (!r && RegOf(m) == 4) then None
    else
      var rm, reg := G(RmOf(m), b), G(RegOf(m), r);
      if op == 0x31 then Some(Coded(OpReg(XOR, rm, reg), 3))
      else if op == 0x01 then Some(Coded(OpReg(ADD, rm, reg), 3))
      else if op == 0x29 then Some(Coded(OpReg(SUB, rm, reg), 3))
      else if op == 0x89 then Some(Coded(OpReg(MOV, rm, reg), 3))
      else None
  }

  function DecodeStack(op: u32, m: u32): Option<Coded> {
    var reg := G(RegOf(m), true);
    if op == 0x33 then Some(Coded(OpSp(XOR, reg), 4))
    else if op == 0x03 then Some(Coded(OpSp(ADD, reg), 4))
    else if op == 0x2b then Some(Coded(OpSp(SUB, reg), 4))
    else None
  }

  /** Loads and stores through a pointer, without or with an eight-bit displacement. */
  function DecodePointer(op: u32, m: u32, disp: u32, r: bool): Option<Coded> {
    if RmOf(m) == 4 || RmOf(m) == 5 || (!r && RegOf(m) == 4) then None
    else
      var reg, base := G(RegOf(m), r), G(RmOf(m), false);
      if op == 0x8b && ModOf(m) == 0 then Some(Coded(Load(reg, base, 0), 3))
      else if op == 0x8b && ModOf(m) == 1 && disp < 128 then Some(Coded(Load(reg, base, disp as nat), 4))
      else if op == 0x89 && ModOf(m) == 0 then Some(Coded(Store(reg, base, 0), 3))
      else if op == 0x89 && ModOf(m) == 1 && disp < 128 then Some(Coded(Store(reg, base, disp as nat), 4))
      else None
  }

  function DecodeImul(m: u32, sib: u32, r: bool, b: bool): Option<Coded> {
    if ModOf(m) == 3 && (b || RmOf(m) != 4) && (r || RegOf(m) != 4) then
      Some(Coded(Imul(G(RegOf(m), r), G(RmOf(m), b)), 4))
    else if r && !b && IsStackOperand(m, sib) then Some(Coded(ImulSp(G(RegOf(m), true)), 5))
    else None
  }

  /** Instructions with a REX.W prefix: b0 is the prefix and b1-b4 follow it. The prefix may
      extend the two operands, but not an index register, which no instruction here has. */
  function DecodeWide(b0: u32, b1: u32, b2: u32, b3: u32, b4: u32): Option<Coded> {
    var r, b := b0 & 4 != 0, b0 & 1 != 0;
    if b0 & 2 != 0 then None
    else if b1 == 0x0f then if b2 == 0xaf then DecodeImul(b3, b4, r, b) else None
    else if b1 == 0x83 || b1 == 0xc1 then if b && !r then DecodeImm(b1, b2, b3) else None
    else if b1 == 0x31 || b1 == 0x01 || b1 == 0x29 then DecodeTwo(b1, b2, r, b)
    else if b1 == 0x89 && ModOf(b2) == 3 then DecodeTwo(b1, b2, r, b)
    else if b1 == 0x33 || b1 == 0x03 || b1 == 0x2b then
      if r && !b && IsStackOperand(b2, b3) then DecodeStack(b1, b2) else None
    else if (b1 == 0x8b || b1 == 0x89) && !b then DecodePointer(b1, b2, b3, r)
    else None
  }

  /** Instructions without a prefix that work on 32-bit registers or transfer control. */
  function DecodeNarrow(code: seq<u8>, pc: nat): Option<Coded> {
    var b0, b1, b2 := At(code, pc), At(code, pc + 1), At(code, pc + 2);
    if b0 == 0xc3 then Some(Coded(Ret, 1))
    else if b0 == 0x53 then Some(Coded(Push(3), 1))
    else if b0 == 0x55 then Some(Coded(Push(5), 1))
    else if b0 == 0x5b then Some(Coded(Pop(3), 1))
    else if b0 == 0x5d then Some(Coded(Pop(5), 1))
    else if b0 == 0x74 && b1 < 256 then Some(Coded(Jz(SignExtend8(b1)), 2))
    else if b0 == 0x0f && b1 == 0x84 then Some(Coded(Jz(SignExtend32(Imm32(code, pc + 2))), 6))
    else if b0 == 0x25 then Some(Coded(AndEax(Imm32(code, pc + 1)), 5))
    else if b0 == 0x8d then
      if ModOf(b1) == 1 && RmOf(b1) != 4 && RegOf(b1) != 4 && b2 < 128 then
        Some(Coded(Lea32(G(RegOf(b1), false), G(RmOf(b1), false), b2), 3))
      else None
    else if b0 == 0xf6 then
      if ModOf(b1) == 3 && RegOf(b1) == 0 && RmOf(b1) < 4 then Some(Coded(TestByte(G(RmOf(b1), false), b2 as u64), 3))
      else None
    else if b0 == 0x0f && b1 == 0x44 then
      if ModOf(b2) == 3 && RmOf(b2) != 4 && RegOf(b2) != 4 then
        Some(Coded(Cmovz32(G(RegOf(b2), false), G(RmOf(b2), false)), 3))
      else None
    else if ModOf(b1) != 3 || RmOf(b1) == 4 || RegOf(b1) == 4 then None
    else
      var rm, reg := G(RmOf(b1), false), G(RegOf(b1), false);
      if b0 == 0x85 then Some(Coded(Test32(rm, reg), 2))
      else if b0 == 0x09 then Some(Coded(Or32(rm, reg), 2))
      else if b0 == 0x31 then Some(Coded(Xor32(rm, reg), 2))
      else None
  }

  /** push and pop of r8-r15. */
  function DecodeExtendedStack(b1: u32): Option<Coded> {
    if 0x50 <= b1 < 0x58 then Some(Coded(Push(G(b1 & 7, true)), 2))
    else if 0x58 <= b1 < 0x60 then Some(Coded(Pop(G(b1 & 7, true)), 2))
    else None
  }

  function Decode(code: seq<u8>, pc: nat): Option<Coded> {
    var b0, b1, b2 := At(code, pc), At(code, pc + 1), At(code, pc + 2);
    if b0 == 0x41 then DecodeExtendedStack(b1)
    else if b0 == 0x48 && b1 == 0x81 && b2 == 0xc4 then
      if Imm32(code, pc + 3) < 0x8000_0000 then Some(Coded(AddSp(Imm32(code, pc + 3) as nat), 7)) else None
    else if b0 & 0xf8 == 0x48 then DecodeWide(b0, b1, b2, At(code, pc + 3), At(code, pc + 4))
    else DecodeNarrow(code, pc)
  }

  // ----- fetch and execute -----

  datatype Cpu = Running(pc: nat, s: State) | Returned(s: State)

  /** The instruction must lie inside the code. */
  function Fetch(code: seq<u8>, pc: nat): Option<Coded> {
    match Decode(code, pc)
    case None => None
    case Some(c) => if pc + c.len <= |code| then Some(c) else None
  }

  function Step(code: seq<u8>, c: Cpu): Cpu {
    if c.Returned? || c.s.Fault? then c
    else
      match Fetch(code, c.pc)
      case None => Running(c.pc, Fault)
      case Some(Coded(Ret, _)) => Returned(c.s)
      case Some(Coded(Jz(disp), len)) =>
        if c.s.zf.None? || c.pc + len + disp < 0 then Running(c.pc, Fault)
        else Running(if c.s.zf.value then c.pc + len + disp else c.pc + len, c.s)
      case Some(Coded(i, len)) => Running(c.pc + len, Exec(i, c.s))
  }

  function Steps(code: seq<u8>, c: Cpu, n: nat): Cpu
    decreases n
  {
    if n == 0 then c else Steps(code, Step(code, c), n - 1)
  }

  lemma StepsZero(code: seq<u8>, c: Cpu)
    ensures Steps(code, c, 0) == c
  {
  }

  lemma StepsOne(code: seq<u8>, c: Cpu)
    ensures Steps(code, c, 1) == Step(code, c)
  {
    hide Step;
    assert Steps(code, c, 1) == Steps(code, Step(code, c), 0);
  }

  lemma {:induction false} StepsAdd(code: seq<u8>, c: Cpu, m: nat, n: nat)
    ensures Steps(code, c, m + n) == Steps(code, Steps(code, c, m), n)
    decreases m
  {
    hide Step;
    if m > 0 {
      StepsAdd(code, Step(code, c), m - 1, n);
    }
  }

  /** Once returned, further steps change nothing. */
  lemma {:induction false} StepsReturned(code: seq<u8>, s: State, n: nat)
    ensures Steps(code, Returned(s), n) == Returned(s)
  {
    if n > 0 {
      StepsReturned(code, s, n - 1);
    }
  }

  lemma StepsSnoc(code: seq<u8>, c: Cpu, n: nat)
    ensures Steps(code, c, n + 1) == Step(code, Steps(code, c, n))
  {
    hide Step, Steps;
    StepsAdd(code, c, n, 1);
    StepsOne(code, Steps(code, c, n));
  }

  /** A run returns once: every longer run is the same, and every shorter one is still on. */
  lemma ReturnsOnce(code: seq<u8>, c: Cpu, limit: nat, t: State, n: nat)
    requires Steps(code, c, limit) == Returned(t)
    ensures Steps(code, c, n).Returned? ==> Steps(code, c, n) == Returned(t)
    ensures !Steps(code, c, n).Returned? ==> n < limit
  {
    hide Step, Steps;
    if n >= limit {
      StepsAdd(code, c, limit, n - limit);
      StepsReturned(code, t, n - limit);
    } else if Steps(code, c, n).Returned? {
      StepsAdd(code, c, n, limit - n);
      StepsReturned(code, Steps(code, c, n).s, limit - n);
    }
  }
}
