/** Instruction by instruction, the x86-64 code does what the program does. */
module X86Simulation {
  import opened Wrappers
  import opened Words
  import opened Vm
  import opened Budget
  import opened WordLaws
  import opened Slices
  import opened Stack
  import opened X86Machine
  import opened X86Compiler
  import opened X86Decode

  /** r8-r15 hold R0-R7, rsi and rdi hold R8 and R9. */
  predicate Agrees(x: GprFile, r: Regs) {
    && (forall k :: 0 <= k < 8 ==> x[8 + k] == r[k])
    && x[6] == r[8] && x[7] == r[9]
  }

  /** What an arithmetic instruction leaves alone: everything but one register of the
      virtual machine, rax and the flags. */
  predicate Same(s: State, t: State) {
    && s.Live? && t.Live? && t.sp == s.sp && t.mem == s.mem
    && t.x[1] == s.x[1] && t.x[2] == s.x[2] && t.x[3] == s.x[3] && t.x[5] == s.x[5]
  }

  // ----- single steps -----

  lemma StepAt(code: seq<u8>, pc: nat, i: Isn, len: nat, s: State)
    requires Decode(code, pc) == Some(Coded(i, len)) && pc + len <= |code|
    requires s.Live? && !i.Jz? && !i.Ret?
    ensures Steps(code, Running(pc, s), 1) == Running(pc + len, Exec(i, s))
  {
    hide Decode, Exec, Steps;
    StepsOne(code, Running(pc, s));
  }

  lemma Two(code: seq<u8>, pc: nat, i: Isn, m: nat, j: Isn, n: nat, s: State)
    requires Decode(code, pc) == Some(Coded(i, m)) && Decode(code, pc + m) == Some(Coded(j, n)) && pc + m + n <= |code|
    requires s.Live? && !i.Jz? && !i.Ret? && !j.Jz? && !j.Ret? && Exec(i, s).Live?
    ensures Steps(code, Running(pc, s), 2) == Running(pc + m + n, Exec(j, Exec(i, s)))
  {
    hide Decode, Exec, Steps, Step;
    StepAt(code, pc, i, m, s);
    StepAt(code, pc + m, j, n, Exec(i, s));
    StepsAdd(code, Running(pc, s), 1, 1);
  }

  lemma MovExec(s: State, rm: Gpr, reg: Gpr)
    requires s.Live?
    ensures Exec(OpReg(MOV, rm, reg), s) == s.(x := s.x[rm := s.x[reg]])
  {
  }

  lemma ShiftExec(op: ShiftOp, rm: Gpr, count: Count, s: State)
    requires s.Live?
    ensures Exec(Shift(op, rm, count), s) == s.(x := s.x[rm := ShiftValue(op, s.x[rm], count)], zf := None)
  {
    hide ShiftValue;
  }

  lemma OpImmExec(op: ImmOp, rm: Gpr, imm: u64, s: State)
    requires s.Live?
    ensures Exec(OpImm(op, rm, imm), s) == s.(x := s.x[rm := ImmValue(op, s.x[rm], imm)], zf := None)
  {
    hide ImmValue;
  }

  lemma OpRegExec(op: AluOp, rm: Gpr, reg: Gpr, s: State)
    requires s.Live? && !op.MOV?
    ensures Exec(OpReg(op, rm, reg), s) == s.(x := s.x[rm := AluValue(op, s.x[rm], s.x[reg])], zf := None)
  {
    hide AluValue;
  }

  lemma ImulExec(reg: Gpr, rm: Gpr, s: State)
    requires s.Live?
    ensures Exec(Imul(reg, rm), s) == s.(x := s.x[reg := Mul(s.x[reg], s.x[rm])], zf := None)
  {
    hide Mul;
  }

  lemma OpSpExec(op: AluOp, reg: Gpr, s: State, v: u64)
    requires s.Live? && SpOperand(s) == Some(v)
    ensures Exec(OpSp(op, reg), s) == s.(x := s.x[reg := AluValue(op, s.x[reg], v)], zf := None)
  {
    hide AluValue, SpOperand;
  }

  lemma ImulSpExec(reg: Gpr, s: State, v: u64)
    requires s.Live? && SpOperand(s) == Some(v)
    ensures Exec(ImulSp(reg), s) == s.(x := s.x[reg := Mul(s.x[reg], v)], zf := None)
  {
    hide Mul, SpOperand;
  }

  lemma PushExec(reg: Gpr, s: State)
    requires s.Live? && s.sp - 8 in s.mem
    ensures Exec(Push(reg), s) == s.(sp := s.sp - 8, mem := s.mem[s.sp - 8 := s.x[reg]])
  {
  }

  // ----- values -----

  function ShiftOf(i: Instruction): ShiftOp
    requires i.opcode.IsXas()
  {
    match i.opcode
    case XORROR => ROR case ADDROR => ROR case SUBROR => ROR
    case XORASR => SAR case ADDASR => SAR case SUBASR => SAR
    case XORLSR => SHR case ADDLSR => SHR case SUBLSR => SHR
  }

  function AluOf(i: Instruction): AluOp
    requires i.opcode.IsXas()
  {
    match i.opcode
    case XORROR => XOR case ADDROR => ADD case SUBROR => SUB
    case XORASR => XOR case ADDASR => ADD case SUBASR => SUB
    case XORLSR => XOR case ADDLSR => ADD case SUBLSR => SUB
  }

  function ImmOf(i: Instruction): ImmOp
    requires i.opcode.IsMul()
  {
    match i.opcode
    case MULOR => ORI
    case MULXOR => XORI
    case MULADD => ADDI
  }

  lemma XasTemplates(i: Instruction)
    requires i.opcode.IsXas()
    ensures ShiftTemplate((i.opcode.Num() - 4) / 3, ShiftOf(i)) && RegTemplate((i.opcode.Num() - 4) % 3, AluOf(i))
    ensures !AluOf(i).MOV?
  {
  }

  lemma MulTemplates(i: Instruction)
    requires i.opcode.IsMul()
    ensures MulTemplate(i.opcode.Num(), ImmOf(i))
  {
  }

  lemma XasValue(i: Instruction, a: u64, b: u64)
    requires i.opcode.IsXas()
    ensures AluValue(AluOf(i), ShiftValue(ShiftOf(i), a, i.imm), b) == Result(i.opcode, a, i.imm, b)
  {
    hide Add, Sub, Xor, Rotr, Asr, Lsr;
  }

  lemma MulValue(i: Instruction, a: u64, b: u64)
    requires i.opcode.IsMul()
    ensures Mul(ImmValue(ImmOf(i), a, i.imm as u64), b) == Result(i.opcode, a, i.imm, b)
  {
    hide Mul, Or, Xor, Add;
  }

  // ----- register operands -----

  /** What the two instructions compute in place: where the source is the destination, the
      second instruction reads what the first one left there. */
  function InPlace(i: Instruction, d: u64, s: u64): u64
    requires i.opcode.IsMul() || i.opcode.IsXas()
  {
    if i.opcode.IsMul() then
      var v := ImmValue(ImmOf(i), d, i.imm as u64);
      Mul(v, if i.src == i.dst then v else s)
    else
      var v := ShiftValue(ShiftOf(i), d, i.imm);
      AluValue(AluOf(i), v, if i.src == i.dst then v else s)
  }

  lemma XasPair(i: Instruction, s: State)
    requires i.opcode.IsXas() && i.dst < 8 && i.src < 8 && s.Live?
    ensures Exec(OpReg(AluOf(i), i.dst + 8, i.src + 8), Exec(Shift(ShiftOf(i), i.dst + 8, i.imm), s))
            == s.(x := s.x[i.dst + 8 := InPlace(i, s.x[i.dst + 8], s.x[i.src + 8])], zf := None)
  {
    hide Exec, AluValue, ShiftValue, AluOf, ShiftOf;
    XasTemplates(i);
    var d, sop, op := i.dst + 8, ShiftOf(i), AluOf(i);
    ShiftExec(sop, d, i.imm, s);
    var t := Exec(Shift(sop, d, i.imm), s);
    OpRegExec(op, d, i.src + 8, t);
    var w := AluValue(op, t.x[d], t.x[i.src + 8]);
    assert t.x[d := w] == s.x[d := w];
  }

  lemma MulPair(i: Instruction, s: State)
    requires i.opcode.IsMul() && i.dst < 8 && i.src < 8 && s.Live?
    ensures Exec(Imul(i.dst + 8, i.src + 8), Exec(OpImm(ImmOf(i), i.dst + 8, i.imm as u64), s))
            == s.(x := s.x[i.dst + 8 := InPlace(i, s.x[i.dst + 8], s.x[i.src + 8])], zf := None)
  {
    hide Exec, Mul, ImmValue, ImmOf;
    var d, iop := i.dst + 8, ImmOf(i);
    OpImmExec(iop, d, i.imm as u64, s);
    var t := Exec(OpImm(iop, d, i.imm as u64), s);
    ImulExec(d, i.src + 8, t);
    var w := Mul(t.x[d], t.x[i.src + 8]);
    assert t.x[d := w] == s.x[d := w];
  }

  /** With distinct operands, working in place gives the interpreter's result. */
  lemma InPlaceResult(i: Instruction, d: u64, s: u64)
    requires (i.opcode.IsMul() || i.opcode.IsXas()) && i.src != i.dst
    ensures InPlace(i, d, s) == Result(i.opcode, d, i.imm, s)
  {
    hide Mul, ImmValue, ShiftValue, AluValue, Result, ImmOf, ShiftOf, AluOf;
    if i.opcode.IsMul() { MulValue(i, d, s); } else { XasValue(i, d, s); }
  }

  lemma ShiftedOne(op: ShiftOp, n: Count)
    requires 1 <= n
    ensures ShiftValue(op, 1, n) != 1
  {
  }

  lemma AluOnEquals(v: u64, d: u64)
    requires v != d
    ensures Xor(v, v) != Xor(v, d) && Add(v, v) != Add(v, d) && Sub(v, v) != Sub(v, d)
    ensures forall op: AluOp :: !op.MOV? ==> AluValue(op, v, v) != AluValue(op, v, d)
  {
    hide Xor, Add, Sub;
    if Xor(v, v) == Xor(v, d) {
      XorCancel(v, v, d);
    }
    AddCommutes(v, d);
    if Add(v, v) == Add(v, d) {
      AddCancel(v, d, v);
    }
    if Sub(v, v) == Sub(v, d) {
      var x := Sub(v, d);
      AddBack(v, v);
      AddBack(v, d);
      AddCommutes(x, v);
      AddCommutes(x, d);
      AddCancel(v, d, x);
    }
  }

  lemma SmallNumbers()
    ensures Number(0) == 0 && Number(1) == 1 && Number(9) == 9 && Number(33) == 33
  {
  }

  lemma ProductsOfSmall(n: u64)
    requires n == 1 || n == 9 || n == 33
    ensures Mul(n, n) != Mul(n, 0)
  {
    hide Mul, Number;
    SmallNumbers();
    MulNumber(n, n);
    MulNumber(n, 0);
  }

  lemma CombinedWithZero(i: Instruction)
    requires i.opcode.IsMul()
    ensures ImmValue(ImmOf(i), 0, i.imm as u64) == i.imm as u64
  {
  }

  lemma XasInPlaceWrong(i: Instruction)
    requires i.opcode.IsXas() && ImmOk(i) && i.src == i.dst
    ensures InPlace(i, 1, 1) != Result(i.opcode, 1, i.imm, 1)
  {
    hide AluValue, ShiftValue, Result, AluOf, ShiftOf, Mul, ImmValue, ImmOf;
    var v := ShiftValue(ShiftOf(i), 1, i.imm);
    ShiftedOne(ShiftOf(i), i.imm);
    XasTemplates(i);
    AluOnEquals(v, 1);
    XasValue(i, 1, 1);
  }

  lemma MulInPlaceWrong(i: Instruction)
    requires i.opcode.IsMul() && ImmOk(i) && i.src == i.dst
    ensures InPlace(i, 0, 0) != Result(i.opcode, 0, i.imm, 0)
  {
    hide AluValue, ShiftValue, Result, AluOf, ShiftOf, Mul, ImmValue, ImmOf;
    ImmWords(i.imm);
    CombinedWithZero(i);
    ProductsOfSmall(i.imm as u64);
    MulValue(i, 0, 0);
  }

  lemma ImmWords(w: u32)
    requires w == 1 || w == 9 || w == 33
    ensures w as u64 == 1 || w as u64 == 9 || w as u64 == 33
  {
  }

  /** Exactly then: where the source is the destination, some register value gives a wrong
      result, whatever the opcode and the immediate are. */
  lemma InPlaceNeedsDistinct(i: Instruction) returns (d: u64)
    requires (i.opcode.IsMul() || i.opcode.IsXas()) && ImmOk(i) && i.src == i.dst
    ensures InPlace(i, d, d) != Result(i.opcode, d, i.imm, d)
  {
    hide InPlace, Result, ImmOk;
    if i.opcode.IsMul() {
      d := 0;
      MulInPlaceWrong(i);
    } else {
      d := 1;
      XasInPlaceWrong(i);
    }
  }

  lemma AgreesWrite(x: GprFile, r: Regs, d: RegIndex, v: u64)
    requires Agrees(x, r) && d < 8
    ensures Agrees(x[d + 8 := v], r[d := v])
  {
  }

  /** rax, rdx, rbx and rbp hold no register of the virtual machine. */
  lemma AgreesTemp(x: GprFile, r: Regs, t: Gpr, v: u64)
    requires Agrees(x, r) && t < 6
    ensures Agrees(x[t := v], r)
  {
  }

  lemma XasRegRun(code: seq<u8>, pc: nat, i: Instruction, s: State, r: Regs) returns (t: State)
    requires i.opcode.IsXas() && CodeAt(code, pc, XasRegBytes(i)) && OperandOk(i) && s.Live? && Agrees(s.x, r)
    ensures Same(s, t) && Agrees(t.x, Arith(i, RegMode, r)) && Steps(code, Running(pc, s), 2) == Running(pc + 7, t)
  {
    hide Steps, Exec, Decode, Result, U32, OpImmBytes, OpRegBytes, G, ShiftOf, AluOf, ShiftTemplate, RegTemplate,
         ImmOk, InPlace;
    hide Agrees;
    var k := i.opcode.Num() - 4;
    var d, c := U32(i.dst), U32(i.src);
    RegField(i.dst);
    RegField(i.src);
    XasTemplates(i);
    var first, second := OpImmBytes(TplPreXas(k / 3), d, i.imm), OpRegBytes(0x4d, TplXasReg(k % 3), d, c);
    CodeAtPart(code, pc, first, second);
    DecodePreXas(code, pc, k / 3, ShiftOf(i), d, i.imm);
    DecodeXasReg(code, pc + 4, k % 3, AluOf(i), d, c);
    XasPair(i, s);
    InPlaceResult(i, s.x[i.dst + 8], s.x[i.src + 8]);
    ShiftExec(ShiftOf(i), i.dst + 8, i.imm, s);
    Two(code, pc, Shift(ShiftOf(i), i.dst + 8, i.imm), 4, OpReg(AluOf(i), i.dst + 8, i.src + 8), 3, s);
    t := Exec(OpReg(AluOf(i), i.dst + 8, i.src + 8), Exec(Shift(ShiftOf(i), i.dst + 8, i.imm), s));
    var v := Result(i.opcode, s.x[i.dst + 8], i.imm, s.x[i.src + 8]);
    AgreesWrite(s.x, r, i.dst, v);
    AgreesAt(s.x, r, i);
  }

  lemma AgreesAt(x: GprFile, r: Regs, i: Instruction)
    requires Agrees(x, r) && i.dst < 8 && i.src < 8
    ensures x[i.dst + 8] == r[i.dst] && x[i.src + 8] == r[i.src]
  {
    assert x[8 + i.dst] == r[i.dst] && x[8 + i.src] == r[i.src];
  }

  lemma MulRegRun(code: seq<u8>, pc: nat, i: Instruction, s: State, r: Regs) returns (t: State)
    requires i.opcode.IsMul() && CodeAt(code, pc, MulRegBytes(i)) && OperandOk(i) && s.Live? && Agrees(s.x, r)
    ensures Same(s, t) && Agrees(t.x, Arith(i, RegMode, r)) && Steps(code, Running(pc, s), 2) == Running(pc + 8, t)
  {
    hide Steps, Exec, Decode, Result, U32, OpImmBytes, ImulReg4d, G, ImmOf, MulTemplate, ImmOk, InPlace, Agrees;
    var k := i.opcode.Num();
    var d, c := U32(i.dst), U32(i.src);
    RegField(i.dst);
    RegField(i.src);
    MulTemplates(i);
    CodeAtPart(code, pc, OpImmBytes(TplMul(k), d, i.imm), ImulReg4d(d, c));
    DecodeMulImm(code, pc, k, ImmOf(i), d, i.imm);
    DecodeImul4d(code, pc + 4, d, c);
    MulPair(i, s);
    InPlaceResult(i, s.x[i.dst + 8], s.x[i.src + 8]);
    OpImmExec(ImmOf(i), i.dst + 8, i.imm as u64, s);
    Two(code, pc, OpImm(ImmOf(i), i.dst + 8, i.imm as u64), 4, Imul(i.dst + 8, i.src + 8), 4, s);
    t := Exec(Imul(i.dst + 8, i.src + 8), Exec(OpImm(ImmOf(i), i.dst + 8, i.imm as u64), s));
    var v := Result(i.opcode, s.x[i.dst + 8], i.imm, s.x[i.src + 8]);
    AgreesWrite(s.x, r, i.dst, v);
    AgreesAt(s.x, r, i);
  }

  // ----- scratchpad operands -----

  lemma MaskedAddress(x: u64)
    ensures Address(And32Value(x, 2040)) == 8 * MemIndex(x)
  {
  }

  /** With the byte offset of its operand in rax and an intermediate value in dst. */
  function Addressed(s: State, d: Gpr, src: Gpr, v: u64): State
    requires s.Live?
  {
    s.(x := s.x[0 := And32Value(s.x[src], 2040)][d := v], zf := None)
  }

  lemma OperandAt(s: State, d: Gpr, src: Gpr, v: u64, pad: Scratchpad)
    requires s.Live? && PadAt(s.mem, s.sp, pad) && d >= 8
    ensures SpOperand(Addressed(s, d, src, v)) == Some(pad[MemIndex(s.x[src])])
  {
    hide And32Value, Address, MemIndex;
    MaskedAddress(s.x[src]);
    assert s.sp + 8 * MemIndex(s.x[src]) in s.mem;
  }

  lemma AndEaxExec(s: State, mask: u32)
    requires s.Live?
    ensures Exec(AndEax(mask), s) == s.(x := s.x[0 := And32Value(s.x[0], mask)], zf := None)
  {
    hide And32Value;
  }

  /** mov rax, src; shift dst; and eax, 2040 */
  lemma ShiftThenAddress(i: Instruction, s: State)
    requires i.opcode.IsXas() && i.dst < 8 && i.src < 8 && s.Live?
    ensures var d, src := i.dst + 8, i.src + 8;
            var a := Exec(OpReg(MOV, 0, src), s); var b := Exec(Shift(ShiftOf(i), d, i.imm), a);
            && a.Live? && b.Live?
            && Exec(AndEax(2040), b) == Addressed(s, d, src, ShiftValue(ShiftOf(i), s.x[d], i.imm))
  {
    hide Exec, ShiftValue, And32Value, ShiftOf;
    var d, src, op := i.dst + 8, i.src + 8, ShiftOf(i);
    var a := Exec(OpReg(MOV, 0, src), s);
    MovExec(s, 0, src);
    var v := ShiftValue(op, s.x[d], i.imm);
    var b := Exec(Shift(op, d, i.imm), a);
    ShiftExec(op, d, i.imm, a);
    AndEaxExec(b, 2040);
    assert b.x[0 := And32Value(b.x[0], 2040)] == s.x[0 := And32Value(s.x[src], 2040)][d := v];
  }

  /** mov rax, src; or, xor or add dst, imm; and eax, 2040 */
  lemma HealThenAddress(i: Instruction, s: State)
    requires i.opcode.IsMul() && i.dst < 8 && i.src < 8 && s.Live?
    ensures var d, src := i.dst + 8, i.src + 8;
            var a := Exec(OpReg(MOV, 0, src), s); var b := Exec(OpImm(ImmOf(i), d, i.imm as u64), a);
            && a.Live? && b.Live?
            && Exec(AndEax(2040), b) == Addressed(s, d, src, ImmValue(ImmOf(i), s.x[d], i.imm as u64))
  {
    hide Exec, ImmValue, And32Value, ImmOf;
    var d, src, op := i.dst + 8, i.src + 8, ImmOf(i);
    var a := Exec(OpReg(MOV, 0, src), s);
    MovExec(s, 0, src);
    var v := ImmValue(op, s.x[d], i.imm as u64);
    var b := Exec(OpImm(op, d, i.imm as u64), a);
    OpImmExec(op, d, i.imm as u64, a);
    AndEaxExec(b, 2040);
    assert b.x[0 := And32Value(b.x[0], 2040)] == s.x[0 := And32Value(s.x[src], 2040)][d := v];
  }

  /** The operation that reads [rsp+rax] completes the instruction. */
  lemma XasFromStack(i: Instruction, s: State, r: Regs, pad: Scratchpad)
    requires i.opcode.IsXas() && OperandOk(i) && s.Live? && Agrees(s.x, r) && PadAt(s.mem, s.sp, pad)
    ensures var t := Exec(OpSp(AluOf(i), i.dst + 8),
                          Addressed(s, i.dst + 8, i.src + 8, ShiftValue(ShiftOf(i), s.x[i.dst + 8], i.imm)));
            Same(s, t) && Agrees(t.x, Arith(i, MemMode(pad), r))
  {
    hide Exec, AluValue, ShiftValue, Result, And32Value, SpOperand, MemIndex, ImmOk, AluOf, ShiftOf, PadAt, Agrees;
    XasTemplates(i);
    var d, src, m := i.dst + 8, i.src + 8, pad[MemIndex(s.x[i.src + 8])];
    XasValue(i, s.x[d], m);
    var v := ShiftValue(ShiftOf(i), s.x[d], i.imm);
    OperandAt(s, d, src, v, pad);
    var u := Addressed(s, d, src, v);
    var w := AluValue(AluOf(i), v, m);
    OpSpExec(AluOf(i), d, u, m);
    var a := And32Value(s.x[src], 2040);
    assert u.x[d := w] == s.x[0 := a][d := w];
    AgreesTemp(s.x, r, 0, a);
    AgreesWrite(s.x[0 := a], r, i.dst, w);
    AgreesAt(s.x, r, i);
  }

  lemma MulFromStack(i: Instruction, s: State, r: Regs, pad: Scratchpad)
    requires i.opcode.IsMul() && OperandOk(i) && s.Live? && Agrees(s.x, r) && PadAt(s.mem, s.sp, pad)
    ensures var t := Exec(ImulSp(i.dst + 8),
                          Addressed(s, i.dst + 8, i.src + 8, ImmValue(ImmOf(i), s.x[i.dst + 8], i.imm as u64)));
            Same(s, t) && Agrees(t.x, Arith(i, MemMode(pad), r))
  {
    hide Exec, Mul, ImmValue, Result, And32Value, SpOperand, MemIndex, ImmOk, ImmOf, PadAt, Agrees;
    var d, src, m := i.dst + 8, i.src + 8, pad[MemIndex(s.x[i.src + 8])];
    MulValue(i, s.x[d], m);
    var v := ImmValue(ImmOf(i), s.x[d], i.imm as u64);
    OperandAt(s, d, src, v, pad);
    var u := Addressed(s, d, src, v);
    var w := Mul(v, m);
    ImulSpExec(d, u, m);
    var a := And32Value(s.x[src], 2040);
    assert u.x[d := w] == s.x[0 := a][d := w];
    AgreesTemp(s.x, r, 0, a);
    AgreesWrite(s.x[0 := a], r, i.dst, w);
    AgreesAt(s.x, r, i);
  }

  lemma XasMemRun(code: seq<u8>, pc: nat, i: Instruction, s: State, r: Regs, pad: Scratchpad) returns (t: State)
    requires i.opcode.IsXas() && CodeAt(code, pc, XasMemBytes(i)) && OperandOk(i) && s.Live? && Agrees(s.x, r)
    requires PadAt(s.mem, s.sp, pad)
    ensures Same(s, t) && Agrees(t.x, Arith(i, MemMode(pad), r))
              && Steps(code, Running(pc, s), 4) == Running(pc + 16, t)
  {
    hide Steps, Exec, Decode, Result, U32, OpImmBytes, OpRegBytes, OpMemBytes, CodeAddress, G, ShiftOf, AluOf;
    hide ShiftTemplate, RegTemplate, ImmOk, Agrees, PadAt, ShiftValue, And32Value, Arith, Same;
    var k := i.opcode.Num() - 4;
    var d, c := U32(i.dst), U32(i.src);
    RegField(i.dst);
    RegField(i.src);
    RaxField();
    XasTemplates(i);
    var b1, b2 := OpRegBytes(0x4c, 0xc089, 0, c), OpImmBytes(TplPreXas(k / 3), d, i.imm);
    var b4 := OpMemBytes(TplXasMem(k % 3), d);
    CodeAtPart(code, pc, b1 + b2 + CodeAddress(), b4);
    CodeAtPart(code, pc, b1 + b2, CodeAddress());
    CodeAtPart(code, pc, b1, b2);
    DecodeMov(code, pc, 0, c);
    DecodePreXas(code, pc + 3, k / 3, ShiftOf(i), d, i.imm);
    DecodeAddress(code, pc + 7);
    DecodeXasMem(code, pc + 12, k % 3, AluOf(i), d);
    ShiftThenAddress(i, s);
    XasFromStack(i, s, r, pad);
    var s1 := Exec(OpReg(MOV, 0, i.src + 8), s);
    var s2 := Exec(Shift(ShiftOf(i), i.dst + 8, i.imm), s1);
    var s3 := Exec(AndEax(2040), s2);
    Two(code, pc, OpReg(MOV, 0, i.src + 8), 3, Shift(ShiftOf(i), i.dst + 8, i.imm), 4, s);
    Two(code, pc + 7, AndEax(2040), 5, OpSp(AluOf(i), i.dst + 8), 4, s2);
    t := Exec(OpSp(AluOf(i), i.dst + 8), s3);
    StepsAdd(code, Running(pc, s), 2, 2);
  }

  lemma RaxField()
    ensures G(0, false) == 0 && G(2, false) == 2
  {
  }

  lemma MulMemRun(code: seq<u8>, pc: nat, i: Instruction, s: State, r: Regs, pad: Scratchpad) returns (t: State)
    requires i.opcode.IsMul() && CodeAt(code, pc, MulMemBytes(i)) && OperandOk(i) && s.Live? && Agrees(s.x, r)
    requires PadAt(s.mem, s.sp, pad)
    ensures Same(s, t) && Agrees(t.x, Arith(i, MemMode(pad), r))
              && Steps(code, Running(pc, s), 4) == Running(pc + 17, t)
  {
    hide Steps, Exec, Decode, Result, U32, OpImmBytes, OpRegBytes, ImulMem, CodeAddress, G, ImmOf;
    hide MulTemplate, ImmOk, Agrees, PadAt, ImmValue, And32Value, Arith, Same;
    var k := i.opcode.Num();
    var d, c := U32(i.dst), U32(i.src);
    RegField(i.dst);
    RegField(i.src);
    RaxField();
    MulTemplates(i);
    var b1, b2 := OpRegBytes(0x4c, 0xc089, 0, c), OpImmBytes(TplMul(k), d, i.imm);
    var b4 := ImulMem(d);
    CodeAtPart(code, pc, b1 + b2 + CodeAddress(), b4);
    CodeAtPart(code, pc, b1 + b2, CodeAddress());
    CodeAtPart(code, pc, b1, b2);
    DecodeMov(code, pc, 0, c);
    DecodeMulImm(code, pc + 3, k, ImmOf(i), d, i.imm);
    DecodeAddress(code, pc + 7);
    DecodeImulMem(code, pc + 12, d);
    HealThenAddress(i, s);
    MulFromStack(i, s, r, pad);
    var s1 := Exec(OpReg(MOV, 0, i.src + 8), s);
    var s2 := Exec(OpImm(ImmOf(i), i.dst + 8, i.imm as u64), s1);
    var s3 := Exec(AndEax(2040), s2);
    Two(code, pc, OpReg(MOV, 0, i.src + 8), 3, OpImm(ImmOf(i), i.dst + 8, i.imm as u64), 4, s);
    Two(code, pc + 7, AndEax(2040), 5, ImulSp(i.dst + 8), 5, s2);
    t := Exec(ImulSp(i.dst + 8), s3);
    StepsAdd(code, Running(pc, s), 2, 2);
  }

  // ----- the loop head and the branch -----

  /** Two bytes into the loop head: where the flag is set, ebp holds the counter, and the
      conditional move is about to copy it; where it is clear, ebx holds it already. */
  predicate Counted(s: State, bc: nat)
    requires bc <= BRANCH_LIMIT
  {
    s.Live? && s.zf.Some? && Counter(bc) == if s.zf.value then s.x[5] else s.x[3]
  }

  lemma SmallWord(c: u64)
    requires c <= 32
    ensures ZeroExtend(Low32(c)) == c
    ensures Lea32Value(c, 1) == Add(c, 1)
    ensures Low32(Add(c, 1)) != 0
  {
  }

  lemma SmallFlag(f: u64, c: u64)
    requires c <= 32
    ensures And(Or32Value(f, c), 32) == And(Or(f, c), 32)
  {
  }

  lemma TestExec(s: State)
    requires s.Live? && Low32(s.x[5]) != 0
    ensures Exec(Test32(5, 5), s) == s.(zf := Some(false))
  {
    hide Low32;
    TestSelf(Low32(s.x[5]));
  }

  /** test ebp, ebp never sets the flag when the head is entered from above. */
  lemma HeadRun(code: seq<u8>, pc: nat, s: State)
    requires CodeAt(code, pc, CodeTarget()) && s.Live? && Low32(s.x[5]) != 0
    ensures Steps(code, Running(pc, s), 1) == Running(pc + 2, s.(zf := Some(false)))
  {
    hide Steps, Decode, CodeTarget, Low32, Exec;
    TestExec(s);
    DecodeTarget(code, pc);
    StepAt(code, pc, Test32(5, 5), 2, s);
  }

  lemma TestSelf(w: u32)
    ensures w & w == w
  {
  }

  lemma CmovzExec(s: State, bc: nat)
    requires bc <= BRANCH_LIMIT && Counted(s, bc)
    ensures Exec(Cmovz32(3, 5), s) == s.(x := s.x[3 := Counter(bc)])
  {
    hide Counter, ZeroExtend, Low32;
    CounterRange(bc);
    SmallWord(Counter(bc));
  }

  lemma RmcgTriple(i: Instruction, s: State)
    requires i.opcode.RMCG? && i.dst < 8 && i.src >= 8 && s.Live?
    ensures hide Exec, Result;
            var d, v := i.dst + 8, Result(RMCG, s.x[i.dst + 8], i.imm, s.x[i.src - 2]);
            var a := Exec(Imul(d, i.src - 2), s); var b := Exec(Shift(ROR, d, i.imm), a);
            && a.Live? && b.Live?
            && Exec(OpReg(MOV, 2, d), b) == s.(x := s.x[d := v][2 := v], zf := None)
  {
    hide Mul, Rotr;
    var d, m, v := i.dst + 8, i.src - 2, Result(RMCG, s.x[i.dst + 8], i.imm, s.x[i.src - 2]);
    var a := Exec(Imul(d, m), s);
    var b := Exec(Shift(ROR, d, i.imm), a);
    assert b.x == s.x[d := v];
    MovExec(b, 2, d);
  }

  lemma MultiplierField(n: nat)
    requires n == 6 || n == 7
    ensures 6 <= U32(n) < 8
  {
    if n == 6 { assert U32(n) == 6; } else { assert U32(n) == 7; }
  }

  lemma RmcgDecodes(code: seq<u8>, pc: nat, i: Instruction)
    requires i.opcode.RMCG? && i.dst < 8 && i.src >= 8 && CodeAt(code, pc, RmcgBytes(i))
    ensures && pc + 16 <= |code|
            && Decode(code, pc + 2) == Some(Coded(Cmovz32(3, 5), 3))
            && Decode(code, pc + 5) == Some(Coded(Imul(i.dst + 8, i.src - 2), 4))
            && Decode(code, pc + 9) == Some(Coded(Shift(ROR, i.dst + 8, i.imm), 4))
            && Decode(code, pc + 13) == Some(Coded(OpReg(MOV, 2, i.dst + 8), 3))
  {
    hide Decode, U32, OpImmBytes, OpRegBytes, ImulReg4c, CodeTarget, G;
    var d, c := U32(i.dst), U32(i.src - 2);
    RegField(i.dst);
    RegField(i.src - 2);
    MultiplierField(i.src - 2);
    RaxField();
    var b2, b3, b4 := ImulReg4c(d, c), OpImmBytes(0x00c8_c149, d, i.imm), OpRegBytes(0x4c, 0xc089, 2, d);
    CodeAtPart(code, pc, CodeTarget() + b2 + b3, b4);
    CodeAtPart(code, pc, CodeTarget() + b2, b3);
    CodeAtPart(code, pc, CodeTarget(), b2);
    DecodeTarget(code, pc);
    DecodeImul4c(code, pc + 5, d, c);
    assert b3 == OpImmBytes(TplPreXas(0), d, i.imm);
    DecodePreXas(code, pc + 9, 0, ROR, d, i.imm);
    DecodeMov(code, pc + 13, 2, d);
  }

  lemma RmcgAgrees(i: Instruction, x: GprFile, r: Regs, c: u64)
    requires i.dst < 8 && i.src >= 8 && Agrees(x, r)
    ensures hide Result, Agrees;
            var v := Result(RMCG, r[i.dst], i.imm, r[i.src]);
            Agrees(x[3 := c][i.dst + 8 := v][2 := v], r[i.dst := v])
            && x[3 := c][i.dst + 8] == r[i.dst] && x[3 := c][i.src - 2] == r[i.src]
  {
    hide Result;
    var v := Result(RMCG, r[i.dst], i.imm, r[i.src]);
    AgreesTemp(x, r, 3, c);
    AgreesWrite(x[3 := c], r, i.dst, v);
    AgreesTemp(x[3 := c][i.dst + 8 := v], r[i.dst := v], 2, v);
    assert x[8 + i.dst] == r[i.dst];
  }

  /** From two bytes into the loop head. */
  lemma RmcgRun(code: seq<u8>, pc: nat, i: Instruction, mode: Mode, s: State, r: Regs, bc: nat) returns (t: State)
    requires i.opcode.RMCG? && i.dst < 8 && i.src >= 8 && CodeAt(code, pc, RmcgBytes(i))
    requires bc <= BRANCH_LIMIT && Counted(s, bc) && Agrees(s.x, r)
    ensures hide Steps, Arith, Agrees, Counter;
            && t.Live? && t.sp == s.sp && t.mem == s.mem && t.x[1] == s.x[1] && t.x[3] == Counter(bc)
            && Agrees(t.x, Arith(i, mode, r)) && t.x[2] == Arith(i, mode, r)[i.dst]
            && Steps(code, Running(pc + 2, s), 4) == Running(pc + 16, t)
  {
    hide Steps, Exec, Decode, Result, RmcgBytes, Counter, Agrees;
    RmcgDecodes(code, pc, i);
    CmovzExec(s, bc);
    var s1 := s.(x := s.x[3 := Counter(bc)]);
    RmcgTriple(i, s1);
    RmcgAgrees(i, s.x, r, Counter(bc));
    var s2 := Exec(Imul(i.dst + 8, i.src - 2), s1);
    var s3 := Exec(Shift(ROR, i.dst + 8, i.imm), s2);
    t := Exec(OpReg(MOV, 2, i.dst + 8), s3);
    Two(code, pc + 2, Cmovz32(3, 5), 3, Imul(i.dst + 8, i.src - 2), 4, s);
    Two(code, pc + 9, Shift(ROR, i.dst + 8, i.imm), 4, OpReg(MOV, 2, i.dst + 8), 3, s2);
    StepsAdd(code, Running(pc + 2, s), 2, 2);
  }

  lemma BranchExec(s: State, c: u64)
    requires s.Live? && s.x[3] == c <= 32
    ensures hide Exec, Or32Value, And, Add;
            var a := Exec(Or32(2, 3), s); var b := Exec(Lea32(5, 3, 1), a);
            && a.Live? && b.Live?
            && Exec(TestByte(2, 32), b)
               == s.(x := s.x[2 := Or32Value(s.x[2], c)][5 := Add(c, 1)], zf := Some(And(Or32Value(s.x[2], c), 32) == 0))
  {
    hide Or32Value, And, Add, Lea32Value;
    SmallWord(c);
  }

  lemma JzStep(code: seq<u8>, pc: nat, dist: nat, s: State)
    requires Decode(code, pc) == Some(Coded(Jz(0 - dist), 2)) && pc + 2 <= |code| && dist <= pc
    requires s.Live? && s.zf.Some?
    ensures Steps(code, Running(pc, s), 1) == Running(if s.zf.value then pc + 2 - dist else pc + 2, s)
  {
    hide Decode, Steps, Exec;
    StepsOne(code, Running(pc, s));
  }

  /** or edx, ebx; lea ebp, [rbx+1]; test dl, 32; jz: back into the head of the loop, whose
      first byte is dist bytes before the jump. */
  lemma BranchRun(code: seq<u8>, pc: nat, dist: nat, d: RegIndex, s: State, r: Regs, bc: nat) returns (t: State)
    requires (dist == REG_SPAN || dist == MEM_SPAN) && dist <= pc + 8
    requires CodeAt(code, pc, CodeBranch()) && CodeAt(code, pc + 8, JzBytes(dist))
    requires bc <= BRANCH_LIMIT && s.Live? && Agrees(s.x, r) && s.x[3] == Counter(bc) && s.x[2] == r[d]
    ensures && t.Live? && t.sp == s.sp && t.mem == s.mem && t.x[1] == s.x[1] && Agrees(t.x, r) && t.zf.Some?
            && t.zf.value == (bc != 0 && And(r[d], 32) == 0)
            && Counted(t, if t.zf.value then bc - 1 else bc) && t.x[3] == Counter(bc) && Low32(t.x[5]) != 0
            && Steps(code, Running(pc, s), 4) == Running(if t.zf.value then pc + 10 - dist else pc + 10, t)
  {
    hide Steps, Exec, Decode, CodeBranch, JzBytes, Counter, And, Or, Or32Value, Add, Low32, Agrees;
    DecodeBranch(code, pc);
    DecodeJz(code, pc + 8, dist);
    var c := Counter(bc);
    CounterRange(bc);
    BranchExec(s, c);
    SmallWord(c);
    SmallFlag(s.x[2], c);
    BudgetTest(bc, r[d]);
    if bc != 0 {
      CounterUp(bc);
    }
    var s1 := Exec(Or32(2, 3), s);
    var s2 := Exec(Lea32(5, 3, 1), s1);
    t := Exec(TestByte(2, 32), s2);
    Two(code, pc, Or32(2, 3), 2, Lea32(5, 3, 1), 3, s);
    StepAt(code, pc + 5, TestByte(2, 32), 3, s2);
    StepsAdd(code, Running(pc, s), 2, 1);
    JzStep(code, pc + 8, dist, t);
    StepsAdd(code, Running(pc, s), 3, 1);
    AgreesTemp(s.x, r, 2, Or32Value(s.x[2], c));
    AgreesTemp(s.x[2 := Or32Value(s.x[2], c)], r, 5, Add(c, 1));
  }
}
