/** In source order, the AArch64 instructions of a program do what the program does. */
module A64Simulation {
  import opened Words
  import opened Vm
  import opened Budget
  import opened Stack
  import opened A64Machine
  import opened A64Decode
  import opened A64Order

  /** x0-x7 hold R0-R7, x12 and x13 hold R8 and R9, x10 and x11 hold the constants. */
  predicate Agrees(x: RegFile, r: Regs) {
    && (forall k :: 0 <= k < 8 ==> x[k] == r[k])
    && x[12] == r[8] && x[13] == r[9] && x[10] == 9 && x[11] == 33
  }

  /** What an arithmetic instruction leaves alone. */
  predicate Same(s: State, t: State) {
    s.Live? && t.Live? && t.sp == s.sp && t.mem == s.mem && t.x[8] == s.x[8] && t.x[9] == s.x[9]
  }

  // ----- values -----

  lemma XasValue(i: Instruction, a: u64, b: u64)
    requires i.opcode.IsXas()
    ensures PreXasIsn(i).Shift? && XasIsn(i, 14).Alu?
    ensures AluValue(XasIsn(i, 14).op, ShiftValue(PreXasIsn(i).sop, a, i.imm), b) == Result(i.opcode, a, i.imm, b)
  {
    hide Add, Sub, Xor, Rotr, Asr, Lsr;
  }

  lemma XasShape(i: Instruction, src: Reg)
    requires i.opcode.IsXas()
    ensures PreXasIsn(i) == Shift(PreXasIsn(i).sop, i.dst, i.dst, i.imm)
    ensures XasIsn(i, src) == Alu(XasIsn(i, 14).op, i.dst, i.dst, src)
  {
  }

  /** The pair of instructions of an XAS, with its second operand in any register. */
  lemma XasPair(i: Instruction, src: Reg, s: State)
    requires i.opcode.IsXas() && s.Live? && src != i.dst
    ensures Exec(XasIsn(i, src), Exec(PreXasIsn(i), s))
            == s.(x := s.x[i.dst := Result(i.opcode, s.x[i.dst], i.imm, s.x[src])])
  {
    hide AluValue, ShiftValue, Result, PreXasIsn, XasIsn;
    XasShape(i, src);
    XasValue(i, s.x[i.dst], s.x[src]);
    var t := Exec(PreXasIsn(i), s);
    assert t == s.(x := s.x[i.dst := ShiftValue(PreXasIsn(i).sop, s.x[i.dst], i.imm)]);
    assert Exec(XasIsn(i, src), t).x == s.x[i.dst := Result(i.opcode, s.x[i.dst], i.imm, s.x[src])];
  }

  /** The multiplicand after its immediate was mixed in. */
  function Healed(i: Instruction, d: u64): u64
    requires i.opcode.IsMul()
  {
    match i.opcode
    case MULOR => Or(d, i.imm as u64)
    case MULXOR => Xor(d, i.imm as u64)
    case MULADD => Add(d, i.imm as u64)
  }

  lemma PremulExec(i: Instruction, s: State)
    requires i.opcode.IsMul() && ImmOk(i) && s.Live? && s.x[10] == 9 && s.x[11] == 33
    ensures Exec(PremulIsn(i), s) == s.(x := s.x[i.dst := Healed(i, s.x[i.dst])])
  {
    hide Or, Xor, Add;
  }

  lemma HealedResult(i: Instruction, d: u64, v: u64)
    requires i.opcode.IsMul()
    ensures Mul(Healed(i, d), v) == Result(i.opcode, d, i.imm, v)
  {
    hide Mul, Or, Xor, Add;
  }

  /** The pair of instructions of a MUL. */
  lemma MulPair(i: Instruction, src: Reg, s: State)
    requires i.opcode.IsMul() && ImmOk(i) && s.Live? && src != i.dst && s.x[10] == 9 && s.x[11] == 33
    ensures Exec(MulIsn(i, src), Exec(PremulIsn(i), s))
            == s.(x := s.x[i.dst := Result(i.opcode, s.x[i.dst], i.imm, s.x[src])])
  {
    hide Mul, Result, PremulIsn, Healed, ImmOk;
    PremulExec(i, s);
    HealedResult(i, s.x[i.dst], s.x[src]);
    var t := Exec(PremulIsn(i), s);
    assert Exec(MulIsn(i, src), t).x == s.x[i.dst := Result(i.opcode, s.x[i.dst], i.imm, s.x[src])];
  }

  lemma RmcgPair(i: Instruction, src: Reg, s: State)
    requires i.opcode.RMCG? && s.Live? && src != i.dst
    ensures Exec(RorIsn(i), Exec(MulIsn(i, src), s))
            == s.(x := s.x[i.dst := Result(i.opcode, s.x[i.dst], i.imm, s.x[src])])
  {
    hide Mul, Rotr;
  }

  // ----- memory operands -----

  lemma MaskedAddress(x: u64)
    ensures Address(And(x, 2040)) == 8 * MemIndex(x)
  {
  }

  /** Masking and loading puts the selected scratchpad word into t. */
  lemma LoadPair(t: Reg, src: RegIndex, s: State, pad: Scratchpad)
    requires s.Live? && PadAt(s.mem, s.sp, pad)
    ensures Exec(LdrSp(t, t), Exec(AluImm(ANDI, t, src, 2040), s)) == s.(x := s.x[t := pad[MemIndex(s.x[src])]])
  {
    hide And, Address, MemIndex;
    MaskedAddress(s.x[src]);
    var u := Exec(AluImm(ANDI, t, src, 2040), s);
    assert u == s.(x := s.x[t := And(s.x[src], 2040)]);
    assert s.sp + 8 * MemIndex(s.x[src]) in s.mem;
    assert u.x[t := pad[MemIndex(s.x[src])]] == s.x[t := pad[MemIndex(s.x[src])]];
  }

  // ----- simulation of single instructions -----

  lemma EightAgree(x: RegFile, r: Regs)
    requires Agrees(x, r)
    ensures x[0] == r[0] && x[1] == r[1] && x[2] == r[2] && x[3] == r[3]
    ensures x[4] == r[4] && x[5] == r[5] && x[6] == r[6] && x[7] == r[7]
  {
  }

  lemma AgreesWrite(x: RegFile, r: Regs, d: RegIndex, v: u64)
    requires Agrees(x, r) && d < 8
    ensures Agrees(x[d := v], r[d := v])
  {
  }

  lemma AgreesTemp(x: RegFile, r: Regs, t: Reg, v: u64)
    requires Agrees(x, r) && (t == 9 || 14 <= t)
    ensures Agrees(x[t := v], r)
  {
  }

  lemma RmcgSim(i: Instruction, mode: Mode, s: State, r: Regs)
    requires i.opcode.RMCG? && i.dst < 8 && i.src >= 8 && s.Live? && Agrees(s.x, r)
    ensures var t := Block(RmcgIsns(i), s); Same(s, t) && Agrees(t.x, Arith(i, mode, r))
  {
    hide Exec, Block, Result;
    Block2(MulIsn(i, i.src + 4), RorIsn(i), s);
    RmcgPair(i, i.src + 4, s);
    AgreesWrite(s.x, r, i.dst, Result(i.opcode, s.x[i.dst], i.imm, s.x[i.src + 4]));
  }

  lemma XasSim(i: Instruction, s: State, r: Regs)
    requires i.opcode.IsXas() && OperandOk(i) && s.Live? && Agrees(s.x, r)
    ensures var t := Block(XasIsns(i), s); Same(s, t) && Agrees(t.x, Arith(i, RegMode, r))
  {
    hide Exec, Block, Result, PreXasIsn, XasIsn;
    Block2(PreXasIsn(i), XasIsn(i, i.src), s);
    XasPair(i, i.src, s);
    AgreesWrite(s.x, r, i.dst, Result(i.opcode, s.x[i.dst], i.imm, s.x[i.src]));
  }

  lemma MulSim(i: Instruction, s: State, r: Regs)
    requires i.opcode.IsMul() && OperandOk(i) && s.Live? && Agrees(s.x, r)
    ensures var t := Block(MulIsns(i), s); Same(s, t) && Agrees(t.x, Arith(i, RegMode, r))
  {
    hide Exec, Block, Result, PremulIsn, ImmOk;
    Block2(PremulIsn(i), MulIsn(i, i.src), s);
    MulPair(i, i.src, s);
    AgreesWrite(s.x, r, i.dst, Result(i.opcode, s.x[i.dst], i.imm, s.x[i.src]));
  }

  lemma XasCopied(i: Instruction, s: State)
    requires i.opcode.IsXas() && OperandOk(i) && s.Live?
    ensures Exec(XasIsn(i, 14), Exec(Mov(14, i.src), Exec(PreXasIsn(i), s)))
            == s.(x := s.x[14 := s.x[i.src]][i.dst := Result(i.opcode, s.x[i.dst], i.imm, s.x[i.src])])
  {
    hide Result, AluValue, ShiftValue, PreXasIsn, XasIsn, ImmOk;
    XasShape(i, 14);
    XasValue(i, s.x[i.dst], s.x[i.src]);
    var t := Exec(XasIsn(i, 14), Exec(Mov(14, i.src), Exec(PreXasIsn(i), s)));
    assert t.x == s.x[14 := s.x[i.src]][i.dst := Result(i.opcode, s.x[i.dst], i.imm, s.x[i.src])];
  }

  lemma AgreesAt(x: RegFile, r: Regs, i: Instruction)
    requires Agrees(x, r) && i.dst < 8 && i.src < 8
    ensures x[i.dst] == r[i.dst] && x[i.src] == r[i.src]
  {
  }

  /** With the copy through x14. */
  lemma XasCopySim(i: Instruction, s: State, r: Regs)
    requires i.opcode.IsXas() && OperandOk(i) && s.Live? && Agrees(s.x, r)
    ensures var t := Block(XasCopyIsns(i), s); Same(s, t) && Agrees(t.x, Arith(i, RegMode, r))
  {
    hide Exec, Block, Result, PreXasIsn, XasIsn, Agrees;
    var a, b, c := PreXasIsn(i), Mov(14, i.src), XasIsn(i, 14);
    assert [a, b, c] == [a] + [b, c];
    BlockAppend([a], [b, c], s);
    Block1(a, s);
    Block2(b, c, Exec(a, s));
    XasCopied(i, s);
    AgreesAt(s.x, r, i);
    var v := Result(i.opcode, s.x[i.dst], i.imm, s.x[i.src]);
    AgreesTemp(s.x, r, 14, s.x[i.src]);
    AgreesWrite(s.x[14 := s.x[i.src]], r, i.dst, v);
  }

  lemma XasMemSim(i: Instruction, t: Reg, s: State, r: Regs, pad: Scratchpad)
    requires i.opcode.IsXas() && OperandOk(i) && 14 <= t && s.Live? && Agrees(s.x, r) && PadAt(s.mem, s.sp, pad)
    ensures var u := Block(XasMemIsns(i, t), s); Same(s, u) && Agrees(u.x, Arith(i, MemMode(pad), r))
  {
    hide Exec, Block, Result, PreXasIsn, XasIsn, MemIndex, PadAt;
    Block4(AluImm(ANDI, t, i.src, 2040), LdrSp(t, t), PreXasIsn(i), XasIsn(i, t), s);
    assert XasMemIsns(i, t) == [AluImm(ANDI, t, i.src, 2040), LdrSp(t, t), PreXasIsn(i), XasIsn(i, t)];
    LoadPair(t, i.src, s, pad);
    var m := pad[MemIndex(s.x[i.src])];
    var u := s.(x := s.x[t := m]);
    XasPair(i, t, u);
    AgreesTemp(s.x, r, t, m);
    AgreesWrite(u.x, r, i.dst, Result(i.opcode, u.x[i.dst], i.imm, m));
  }

  lemma MulMemSim(i: Instruction, t: Reg, s: State, r: Regs, pad: Scratchpad)
    requires i.opcode.IsMul() && OperandOk(i) && 14 <= t && s.Live? && Agrees(s.x, r) && PadAt(s.mem, s.sp, pad)
    ensures var u := Block(MulMemIsns(i, t), s); Same(s, u) && Agrees(u.x, Arith(i, MemMode(pad), r))
  {
    hide Exec, Block, Result, PremulIsn, ImmOk, MemIndex, PadAt;
    Block4(AluImm(ANDI, t, i.src, 2040), LdrSp(t, t), PremulIsn(i), MulIsn(i, t), s);
    assert MulMemIsns(i, t) == [AluImm(ANDI, t, i.src, 2040), LdrSp(t, t), PremulIsn(i), MulIsn(i, t)];
    LoadPair(t, i.src, s, pad);
    var m := pad[MemIndex(s.x[i.src])];
    var u := s.(x := s.x[t := m]);
    MulPair(i, t, u);
    AgreesTemp(s.x, r, t, m);
    AgreesWrite(u.x, r, i.dst, Result(i.opcode, u.x[i.dst], i.imm, m));
  }

  /** x9 counts up exactly when the interpreter would take the branch. */
  lemma BranchSim(d: RegIndex, s: State, r: Regs, bc: nat)
    requires d < 8 && s.Live? && Agrees(s.x, r) && bc <= BRANCH_LIMIT && s.x[9] == Counter(bc)
    ensures var t := Block(BranchIsns(d), s);
            && t.Live? && t.sp == s.sp && t.mem == s.mem && t.x[8] == s.x[8] && Agrees(t.x, r)
            && t.zf == (bc != 0 && And(r[d], 32) == 0)
            && t.x[9] == Counter(if t.zf then bc - 1 else bc)
            && t.x[17] == s.x[17]
  {
    hide Block, And, Or, Add, Counter;
    var a, b, c := Alu(ORR, 14, d, 9), Tst(14, 32), CincEq(9, 9);
    assert BranchIsns(d) == [a] + [b, c];
    BlockAppend([a], [b, c], s);
    Block1(a, s);
    Block2(b, c, Exec(a, s));
    BudgetTest(bc, r[d]);
    if bc != 0 {
      CounterUp(bc);
    }
    var v := Or(s.x[d], s.x[9]);
    AgreesTemp(s.x, r, 14, v);
    var t := Block([a] + [b, c], s);
    assert t.x == s.x[14 := v][9 := t.x[9]];
    AgreesTemp(s.x[14 := v], r, 9, t.x[9]);
  }
}
