/** Instruction by instruction, the WebAssembly code does what the program does and leaves
    the operand stack as it was. */
module WasmSimulation {
  import opened Wrappers
  import opened Words
  import opened Vm
  import opened Stack
  import opened WasmMachine
  import opened WasmCompiler
  import opened WasmEmitted

  const LOCALS: nat := 15

  /** Locals 2-11 hold R0-R9 and local 14 the address mask. */
  predicate Agrees(x: seq<Val>, r: Regs) {
    && |x| == LOCALS
    && (forall k {:trigger r[k]} :: 0 <= k < REG_SIZE ==> x[2 + k] == I64(r[k]))
    && x[MM] == I64(2040)
  }

  /** What an arithmetic instruction leaves alone. */
  predicate Same(s: State, t: State) {
    && s.Live? && t.Live? && t.stack == s.stack && t.mem == s.mem && |s.locals| == |t.locals| == LOCALS
    && t.locals[0] == s.locals[0] && t.locals[1] == s.locals[1] && t.locals[BC] == s.locals[BC]
  }

  // ----- values -----

  lemma ImmNumber(w: u32)
    requires w < 64
    ensures w as nat == (w as u64) as nat
  {
  }

  lemma CountBack(w: u32)
    requires w < 64
    ensures CountOf(w as u64) == w
  {
  }

  lemma ImmWord(i: Instruction)
    ensures WordOf(ImmByte(i)) == i.imm as u64 && CountOf(i.imm as u64) == i.imm
  {
    hide Word, CountOf;
    CountBack(i.imm);
    ImmNumber(i.imm);
    var n := i.imm as nat;
    NumberBack(n, i.imm as u64);
    assert n % TWO_64 == n;
  }

  lemma ConstWords()
    ensures WordOf(0) == 0 && WordOf(1) == 1 && WordOf(32) == 32 && WordOf(2040) == 2040
  {
  }

  /** The combination of dst with the immediate. */
  function Combined(i: Instruction, d: u64): u64
    requires i.opcode.IsMul() || i.opcode.IsXas()
  {
    BinValue(PreOf(i.opcode), d, i.imm as u64)
  }

  lemma MulOpsValue(i: Instruction, d: u64, b: u64)
    requires i.opcode.IsMul()
    ensures BinValue(PostOf(i.opcode), Combined(i, d), b) == Result(i.opcode, d, i.imm, b)
  {
    hide Mul, Or, Xor, Add, Sub, Rotr, Asr, Lsr, CountOf;
  }

  lemma ShiftValue(i: Instruction, d: u64)
    requires i.opcode.IsXas()
    ensures PreOf(i.opcode).ROTR? ==> Combined(i, d) == Rotr(d, i.imm)
    ensures PreOf(i.opcode).SHRS? ==> Combined(i, d) == Asr(d, i.imm)
    ensures PreOf(i.opcode).SHRU? ==> Combined(i, d) == Lsr(d, i.imm)
  {
    hide Rotr, Asr, Lsr, CountOf;
    CountBack(i.imm);
  }

  lemma RorOpsValue(i: Instruction, d: u64, b: u64)
    requires i.opcode.XORROR? || i.opcode.ADDROR? || i.opcode.SUBROR?
    ensures BinValue(PostOf(i.opcode), Combined(i, d), b) == Result(i.opcode, d, i.imm, b)
  {
    hide Mul, Or, Xor, Add, Sub, Rotr, Asr, Lsr, CountOf, Combined;
    ShiftValue(i, d);
  }

  lemma AsrOpsValue(i: Instruction, d: u64, b: u64)
    requires i.opcode.XORASR? || i.opcode.ADDASR? || i.opcode.SUBASR?
    ensures BinValue(PostOf(i.opcode), Combined(i, d), b) == Result(i.opcode, d, i.imm, b)
  {
    hide Mul, Or, Xor, Add, Sub, Rotr, Asr, Lsr, CountOf, Combined;
    ShiftValue(i, d);
  }

  lemma LsrOpsValue(i: Instruction, d: u64, b: u64)
    requires i.opcode.XORLSR? || i.opcode.ADDLSR? || i.opcode.SUBLSR?
    ensures BinValue(PostOf(i.opcode), Combined(i, d), b) == Result(i.opcode, d, i.imm, b)
  {
    hide Mul, Or, Xor, Add, Sub, Rotr, Asr, Lsr, CountOf, Combined;
    ShiftValue(i, d);
  }

  lemma OpsValue(i: Instruction, d: u64, b: u64)
    requires i.opcode.IsMul() || i.opcode.IsXas()
    ensures BinValue(PostOf(i.opcode), Combined(i, d), b) == Result(i.opcode, d, i.imm, b)
  {
    hide Result, Combined, BinValue, PostOf;
    match i.opcode
    case MULOR => MulOpsValue(i, d, b);
    case MULXOR => MulOpsValue(i, d, b);
    case MULADD => MulOpsValue(i, d, b);
    case XORROR => RorOpsValue(i, d, b);
    case ADDROR => RorOpsValue(i, d, b);
    case SUBROR => RorOpsValue(i, d, b);
    case XORASR => AsrOpsValue(i, d, b);
    case ADDASR => AsrOpsValue(i, d, b);
    case SUBASR => AsrOpsValue(i, d, b);
    case _ => LsrOpsValue(i, d, b);
  }

  /** With the factors on the stack in the other order. */
  lemma MulValue(i: Instruction, d: u64, b: u64)
    requires i.opcode.IsMul()
    ensures BinValue(MUL, b, Combined(i, d)) == Result(i.opcode, d, i.imm, b)
  {
    hide Mul, Result, Combined;
    OpsValue(i, d, b);
    MulCommutes(Combined(i, d), b);
  }

  lemma Wide(op: Opcode)
    requires op.IsMul() || op.IsXas()
    ensures !PreOf(op).ADD32? && !PreOf(op).SUB32? && !PostOf(op).ADD32? && !PostOf(op).SUB32?
  {
  }

  // ----- registers -----

  lemma AgreesAt(x: seq<Val>, r: Regs, k: RegIndex)
    requires Agrees(x, r)
    ensures |x| == LOCALS && x[Home(k)] == I64(r[k]) && x[MM] == I64(2040)
  {
  }

  lemma AgreesWrite(x: seq<Val>, r: Regs, d: RegIndex, v: u64)
    requires Agrees(x, r)
    ensures Agrees(x[Home(d) := I64(v)], r[d := v])
  {
  }

  lemma AgreesTemp(x: seq<Val>, r: Regs, t: nat, v: Val)
    requires Agrees(x, r) && (t < 2 || t == BC || t == BF)
    ensures Agrees(x[t := v], r)
  {
  }

  // ----- pieces of an instruction -----

  lemma PreparedRun(i: Instruction, s: State, r: Regs)
    requires (i.opcode.IsMul() || i.opcode.IsXas()) && s.Live? && Agrees(s.locals, r)
    ensures ExecAll(Prepared(i), s) == s.(stack := Push(I64(Combined(i, r[i.dst])), s.stack))
  {
    hide ExecAll, Agrees, WordOf, ImmByte, BinValue, PreOf, CountOf;
    AgreesAt(s.locals, r, i.dst);
    ImmWord(i);
    Wide(i.opcode);
    Exec3(Get(Home(i.dst)), Const64(ImmByte(i)), Bin(PreOf(i.opcode)), s);
  }

  lemma RotatedRun(i: Instruction, s: State, r: Regs)
    requires i.opcode.RMCG? && s.Live? && Agrees(s.locals, r)
    ensures var v := Result(RMCG, r[i.dst], i.imm, r[i.src]);
            ExecAll(Rotated(i), s) == s.(locals := s.locals[Home(i.dst) := I64(v)][BF := I64(v)])
  {
    hide ExecAll, Agrees, WordOf, ImmByte, Mul, Rotr, CountOf;
    AgreesAt(s.locals, r, i.dst);
    AgreesAt(s.locals, r, i.src);
    ImmWord(i);
    var a, b := [Get(Home(i.dst)), Get(Home(i.src)), Bin(MUL)], [Const64(ImmByte(i)), Bin(ROTR), Tee(Home(i.dst)), Set(BF)];
    ExecAppend(a, b, s);
    Exec3(Get(Home(i.dst)), Get(Home(i.src)), Bin(MUL), s);
    var t := s.(stack := Push(I64(Mul(r[i.dst], r[i.src])), s.stack));
    assert ExecAll(a, s) == t;
    Exec4(Const64(ImmByte(i)), Bin(ROTR), Tee(Home(i.dst)), Set(BF), t);
  }

  lemma MaskedOffset(x: u64)
    ensures WrapValue(And(x, 2040)) == 8 * MemIndex(x)
  {
  }

  /** The scratchpad is at $mp, and fits the address space. */
  predicate PadReady(s: State, mp: nat, pad: Scratchpad)
    requires s.Live?
  {
    && |s.locals| == LOCALS && mp + 8 * MEM_SIZE <= TWO_32 && s.locals[1] == I32(mp)
    && PadAt(s.mem, mp, pad)
  }

  lemma Add32Apply(a: Word32, b: Word32)
    requires a + b < TWO_32
    ensures BinApply(ADD32, I32(a), I32(b)) == Some(I32(a + b))
  {
  }

  lemma WrapExec(s: State, w: u64)
    requires s.Live? && s.stack.Push? && s.stack.top == I64(w)
    ensures Exec(Un(WRAP), s) == s.(stack := Push(I32(WrapValue(w)), s.stack.below))
  {
    hide WrapValue;
  }

  lemma GetExec(x: nat, s: State)
    requires s.Live? && x < |s.locals|
    ensures Exec(Get(x), s) == s.(stack := Push(s.locals[x], s.stack))
  {
  }

  lemma Add32Exec(s: State, a: Word32, b: Word32, below: OpStack)
    requires s.Live? && s.stack == Push(I32(b), Push(I32(a), below)) && a + b < TWO_32
    ensures Exec(Bin(ADD32), s) == s.(stack := Push(I32(a + b), below))
  {
    hide BinApply;
    Add32Apply(a, b);
  }

  lemma LoadExec(s: State, a: Word32, align: nat, off: nat, below: OpStack)
    requires s.Live? && s.stack == Push(I32(a), below) && a + off in s.mem
    ensures Exec(Load(align, off), s) == s.(stack := Push(I64(s.mem[a + off]), below))
  {
  }

  lemma AndExec(s: State, a: u64, b: u64, below: OpStack)
    requires s.Live? && s.stack == Push(I64(b), Push(I64(a), below))
    ensures Exec(Bin(AND), s) == s.(stack := Push(I64(And(a, b)), below))
  {
    hide And;
  }

  lemma PadWord(mem: Memory, mp: int, pad: Scratchpad, k: nat)
    requires PadAt(mem, mp, pad) && k < MEM_SIZE
    ensures mp + 8 * k in mem && mem[mp + 8 * k] == pad[k]
  {
  }

  /** The byte offset of the selected word. */
  lemma MaskRun(src: RegIndex, s: State, r: Regs)
    requires s.Live? && Agrees(s.locals, r)
    ensures ExecAll([Get(Home(src)), Get(MM), Bin(AND)], s) == s.(stack := Push(I64(And(r[src], 2040)), s.stack))
  {
    hide ExecAll, Exec, Agrees, And;
    AgreesAt(s.locals, r, src);
    Exec3(Get(Home(src)), Get(MM), Bin(AND), s);
    GetExec(Home(src), s);
    GetExec(MM, s.(stack := Push(I64(r[src]), s.stack)));
    AndExec(s.(stack := Push(I64(2040), Push(I64(r[src]), s.stack))), r[src], 2040, s.stack);
  }

  lemma FetchRun(s: State, w: u64, k: nat, mp: nat, pad: Scratchpad, below: OpStack)
    requires s.Live? && s.stack == Push(I64(w), below) && PadReady(s, mp, pad) && k < MEM_SIZE && WrapValue(w) == 8 * k
    ensures ExecAll([Un(WRAP), Get(1), Bin(ADD32), Load(3, 0)], s) == s.(stack := Push(I64(pad[k]), below))
  {
    hide ExecAll, Exec, WrapValue, PadAt;
    PadWord(s.mem, mp, pad, k);
    Exec4(Un(WRAP), Get(1), Bin(ADD32), Load(3, 0), s);
    WrapExec(s, w);
    GetExec(1, s.(stack := Push(I32(8 * k), below)));
    Add32Exec(s.(stack := Push(I32(mp), Push(I32(8 * k), below))), 8 * k, mp, below);
    LoadExec(s.(stack := Push(I32(8 * k + mp), below)), 8 * k + mp, 3, 0, below);
  }

  lemma SelectedRun(src: RegIndex, s: State, r: Regs, mp: nat, pad: Scratchpad)
    requires s.Live? && Agrees(s.locals, r) && PadReady(s, mp, pad)
    ensures ExecAll(Selected(src), s) == s.(stack := Push(I64(pad[MemIndex(r[src])]), s.stack))
  {
    hide ExecAll, Exec, Agrees, And, WrapValue, MemIndex, PadAt;
    MaskedOffset(r[src]);
    ExecAppend([Get(Home(src)), Get(MM), Bin(AND)], [Un(WRAP), Get(1), Bin(ADD32), Load(3, 0)], s);
    MaskRun(src, s, r);
    var w := And(r[src], 2040);
    FetchRun(s.(stack := Push(I64(w), s.stack)), w, MemIndex(r[src]), mp, pad, s.stack);
  }

  lemma BinExec(op: BinOp, s: State, a: u64, b: u64, below: OpStack)
    requires s.Live? && s.stack == Push(I64(b), Push(I64(a), below)) && !op.ADD32? && !op.SUB32?
    ensures Exec(Bin(op), s) == s.(stack := Push(I64(BinValue(op, a, b)), below))
  {
    hide BinValue;
  }

  lemma SetExec(x: nat, s: State, v: Val, below: OpStack)
    requires s.Live? && s.stack == Push(v, below) && x < |s.locals|
    ensures Exec(Set(x), s) == Live(below, s.locals[x := v], s.mem)
  {
  }

  lemma FinishedRun(op: BinOp, dst: RegIndex, s: State, a: u64, b: u64, below: OpStack)
    requires s.Live? && |s.locals| == LOCALS && s.stack == Push(I64(b), Push(I64(a), below)) && !op.ADD32? && !op.SUB32?
    ensures ExecAll(Finished(op, dst), s) == Live(below, s.locals[Home(dst) := I64(BinValue(op, a, b))], s.mem)
  {
    hide ExecAll, Exec, BinValue;
    var v := I64(BinValue(op, a, b));
    Exec2(Bin(op), Set(Home(dst)), s);
    BinExec(op, s, a, b, below);
    SetExec(Home(dst), s.(stack := Push(v, below)), v, below);
  }

  // ----- whole instructions -----

  /** The state after an arithmetic instruction. */
  function After(i: Instruction, s: State, v: u64): State
    requires s.Live? && |s.locals| == LOCALS
  {
    var x := s.locals[Home(i.dst) := I64(v)];
    s.(locals := if i.opcode.RMCG? then x[BF := I64(v)] else x)
  }

  lemma RegOpsRun(i: Instruction, s: State, r: Regs)
    requires (i.opcode.IsMul() || i.opcode.IsXas()) && s.Live? && Agrees(s.locals, r)
    ensures |s.locals| == LOCALS
    ensures ExecAll(Ops(false, i), s) == After(i, s, Result(i.opcode, r[i.dst], i.imm, r[i.src]))
  {
    hide ExecAll, Exec, Agrees, Prepared, Combined, BinValue, PreOf, PostOf, Result;
    AgreesAt(s.locals, r, i.src);
    Wide(i.opcode);
    OpsValue(i, r[i.dst], r[i.src]);
    var op, a, b := PostOf(i.opcode), Combined(i, r[i.dst]), r[i.src];
    var v := I64(BinValue(op, a, b));
    ExecAppend(Prepared(i), [Get(Home(i.src)), Bin(op), Set(Home(i.dst))], s);
    PreparedRun(i, s, r);
    var t := s.(stack := Push(I64(a), s.stack));
    Exec3(Get(Home(i.src)), Bin(op), Set(Home(i.dst)), t);
    GetExec(Home(i.src), t);
    BinExec(op, t.(stack := Push(I64(b), t.stack)), a, b, s.stack);
    SetExec(Home(i.dst), t.(stack := Push(v, s.stack)), v, s.stack);
  }

  lemma MemOpsRun(i: Instruction, s: State, r: Regs, mp: nat, pad: Scratchpad)
    requires (i.opcode.IsMul() || i.opcode.IsXas()) && s.Live? && Agrees(s.locals, r) && PadReady(s, mp, pad)
    ensures ExecAll(Ops(true, i), s) == After(i, s, Result(i.opcode, r[i.dst], i.imm, pad[MemIndex(r[i.src])]))
  {
    hide ExecAll, Agrees, Prepared, Selected, Finished, Combined, BinValue, PreOf, PostOf, Result, PadAt, MemIndex;
    var m, v := pad[MemIndex(r[i.src])], Combined(i, r[i.dst]);
    Wide(i.opcode);
    if i.opcode.IsMul() {
      MulValue(i, r[i.dst], m);
      ExecAppend(Selected(i.src), Prepared(i), s);
      ExecAppend(Selected(i.src) + Prepared(i), Finished(MUL, i.dst), s);
      SelectedRun(i.src, s, r, mp, pad);
      var t := s.(stack := Push(I64(m), s.stack));
      PreparedRun(i, t, r);
      var u := t.(stack := Push(I64(v), t.stack));
      FinishedRun(MUL, i.dst, u, m, v, s.stack);
    } else {
      OpsValue(i, r[i.dst], m);
      ExecAppend(Prepared(i), Selected(i.src), s);
      ExecAppend(Prepared(i) + Selected(i.src), Finished(PostOf(i.opcode), i.dst), s);
      PreparedRun(i, s, r);
      var t := s.(stack := Push(I64(v), s.stack));
      SelectedRun(i.src, t, r, mp, pad);
      var u := t.(stack := Push(I64(m), t.stack));
      FinishedRun(PostOf(i.opcode), i.dst, u, v, m, s.stack);
    }
  }

  /** The mode of the interpreter that the emitted code follows. */
  function ModeOf(mem: bool, pad: Scratchpad): Mode {
    if mem then MemMode(pad) else RegMode
  }

  /** One arithmetic instruction: the same registers as in the interpreter, and RMCG leaves
      its result in the flag. */
  lemma ArithSim(mem: bool, i: Instruction, s: State, r: Regs, mp: nat, pad: Scratchpad)
    requires (i.opcode.RMCG? || i.opcode.IsMul() || i.opcode.IsXas()) && s.Live? && Agrees(s.locals, r)
    requires mem ==> PadReady(s, mp, pad)
    ensures hide ExecAll, Ops, Arith, Agrees;
            var t := ExecAll(Ops(mem, i), s); var r' := Arith(i, ModeOf(mem, pad), r);
            && Same(s, t) && Agrees(t.locals, r')
            && t.locals[BF] == if i.opcode.RMCG? then I64(r'[i.dst]) else s.locals[BF]
  {
    hide ExecAll, Agrees, Rotated, Result, PadAt, MemIndex;
    var mode := ModeOf(mem, pad);
    var v := Result(i.opcode, r[i.dst], i.imm, if i.opcode.RMCG? then r[i.src] else Operand(mode, r, i.src));
    AgreesAt(s.locals, r, 0);
    if i.opcode.RMCG? {
      RotatedRun(i, s, r);
      AgreesTemp(s.locals[Home(i.dst) := I64(v)], r[i.dst := v], BF, I64(v)) by { AgreesWrite(s.locals, r, i.dst, v); }
    } else {
      hide Ops;
      AgreesWrite(s.locals, r, i.dst, v);
      if mem { MemOpsRun(i, s, r, mp, pad); } else { RegOpsRun(i, s, r); }
    }
  }
}
