/** The HashWX virtual machine: instructions, well-formed programs and the
    reference interpreter that every compiler is measured against. */
module Vm {
  import opened Words

  const PROGRAM_SIZE: nat := 10
  const NUM_PROGRAMS: nat := 32
  const REG_SIZE: nat := 10
  const MEM_SIZE: nat := 256
  const BRANCH_LIMIT: nat := 32

  datatype Opcode =
    | MULOR | MULXOR | MULADD
    | RMCG
    | XORROR | ADDROR | SUBROR
    | XORASR | ADDASR | SUBASR
    | XORLSR | ADDLSR | SUBLSR
    | BRANCH
    | HALT
  {
    /** The position of the opcode in the enumeration; the compilers do arithmetic on it. */
    function Num(): (n: nat)
      ensures n <= 14
    {
      match this
      case MULOR => 0
      case MULXOR => 1
      case MULADD => 2
      case RMCG => 3
      case XORROR => 4
      case ADDROR => 5
      case SUBROR => 6
      case XORASR => 7
      case ADDASR => 8
      case SUBASR => 9
      case XORLSR => 10
      case ADDLSR => 11
      case SUBLSR => 12
      case BRANCH => 13
      case HALT => 14
    }

    predicate IsMul() { MULOR? || MULXOR? || MULADD? }

    predicate IsXas() {
      || XORROR? || ADDROR? || SUBROR?
      || XORASR? || ADDASR? || SUBASR?
      || XORLSR? || ADDLSR? || SUBLSR?
    }
  }

  type RegIndex = n: int | 0 <= n < REG_SIZE

  /** An immediate fits in six bits, as every target encodes it. */
  type Imm = w: u32 | w < 64

  datatype Instruction = Instruction(opcode: Opcode, src: RegIndex, dst: RegIndex, imm: Imm)

  type Program = p: seq<Instruction> | |p| == PROGRAM_SIZE
    witness seq(PROGRAM_SIZE, _ => Instruction(HALT, 0, 0, 0))

  type Regs = r: seq<u64> | |r| == REG_SIZE witness seq(REG_SIZE, _ => 0)

  type Scratchpad = m: seq<u64> | |m| == MEM_SIZE witness seq(MEM_SIZE, _ => 0)

  // ----- well-formed programs -----

  predicate ImmOk(i: Instruction) {
    if i.opcode.IsMul() then i.imm == 1 || i.imm == 9 || i.imm == 33 else 1 <= i.imm
  }

  predicate Layout(p: Program) {
    && p[0].opcode == RMCG
    && p[1].opcode.IsXas() && p[2].opcode.IsMul()
    && p[3].opcode.IsXas() && p[4].opcode.IsMul()
    && p[5].opcode.IsXas() && p[6].opcode.IsMul()
    && p[7].opcode == BRANCH
    && p[8].opcode.IsXas()
    && p[9].opcode == HALT
  }

  predicate OperandOk(i: Instruction) {
    i.dst < 8 && i.src < 8 && i.src != i.dst && ImmOk(i)
  }

  predicate Differ(p: Program, i: nat, j: nat)
    requires i < PROGRAM_SIZE && j < PROGRAM_SIZE
  {
    p[i].dst != p[j].dst
  }

  /** The eight destinations are R0-R7 in some order. The trigger keeps the twenty-eight
      disequalities away from proofs that do not ask for them. */
  predicate DistinctDestinations(p: Program) {
    forall i, j {:trigger Differ(p, i, j)} :: 0 <= i < j <= 8 && i != 7 && j != 7 ==> Differ(p, i, j)
  }

  predicate OperandsOk(p: Program) {
    && p[0].dst < 8 && (p[0].src == 8 || p[0].src == 9) && ImmOk(p[0])
    && OperandOk(p[1]) && OperandOk(p[2]) && OperandOk(p[3])
    && OperandOk(p[4]) && OperandOk(p[5]) && OperandOk(p[6])
    && OperandOk(p[8])
    && DistinctDestinations(p)
  }

  /** The operands that no instruction may read, because a compiler computes the
      register early or late: see the AArch64 schedule. */
  predicate HazardFree(p: Program) {
    && p[1].src != p[0].dst
    && p[2].src != p[0].dst
    && p[3].src != p[0].dst && p[3].src != p[2].dst
    && p[5].src != p[4].dst
    && p[8].src != p[6].dst
  }

  /** What every emitter of native code relies on, whatever order it emits in. */
  predicate Compilable(p: Program) {
    Layout(p) && OperandsOk(p)
  }

  predicate WellFormed(p: Program) {
    Layout(p) && OperandsOk(p) && HazardFree(p)
  }

  // ----- the meaning of one instruction -----

  /** The operand is a register in the first phase and a scratchpad word in the second. */
  datatype Mode = RegMode | MemMode(mem: Scratchpad)

  function MemIndex(x: u64): (k: nat)
    ensures k < MEM_SIZE
  {
    ((x / 8) % 256) as nat
  }

  function Operand(mode: Mode, r: Regs, src: RegIndex): u64 {
    match mode
    case RegMode => r[src]
    case MemMode(mem) => mem[MemIndex(r[src])]
  }

  function Result(op: Opcode, d: u64, imm: Imm, s: u64): u64 {
    match op
    case MULOR => Mul(Or(d, imm as u64), s)
    case MULXOR => Mul(Xor(d, imm as u64), s)
    case MULADD => Mul(Add(d, imm as u64), s)
    case RMCG => Rotr(Mul(d, s), imm)
    case XORROR => Xor(Rotr(d, imm), s)
    case ADDROR => Add(Rotr(d, imm), s)
    case SUBROR => Sub(Rotr(d, imm), s)
    case XORASR => Xor(Asr(d, imm), s)
    case ADDASR => Add(Asr(d, imm), s)
    case SUBASR => Sub(Asr(d, imm), s)
    case XORLSR => Xor(Lsr(d, imm), s)
    case ADDLSR => Add(Lsr(d, imm), s)
    case SUBLSR => Sub(Lsr(d, imm), s)
    case BRANCH => d
    case HALT => d
  }

  /** The register file after one arithmetic instruction; RMCG always reads a register. */
  function Arith(i: Instruction, mode: Mode, r: Regs): Regs {
    var s := if i.opcode == RMCG then r[i.src] else Operand(mode, r, i.src);
    r[i.dst := Result(i.opcode, r[i.dst], i.imm, s)]
  }

  // ----- fetch and execute -----

  datatype VmState = VmState(r: Regs, bc: nat, flag: u32, ic: nat)

  /** The branch decision. */
  predicate Jumps(s: VmState) {
    s.bc != 0 && s.flag & 32 == 0
  }

  function VmStep(p: Program, mode: Mode, s: VmState): VmState
    requires s.ic < PROGRAM_SIZE
  {
    var i := p[s.ic];
    if i.opcode.BRANCH? then
      if Jumps(s) then s.(bc := s.bc - 1, ic := 0) else s.(ic := s.ic + 1)
    else if i.opcode.HALT? then s
    else
      var r := Arith(i, mode, s.r);
      VmState(r, s.bc, if i.opcode.RMCG? then Low32(r[i.dst]) else s.flag, s.ic + 1)
  }

  /** The state in which HALT is fetched. */
  function Run(p: Program, mode: Mode, s: VmState): (s': VmState)
    requires Layout(p) && s.ic < PROGRAM_SIZE
    ensures s'.ic == PROGRAM_SIZE - 1
    decreases s.bc, PROGRAM_SIZE - s.ic
  {
    hide Arith;
    if p[s.ic].opcode == HALT then s else Run(p, mode, VmStep(p, mode, s))
  }

  /** The number of instructions fetched up to and including HALT. */
  function Cost(p: Program, mode: Mode, s: VmState): nat
    requires Layout(p) && s.ic < PROGRAM_SIZE
    decreases s.bc, PROGRAM_SIZE - s.ic
  {
    hide Arith;
    if p[s.ic].opcode == HALT then 1 else 1 + Cost(p, mode, VmStep(p, mode, s))
  }

  // ----- whole passes over a program -----

  /** The registers after the seven instructions before BRANCH. */
  function Body(p: Program, mode: Mode, r: Regs): Regs {
    var r1 := Arith(p[1], mode, Arith(p[0], mode, r));
    var r3 := Arith(p[3], mode, Arith(p[2], mode, r1));
    var r5 := Arith(p[5], mode, Arith(p[4], mode, r3));
    Arith(p[6], mode, r5)
  }

  /** Whether BRANCH goes back, told from the register that RMCG wrote. */
  predicate Taken(p: Program, body: Regs, bc: nat) {
    bc != 0 && And(body[p[0].dst], 32) == 0
  }

  datatype Outcome = Outcome(r: Regs, bc: nat)

  /** A program, pass by pass. */
  function Passes(p: Program, mode: Mode, r: Regs, bc: nat): (o: Outcome)
    ensures o.bc <= bc
    decreases bc
  {
    var b := Body(p, mode, r);
    if Taken(p, b, bc) then Passes(p, mode, b, bc - 1) else Outcome(Arith(p[8], mode, b), bc)
  }

  /** The registers at the start of pass k, when the k branches before it are taken. */
  function AtPass(p: Program, mode: Mode, r: Regs, k: nat): Regs {
    if k == 0 then r else Body(p, mode, AtPass(p, mode, r, k - 1))
  }

  /** These are the passes of a run: after as many branches as it takes, what remains is the
      run from there. */
  lemma {:induction false} PassesFrom(p: Program, mode: Mode, r: Regs, bc: nat, k: nat)
    requires k <= bc - Passes(p, mode, r, bc).bc
    ensures Passes(p, mode, AtPass(p, mode, r, k), bc - k) == Passes(p, mode, r, bc)
  {
    hide Body, Arith, And;
    if k > 0 {
      PassesFrom(p, mode, r, bc, k - 1);
      var s := AtPass(p, mode, r, k - 1);
      assert Taken(p, Body(p, mode, s), bc - (k - 1));
    }
  }

  lemma LowBit5(a: u64)
    ensures Low32(a) & 32 == 0 <==> And(a, 32) == 0
  {
  }

  lemma ArithFrame(i: Instruction, mode: Mode, r: Regs, k: RegIndex)
    ensures k != i.dst ==> Arith(i, mode, r)[k] == r[k]
  {
    hide Result, Operand;
  }

  /** Of the instructions after RMCG, only the one that owns register k writes it. */
  lemma BodyFrame(p: Program, mode: Mode, r: Regs, k: RegIndex)
    requires p[1].dst != k && p[2].dst != k && p[3].dst != k && p[4].dst != k && p[5].dst != k && p[6].dst != k
    ensures Body(p, mode, r)[k] == Arith(p[0], mode, r)[k]
  {
    hide Arith;
    var r0 := Arith(p[0], mode, r);
    var r1 := Arith(p[1], mode, r0);
    var r2 := Arith(p[2], mode, r1);
    var r3 := Arith(p[3], mode, r2);
    var r4 := Arith(p[4], mode, r3);
    var r5 := Arith(p[5], mode, r4);
    ArithFrame(p[1], mode, r0, k);
    ArithFrame(p[2], mode, r1, k);
    ArithFrame(p[3], mode, r2, k);
    ArithFrame(p[4], mode, r3, k);
    ArithFrame(p[5], mode, r4, k);
    ArithFrame(p[6], mode, r5, k);
  }

  /** RMCG's result is still in its register when BRANCH is reached. */
  lemma BodyKeepsFlag(p: Program, mode: Mode, r: Regs)
    requires OperandsOk(p)
    ensures Body(p, mode, r)[p[0].dst] == Arith(p[0], mode, r)[p[0].dst]
  {
    hide Arith, Body;
    assert Differ(p, 0, 1) && Differ(p, 0, 2) && Differ(p, 0, 3) && Differ(p, 0, 4) && Differ(p, 0, 5)
      && Differ(p, 0, 6);
    BodyFrame(p, mode, r, p[0].dst);
  }

  lemma OneFetch(p: Program, mode: Mode, s: VmState)
    requires Layout(p) && s.ic < PROGRAM_SIZE - 1
    ensures var t := VmStep(p, mode, s);
            t.ic < PROGRAM_SIZE && Run(p, mode, s) == Run(p, mode, t) && Cost(p, mode, s) == 1 + Cost(p, mode, t)
  {
    hide Arith, Low32;
  }

  lemma StepShape(p: Program, mode: Mode, s: VmState)
    requires Layout(p) && s.ic < 7
    ensures var r := Arith(p[s.ic], mode, s.r);
            VmStep(p, mode, s) == VmState(r, s.bc, if s.ic == 0 then Low32(r[p[0].dst]) else s.flag, s.ic + 1)
  {
    hide Arith, Low32;
    var op := p[s.ic].opcode;
    assert !op.BRANCH? && !op.HALT? && (op.RMCG? <==> s.ic == 0);
  }

  lemma SevenFetches(p: Program, mode: Mode, s: VmState) returns (t: VmState)
    requires WellFormed(p) && s.ic == 0
    ensures t == VmState(Body(p, mode, s.r), s.bc, Low32(Body(p, mode, s.r)[p[0].dst]), 7)
    ensures Run(p, mode, s) == Run(p, mode, t) && Cost(p, mode, s) == 7 + Cost(p, mode, t)
  {
    hide VmStep, Arith, Low32, OperandsOk, HazardFree, Run, Cost;
    BodyKeepsFlag(p, mode, s.r);
    t := s;
    StepShape(p, mode, t); OneFetch(p, mode, t); t := VmStep(p, mode, t);
    StepShape(p, mode, t); OneFetch(p, mode, t); t := VmStep(p, mode, t);
    StepShape(p, mode, t); OneFetch(p, mode, t); t := VmStep(p, mode, t);
    StepShape(p, mode, t); OneFetch(p, mode, t); t := VmStep(p, mode, t);
    StepShape(p, mode, t); OneFetch(p, mode, t); t := VmStep(p, mode, t);
    StepShape(p, mode, t); OneFetch(p, mode, t); t := VmStep(p, mode, t);
    StepShape(p, mode, t); OneFetch(p, mode, t); t := VmStep(p, mode, t);
  }

  /** From the start of a program, eight fetches reach the state after BRANCH. */
  lemma {:induction false} OnePass(p: Program, mode: Mode, s: VmState)
    requires WellFormed(p) && s.ic == 0
    ensures hide Body; var b := Body(p, mode, s.r); var f := Low32(b[p[0].dst]);
            var next := if Taken(p, b, s.bc) then VmState(b, s.bc - 1, f, 0) else VmState(b, s.bc, f, 8);
            Run(p, mode, s) == Run(p, mode, next) && Cost(p, mode, s) == 8 + Cost(p, mode, next)
  {
    hide Arith, Low32, And, OperandsOk, HazardFree, Run, Cost;
    var s7 := SevenFetches(p, mode, s);
    LowBit5(s7.r[p[0].dst]);
    OneFetch(p, mode, s7);
  }

  /** The fetch-execute loop and the pass-by-pass reading agree, and a run fetches ten
      instructions plus eight for every branch it takes. */
  lemma {:induction false} RunIsPasses(p: Program, mode: Mode, s: VmState)
    requires WellFormed(p) && s.ic == 0
    ensures var o := Passes(p, mode, s.r, s.bc); var t := Run(p, mode, s);
            t.r == o.r && t.bc == o.bc && Cost(p, mode, s) == 10 + 8 * (s.bc - o.bc)
    decreases s.bc
  {
    hide Arith;
    OnePass(p, mode, s);
    var b := Body(p, mode, s.r);
    var f := Low32(b[p[0].dst]);
    if Taken(p, b, s.bc) {
      RunIsPasses(p, mode, VmState(b, s.bc - 1, f, 0));
    } else {
      var t := VmState(b, s.bc, f, 8);
      var u := VmStep(p, mode, t);
      assert u.ic == 9 && Run(p, mode, t) == Run(p, mode, u) == u;
      assert u.r == Arith(p[8], mode, b);
    }
  }
}
