/** The two phases of a HashWX evaluation: a list of programs fills the scratchpad,
    then the same programs read their operands from it. */
module Phases {
  import opened Words
  import opened Vm

  type ProgramList = l: seq<Program> | |l| == NUM_PROGRAMS
    witness seq(NUM_PROGRAMS, _ => seq(PROGRAM_SIZE, _ => Instruction(HALT, 0, 0, 0)))

  predicate AllWellFormed(l: ProgramList) {
    forall i :: 0 <= i < NUM_PROGRAMS ==> WellFormed(l[i])
  }

  /** The cell that receives Rj after program i. */
  function Cell(i: nat, j: nat): (k: nat)
    requires i < NUM_PROGRAMS && j < 8
    ensures k < MEM_SIZE
  {
    MEM_SIZE - 1 - 8 * i - j
  }

  /** R0-R7 stored as the block that belongs to program i. */
  function Dump(mem: Scratchpad, i: nat, r: Regs): Scratchpad
    requires i < NUM_PROGRAMS
  {
    seq(MEM_SIZE, k requires 0 <= k < MEM_SIZE =>
      if MEM_SIZE - 8 * i - 8 <= k < MEM_SIZE - 8 * i then r[MEM_SIZE - 1 - 8 * i - k] else mem[k])
  }

  datatype Phase = Phase(r: Regs, bc: nat, mem: Scratchpad)

  /** The state after the first n programs of the writing phase. */
  function WritePhase(l: ProgramList, n: nat, r: Regs, mem: Scratchpad): (s: Phase)
    requires n <= NUM_PROGRAMS
    ensures s.bc <= BRANCH_LIMIT
  {
    if n == 0 then Phase(r, BRANCH_LIMIT, mem)
    else
      var s := WritePhase(l, n - 1, r, mem);
      var o := Passes(l[n - 1], RegMode, s.r, s.bc);
      Phase(o.r, o.bc, Dump(s.mem, n - 1, o.r))
  }

  /** The outcome of the first n programs of the reading phase. */
  function ReadPhase(l: ProgramList, n: nat, r: Regs, mem: Scratchpad): (o: Outcome)
    requires n <= NUM_PROGRAMS
    ensures o.bc <= BRANCH_LIMIT
  {
    if n == 0 then Outcome(r, BRANCH_LIMIT)
    else
      var o := ReadPhase(l, n - 1, r, mem);
      Passes(l[n - 1], MemMode(mem), o.r, o.bc)
  }

  /** What the scratchpad held before is irrelevant, so any value stands for it. */
  function Blank(): Scratchpad {
    seq(MEM_SIZE, _ => 0)
  }

  function Execute(l: ProgramList, r: Regs): Regs {
    var w := WritePhase(l, NUM_PROGRAMS, r, Blank());
    ReadPhase(l, NUM_PROGRAMS, w.r, w.mem).r
  }

  // ----- scratchpad layout -----

  /** Distinct pairs of program and register use distinct cells, and every cell is used. */
  lemma CellsPartition(k: nat)
    requires k < MEM_SIZE
    ensures var i := (MEM_SIZE - 1 - k) / 8; var j := (MEM_SIZE - 1 - k) % 8;
            && i < NUM_PROGRAMS && Cell(i, j) == k
            && forall i', j' :: 0 <= i' < NUM_PROGRAMS && 0 <= j' < 8 && Cell(i', j') == k ==> i' == i && j' == j
  {
  }

  /** The writing phase leaves in every cell the register of the program it belongs to,
      whatever the scratchpad held before. */
  lemma {:induction false} ScratchpadImage(l: ProgramList, n: nat, r: Regs, mem: Scratchpad, i: nat, j: nat)
    requires i < n <= NUM_PROGRAMS && j < 8
    ensures WritePhase(l, n, r, mem).mem[Cell(i, j)] == WritePhase(l, i + 1, r, mem).r[j]
  {
    hide Passes;
    if i + 1 < n {
      ScratchpadImage(l, n - 1, r, mem, i, j);
    }
  }

  /** The earlier content of the scratchpad influences neither the registers nor, after
      the last program, the scratchpad. */
  lemma {:induction false} BlankIsEnough(l: ProgramList, n: nat, r: Regs, m1: Scratchpad, m2: Scratchpad)
    requires n <= NUM_PROGRAMS
    ensures var s1 := WritePhase(l, n, r, m1); var s2 := WritePhase(l, n, r, m2);
            && s1.r == s2.r && s1.bc == s2.bc
            && (forall k :: MEM_SIZE - 8 * n <= k < MEM_SIZE ==> s1.mem[k] == s2.mem[k])
            && (n == NUM_PROGRAMS ==> s1.mem == s2.mem)
  {
    hide Passes;
    if n > 0 {
      BlankIsEnough(l, n - 1, r, m1, m2);
    }
  }

  // ----- cost -----

  /** The instructions fetched by the first n programs of the writing phase. */
  function WriteCost(l: ProgramList, n: nat, r: Regs): nat
    requires n <= NUM_PROGRAMS && AllWellFormed(l)
  {
    if n == 0 then 0
    else
      var s := WritePhase(l, n - 1, r, Blank());
      WriteCost(l, n - 1, r) + Cost(l[n - 1], RegMode, VmState(s.r, s.bc, 0, 0))
  }

  function ReadCost(l: ProgramList, n: nat, r: Regs, mem: Scratchpad): nat
    requires n <= NUM_PROGRAMS && AllWellFormed(l)
  {
    if n == 0 then 0
    else
      var o := ReadPhase(l, n - 1, r, mem);
      ReadCost(l, n - 1, r, mem) + Cost(l[n - 1], MemMode(mem), VmState(o.r, o.bc, 0, 0))
  }

  /** n programs fetch exactly ten instructions each and eight more for every branch
      taken; the branch budget caps both phases at 576. */
  lemma {:induction false} WriteCostExact(l: ProgramList, n: nat, r: Regs)
    requires n <= NUM_PROGRAMS && AllWellFormed(l)
    ensures WriteCost(l, n, r) == 10 * n + 8 * (BRANCH_LIMIT - WritePhase(l, n, r, Blank()).bc) <= 576
  {
    hide Passes, Cost, WellFormed;
    if n > 0 {
      WriteCostExact(l, n - 1, r);
      var s := WritePhase(l, n - 1, r, Blank());
      RunIsPasses(l[n - 1], RegMode, VmState(s.r, s.bc, 0, 0));
    }
  }

  lemma {:induction false} ReadCostExact(l: ProgramList, n: nat, r: Regs, mem: Scratchpad)
    requires n <= NUM_PROGRAMS && AllWellFormed(l)
    ensures ReadCost(l, n, r, mem) == 10 * n + 8 * (BRANCH_LIMIT - ReadPhase(l, n, r, mem).bc) <= 576
  {
    hide Passes, Cost, WellFormed;
    if n > 0 {
      ReadCostExact(l, n - 1, r, mem);
      var o := ReadPhase(l, n - 1, r, mem);
      RunIsPasses(l[n - 1], MemMode(mem), VmState(o.r, o.bc, 0, 0));
    }
  }

  // ----- the read-only registers -----

  lemma {:induction false} PassKeepsMultiplier(p: Program, mode: Mode, r: Regs, k: nat, j: RegIndex)
    requires OperandsOk(p) && j >= 8
    ensures AtPass(p, mode, r, k)[j] == r[j]
  {
    hide Arith, Body, DistinctDestinations, ImmOk;
    if k > 0 {
      PassKeepsMultiplier(p, mode, r, k - 1, j);
      BodyFrame(p, mode, AtPass(p, mode, r, k - 1), j);
      ArithFrame(p[0], mode, AtPass(p, mode, r, k - 1), j);
    }
  }

  lemma {:induction false} PassesKeepMultiplier(p: Program, mode: Mode, r: Regs, bc: nat, k: RegIndex)
    requires OperandsOk(p) && k >= 8
    ensures Passes(p, mode, r, bc).r[k] == r[k]
    decreases bc
  {
    hide Arith, Body, And;
    var b := Body(p, mode, r);
    BodyFrame(p, mode, r, k);
    ArithFrame(p[0], mode, r, k);
    if Taken(p, b, bc) {
      PassesKeepMultiplier(p, mode, b, bc - 1, k);
    } else {
      ArithFrame(p[8], mode, b, k);
    }
  }

  /** No run ever writes R8 or R9. */
  lemma {:induction false} WriteKeepsMultiplier(l: ProgramList, n: nat, r: Regs, mem: Scratchpad, k: RegIndex)
    requires n <= NUM_PROGRAMS && k >= 8 && AllWellFormed(l)
    ensures WritePhase(l, n, r, mem).r[k] == r[k]
  {
    hide Passes, OperandsOk;
    if n > 0 {
      WriteKeepsMultiplier(l, n - 1, r, mem, k);
      var s := WritePhase(l, n - 1, r, mem);
      PassesKeepMultiplier(l[n - 1], RegMode, s.r, s.bc, k);
    }
  }

  lemma {:induction false} ReadKeepsMultiplier(l: ProgramList, n: nat, r: Regs, mem: Scratchpad, k: RegIndex)
    requires n <= NUM_PROGRAMS && k >= 8 && AllWellFormed(l)
    ensures ReadPhase(l, n, r, mem).r[k] == r[k]
  {
    hide Passes, OperandsOk;
    if n > 0 {
      ReadKeepsMultiplier(l, n - 1, r, mem, k);
      var o := ReadPhase(l, n - 1, r, mem);
      PassesKeepMultiplier(l[n - 1], MemMode(mem), o.r, o.bc, k);
    }
  }

  lemma ExecuteRegs(l: ProgramList, r: Regs)
    requires AllWellFormed(l)
    ensures var w := WritePhase(l, NUM_PROGRAMS, r, Blank());
            && Execute(l, r) == ReadPhase(l, NUM_PROGRAMS, w.r, w.mem).r
            && Execute(l, r)[8] == r[8] && Execute(l, r)[9] == r[9]
  {
    hide WritePhase, ReadPhase, WellFormed;
    var w := WritePhase(l, NUM_PROGRAMS, r, Blank());
    WriteKeepsMultiplier(l, NUM_PROGRAMS, r, Blank(), 8);
    WriteKeepsMultiplier(l, NUM_PROGRAMS, r, Blank(), 9);
    ReadKeepsMultiplier(l, NUM_PROGRAMS, w.r, w.mem, 8);
    ReadKeepsMultiplier(l, NUM_PROGRAMS, w.r, w.mem, 9);
  }
}
