/** The reference interpreter: fetch-execute loops that update the register file in place. */
module Interpreter {
  import opened Words
  import opened Vm
  import opened Phases

  /** HALT sits at the end of a program and nowhere else; a fetch there ends the run and
      a fetch elsewhere continues it. */
  lemma FetchRun(p: Program, mode: Mode, s: VmState)
    requires Layout(p) && s.ic < PROGRAM_SIZE
    ensures p[s.ic].opcode.HALT? <==> s.ic == PROGRAM_SIZE - 1
    ensures Run(p, mode, s) == if p[s.ic].opcode.HALT? then s else Run(p, mode, VmStep(p, mode, s))
  {
    hide Arith, Low32;
  }

  /** Runs a program whose operands are registers; returns what is left of the
      branch budget. */
  method ProgramExecuteReg(program: Program, r: array<u64>, branchCounter: nat) returns (bc: nat)
    requires r.Length == REG_SIZE
    requires WellFormed(program)
    modifies r
    ensures var o := Passes(program, RegMode, old(r[..]), branchCounter); r[..] == o.r && bc == o.bc
  {
    hide Result, MemIndex, Body, And, Low32, OperandsOk, HazardFree, Layout, Run, Cost, Passes;
    ghost var mode := RegMode;
    ghost var start := VmState(r[..], branchCounter, 0, 0);
    RunIsPasses(program, mode, start);
    var branchFlag: u32 := 0;
    var ic := 0;
    bc := branchCounter;
    while true
      invariant ic < PROGRAM_SIZE
      invariant Run(program, mode, VmState(r[..], bc, branchFlag, ic)) == Run(program, mode, start)
      decreases bc, PROGRAM_SIZE - ic
    {
      ghost var s := VmState(r[..], bc, branchFlag, ic);
      FetchRun(program, mode, s);
      var instr := program[ic];
      ic := ic + 1;
      match instr.opcode {
        case HALT =>
          return;
        case BRANCH =>
          if bc != 0 && branchFlag & 32 == 0 {
            bc := bc - 1;
            ic := 0;
          }
        case RMCG =>
          var temp := Result(instr.opcode, r[instr.dst], instr.imm, r[instr.src]);
          r[instr.dst] := temp;
          branchFlag := Low32(temp);
        case _ =>
          r[instr.dst] := Result(instr.opcode, r[instr.dst], instr.imm, r[instr.src]);
      }
      assert VmState(r[..], bc, branchFlag, ic) == VmStep(program, mode, s);
    }
  }

  /** Runs a program whose operands are scratchpad words; returns what is left of the
      branch budget. */
  method ProgramExecuteMem(program: Program, r: array<u64>, branchCounter: nat, mem: array<u64>) returns (bc: nat)
    requires r.Length == REG_SIZE && mem.Length == MEM_SIZE && mem != r
    requires WellFormed(program)
    modifies r
    ensures var o := Passes(program, MemMode(mem[..]), old(r[..]), branchCounter); r[..] == o.r && bc == o.bc
  {
    hide Result, MemIndex, Body, And, Low32, OperandsOk, HazardFree, Layout, Run, Cost, Passes;
    ghost var mode := MemMode(mem[..]);
    ghost var start := VmState(r[..], branchCounter, 0, 0);
    RunIsPasses(program, mode, start);
    var branchFlag: u32 := 0;
    var ic := 0;
    bc := branchCounter;
    while true
      invariant ic < PROGRAM_SIZE
      invariant Run(program, mode, VmState(r[..], bc, branchFlag, ic)) == Run(program, mode, start)
      decreases bc, PROGRAM_SIZE - ic
    {
      ghost var s := VmState(r[..], bc, branchFlag, ic);
      FetchRun(program, mode, s);
      var instr := program[ic];
      ic := ic + 1;
      match instr.opcode {
        case HALT =>
          return;
        case BRANCH =>
          if bc != 0 && branchFlag & 32 == 0 {
            bc := bc - 1;
            ic := 0;
          }
        case RMCG =>
          var temp := Result(instr.opcode, r[instr.dst], instr.imm, r[instr.src]);
          r[instr.dst] := temp;
          branchFlag := Low32(temp);
        case _ =>
          r[instr.dst] := Result(instr.opcode, r[instr.dst], instr.imm, mem[MemIndex(r[instr.src])]);
      }
      assert VmState(r[..], bc, branchFlag, ic) == VmStep(program, mode, s);
    }
  }

  /** Runs both phases over the register file. */
  method ProgramListExecute(programs: ProgramList, r: array<u64>)
    requires r.Length == REG_SIZE && AllWellFormed(programs)
    modifies r
    ensures r[..] == Execute(programs, old(r[..]))
  {
    hide Passes, WellFormed;
    ghost var start := r[..];
    var branchCounter := BRANCH_LIMIT;
    var mem := new u64[MEM_SIZE];
    ghost var before := mem[..];
    for i := 0 to NUM_PROGRAMS
      invariant Phase(r[..], branchCounter, mem[..]) == WritePhase(programs, i, start, before)
    {
      branchCounter := ProgramExecuteReg(programs[i], r, branchCounter);
      ghost var held := mem[..];
      for j := 0 to 8
        invariant r[..] == Passes(programs[i], RegMode, WritePhase(programs, i, start, before).r,
                                  WritePhase(programs, i, start, before).bc).r
        invariant forall k :: 0 <= k < MEM_SIZE ==>
                    mem[k] == if MEM_SIZE - 8 * i - j <= k < MEM_SIZE - 8 * i then r[MEM_SIZE - 1 - 8 * i - k] else held[k]
      {
        mem[MEM_SIZE - 1 - 8 * i - j] := r[j];
      }
      assert mem[..] == Dump(held, i, r[..]);
    }
    BlankIsEnough(programs, NUM_PROGRAMS, start, before, Blank());
    branchCounter := BRANCH_LIMIT;
    ghost var w := WritePhase(programs, NUM_PROGRAMS, start, Blank());
    for i := 0 to NUM_PROGRAMS
      invariant mem[..] == w.mem
      invariant Outcome(r[..], branchCounter) == ReadPhase(programs, i, w.r, w.mem)
    {
      branchCounter := ProgramExecuteMem(programs[i], r, branchCounter, mem);
    }
  }
}
