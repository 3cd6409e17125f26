/** The AArch64 back end is correct: calling the emitted function on a register file in
    memory leaves there what the interpreter computes. */
module A64Correct {
  import opened Wrappers
  import opened Words
  import opened Vm
  import opened Phases
  import opened Budget
  import opened Slices
  import opened Stack
  import opened A64Machine
  import opened A64Compiler
  import opened A64Decode
  import opened A64Emitted
  import opened A64Simulation
  import opened A64Program

  // ----- where the code of each program lies -----

  const FIRST: nat := 9
  const SECOND: nat := 842
  const LAST: nat := 1930
  const TOTAL: nat := 1936

  predicate Compiled(code: seq<u32>, l: ProgramList)
    requires AllWellFormed(l)
  {
    |code| >= TOTAL && code[..TOTAL] == ListCode(l)
  }

  lemma {:induction false} RegCodesAt(l: ProgramList, n: nat, i: nat)
    requires AllWellFormed(l) && i < n <= NUM_PROGRAMS
    ensures RegCodes(l, n)[REG_WORDS * i..REG_WORDS * i + REG_WORDS] == RegCode(l[i])
  {
    hide RegCode, OperandsOk, HazardFree, Layout;
    var c := RegCodes(l, n);
    if i + 1 < n {
      RegCodesAt(l, n - 1, i);
      assert c[REG_WORDS * i..REG_WORDS * i + REG_WORDS] == RegCodes(l, n - 1)[REG_WORDS * i..REG_WORDS * i + REG_WORDS];
    }
  }

  lemma {:induction false} MemCodesAt(l: ProgramList, n: nat, i: nat)
    requires AllWellFormed(l) && i < n <= NUM_PROGRAMS
    ensures MemCodes(l, n)[MEM_WORDS * i..MEM_WORDS * i + MEM_WORDS] == MemCode(l[i])
  {
    hide MemCode, OperandsOk, HazardFree, Layout;
    var c := MemCodes(l, n);
    if i + 1 < n {
      MemCodesAt(l, n - 1, i);
      assert c[MEM_WORDS * i..MEM_WORDS * i + MEM_WORDS] == MemCodes(l, n - 1)[MEM_WORDS * i..MEM_WORDS * i + MEM_WORDS];
    }
  }

  /** Program i of the writing phase starts at word 9 + 26 i. */
  lemma RegCodeAt(code: seq<u32>, l: ProgramList, i: nat)
    requires AllWellFormed(l) && Compiled(code, l) && i < NUM_PROGRAMS
    ensures CodeAt(code, FIRST + REG_WORDS * i, RegCode(l[i]))
  {
    hide RegCode, MemCode, OperandsOk, HazardFree, Layout, RegCodes, MemCodes, Prologue, Epilogue, ClearBc;
    RegCodesAt(l, NUM_PROGRAMS, i);
    var c := ListCode(l);
    assert c[FIRST..FIRST + REG_WORDS * NUM_PROGRAMS] == RegCodes(l, NUM_PROGRAMS);
    SliceOfSlice(c, FIRST, FIRST + REG_WORDS * NUM_PROGRAMS, REG_WORDS * i, REG_WORDS * i + REG_WORDS);
    var pc := FIRST + REG_WORDS * i;
    assert code[0..TOTAL] == code[..TOTAL] == c;
    SliceOfSlice(code, 0, TOTAL, pc, pc + REG_WORDS);
  }

  /** Program i of the reading phase starts at word 842 + 34 i. */
  lemma MemCodeAt(code: seq<u32>, l: ProgramList, i: nat)
    requires AllWellFormed(l) && Compiled(code, l) && i < NUM_PROGRAMS
    ensures CodeAt(code, SECOND + MEM_WORDS * i, MemCode(l[i]))
  {
    hide RegCode, MemCode, OperandsOk, HazardFree, Layout, RegCodes, MemCodes, Prologue, Epilogue, ClearBc;
    MemCodesAt(l, NUM_PROGRAMS, i);
    var c := ListCode(l);
    assert c[SECOND..SECOND + MEM_WORDS * NUM_PROGRAMS] == MemCodes(l, NUM_PROGRAMS);
    SliceOfSlice(c, SECOND, SECOND + MEM_WORDS * NUM_PROGRAMS, MEM_WORDS * i, MEM_WORDS * i + MEM_WORDS);
    var pc := SECOND + MEM_WORDS * i;
    assert code[0..TOTAL] == code[..TOTAL] == c;
    SliceOfSlice(code, 0, TOTAL, pc, pc + MEM_WORDS);
  }

  lemma EdgesAt(code: seq<u32>, l: ProgramList)
    requires AllWellFormed(l) && Compiled(code, l)
    ensures CodeAt(code, 0, Prologue()) && CodeAt(code, SECOND - 1, [ClearBc()]) && CodeAt(code, LAST, Epilogue())
  {
    hide RegCode, MemCode, OperandsOk, HazardFree, Layout, RegCodes, MemCodes, Prologue, Epilogue, ClearBc;
    var c := ListCode(l);
    assert c[0..9] == Prologue() && c[SECOND - 1..SECOND] == [ClearBc()] && c[LAST..TOTAL] == Epilogue();
    assert code[0..9] == c[0..9] && code[SECOND - 1..SECOND] == c[SECOND - 1..SECOND]
      && code[LAST..TOTAL] == c[LAST..TOTAL];
  }

  // ----- the scratchpad on the stack -----

  lemma StoredCells(mem: Memory, sp: int, r: Regs, j: nat)
    requires Room(mem, sp) && j < 8
    ensures sp + 8 * j in Stored(mem, sp, r) && Stored(mem, sp, r).Keys == mem.Keys
              && Stored(mem, sp, r)[sp + 8 * j] == r[7 - j]
  {
    assert sp + 8 * 0 in mem && sp + 8 * 1 in mem && sp + 8 * 2 in mem && sp + 8 * 3 in mem;
    assert sp + 8 * 4 in mem && sp + 8 * 5 in mem && sp + 8 * 6 in mem && sp + 8 * 7 in mem;
    match j
    case 0 => case 1 => case 2 => case 3 => case 4 => case 5 => case 6 => case 7 =>
  }

  lemma StoredElsewhere(mem: Memory, sp: int, r: Regs, a: int)
    requires Room(mem, sp) && a in mem && (a < sp || sp + 64 <= a)
    ensures a in Stored(mem, sp, r) && Stored(mem, sp, r)[a] == mem[a]
  {
  }

  lemma StoredSpills(mem: Memory, sp: int, r: Regs)
    requires Room(mem, sp)
    ensures Spilled(mem, Stored(mem, sp, r), sp, r)
  {
    hide Stored, Room;
    var m := Stored(mem, sp, r);
    StoredCells(mem, sp, r, 0);
    forall j | 0 <= j < 8 ensures sp + 8 * j in m && m[sp + 8 * j] == r[7 - j] {
      StoredCells(mem, sp, r, j);
    }
    forall a | a in mem && (a < sp || sp + 64 <= a) ensures m[a] == mem[a] {
      StoredElsewhere(mem, sp, r, a);
    }
  }

  // ----- the writing phase -----

  /** After n programs. */
  predicate Writing(s: State, t: State, base: int, n: nat, w: Phase)
    requires n <= NUM_PROGRAMS && w.bc <= BRANCH_LIMIT
  {
    && s.Live? && t.Live? && t.sp == base + 64 * (NUM_PROGRAMS - n)
    && Agrees(t.x, w.r) && t.x[9] == Counter(w.bc) && t.x[8] == s.x[8]
    && Outside(s.mem, t.mem, base)
    && Filled(t.mem, base, w.mem, MEM_SIZE - 8 * n)
  }

  lemma ReserveStep(code: seq<u32>, pc: nat, s: State)
    requires CodeAt(code, pc, [Reserve()]) && s.Live?
    ensures Steps(code, Running(pc, s), 1) == Running(pc + 1, s.(sp := s.sp - 64))
  {
    hide Decode, Fetch, CodeAt;
    BranchCodeDecodes();
    FetchAt(code, pc, [Reserve()], 0);
    assert Fetch(code, pc + 0) == Some(SubSp(64));
  }

  /** One program of the writing phase. */
  lemma WriteProgram(code: seq<u32>, pc: nat, p: Program, s: State, r: Regs, bc: nat) returns (t: State)
    requires WellFormed(p) && CodeAt(code, pc, RegCode(p))
    requires s.Live? && Agrees(s.x, r) && bc <= BRANCH_LIMIT && s.x[9] == Counter(bc) && Room(s.mem, s.sp - 64)
    ensures var o := Passes(p, RegMode, r, bc);
            && t.Live? && t.sp == s.sp - 64 && t.mem == Stored(s.mem, t.sp, o.r) && t.x[8] == s.x[8]
            && Agrees(t.x, o.r) && t.x[9] == Counter(o.bc)
            && Steps(code, Running(pc, s), REG_WORDS + 19 * (bc - o.bc)) == Running(pc + REG_WORDS, t)
  {
    hide RegLoop, RegTail, CodeAt, BeqWord, OperandsOk, HazardFree, Layout, Room, Stored, Passes;
    hide Steps, Step, Agrees, Counter, Reserve;
    var rest := RegLoop(p) + [BeqWord(18, 0)] + RegTail(p);
    assert RegCode(p) == [Reserve()] + rest;
    CodeAtPart(code, pc, [Reserve()], rest);
    ReserveStep(code, pc, s);
    var u := s.(sp := s.sp - 64);
    t := RegRun(code, pc + 1, p, u, r, bc);
    StepsAdd(code, Running(pc, s), 1, 25 + 19 * (bc - Passes(p, RegMode, r, bc).bc));
  }

  lemma {:induction false} WritePrograms(code: seq<u32>, l: ProgramList, n: nat, s: State, r: Regs, base: int)
    returns (t: State)
    requires AllWellFormed(l) && Compiled(code, l) && n <= NUM_PROGRAMS
    requires s.Live? && Agrees(s.x, r) && s.x[9] == Counter(BRANCH_LIMIT)
    requires s.sp == base + 8 * MEM_SIZE && Owns(s.mem, base)
    ensures var w := WritePhase(l, n, r, Blank());
            && Writing(s, t, base, n, w)
            && Steps(code, Running(FIRST, s), REG_WORDS * n + 19 * (BRANCH_LIMIT - w.bc))
               == Running(FIRST + REG_WORDS * n, t)
    decreases n
  {
    hide Steps, Step, Agrees, Counter, Passes, Compiled, CodeAt, RegCode, OperandsOk, HazardFree, Layout;
    hide Filled, Outside, Owns, Room, Stored, Spilled, Dump;
    var w := WritePhase(l, n, r, Blank());
    if n == 0 {
      t := s;
      StepsZero(code, Running(FIRST, s));
      NothingWritten(s.mem, base, w.mem);
    } else {
      var u := WritePrograms(code, l, n - 1, s, r, base);
      var v := WritePhase(l, n - 1, r, Blank());
      var o := Passes(l[n - 1], RegMode, v.r, v.bc);
      RoomBelow(s.mem, u.mem, base, n - 1);
      RegCodeAt(code, l, n - 1);
      t := WriteProgram(code, FIRST + REG_WORDS * (n - 1), l[n - 1], u, v.r, v.bc);
      StoredSpills(u.mem, t.sp, o.r);
      SpillFills(s.mem, u.mem, t.mem, base, v.mem, n - 1, o.r);
      StepsAdd(code, Running(FIRST, s), REG_WORDS * (n - 1) + 19 * (BRANCH_LIMIT - v.bc), REG_WORDS + 19 * (v.bc - o.bc));
    }
  }

  // ----- the reading phase -----

  predicate Reading(s: State, t: State, o: Outcome)
    requires o.bc <= BRANCH_LIMIT
  {
    && s.Live? && t.Live? && t.sp == s.sp && t.mem == s.mem && t.x[8] == s.x[8]
    && Agrees(t.x, o.r) && t.x[9] == Counter(o.bc)
  }

  lemma {:induction false} ReadPrograms(code: seq<u32>, l: ProgramList, n: nat, s: State, r: Regs, pad: Scratchpad)
    returns (t: State)
    requires AllWellFormed(l) && Compiled(code, l) && n <= NUM_PROGRAMS
    requires s.Live? && Agrees(s.x, r) && s.x[9] == Counter(BRANCH_LIMIT) && PadAt(s.mem, s.sp, pad)
    ensures var o := ReadPhase(l, n, r, pad);
            && Reading(s, t, o)
            && Steps(code, Running(SECOND, s), MEM_WORDS * n + 32 * (BRANCH_LIMIT - o.bc))
               == Running(SECOND + MEM_WORDS * n, t)
    decreases n
  {
    hide Steps, Step, Agrees, Counter, Passes, Compiled, CodeAt, MemCode, OperandsOk, HazardFree, Layout, PadAt;
    if n == 0 {
      t := s;
      StepsZero(code, Running(SECOND, s));
    } else {
      var u := ReadPrograms(code, l, n - 1, s, r, pad);
      var v := ReadPhase(l, n - 1, r, pad);
      var o := Passes(l[n - 1], MemMode(pad), v.r, v.bc);
      MemCodeAt(code, l, n - 1);
      t := MemRun(code, SECOND + MEM_WORDS * (n - 1), l[n - 1], u, v.r, v.bc, pad);
      StepsAdd(code, Running(SECOND, s), MEM_WORDS * (n - 1) + 32 * (BRANCH_LIMIT - v.bc), MEM_WORDS + 32 * (v.bc - o.bc));
    }
  }

  /** Between the phases the counter is cleared. */
  lemma ClearStep(code: seq<u32>, pc: nat, s: State, r: Regs)
    requires CodeAt(code, pc, [ClearBc()]) && s.Live? && Agrees(s.x, r)
    ensures var t := s.(x := s.x[9 := 0]);
            Agrees(t.x, r) && t.x[9] == Counter(BRANCH_LIMIT) && Steps(code, Running(pc, s), 1) == Running(pc + 1, t)
  {
    AgreesTemp(s.x, r, 9, 0);
    CounterStart();
    hide Decode, Fetch, CodeAt, Agrees, Counter, ClearBc;
    BranchCodeDecodes();
    FetchAt(code, pc, [ClearBc()], 0);
    assert Fetch(code, pc + 0) == Some(Movz(9, 0));
  }

  // ----- entry and exit -----

  function PrologueIsns(): (b: seq<Isn>) {
    [ Ldp(12, 13, 0, 64), Mov(8, 0), Ldp(6, 7, 0, 48), Ldp(4, 5, 0, 32), Ldp(2, 3, 0, 16), Ldp(0, 1, 0, 0),
      Movz(9, 0), Movz(10, 9), Movz(11, 33) ]
  }

  lemma PrologueEncodes()
    ensures Encodes(Prologue(), PrologueIsns())
  {
    hide Decode, Prologue;
    PrologueDecodes();
  }

  lemma LoadTwo(s: State, rt: Reg, rt2: Reg, rn: Reg, j: nat, r: Regs)
    requires s.Live? && RegsAt(s.mem, Address(s.x[rn]), r) && j < 9
    ensures Exec(Ldp(rt, rt2, rn, 8 * j), s) == s.(x := s.x[rt := r[j]][rt2 := r[j + 1]])
  {
    hide Address;
    var a := Address(s.x[rn]);
    assert a + 8 * j in s.mem && a + 8 * (j + 1) in s.mem;
  }

  lemma MovExec(s: State, rd: Reg, rm: Reg)
    requires s.Live?
    ensures Exec(Mov(rd, rm), s) == s.(x := s.x[rd := s.x[rm]])
  {
  }

  lemma MovzExec(s: State, rd: Reg, imm: u64)
    requires s.Live?
    ensures Exec(Movz(rd, imm), s) == s.(x := s.x[rd := imm])
  {
  }

  lemma PrologueHigh(s: State, r: Regs)
    requires s.Live? && RegsAt(s.mem, Address(s.x[0]), r)
    ensures var t := Block([Ldp(12, 13, 0, 64), Mov(8, 0), Ldp(6, 7, 0, 48), Ldp(4, 5, 0, 32)], s);
            && t.Live? && t.sp == s.sp && t.mem == s.mem && t.x[8] == s.x[0] && t.x[0] == s.x[0]
            && t.x[12] == r[8] && t.x[13] == r[9]
            && t.x[4] == r[4] && t.x[5] == r[5] && t.x[6] == r[6] && t.x[7] == r[7]
  {
    hide Block, Exec, RegsAt, Address;
    var a, b, c, d := Ldp(12, 13, 0, 64), Mov(8, 0), Ldp(6, 7, 0, 48), Ldp(4, 5, 0, 32);
    Block4(a, b, c, d, s);
    LoadTwo(s, 12, 13, 0, 8, r);
    MovExec(Exec(a, s), 8, 0);
    LoadTwo(Exec(b, Exec(a, s)), 6, 7, 0, 6, r);
    LoadTwo(Exec(c, Exec(b, Exec(a, s))), 4, 5, 0, 4, r);
  }

  lemma PrologueLow(s: State, r: Regs)
    requires s.Live? && RegsAt(s.mem, Address(s.x[0]), r)
    ensures Block([Ldp(2, 3, 0, 16), Ldp(0, 1, 0, 0)], s)
            == s.(x := s.x[2 := r[2]][3 := r[3]][0 := r[0]][1 := r[1]])
  {
    hide Block, Exec, RegsAt, Address;
    Block2(Ldp(2, 3, 0, 16), Ldp(0, 1, 0, 0), s);
    LoadTwo(s, 2, 3, 0, 2, r);
    LoadTwo(Exec(Ldp(2, 3, 0, 16), s), 0, 1, 0, 0, r);
  }

  lemma PrologueConstants(s: State)
    requires s.Live?
    ensures Block([Movz(9, 0), Movz(10, 9), Movz(11, 33)], s) == s.(x := s.x[9 := 0][10 := 9][11 := 33])
  {
    hide Block, Exec;
    assert [Movz(9, 0), Movz(10, 9), Movz(11, 33)] == [Movz(9, 0)] + [Movz(10, 9), Movz(11, 33)];
    BlockAppend([Movz(9, 0)], [Movz(10, 9), Movz(11, 33)], s);
    Block1(Movz(9, 0), s);
    MovzExec(s, 9, 0);
    var t := Exec(Movz(9, 0), s);
    Block2(Movz(10, 9), Movz(11, 33), t);
    MovzExec(t, 10, 9);
    MovzExec(Exec(Movz(10, 9), t), 11, 33);
  }

  /** On entry x0 points to the register file. */
  lemma PrologueSim(s: State, r: Regs)
    requires s.Live? && RegsAt(s.mem, Address(s.x[0]), r)
    ensures hide Block, RegsAt, Address, Counter;
            var t := Block(PrologueIsns(), s);
            && t.Live? && t.sp == s.sp && t.mem == s.mem && t.x[8] == s.x[0]
            && Agrees(t.x, r) && t.x[9] == Counter(BRANCH_LIMIT)
  {
    hide Block, Exec, RegsAt, Address, Counter;
    CounterStart();
    var a, b := [Ldp(12, 13, 0, 64), Mov(8, 0), Ldp(6, 7, 0, 48), Ldp(4, 5, 0, 32)], [Ldp(2, 3, 0, 16), Ldp(0, 1, 0, 0)];
    var c := [Movz(9, 0), Movz(10, 9), Movz(11, 33)];
    assert PrologueIsns() == a + (b + c);
    BlockAppend(a, b + c, s);
    PrologueHigh(s, r);
    var t := Block(a, s);
    BlockAppend(b, c, t);
    PrologueLow(t, r);
    PrologueConstants(Block(b, t));
  }

  function EpilogueIsns(): (b: seq<Isn>) {
    [Stp(6, 7, 8, 48), AddSp(2048), Stp(4, 5, 8, 32), Stp(2, 3, 8, 16), Stp(0, 1, 8, 0)]
  }

  lemma StoreTwo(s: State, rt: Reg, rt2: Reg, rn: Reg, off: nat)
    requires s.Live? && off % 8 == 0 && off + 8 < 80 && Slots(s.mem, Address(s.x[rn]))
    ensures var a := Address(s.x[rn]); var t := Exec(Stp(rt, rt2, rn, off), s);
            t == s.(mem := Put(s.mem, a + off, s.x[rt], s.x[rt2])) && Slots(t.mem, a)
  {
    hide Address;
    var a, j := Address(s.x[rn]), off / 8;
    assert a + 8 * j in s.mem && a + 8 * (j + 1) in s.mem;
  }

  lemma AddSpExec(s: State, n: nat)
    requires s.Live?
    ensures Exec(AddSp(n), s) == s.(sp := s.sp + n)
  {
  }

  /** R0-R7 as stored back by the four pairs. */
  function Saved(mem: Memory, rp: int, r: Regs): Memory {
    Put(Put(Put(Put(mem, rp + 48, r[6], r[7]), rp + 32, r[4], r[5]), rp + 16, r[2], r[3]), rp + 0, r[0], r[1])
  }

  /** Storing a pair into the register file, in front of other instructions. */
  lemma StoreThen(rt: Reg, rt2: Reg, off: nat, rest: seq<Isn>, s: State, m: Memory)
    requires s.Live? && off % 8 == 0 && off + 8 < 80 && Slots(s.mem, Address(s.x[8]))
    requires m == Put(s.mem, Address(s.x[8]) + off, s.x[rt], s.x[rt2])
    ensures Block([Stp(rt, rt2, 8, off)] + rest, s) == Block(rest, s.(mem := m)) && Slots(m, Address(s.x[8]))
  {
    hide Block, Exec, Address, Slots, Put;
    BlockAppend([Stp(rt, rt2, 8, off)], rest, s);
    Block1(Stp(rt, rt2, 8, off), s);
    StoreTwo(s, rt, rt2, 8, off);
  }

  lemma ReleaseThen(n: nat, rest: seq<Isn>, s: State)
    requires s.Live?
    ensures Block([AddSp(n)] + rest, s) == Block(rest, s.(sp := s.sp + n))
  {
    hide Block, Exec;
    BlockAppend([AddSp(n)], rest, s);
    Block1(AddSp(n), s);
    AddSpExec(s, n);
  }

  lemma EpilogueSim(s: State, r: Regs)
    requires s.Live? && Agrees(s.x, r) && Slots(s.mem, Address(s.x[8]))
    ensures Block(EpilogueIsns(), s) == s.(sp := s.sp + 2048, mem := Saved(s.mem, Address(s.x[8]), r))
  {
    hide Block, Address, Slots, Put, Agrees;
    EightAgree(s.x, r);
    var rp, sp := Address(s.x[8]), s.sp + 2048;
    var none: seq<Isn> := [];
    var e := [Stp(0, 1, 8, 0)] + none;
    var d := [Stp(2, 3, 8, 16)] + e;
    var c := [Stp(4, 5, 8, 32)] + d;
    var b := [AddSp(2048)] + c;
    assert EpilogueIsns() == [Stp(6, 7, 8, 48)] + b;
    var m := Put(s.mem, rp + 48, r[6], r[7]);
    StoreThen(6, 7, 48, b, s, m);
    ReleaseThen(2048, c, s.(mem := m));
    var n := Put(m, rp + 32, r[4], r[5]);
    StoreThen(4, 5, 32, d, s.(sp := sp, mem := m), n);
    var o := Put(n, rp + 16, r[2], r[3]);
    StoreThen(2, 3, 16, e, s.(sp := sp, mem := n), o);
    var q := Put(o, rp + 0, r[0], r[1]);
    StoreThen(0, 1, 0, none, s.(sp := sp, mem := o), q);
    BlockNone(s.(sp := sp, mem := q));
  }

  lemma BlockNone(s: State)
    ensures Block([], s) == s
  {
  }

  lemma SavedRegs(mem: Memory, rp: int, r: Regs, j: nat)
    requires Slots(mem, rp) && rp + 64 in mem && rp + 72 in mem && mem[rp + 64] == r[8] && mem[rp + 72] == r[9]
    requires j < REG_SIZE
    ensures rp + 8 * j in Saved(mem, rp, r) && Saved(mem, rp, r)[rp + 8 * j] == r[j]
  {
    assert rp + 8 * j in mem;
    match j
    case 0 => case 1 => case 2 => case 3 => case 4 => case 5 => case 6 => case 7 => case 8 => case 9 =>
  }

  /** From the end of the reading phase to the return. */
  lemma EpilogueRun(code: seq<u32>, s: State, r: Regs)
    requires CodeAt(code, LAST, Epilogue()) && s.Live? && Agrees(s.x, r)
    requires Slots(s.mem, Address(s.x[8]))
    ensures Steps(code, Running(LAST, s), 6)
            == Returned(s.(sp := s.sp + 2048, mem := Saved(s.mem, Address(s.x[8]), r)))
  {
    hide Decode, Fetch, Block, Steps, Address, Saved, CodeAt, Epilogue;
    EpilogueDecodes();
    EpilogueSim(s, r);
    forall k | 0 <= k < 5 ensures Fetch(code, LAST + k) == Some(EpilogueIsns()[k]) {
      FetchAt(code, LAST, Epilogue(), k);
    }
    FetchBlock(code, LAST, EpilogueIsns(), s);
    FetchAt(code, LAST, Epilogue(), 5);
    StepsSnoc(code, Running(LAST, s), 5);
    assert Fetch(code, LAST + 5) == Some(Ret);
  }

  // ----- the theorem -----

  /** What every caller has: room for a register file at x0, and 2048 bytes of stack apart
      from it. */
  predicate Ready(s: State) {
    && s.Live?
    && Slots(s.mem, Address(s.x[0]))
    && Owns(s.mem, s.sp - 2048)
    && (s.sp <= Address(s.x[0]) || Address(s.x[0]) + 8 * REG_SIZE <= s.sp - 2048)
  }

  /** The caller has put a register file there. */
  predicate Callable(s: State, r: Regs) {
    Ready(s) && RegsAt(s.mem, Address(s.x[0]), r)
  }

  /** The register file holds the result, the stack pointer is back and no memory outside
      the register file and the used stack has changed. */
  predicate Answered(s: State, t: State, r: Regs)
    requires s.Live?
  {
    && t.Live? && t.sp == s.sp
    && RegsAt(t.mem, Address(s.x[0]), r)
    && t.mem.Keys == s.mem.Keys
    && forall a :: a in s.mem && (a < s.sp - 2048 || s.sp <= a) && !(0 <= a - Address(s.x[0]) < 64) ==>
        t.mem[a] == s.mem[a]
  }

  lemma SavedElsewhere(mem: Memory, rp: int, r: Regs)
    requires Slots(mem, rp)
    ensures Saved(mem, rp, r).Keys == mem.Keys
    ensures forall a :: a in mem && !(0 <= a - rp < 64) ==> Saved(mem, rp, r)[a] == mem[a]
  {
    assert rp + 8 * 0 in mem && rp + 8 * 1 in mem && rp + 8 * 2 in mem && rp + 8 * 3 in mem;
    assert rp + 8 * 4 in mem && rp + 8 * 5 in mem && rp + 8 * 6 in mem && rp + 8 * 7 in mem;
  }

  /** The steps taken: each branch costs the length of its loop. */
  function StepCount(l: ProgramList, r: Regs): nat {
    var w := WritePhase(l, NUM_PROGRAMS, r, Blank());
    var o := ReadPhase(l, NUM_PROGRAMS, w.r, w.mem);
    TOTAL + 19 * (BRANCH_LIMIT - w.bc) + 32 * (BRANCH_LIMIT - o.bc)
  }

  lemma PrologueStraight()
    ensures Straight(PrologueIsns()) && |PrologueIsns()| == FIRST
  {
  }

  lemma EntryRun(code: seq<u32>, l: ProgramList, s: State, r: Regs) returns (t: State)
    requires AllWellFormed(l) && Compiled(code, l) && Callable(s, r)
    ensures && t.Live? && t.sp == s.sp && t.mem == s.mem && t.x[8] == s.x[0] && Agrees(t.x, r)
            && t.x[9] == Counter(BRANCH_LIMIT)
            && Steps(code, Running(0, s), FIRST) == Running(FIRST, t)
  {
    hide Steps, Fetch, Block, Decode, RegsAt, Owns, Agrees, Address, CodeAt, Prologue, AllWellFormed, Compiled, Layout,
         OperandsOk, HazardFree, PrologueIsns;
    EdgesAt(code, l);
    PrologueStraight();
    PrologueEncodes();
    HoldsBlock(code, 0, Prologue(), PrologueIsns());
    PrologueSim(s, r);
    FetchBlock(code, 0, PrologueIsns(), s);
    t := Block(PrologueIsns(), s);
  }

  /** Calling the code emitted for a list of well-formed programs returns, after exactly
      StepCount steps, with the interpreter's result in the caller's register file. */
  lemma CallComputes(code: seq<u32>, l: ProgramList, s: State, r: Regs) returns (t: State)
    requires AllWellFormed(l) && Compiled(code, l) && Callable(s, r)
    ensures && Answered(s, t, Execute(l, r))
            && Steps(code, Running(0, s), StepCount(l, r)) == Returned(t)
  {
    hide Steps, RegsAt, Owns, Agrees, Address, CodeAt, Epilogue, ClearBc, Compiled, AllWellFormed, WritePhase,
         ReadPhase;
    hide Filled, Outside, PadAt, Counter, Saved, Slots;
    var rp, base := Address(s.x[0]), s.sp - 2048;
    var w := WritePhase(l, NUM_PROGRAMS, r, Blank());
    var o := ReadPhase(l, NUM_PROGRAMS, w.r, w.mem);
    var a := EntryRun(code, l, s, r);
    var b := WritePrograms(code, l, NUM_PROGRAMS, a, r, base);
    EdgesAt(code, l);
    ClearStep(code, SECOND - 1, b, w.r);
    var c := b.(x := b.x[9 := 0]);
    FullPad(c.mem, base, w.mem);
    var d := ReadPrograms(code, l, NUM_PROGRAMS, c, w.r, w.mem);
    RegsKept(s.mem, d.mem, rp, base, r);
    SlotsOf(d.mem, rp, r);
    EpilogueRun(code, d, o.r);
    t := d.(sp := d.sp + 2048, mem := Saved(d.mem, rp, o.r));
    var n1 := REG_WORDS * NUM_PROGRAMS + 19 * (BRANCH_LIMIT - w.bc);
    var n2 := MEM_WORDS * NUM_PROGRAMS + 32 * (BRANCH_LIMIT - o.bc);
    StepsAdd(code, Running(0, s), FIRST, n1);
    StepsAdd(code, Running(0, s), FIRST + n1, 1);
    StepsAdd(code, Running(0, s), FIRST + n1 + 1, n2);
    StepsAdd(code, Running(0, s), FIRST + n1 + 1 + n2, 6);
    FinalMemory(s, d.mem, rp, base, r, o.r, l);
  }

  lemma FinalMemory(s: State, mem: Memory, rp: int, base: int, r: Regs, r': Regs, l: ProgramList)
    requires s.Live? && rp == Address(s.x[0]) && base == s.sp - 2048
    requires Outside(s.mem, mem, base) && RegsAt(mem, rp, r) && AllWellFormed(l)
    requires var w := WritePhase(l, NUM_PROGRAMS, r, Blank());
             r' == ReadPhase(l, NUM_PROGRAMS, w.r, w.mem).r
    ensures var m := Saved(mem, rp, r');
            && RegsAt(m, rp, Execute(l, r)) && m.Keys == s.mem.Keys
            && forall a :: a in s.mem && (a < base || s.sp <= a) && !(0 <= a - rp < 64) ==> m[a] == s.mem[a]
  {
    hide Saved, Address, WellFormed, Execute, WritePhase, ReadPhase;
    ExecuteRegs(l, r);
    assert rp + 8 * 8 in mem && rp + 8 * 9 in mem && mem[rp + 8 * 8] == r[8] && mem[rp + 8 * 9] == r[9];
    SavedElsewhere(mem, rp, r');
    forall j | 0 <= j < REG_SIZE
      ensures rp + 8 * j in Saved(mem, rp, r') && Saved(mem, rp, r')[rp + 8 * j] == r'[j]
    {
      SavedRegs(mem, rp, r', j);
    }
  }

  // ----- the premises can be met -----

  /** Every register file has a caller. */
  lemma SomeCaller(r: Regs) returns (s: State)
    ensures Callable(s, r)
  {
    s := Live(seq(31, _ => 4096), 4096, false, CallerMemory(r));
    AddressOfCaller();
    hide Address;
  }

  lemma AddressOfCaller()
    ensures Address(4096) == 4096
  {
  }

  /** The emitted code by itself is a buffer that holds it. */
  lemma CompiledItself(l: ProgramList)
    requires AllWellFormed(l)
    ensures Compiled(ListCode(l), l)
  {
    hide RegCodes, MemCodes, Prologue, Epilogue, OperandsOk, HazardFree, Layout;
    var c := ListCode(l);
    assert |c| == TOTAL && c[..TOTAL] == c;
  }
}
