/** The x86-64 back end is correct: calling the emitted function on a register file in
    memory leaves there what the interpreter computes. */
module X86Correct {
  import opened Wrappers
  import opened Words
  import opened Vm
  import opened Phases
  import opened Budget
  import opened Slices
  import opened Stack
  import opened X86Machine
  import opened X86Compiler
  import opened X86Decode
  import opened X86Simulation
  import opened X86Program
  import opened X86Frame

  // ----- where the code of each program lies -----

  const FIRST: nat := 57
  const STRIDE: nat := 94
  const SECOND: nat := 3067
  const LAST: nat := 7579
  const TOTAL: nat := 7628

  predicate Compiled(code: seq<u8>, l: ProgramList)
    requires AllWellFormed(l)
  {
    |code| >= TOTAL && code[..TOTAL] == ListCode(l)
  }

  lemma {:induction false} RegCodesAt(l: ProgramList, n: nat, i: nat)
    requires AllWellFormed(l) && i < n <= NUM_PROGRAMS
    ensures RegCodes(l, n)[STRIDE * i..STRIDE * i + STRIDE] == RegCode(l[i]) + CodeStore()
  {
    hide RegCode, CodeStore, OperandsOk, HazardFree, Layout;
    var c := RegCodes(l, n);
    if i + 1 < n {
      RegCodesAt(l, n - 1, i);
      assert c[STRIDE * i..STRIDE * i + STRIDE] == RegCodes(l, n - 1)[STRIDE * i..STRIDE * i + STRIDE];
    }
  }

  lemma {:induction false} MemCodesAt(l: ProgramList, n: nat, i: nat)
    requires AllWellFormed(l) && i < n <= NUM_PROGRAMS
    ensures MemCodes(l, n)[MEM_BYTES * i..MEM_BYTES * i + MEM_BYTES] == MemCode(l[i])
  {
    hide MemCode, OperandsOk, HazardFree, Layout;
    var c := MemCodes(l, n);
    if i + 1 < n {
      MemCodesAt(l, n - 1, i);
      assert c[MEM_BYTES * i..MEM_BYTES * i + MEM_BYTES] == MemCodes(l, n - 1)[MEM_BYTES * i..MEM_BYTES * i + MEM_BYTES];
    }
  }

  /** Program i of the writing phase starts at byte 57 + 94 i. */
  lemma RegCodeAt(code: seq<u8>, l: ProgramList, i: nat)
    requires AllWellFormed(l) && Compiled(code, l) && i < NUM_PROGRAMS
    ensures CodeAt(code, FIRST + STRIDE * i, RegCode(l[i]) + CodeStore())
  {
    hide RegCode, MemCode, OperandsOk, HazardFree, Layout, RegCodes, MemCodes, CodePrologue, CodeEpilogue,
         CodeClearBc, CodeStore;
    RegCodesAt(l, NUM_PROGRAMS, i);
    var c := ListCode(l);
    assert c[FIRST..FIRST + STRIDE * NUM_PROGRAMS] == RegCodes(l, NUM_PROGRAMS);
    SliceOfSlice(c, FIRST, FIRST + STRIDE * NUM_PROGRAMS, STRIDE * i, STRIDE * i + STRIDE);
    var pc := FIRST + STRIDE * i;
    assert code[0..TOTAL] == code[..TOTAL] == c;
    SliceOfSlice(code, 0, TOTAL, pc, pc + STRIDE);
  }

  /** Program i of the reading phase starts at byte 3067 + 141 i. */
  lemma MemCodeAt(code: seq<u8>, l: ProgramList, i: nat)
    requires AllWellFormed(l) && Compiled(code, l) && i < NUM_PROGRAMS
    ensures CodeAt(code, SECOND + MEM_BYTES * i, MemCode(l[i]))
  {
    hide RegCode, MemCode, OperandsOk, HazardFree, Layout, RegCodes, MemCodes, CodePrologue, CodeEpilogue, CodeClearBc;
    MemCodesAt(l, NUM_PROGRAMS, i);
    var c := ListCode(l);
    assert c[SECOND..SECOND + MEM_BYTES * NUM_PROGRAMS] == MemCodes(l, NUM_PROGRAMS);
    SliceOfSlice(c, SECOND, SECOND + MEM_BYTES * NUM_PROGRAMS, MEM_BYTES * i, MEM_BYTES * i + MEM_BYTES);
    var pc := SECOND + MEM_BYTES * i;
    assert code[0..TOTAL] == code[..TOTAL] == c;
    SliceOfSlice(code, 0, TOTAL, pc, pc + MEM_BYTES);
  }

  lemma EdgesAt(code: seq<u8>, l: ProgramList)
    requires AllWellFormed(l) && Compiled(code, l)
    ensures && CodeAt(code, 0, CodePrologue()) && CodeAt(code, SECOND - 2, CodeClearBc())
            && CodeAt(code, LAST, CodeEpilogue())
  {
    hide RegCode, MemCode, OperandsOk, HazardFree, Layout, RegCodes, MemCodes, CodePrologue, CodeEpilogue, CodeClearBc;
    var c := ListCode(l);
    assert c[0..57] == CodePrologue() && c[SECOND - 2..SECOND] == CodeClearBc() && c[LAST..TOTAL] == CodeEpilogue();
    assert code[0..57] == c[0..57] && code[SECOND - 2..SECOND] == c[SECOND - 2..SECOND]
      && code[LAST..TOTAL] == c[LAST..TOTAL];
  }

  // ----- the writing phase -----

  /** After n programs. */
  predicate Writing(s: State, t: State, base: int, n: nat, w: Phase)
    requires n <= NUM_PROGRAMS && w.bc <= BRANCH_LIMIT
  {
    && s.Live? && t.Live? && t.sp == base + 64 * (NUM_PROGRAMS - n)
    && Between(t, w.r, w.bc) && t.x[1] == s.x[1]
    && Outside(s.mem, t.mem, base)
    && Filled(t.mem, base, w.mem, MEM_SIZE - 8 * n)
  }

  /** One program of the writing phase and the eight pushes behind it. */
  lemma WriteProgram(code: seq<u8>, pc: nat, p: Program, s: State, r: Regs, bc: nat) returns (t: State)
    requires Compilable(p) && CodeAt(code, pc, RegCode(p) + CodeStore()) && bc <= BRANCH_LIMIT && Between(s, r, bc)
    requires Room(s.mem, s.sp - 64)
    ensures var o := Passes(p, RegMode, r, bc);
            && s.Live? && t.Live? && Between(t, o.r, o.bc) && t.x[1] == s.x[1]
            && t.sp == s.sp - 64 && t.mem == Pushed(s.mem, s.sp, o.r, 8)
            && Steps(code, Running(pc, s), 31 + 20 * (bc - o.bc)) == Running(pc + STRIDE, t)
  {
    hide Steps, Passes, CodeAt, RegCode, CodeStore, Compilable, Pushed, Room, Agrees, Counter, Low32;
    CodeAtPart(code, pc, RegCode(p), CodeStore());
    var u := RegRun(code, pc, p, s, r, bc);
    var o := Passes(p, RegMode, r, bc);
    PushesRun(code, pc + REG_BYTES, 8, u, o.r);
    t := u.(sp := u.sp - 64, mem := Pushed(u.mem, u.sp, o.r, 8));
    StepsAdd(code, Running(pc, s), 23 + 20 * (bc - o.bc), 8);
  }

  lemma {:induction false} WritePrograms(code: seq<u8>, l: ProgramList, n: nat, s: State, r: Regs, base: int) returns (t: State)
    requires AllWellFormed(l) && Compiled(code, l) && n <= NUM_PROGRAMS
    requires Between(s, r, BRANCH_LIMIT) && s.sp == base + 2048 && Owns(s.mem, base)
    ensures var w := WritePhase(l, n, r, Blank());
            && Writing(s, t, base, n, w)
            && Steps(code, Running(FIRST, s), 31 * n + 20 * (BRANCH_LIMIT - w.bc)) == Running(FIRST + STRIDE * n, t)
    decreases n
  {
    hide Steps, Between, Passes, Compiled, CodeAt, RegCode, CodeStore, OperandsOk, HazardFree, Layout, Owns, Room,
         Pushed;
    hide Filled, Outside, Dump, Blank;
    var w := WritePhase(l, n, r, Blank());
    if n == 0 {
      t := s;
      StepsZero(code, Running(FIRST, s));
      BetweenLive(s, r, BRANCH_LIMIT);
      NothingWritten(s.mem, base, w.mem);
    } else {
      var u := WritePrograms(code, l, n - 1, s, r, base);
      var v := WritePhase(l, n - 1, r, Blank());
      var o := Passes(l[n - 1], RegMode, v.r, v.bc);
      RoomBelow(s.mem, u.mem, base, n - 1);
      RegCodeAt(code, l, n - 1);
      t := WriteProgram(code, FIRST + STRIDE * (n - 1), l[n - 1], u, v.r, v.bc);
      PushedSpills(u.mem, u.sp, o.r);
      SpillFills(s.mem, u.mem, t.mem, base, v.mem, n - 1, o.r);
      StepsAdd(code, Running(FIRST, s), 31 * (n - 1) + 20 * (BRANCH_LIMIT - v.bc), 31 + 20 * (v.bc - o.bc));
    }
  }

  lemma BetweenLive(s: State, r: Regs, bc: nat)
    requires bc <= BRANCH_LIMIT && Between(s, r, bc)
    ensures s.Live?
  {
  }

  // ----- the reading phase -----

  lemma {:induction false} ReadPrograms(code: seq<u8>, l: ProgramList, n: nat, s: State, r: Regs, pad: Scratchpad)
    returns (t: State)
    requires AllWellFormed(l) && Compiled(code, l) && n <= NUM_PROGRAMS
    requires Between(s, r, BRANCH_LIMIT) && PadAt(s.mem, s.sp, pad)
    ensures var o := ReadPhase(l, n, r, pad);
            && s.Live? && t.Live? && t.sp == s.sp && t.mem == s.mem && t.x[1] == s.x[1] && Between(t, o.r, o.bc)
            && Steps(code, Running(SECOND, s), 37 * n + 32 * (BRANCH_LIMIT - o.bc)) == Running(SECOND + MEM_BYTES * n, t)
    decreases n
  {
    hide Steps, Between, Passes, Compiled, CodeAt, MemCode, OperandsOk, HazardFree, Layout, PadAt;
    if n == 0 {
      t := s;
      StepsZero(code, Running(SECOND, s));
      BetweenLive(s, r, BRANCH_LIMIT);
    } else {
      var u := ReadPrograms(code, l, n - 1, s, r, pad);
      var v := ReadPhase(l, n - 1, r, pad);
      var o := Passes(l[n - 1], MemMode(pad), v.r, v.bc);
      MemCodeAt(code, l, n - 1);
      t := MemRun(code, SECOND + MEM_BYTES * (n - 1), l[n - 1], u, v.r, v.bc, pad);
      StepsAdd(code, Running(SECOND, s), 37 * (n - 1) + 32 * (BRANCH_LIMIT - v.bc), 37 + 32 * (v.bc - o.bc));
    }
  }

  /** Between the phases only ebx is cleared; ebp keeps its old value, which is not zero. */
  lemma ClearStep(code: seq<u8>, pc: nat, s: State, r: Regs, bc: nat)
    requires CodeAt(code, pc, CodeClearBc()) && bc <= BRANCH_LIMIT && Between(s, r, bc)
    ensures s.Live?
    ensures var t := s.(x := s.x[3 := 0], zf := None);
            Between(t, r, BRANCH_LIMIT) && Steps(code, Running(pc, s), 1) == Running(pc + 2, t)
  {
    CounterStart();
    XorSelf(s.x[3]);
    AgreesTemp(s.x, r, 3, 0);
    hide Steps, Decode, CodeClearBc, Agrees, Counter, Low32, ZeroExtend;
    DecodeClear(code, pc);
    StepAt(code, pc, Xor32(3, 3), 2, s);
  }

  lemma XorSelf(a: u64)
    ensures ZeroExtend(Low32(a) ^ Low32(a)) == 0
  {
  }

  // ----- entry and exit -----

  /** The saved registers and the pointer, before the registers are loaded. */
  lemma EntrySaves(code: seq<u8>, s: State, r: Regs) returns (t: State)
    requires CodeAt(code, 0, CodePrologue()) && s.Live? && FrameRoom(s.mem, s.sp)
    requires RegsAt(s.mem, Address(s.x[7]), r)
      && (s.sp <= Address(s.x[7]) || Address(s.x[7]) + 8 * REG_SIZE <= s.sp - 48)
    ensures && t == s.(x := s.x[1 := s.x[7]], sp := s.sp - 48, mem := Saved(s.mem, s.sp, s.x, 6))
            && RegsAt(t.mem, Address(t.x[1]), r)
            && Steps(code, Running(0, s), 7) == Running(13, t)
  {
    hide Steps, Decode, Exec, CodeAt, CodePrologue, Saved, FrameRoom, Address;
    DecodeEdges(code, 0);
    assert |code| >= 57 by { ByteLength(code); }
    StepAt(code, 0, OpReg(MOV, 1, 7), 3, s);
    MovExec(s, 1, 7);
    var a := s.(x := s.x[1 := s.x[7]]);
    SaveRun(code, 0, 6, a);
    SavedSame(s.mem, s.sp, s.x, a.x, 6);
    t := a.(sp := a.sp - 48, mem := Saved(s.mem, s.sp, s.x, 6));
    SavedFrame(s.mem, s.sp, s.x);
    RegsAround(s.mem, t.mem, Address(s.x[7]), s.sp, r);
    StepsAdd(code, Running(0, s), 1, 6);
  }

  /** From the first byte to the first program. */
  lemma EntryRun(code: seq<u8>, s: State, r: Regs) returns (t: State)
    requires CodeAt(code, 0, CodePrologue()) && s.Live? && FrameRoom(s.mem, s.sp)
    requires RegsAt(s.mem, Address(s.x[7]), r)
      && (s.sp <= Address(s.x[7]) || Address(s.x[7]) + 8 * REG_SIZE <= s.sp - 48)
    ensures && Between(t, r, BRANCH_LIMIT) && t.Live?
            && t.sp == s.sp - 48 && t.mem == Saved(s.mem, s.sp, s.x, 6) && t.x[1] == s.x[7]
            && Steps(code, Running(0, s), 19) == Running(FIRST, t)
  {
    hide Steps, Decode, Exec, CodeAt, CodePrologue, Saved, FrameRoom, Address, RegsAt, Between, Agrees;
    DecodeEdges(code, 0);
    assert |code| >= 57 by { ByteLength(code); }
    var b := EntrySaves(code, s, r);
    var c := LoadRun(code, 0, REG_SIZE, b, r);
    LoadedAgrees(c.x, r);
    CountStart(c, r);
    StepAt(code, 52, Xor32(3, 3), 2, c);
    var d := Exec(Xor32(3, 3), c);
    StepAt(code, 54, Lea32(5, 3, 1), 3, d);
    t := Exec(Lea32(5, 3, 1), d);
    var start := Running(0, s);
    StepsAdd(code, start, 7, 10);
    StepsAdd(code, start, 17, 1);
    StepsAdd(code, start, 18, 1);
  }

  lemma ByteLength(code: seq<u8>)
    requires CodeAt(code, 0, CodePrologue())
    ensures |code| >= 57
  {
  }

  lemma {:induction false} SavedSame(mem: Memory, sp: int, x: GprFile, y: GprFile, k: nat)
    requires k <= 6 && y == x[1 := y[1]]
    ensures Saved(mem, sp, y, k) == Saved(mem, sp, x, k)
  {
    if k > 0 {
      SavedSame(mem, sp, x, y, k - 1);
    }
  }

  lemma RegsAround(m: Memory, m': Memory, rp: int, sp: int, r: Regs)
    requires RegsAt(m, rp, r) && m'.Keys == m.Keys && (forall a :: a in m && (a < sp - 48 || sp <= a) ==> m'[a] == m[a])
    requires sp <= rp || rp + 8 * REG_SIZE <= sp - 48
    ensures RegsAt(m', rp, r)
  {
  }

  /** xor ebx, ebx; lea ebp, [rbx+1]: the counter is zero and ebp is one. */
  lemma CountStart(s: State, r: Regs)
    requires s.Live? && Agrees(s.x, r)
    ensures var u := Exec(Xor32(3, 3), s); var t := Exec(Lea32(5, 3, 1), u);
            u.Live? && t.Live? && Between(t, r, BRANCH_LIMIT) && t.sp == s.sp && t.mem == s.mem && t.x[1] == s.x[1]
  {
    XorSelf(s.x[3]);
    SmallWord(0);
    CounterStart();
    hide Agrees, Counter, Low32, ZeroExtend, Lea32Value, Add;
    AgreesTemp(s.x, r, 3, 0);
    AgreesTemp(s.x[3 := 0], r, 5, Add(0, 1));
    var u := Exec(Xor32(3, 3), s);
    assert u.x == s.x[3 := 0];
    var t := Exec(Lea32(5, 3, 1), u);
    assert t.x == u.x[5 := Add(0, 1)];
  }

  /** From the end of the reading phase to the return. */
  lemma ExitRun(code: seq<u8>, s: State, r: Regs, x0: GprFile) returns (t: State)
    requires CodeAt(code, LAST, CodeEpilogue()) && s.Live? && Agrees(s.x, r)
    requires Slots(s.mem, Address(s.x[1])) && FrameAt(s.mem, s.sp + 2048 + 48, x0)
    requires s.sp + 2048 + 48 <= Address(s.x[1]) || Address(s.x[1]) + 8 * REG_SIZE <= s.sp + 2048
    ensures && t.Live? && t.sp == s.sp + 2048 + 48 && t.mem == StoredBack(s.mem, Address(s.x[1]), r, 8)
            && Restored(t.x, x0, 6)
            && Steps(code, Running(LAST, s), 16) == Returned(t)
  {
    hide Steps, Decode, Exec, CodeAt, CodeEpilogue, StoredBack, Agrees, Address, FrameAt, Slots, Restored;
    DecodeRelease(code, LAST);
    assert |code| >= TOTAL by { EpilogueLength(code); }
    StepAt(code, LAST, AddSp(2048), 7, s);
    AddSpExec(s, 2048);
    var a := s.(sp := s.sp + 2048, zf := None);
    StoreRun(code, LAST, 8, a, r);
    var rp := Address(s.x[1]);
    var b := a.(mem := StoredBack(s.mem, rp, r, 8));
    FrameKept(s.mem, rp, r, s.sp + 2048 + 48, x0);
    t := RestoreRun(code, LAST, 6, b, x0);
    RetStep(code, LAST + 48, t);
    var start := Running(LAST, s);
    StepsAdd(code, start, 1, 8);
    StepsAdd(code, start, 9, 6);
    StepsAdd(code, start, 15, 1);
  }

  lemma EpilogueLength(code: seq<u8>)
    requires CodeAt(code, LAST, CodeEpilogue())
    ensures |code| >= TOTAL
  {
  }

  lemma AddSpExec(s: State, n: nat)
    requires s.Live?
    ensures Exec(AddSp(n), s) == s.(sp := s.sp + n, zf := None)
  {
  }

  lemma RetStep(code: seq<u8>, pc: nat, s: State)
    requires Decode(code, pc) == Some(Coded(Ret, 1)) && pc + 1 <= |code| && s.Live?
    ensures Steps(code, Running(pc, s), 1) == Returned(s)
  {
    hide Decode, Steps, Exec;
    StepsOne(code, Running(pc, s));
  }

  /** The stores into the register file do not touch the saved registers. */
  lemma FrameKept(mem: Memory, rp: int, r: Regs, sp: int, x0: GprFile)
    requires FrameAt(mem, sp, x0) && (sp <= rp || rp + 8 * REG_SIZE <= sp - 48)
    ensures FrameAt(StoredBack(mem, rp, r, 8), sp, x0)
  {
    hide StoredBack, Kept;
    var m := StoredBack(mem, rp, r, 8);
    forall k | 0 <= k < 6 ensures FrameSlot(sp, k) in m && m[FrameSlot(sp, k)] == x0[Kept(k)] {
      assert FrameSlot(sp, k) in mem;
      StoredBackElsewhere(mem, rp, r, 8, FrameSlot(sp, k));
    }
  }

  // ----- the theorem -----

  /** The function uses 2096 bytes of stack. */
  const FRAME: nat := 2096

  /** What every caller has: room for a register file at rdi, and the stack below rsp apart
      from it. */
  predicate Ready(s: State) {
    && s.Live?
    && Slots(s.mem, Address(s.x[7]))
    && Owns(s.mem, s.sp - FRAME) && FrameRoom(s.mem, s.sp)
    && (s.sp <= Address(s.x[7]) || Address(s.x[7]) + 8 * REG_SIZE <= s.sp - FRAME)
  }

  /** The caller has put a register file there. */
  predicate Callable(s: State, r: Regs) {
    Ready(s) && RegsAt(s.mem, Address(s.x[7]), r)
  }

  /** The register file holds the result, the stack pointer and the callee-saved registers
      are back, and no memory outside the register file and the used stack has changed. */
  predicate Answered(s: State, t: State, r: Regs)
    requires s.Live?
  {
    && t.Live? && t.sp == s.sp && Restored(t.x, s.x, 6)
    && RegsAt(t.mem, Address(s.x[7]), r)
    && t.mem.Keys == s.mem.Keys
    && forall a :: a in s.mem && (a < s.sp - FRAME || s.sp <= a) && !(0 <= a - Address(s.x[7]) < 64) ==>
        t.mem[a] == s.mem[a]
  }

  /** The instructions executed: each branch costs the length of its loop. */
  function StepCount(l: ProgramList, r: Regs): nat {
    var w := WritePhase(l, NUM_PROGRAMS, r, Blank());
    var o := ReadPhase(l, NUM_PROGRAMS, w.r, w.mem);
    19 + 31 * NUM_PROGRAMS + 20 * (BRANCH_LIMIT - w.bc) + 1 + 37 * NUM_PROGRAMS + 32 * (BRANCH_LIMIT - o.bc) + 16
  }

  /** Calling the code emitted for a list of well-formed programs returns, after exactly
      StepCount steps, with the interpreter's result in the caller's register file. */
  lemma CallComputes(code: seq<u8>, l: ProgramList, s: State, r: Regs) returns (t: State)
    requires AllWellFormed(l) && Compiled(code, l) && Callable(s, r)
    ensures && Answered(s, t, Execute(l, r))
            && Steps(code, Running(0, s), StepCount(l, r)) == Returned(t)
  {
    hide Steps, RegsAt, Owns, Agrees, Address, CodeAt, CodePrologue, CodeEpilogue, CodeClearBc, Compiled, AllWellFormed;
    hide WritePhase, ReadPhase, Filled, Outside, PadAt, Counter, Low32, Saved, Slots, FrameRoom, FrameAt, StoredBack,
         Restored;
    var rp, base := Address(s.x[7]), s.sp - FRAME;
    var w := WritePhase(l, NUM_PROGRAMS, r, Blank());
    var o := ReadPhase(l, NUM_PROGRAMS, w.r, w.mem);
    EdgesAt(code, l);
    var a := EntryRun(code, s, r);
    SavedFrame(s.mem, s.sp, s.x);
    OwnsKept(s.mem, a.mem, base);
    var b := WritePrograms(code, l, NUM_PROGRAMS, a, r, base);
    ClearStep(code, SECOND - 2, b, w.r, w.bc);
    var c := b.(x := b.x[3 := 0], zf := None);
    FullPad(c.mem, base, w.mem);
    var d := ReadPrograms(code, l, NUM_PROGRAMS, c, w.r, w.mem);
    Surroundings(s, a.mem, d.mem, r);
    t := ExitRun(code, d, o.r, s.x);
    var start := Running(0, s);
    var n1 := 31 * NUM_PROGRAMS + 20 * (BRANCH_LIMIT - w.bc);
    var n2 := 37 * NUM_PROGRAMS + 32 * (BRANCH_LIMIT - o.bc);
    StepsAdd(code, start, 19, n1);
    StepsAdd(code, start, 19 + n1, 1);
    StepsAdd(code, start, 19 + n1 + 1, n2);
    StepsAdd(code, start, 19 + n1 + 1 + n2, 16);
    FinalMemory(s, a.mem, d.mem, r, o.r, l);
  }

  lemma OwnsKept(m: Memory, m': Memory, base: int)
    requires Owns(m, base) && m'.Keys == m.Keys
    ensures Owns(m', base)
  {
  }

  /** After both phases the register file and the saved registers are still in place. */
  lemma Surroundings(s: State, m1: Memory, m2: Memory, r: Regs)
    requires Callable(s, r) && m1 == Saved(s.mem, s.sp, s.x, 6) && Outside(m1, m2, s.sp - FRAME)
    ensures RegsAt(m2, Address(s.x[7]), r) && Slots(m2, Address(s.x[7])) && FrameAt(m2, s.sp, s.x)
  {
    hide Saved, Address, Owns;
    SavedFrame(s.mem, s.sp, s.x);
    RegsAround(s.mem, m1, Address(s.x[7]), s.sp, r);
    RegsKept(m1, m2, Address(s.x[7]), s.sp - FRAME, r);
    SlotsOf(m2, Address(s.x[7]), r);
    FrameOutside(m1, m2, s.sp, s.x);
  }

  lemma FrameOutside(m1: Memory, m2: Memory, sp: int, x: GprFile)
    requires FrameAt(m1, sp, x) && Outside(m1, m2, sp - FRAME)
    ensures FrameAt(m2, sp, x)
  {
    hide Kept;
    forall k | 0 <= k < 6 ensures FrameSlot(sp, k) in m2 && m2[FrameSlot(sp, k)] == x[Kept(k)] {
      assert FrameSlot(sp, k) in m1;
    }
  }

  lemma FinalMemory(s: State, m1: Memory, m2: Memory, r: Regs, r': Regs, l: ProgramList)
    requires Callable(s, r) && m1 == Saved(s.mem, s.sp, s.x, 6) && Outside(m1, m2, s.sp - FRAME) && AllWellFormed(l)
    requires var w := WritePhase(l, NUM_PROGRAMS, r, Blank());
             r' == ReadPhase(l, NUM_PROGRAMS, w.r, w.mem).r
    ensures var m := StoredBack(m2, Address(s.x[7]), r', 8);
            && RegsAt(m, Address(s.x[7]), Execute(l, r)) && m.Keys == s.mem.Keys
            && forall a :: a in s.mem && (a < s.sp - FRAME || s.sp <= a) && !(0 <= a - Address(s.x[7]) < 64) ==>
                m[a] == s.mem[a]
  {
    hide StoredBack, Address, WellFormed, Execute, WritePhase, ReadPhase, Saved, FrameAt, FrameRoom, Owns;
    var rp := Address(s.x[7]);
    ExecuteRegs(l, r);
    SavedFrame(s.mem, s.sp, s.x);
    Surroundings(s, m1, m2, r);
    StoredBackKeys(m2, rp, r', 8);
    var m := StoredBack(m2, rp, r', 8);
    forall j | 0 <= j < REG_SIZE ensures rp + 8 * j in m && m[rp + 8 * j] == r'[j] {
      RegCell(m2, rp, r, j);
      if j < 8 { StoredBackCell(m2, rp, r', 8, j); } else { StoredBackElsewhere(m2, rp, r', 8, rp + 8 * j); }
    }
    forall a | a in s.mem && (a < s.sp - FRAME || s.sp <= a) && !(0 <= a - rp < 64) ensures m[a] == s.mem[a] {
      StoredBackElsewhere(m2, rp, r', 8, a);
    }
  }

  // ----- the premises can be met -----

  /** Every register file has a caller. */
  lemma SomeCaller(r: Regs) returns (s: State)
    ensures Callable(s, r)
  {
    s := Live(seq(16, _ => 4096), 4096, None, CallerMemory(r));
    AddressOfCaller();
    hide Address;
  }

  lemma AddressOfCaller()
    ensures Address(4096) == 4096
  {
  }

  /** The emitted code by itself is a buffer that holds it. */
  lemma CompiledItself(l: ProgramList)
    requires AllWellFormed(l)
    ensures Compiled(ListCode(l), l)
  {
    hide RegCodes, MemCodes, CodePrologue, CodeEpilogue, CodeClearBc, OperandsOk, HazardFree, Layout;
    var c := ListCode(l);
    assert |c| == TOTAL && c[..TOTAL] == c;
  }
}
