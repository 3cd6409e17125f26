/** The WebAssembly back end is correct: calling the function of the emitted module leaves in
    the register file what the interpreter computes. */
module WasmCorrect {
  import opened Words
  import opened Vm
  import opened Phases
  import opened Budget
  import opened Stack
  import opened WasmMachine
  import opened WasmBinary
  import opened WasmCompiler
  import opened WasmEmitted
  import opened WasmSimulation
  import opened WasmProgram

  // ----- pointers -----

  /** $mp after it was moved down to the block of the n-th program from the bottom; at the
      very top of a full address space it wraps to zero. */
  function Pointer(mp: nat, n: nat): Word32 {
    (mp + 64 * n) % TWO_32
  }

  lemma PointerDown(mp: nat, n: nat)
    requires 0 < n <= NUM_PROGRAMS && mp + 8 * MEM_SIZE <= TWO_32
    ensures (Pointer(mp, n) - 64) % TWO_32 == mp + 64 * (n - 1) == Pointer(mp, n - 1)
  {
    if mp + 64 * n == TWO_32 {
      assert Pointer(mp, n) == 0;
      assert (-64) % TWO_32 == TWO_32 - 64;
    } else {
      assert Pointer(mp, n) == mp + 64 * n;
    }
  }

  lemma PointerStart(mp: nat)
    requires mp + 8 * MEM_SIZE <= TWO_32
    ensures (2048 + mp) % TWO_32 == Pointer(mp, NUM_PROGRAMS) && Pointer(mp, 0) == mp
  {
  }

  // ----- straight-line pieces -----

  lemma Const32Exec(v: int, w: Word32, s: State)
    requires s.Live? && v % TWO_32 == w
    ensures Exec(Const32(v), s) == s.(stack := Push(I32(w), s.stack))
  {
  }

  lemma Sub32Exec(s: State, a: Word32, b: Word32, c: Word32, below: OpStack)
    requires s.Live? && s.stack == Push(I32(b), Push(I32(a), below)) && (a - b) % TWO_32 == c
    ensures Exec(Bin(SUB32), s) == s.(stack := Push(I32(c), below))
  {
  }

  lemma Sum32Exec(s: State, a: Word32, b: Word32, c: Word32, below: OpStack)
    requires s.Live? && s.stack == Push(I32(b), Push(I32(a), below)) && (a + b) % TWO_32 == c
    ensures Exec(Bin(ADD32), s) == s.(stack := Push(I32(c), below))
  {
  }

  lemma StoreExec(s: State, a: Word32, v: u64, off: nat, below: OpStack)
    requires s.Live? && s.stack == Push(I64(v), Push(I32(a), below)) && a + off in s.mem
    ensures Exec(Store(3, off), s) == s.(stack := below, mem := s.mem[a + off := v])
  {
  }

  lemma ReserveRun(s: State, mp: nat, n: nat)
    requires s.Live? && |s.locals| == LOCALS && 0 < n <= NUM_PROGRAMS && mp + 8 * MEM_SIZE <= TWO_32
    requires s.locals[1] == I32(Pointer(mp, n))
    ensures ExecAll(ReserveOps(), s) == s.(locals := s.locals[1 := I32(Pointer(mp, n - 1))])
  {
    hide ExecAll, Exec, Pointer;
    PointerDown(mp, n);
    Exec4(Get(1), Const32(64), Bin(SUB32), Set(1), s);
    GetExec(1, s);
    var a, b := Pointer(mp, n), Pointer(mp, n - 1);
    Const32Exec(64, 64, s.(stack := Push(I32(a), s.stack)));
    Sub32Exec(s.(stack := Push(I32(64), Push(I32(a), s.stack))), a, 64, b, s.stack);
    SetExec(1, s.(stack := Push(I32(b), s.stack)), I32(b), s.stack);
  }

  lemma StoreRun(pointer: nat, k: nat, off: nat, s: State, r: Regs, a: Word32)
    requires s.Live? && Agrees(s.locals, r) && k < 8 && pointer < 2 && s.locals[pointer] == I32(a) && a + off in s.mem
    ensures ExecAll(StoreOps(pointer, k, off), s) == s.(mem := s.mem[a + off := r[k]])
  {
    hide ExecAll, Exec, Agrees;
    AgreesAt(s.locals, r, k);
    Exec3(Get(pointer), Get(Home(k)), Store(3, off), s);
    GetExec(pointer, s);
    GetExec(Home(k), s.(stack := Push(I32(a), s.stack)));
    StoreExec(s.(stack := Push(I64(r[k]), Push(I32(a), s.stack))), a, r[k], off, s.stack);
  }

  lemma PointerLocals(x: seq<Val>, r: Regs)
    requires Agrees(x, r)
    ensures |x| == LOCALS
  {
  }

  /** The stores that follow a program in the first phase. */
  lemma {:induction false} SpillRun(k: nat, s: State, r: Regs, a: Word32)
    requires k <= 8 && s.Live? && Agrees(s.locals, r) && s.locals[1] == I32(a) && Room(s.mem, a)
    ensures ExecAll(SpillOps(k), s) == s.(mem := Pushed(s.mem, a + 64, r, k))
  {
    hide ExecAll, Agrees, Room, StoreOps;
    PointerLocals(s.locals, r);
    if k == 0 {
      ExecNothing(s);
    } else {
      SpillRun(k - 1, s, r, a);
      ExecAppend(SpillOps(k - 1), StoreOps(1, k - 1, 56 - 8 * (k - 1)), s);
      PushedKeys(s.mem, a + 64, r, k - 1);
      StoreRun(1, k - 1, 56 - 8 * (k - 1), s.(mem := Pushed(s.mem, a + 64, r, k - 1)), r, a);
    }
  }

  lemma ExecNothing(s: State)
    ensures ExecAll([], s) == s
  {
  }

  /** The stores at the end of the function. */
  lemma {:induction false} ResultRun(k: nat, s: State, r: Regs, rp: Word32)
    requires k <= 8 && s.Live? && Agrees(s.locals, r) && s.locals[0] == I32(rp) && Slots(s.mem, rp)
    ensures ExecAll(ResultOps(k), s) == s.(mem := StoredBack(s.mem, rp, r, k))
  {
    hide ExecAll, Agrees, StoreOps;
    PointerLocals(s.locals, r);
    if k == 0 {
      ExecNothing(s);
    } else {
      ResultRun(k - 1, s, r, rp);
      assert rp + 8 * (k - 1) in s.mem;
      hide Slots;
      ExecAppend(ResultOps(k - 1), StoreOps(0, k - 1, 8 * (k - 1)), s);
      StoredBackKeys(s.mem, rp, r, k - 1);
      StoreRun(0, k - 1, 8 * (k - 1), s.(mem := StoredBack(s.mem, rp, r, k - 1)), r, rp);
    }
  }

  // ----- the start of the function -----

  predicate LoadedUpTo(x: seq<Val>, r: Regs, n: nat)
    requires n <= REG_SIZE
  {
    |x| == LOCALS && forall k {:trigger r[k]} :: 0 <= k < n ==> x[2 + k] == I64(r[k])
  }

  lemma {:induction false} LoadRun(n: nat, s: State, r: Regs, rp: Word32) returns (t: State)
    requires n <= REG_SIZE && s.Live? && |s.locals| == LOCALS && s.locals[0] == I32(rp) && RegsAt(s.mem, rp, r)
    ensures && t.Live? && t.stack == s.stack && t.mem == s.mem && LoadedUpTo(t.locals, r, n)
            && t.locals[0] == s.locals[0] && t.locals[1] == s.locals[1]
            && ExecAll(LoadOps(n), s) == t
  {
    hide ExecAll, Exec;
    if n == 0 {
      ExecNothing(s);
      t := s;
    } else {
      var k := n - 1;
      var u := LoadRun(k, s, r, rp);
      assert rp + 8 * k in u.mem && u.mem[rp + 8 * k] == r[k];
      var row := [Get(0), Load(3, 8 * k), Set(Home(k))];
      ExecAppend(LoadOps(k), row, s);
      Exec3(Get(0), Load(3, 8 * k), Set(Home(k)), u);
      GetExec(0, u);
      LoadExec(u.(stack := Push(I32(rp), u.stack)), rp, 3, 8 * k, u.stack);
      SetExec(Home(k), u.(stack := Push(I64(r[k]), u.stack)), I64(r[k]), u.stack);
      t := u.(locals := u.locals[Home(k) := I64(r[k])]);
    }
  }

  lemma ConstThenSet(v: int, w: u64, x: nat, s: State)
    requires s.Live? && WordOf(v) == w && x < |s.locals|
    ensures ExecAll([Const64(v), Set(x)], s) == s.(locals := s.locals[x := I64(w)])
  {
    hide ExecAll, Exec, WordOf;
    Exec2(Const64(v), Set(x), s);
    ConstExec(v, w, s);
    SetExec(x, s.(stack := Push(I64(w), s.stack)), I64(w), s.stack);
  }

  lemma ClearRun(s: State, r: Regs)
    requires s.Live? && Agrees(s.locals, r)
    ensures |s.locals| == LOCALS
    ensures var t := s.(locals := s.locals[BC := I64(Counter(BRANCH_LIMIT))]);
            ExecAll(ClearOps(), s) == t && Agrees(t.locals, r)
  {
    hide ExecAll, Agrees, Counter, WordOf;
    PointerLocals(s.locals, r);
    ConstWords();
    CounterStart();
    ConstThenSet(0, 0, BC, s);
    AgreesTemp(s.locals, r, BC, I64(0));
  }

  lemma SetupRun(s: State, r: Regs, mp: nat) returns (t: State)
    requires s.Live? && LoadedUpTo(s.locals, r, REG_SIZE) && mp + 8 * MEM_SIZE <= TWO_32 && s.locals[1] == I32(mp)
    ensures && t.Live? && t.stack == s.stack && t.mem == s.mem && Agrees(t.locals, r) && |t.locals| == LOCALS
            && t.locals[0] == s.locals[0] && t.locals[1] == I32(Pointer(mp, NUM_PROGRAMS))
            && t.locals[BC] == I64(Counter(BRANCH_LIMIT))
            && ExecAll(SetupOps(), s) == t
  {
    hide ExecAll, Exec, WordOf, Counter, Pointer;
    ConstWords();
    CounterStart();
    PointerStart(mp);
    var top := Pointer(mp, NUM_PROGRAMS);
    var b, c := [Const64(2040), Set(MM)], [Const32(2048), Get(1), Bin(ADD32), Set(1)];
    ExecAppend(ClearOps() + b, c, s);
    ExecAppend(ClearOps(), b, s);
    ConstThenSet(0, 0, BC, s);
    var s1 := s.(locals := s.locals[BC := I64(0)]);
    ConstThenSet(2040, 2040, MM, s1);
    var s2 := s1.(locals := s1.locals[MM := I64(2040)]);
    Exec4(Const32(2048), Get(1), Bin(ADD32), Set(1), s2);
    Const32Exec(2048, 2048, s2);
    GetExec(1, s2.(stack := Push(I32(2048), s2.stack)));
    Sum32Exec(s2.(stack := Push(I32(mp), Push(I32(2048), s2.stack))), 2048, mp, top, s2.stack);
    SetExec(1, s2.(stack := Push(I32(top), s2.stack)), I32(top), s2.stack);
    t := s2.(locals := s2.locals[1 := I32(top)]);
  }

  // ----- the writing phase -----

  /** Between programs. */
  predicate Between(s: State, r: Regs, bc: nat, rp: Word32)
    requires bc <= BRANCH_LIMIT
  {
    && s.Live? && s.stack == Empty && Agrees(s.locals, r) && |s.locals| == LOCALS
    && s.locals[0] == I32(rp) && s.locals[BC] == I64(Counter(bc))
  }

  /** A program of the first phase with n blocks still to be filled. */
  lemma WriteProgram(p: Program, next: Code, s: State, r: Regs, bc: nat, rp: Word32, mp: nat, n: nat, fuel: nat)
    returns (t: State)
    requires WellFormed(p) && bc <= BRANCH_LIMIT <= fuel && Between(s, r, bc, rp)
    requires 0 < n <= NUM_PROGRAMS && mp + 8 * MEM_SIZE <= TWO_32 && s.locals[1] == I32(Pointer(mp, n))
    requires Room(s.mem, mp + 64 * (n - 1))
    ensures var o := Passes(p, RegMode, r, bc);
            && Between(t, o.r, o.bc, rp) && s.Live? && t.Live? && |t.locals| == LOCALS
            && t.locals[1] == I32(Pointer(mp, n - 1)) && t.mem == Pushed(s.mem, mp + 64 * n, o.r, 8)
            && Eval(RegProgram(p, next), s, fuel) == Eval(next, t, fuel)
  {
    hide Eval, ExecAll, Iterate, Passes, Agrees, Counter, Pushed, Room, Pointer, Pieces, SpillOps, ReserveOps, Line;
    hide OperandsOk, HazardFree, Layout;
    PointerDown(mp, n);
    ReserveRun(s, mp, n);
    var a := s.(locals := s.locals[1 := I32(Pointer(mp, n - 1))]);
    AgreesTemp(s.locals, r, 1, I32(Pointer(mp, n - 1)));
    var body := Pieces(false, p, PROGRAM_SIZE, End);
    var stores := Line(SpillOps(8), next);
    EvalLine(ReserveOps(), Loop(body, stores), s, fuel);
    var b := LoopSim(false, p, a, r, bc, 0, Blank(), fuel);
    EvalLoop(body, stores, a, b, fuel);
    var o := Passes(p, RegMode, r, bc);
    SpillRun(8, b, o.r, mp + 64 * (n - 1));
    t := b.(mem := Pushed(b.mem, mp + 64 * n, o.r, 8));
    EvalLine(SpillOps(8), next, b, fuel);
  }

  lemma {:induction false} WritePrograms(l: ProgramList, n: nat, next: Code, s: State, r: Regs, rp: Word32, mp: nat, fuel: nat)
    returns (t: State)
    requires AllWellFormed(l) && n <= NUM_PROGRAMS && BRANCH_LIMIT <= fuel && Between(s, r, BRANCH_LIMIT, rp)
    requires mp + 8 * MEM_SIZE <= TWO_32 && s.locals[1] == I32(Pointer(mp, NUM_PROGRAMS)) && Owns(s.mem, mp)
    ensures var w := WritePhase(l, n, r, Blank());
            && Between(t, w.r, w.bc, rp) && s.Live? && t.Live? && |t.locals| == LOCALS
            && t.locals[1] == I32(Pointer(mp, NUM_PROGRAMS - n))
            && Outside(s.mem, t.mem, mp) && Filled(t.mem, mp, w.mem, MEM_SIZE - 8 * n)
            && Eval(RegPrograms(l, n, next), s, fuel) == Eval(next, t, fuel)
    decreases n
  {
    hide Eval, Passes, Between, Pointer, Owns, Room, Pushed, Filled, Outside, Dump, Blank, RegProgram, WellFormed;
    var w := WritePhase(l, n, r, Blank());
    BetweenLive(s, r, BRANCH_LIMIT, rp);
    if n == 0 {
      t := s;
      NothingWritten(s.mem, mp, w.mem);
    } else {
      var p := l[n - 1];
      var u := WritePrograms(l, n - 1, RegProgram(p, next), s, r, rp, mp, fuel);
      var v := WritePhase(l, n - 1, r, Blank());
      var o := Passes(p, RegMode, v.r, v.bc);
      RoomBelow(s.mem, u.mem, mp, n - 1);
      var m := NUM_PROGRAMS - (n - 1);
      t := WriteProgram(p, next, u, v.r, v.bc, rp, mp, m, fuel);
      PushedSpills(u.mem, mp + 64 * m, o.r);
      SpillFills(s.mem, u.mem, t.mem, mp, v.mem, n - 1, o.r);
    }
  }

  lemma BetweenLive(s: State, r: Regs, bc: nat, rp: Word32)
    requires bc <= BRANCH_LIMIT && Between(s, r, bc, rp)
    ensures s.Live? && |s.locals| == LOCALS
  {
  }

  // ----- the reading phase -----

  lemma ReadProgram(p: Program, next: Code, s: State, r: Regs, bc: nat, rp: Word32, mp: nat, pad: Scratchpad, fuel: nat)
    returns (t: State)
    requires WellFormed(p) && bc <= BRANCH_LIMIT <= fuel && Between(s, r, bc, rp) && PadReady(s, mp, pad)
    ensures var o := Passes(p, MemMode(pad), r, bc);
            && Between(t, o.r, o.bc, rp) && s.Live? && t.Live? && t.mem == s.mem && PadReady(t, mp, pad)
            && Eval(MemProgram(p, next), s, fuel) == Eval(next, t, fuel)
  {
    hide Eval, Iterate, Passes, Agrees, Counter, PadAt, Pieces, OperandsOk, HazardFree, Layout;
    var body := Pieces(true, p, PROGRAM_SIZE, End);
    t := LoopSim(true, p, s, r, bc, mp, pad, fuel);
    EvalLoop(body, next, s, t, fuel);
  }

  lemma {:induction false} ReadPrograms(l: ProgramList, n: nat, next: Code, s: State, r: Regs, rp: Word32, mp: nat,
                                        pad: Scratchpad, fuel: nat) returns (t: State)
    requires AllWellFormed(l) && n <= NUM_PROGRAMS && BRANCH_LIMIT <= fuel && Between(s, r, BRANCH_LIMIT, rp)
    requires PadReady(s, mp, pad)
    ensures var o := ReadPhase(l, n, r, pad);
            && Between(t, o.r, o.bc, rp) && s.Live? && t.Live? && t.mem == s.mem && PadReady(t, mp, pad)
            && Eval(MemPrograms(l, n, next), s, fuel) == Eval(next, t, fuel)
    decreases n
  {
    hide Eval, Passes, Between, PadReady, MemProgram, WellFormed;
    BetweenLive(s, r, BRANCH_LIMIT, rp);
    if n == 0 {
      t := s;
    } else {
      var p := l[n - 1];
      var u := ReadPrograms(l, n - 1, MemProgram(p, next), s, r, rp, mp, pad, fuel);
      var v := ReadPhase(l, n - 1, r, pad);
      t := ReadProgram(p, next, u, v.r, v.bc, rp, mp, pad, fuel);
    }
  }

  // ----- the theorem -----

  /** Calls the exported function of a module. */
  function Invoke(b: seq<Byte>, rp: Word32, mp: Word32, mem: Memory, fuel: nat): Ending {
    match ParseModule(b)
    case None => Next(Stuck)
    case Some(f) => Eval(f.body, Live(Empty, [I32(rp), I32(mp)] + seq(f.locals, _ => I64(0)), mem), fuel)
  }

  /** The linear memory has room for a register file at $rp and, apart from it, for 2048
      bytes at $mp. */
  predicate Linked(mem: Memory, rp: Word32, mp: Word32) {
    && Slots(mem, rp)
    && Owns(mem, mp) && mp + 8 * MEM_SIZE <= TWO_32
    && (mp + 8 * MEM_SIZE <= rp || rp + 8 * REG_SIZE <= mp)
  }

  /** What the caller provides. */
  predicate Callable(mem: Memory, rp: Word32, mp: Word32, r: Regs) {
    Linked(mem, rp, mp) && RegsAt(mem, rp, r)
  }

  /** The scratchpad after a run: what the first phase wrote, since the second only reads it. */
  function FinalPad(l: ProgramList, r: Regs): Scratchpad {
    WritePhase(l, NUM_PROGRAMS, r, Blank()).mem
  }

  /** The function falls off its end with an empty operand stack, the register file holds the
      result, the memory at $mp holds the scratchpad of the first phase, and no other memory
      has changed. */
  predicate Answered(mem: Memory, rp: Word32, mp: Word32, e: Ending, r: Regs, pad: Scratchpad) {
    && e.Next? && e.s.Live? && e.s.stack == Empty
    && RegsAt(e.s.mem, rp, r) && PadAt(e.s.mem, mp, pad)
    && e.s.mem.Keys == mem.Keys
    && forall a :: a in mem && (a < mp || mp + 8 * MEM_SIZE <= a) && !(rp <= a < rp + 64) ==> e.s.mem[a] == mem[a]
  }

  lemma EntryRun(next: Code, s: State, r: Regs, rp: Word32, mp: Word32, fuel: nat) returns (t: State)
    requires s.Live? && s.stack == Empty && |s.locals| == LOCALS && s.locals[0] == I32(rp) && s.locals[1] == I32(mp)
    requires RegsAt(s.mem, rp, r) && mp + 8 * MEM_SIZE <= TWO_32
    ensures && Between(t, r, BRANCH_LIMIT, rp) && t.Live? && t.mem == s.mem && |t.locals| == LOCALS
            && t.locals[1] == I32(Pointer(mp, NUM_PROGRAMS))
            && Eval(Line(LoadOps(REG_SIZE), Line(SetupOps(), next)), s, fuel) == Eval(next, t, fuel)
  {
    hide Eval, ExecAll, Line, LoadOps, SetupOps, LoadedUpTo, Agrees, Counter, Pointer, RegsAt;
    var u := LoadRun(REG_SIZE, s, r, rp);
    LoadedLength(u.locals, r);
    EvalLine(LoadOps(REG_SIZE), Line(SetupOps(), next), s, fuel);
    t := SetupRun(u, r, mp);
    EvalLine(SetupOps(), next, u, fuel);
  }

  lemma LoadedLength(x: seq<Val>, r: Regs)
    requires LoadedUpTo(x, r, REG_SIZE)
    ensures |x| == LOCALS
  {
  }

  /** From the end of the first phase to the end of the function. */
  lemma SecondRun(l: ProgramList, s: State, r: Regs, bc: nat, rp: Word32, mp: Word32, pad: Scratchpad, fuel: nat)
    requires AllWellFormed(l) && BRANCH_LIMIT <= fuel && bc <= BRANCH_LIMIT && Between(s, r, bc, rp)
      && PadReady(s, mp, pad)
    requires Slots(s.mem, rp)
    ensures var o := ReadPhase(l, NUM_PROGRAMS, r, pad);
            var e := Eval(Second(l), s, fuel);
            e.Next? && e.s.Live? && e.s.stack == Empty && e.s.mem == StoredBack(s.mem, rp, o.r, 8)
  {
    hide Eval, ExecAll, Agrees, Counter, PadAt, Slots, ReadPhase, StoredBack, AllWellFormed, Line, ClearOps,
         ResultOps, MemPrograms;
    ClearRun(s, r);
    var last := Line(ResultOps(8), End);
    EvalLine(ClearOps(), MemPrograms(l, NUM_PROGRAMS, last), s, fuel);
    var t := s.(locals := s.locals[BC := I64(Counter(BRANCH_LIMIT))]);
    var u := ReadPrograms(l, NUM_PROGRAMS, last, t, r, rp, mp, pad, fuel);
    var o := ReadPhase(l, NUM_PROGRAMS, r, pad);
    ResultRun(8, u, o.r, rp);
    EvalLine(ResultOps(8), End, u, fuel);
    EvalEnd(u.(mem := StoredBack(u.mem, rp, o.r, 8)), fuel);
  }

  lemma BodyComputes(l: ProgramList, s: State, rp: Word32, mp: Word32, r: Regs, fuel: nat)
    requires s.Live? && s.stack == Empty && |s.locals| == LOCALS && s.locals[0] == I32(rp) && s.locals[1] == I32(mp)
    requires AllWellFormed(l) && Callable(s.mem, rp, mp, r) && BRANCH_LIMIT <= fuel
    ensures Answered(s.mem, rp, mp, Eval(ListBody(l), s, fuel), Execute(l, r), FinalPad(l, r))
  {
    hide Eval, AllWellFormed, WritePhase, ReadPhase, Execute, Between, Pointer, Owns, Slots;
    hide RegsAt, Filled, Outside, PadAt, StoredBack, Line, LoadOps, SetupOps, RegPrograms, Second;
    var w := WritePhase(l, NUM_PROGRAMS, r, Blank());
    var a := EntryRun(RegPrograms(l, NUM_PROGRAMS, Second(l)), s, r, rp, mp, fuel);
    var b := WritePrograms(l, NUM_PROGRAMS, Second(l), a, r, rp, mp, fuel);
    PointerStart(mp);
    FullPad(b.mem, mp, w.mem);
    RegsKept(s.mem, b.mem, rp, mp, r);
    SlotsOf(b.mem, rp, r);
    SecondRun(l, b, w.r, w.bc, rp, mp, w.mem, fuel);
    FinalMemory(s.mem, b.mem, rp, mp, r, ReadPhase(l, NUM_PROGRAMS, w.r, w.mem).r, l);
    PadKept(b.mem, mp, w.mem, rp, ReadPhase(l, NUM_PROGRAMS, w.r, w.mem).r);
  }

  /** Calling the function of the emitted module, with fuel for the branch budget, ends with
      a balanced stack and the interpreter's result in the caller's register file. */
  lemma InvokeComputes(l: ProgramList, mem: Memory, rp: Word32, mp: Word32, r: Regs, fuel: nat)
    requires AllWellFormed(l) && Callable(mem, rp, mp, r) && BRANCH_LIMIT <= fuel
    ensures AllLaidOut(l)
    ensures Answered(mem, rp, mp, Invoke(ModuleBytes(l), rp, mp, mem, fuel), Execute(l, r), FinalPad(l, r))
  {
    hide Eval, ListBody, ParseModule, ModuleBytes, AllLaidOut, AllWellFormed, Execute, Answered, Callable, FinalPad;
    AllLayout(l);
    ModuleDecodes(l);
    var x := [I32(rp), I32(mp)] + seq(13, _ => I64(0));
    BodyComputes(l, Live(Empty, x, mem), rp, mp, r, fuel);
  }

  lemma AllLayout(l: ProgramList)
    requires AllWellFormed(l)
    ensures AllLaidOut(l)
  {
    hide Layout, OperandsOk, HazardFree;
  }

  lemma FinalMemory(m: Memory, m2: Memory, rp: int, mp: int, r: Regs, r': Regs, l: ProgramList)
    requires Outside(m, m2, mp) && RegsAt(m2, rp, r) && Slots(m2, rp) && AllWellFormed(l)
    requires var w := WritePhase(l, NUM_PROGRAMS, r, Blank());
             r' == ReadPhase(l, NUM_PROGRAMS, w.r, w.mem).r
    ensures var m' := StoredBack(m2, rp, r', 8);
            && RegsAt(m', rp, Execute(l, r)) && m'.Keys == m.Keys
            && forall a :: a in m && (a < mp || mp + 8 * MEM_SIZE <= a) && !(rp <= a < rp + 64) ==> m'[a] == m[a]
  {
    hide StoredBack, WellFormed, Execute, WritePhase, ReadPhase;
    ExecuteRegs(l, r);
    StoredBackKeys(m2, rp, r', 8);
    var m' := StoredBack(m2, rp, r', 8);
    forall j | 0 <= j < REG_SIZE ensures rp + 8 * j in m' && m'[rp + 8 * j] == r'[j] {
      assert rp + 8 * j in m2 && m2[rp + 8 * j] == r[j];
      if j < 8 { StoredBackCell(m2, rp, r', 8, j); } else { StoredBackElsewhere(m2, rp, r', 8, rp + 8 * j); }
    }
    forall a | a in m && (a < mp || mp + 8 * MEM_SIZE <= a) && !(rp <= a < rp + 64) ensures m'[a] == m[a] {
      StoredBackElsewhere(m2, rp, r', 8, a);
    }
  }

  // ----- the premises can be met -----

  /** Every register file has a caller: registers at 4096 and the scratchpad below. */
  lemma SomeCaller(r: Regs) returns (mem: Memory)
    ensures Callable(mem, 4096, 2048, r)
  {
    mem := CallerMemory(r);
  }
}
