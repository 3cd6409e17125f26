/** Running the emitted AArch64 code of one program is running the program. */
module A64Program {
  import opened Wrappers
  import opened Words
  import opened Vm
  import opened Budget
  import opened Slices
  import opened Stack
  import opened A64Machine
  import opened A64Schedule
  import opened A64Compiler
  import opened A64Decode
  import opened A64Order
  import opened A64Emitted
  import opened A64Simulation

  // ----- the loop body in source order -----

  lemma RegSourceSplit(p: Program)
    requires Compilable(p)
    ensures RegSource(p) == RmcgIsns(p[0]) + (XasCopyIsns(p[1]) + (MulIsns(p[2]) + (XasIsns(p[3])
                            + (MulIsns(p[4]) + (XasIsns(p[5]) + (MulIsns(p[6]) + BranchIsns(p[0].dst)))))))
  {
  }

  lemma MemSourceSplit(p: Program)
    requires Compilable(p)
    ensures MemSource(p) == RmcgIsns(p[0]) + (XasMemIsns(p[1], 15) + (MulMemIsns(p[2], 16) + (XasMemIsns(p[3], 17)
                            + (MulMemIsns(p[4], 16) + (XasMemIsns(p[5], 17) + (MulMemIsns(p[6], 16)
                            + (LoadIsns(17, p[8].src) + BranchIsns(p[0].dst))))))))
  {
  }

  /** What one pass over a loop leaves behind: the registers after the body, and a flag and
      a counter that agree with the interpreter's decision. */
  predicate Passed(s: State, t: State, p: Program, b: Regs, bc: nat)
    requires bc <= BRANCH_LIMIT
  {
    && s.Live? && t.Live? && t.sp == s.sp && t.mem == s.mem && t.x[8] == s.x[8]
    && Agrees(t.x, b)
    && t.zf == Taken(p, b, bc)
    && t.x[9] == Counter(if t.zf then bc - 1 else bc)
  }

  lemma RegSourceSim(p: Program, s: State, r: Regs, bc: nat)
    requires Compilable(p) && s.Live? && Agrees(s.x, r) && bc <= BRANCH_LIMIT && s.x[9] == Counter(bc)
    ensures Passed(s, Block(RegSource(p), s), p, Body(p, RegMode, r), bc)
  {
    hide Block, Exec, Arith, Agrees, And, Counter, RegSource, DistinctDestinations, OperandOk, ImmOk;
    hide MulIsns, XasIsns, XasCopyIsns, RmcgIsns, BranchIsns;
    RegSourceSplit(p);
    var r0 := Arith(p[0], RegMode, r);
    var r1 := Arith(p[1], RegMode, r0);
    var r2 := Arith(p[2], RegMode, r1);
    var r3 := Arith(p[3], RegMode, r2);
    var r4 := Arith(p[4], RegMode, r3);
    var r5 := Arith(p[5], RegMode, r4);
    var r6 := Arith(p[6], RegMode, r5);
    RmcgSim(p[0], RegMode, s, r);
    var s0 := Block(RmcgIsns(p[0]), s);
    XasCopySim(p[1], s0, r0);
    var s1 := Block(XasCopyIsns(p[1]), s0);
    MulSim(p[2], s1, r1);
    var s2 := Block(MulIsns(p[2]), s1);
    XasSim(p[3], s2, r2);
    var s3 := Block(XasIsns(p[3]), s2);
    MulSim(p[4], s3, r3);
    var s4 := Block(MulIsns(p[4]), s3);
    XasSim(p[5], s4, r4);
    var s5 := Block(XasIsns(p[5]), s4);
    MulSim(p[6], s5, r5);
    var s6 := Block(MulIsns(p[6]), s5);
    BranchSim(p[0].dst, s6, r6, bc);
    var b6 := BranchIsns(p[0].dst);
    var b5 := MulIsns(p[6]) + b6;
    var b4 := XasIsns(p[5]) + b5;
    var b3 := MulIsns(p[4]) + b4;
    var b2 := XasIsns(p[3]) + b3;
    var b1 := MulIsns(p[2]) + b2;
    var b0 := XasCopyIsns(p[1]) + b1;
    BlockAppend(RmcgIsns(p[0]), b0, s);
    BlockAppend(XasCopyIsns(p[1]), b1, s0);
    BlockAppend(MulIsns(p[2]), b2, s1);
    BlockAppend(XasIsns(p[3]), b3, s2);
    BlockAppend(MulIsns(p[4]), b4, s3);
    BlockAppend(XasIsns(p[5]), b5, s4);
    BlockAppend(MulIsns(p[6]), b6, s5);
    assert Block(RegSource(p), s) == Block(b6, s6);
    assert Body(p, RegMode, r) == r6;
  }

  lemma MemSourceSim(p: Program, s: State, r: Regs, bc: nat, pad: Scratchpad)
    requires Compilable(p) && s.Live? && Agrees(s.x, r) && bc <= BRANCH_LIMIT && s.x[9] == Counter(bc)
    requires PadAt(s.mem, s.sp, pad)
    ensures var b := Body(p, MemMode(pad), r); var t := Block(MemSource(p), s);
            Passed(s, t, p, b, bc) && (t.Live? ==> t.x[17] == pad[MemIndex(b[p[8].src])])
  {
    hide Block, Exec, Arith, Agrees, And, Counter, MemSource, DistinctDestinations, ImmOk;
    hide MulMemIsns, XasMemIsns, RmcgIsns, BranchIsns, LoadIsns, PadAt, MemIndex;
    MemSourceSplit(p);
    var mode := MemMode(pad);
    var r0 := Arith(p[0], mode, r);
    var r1 := Arith(p[1], mode, r0);
    var r2 := Arith(p[2], mode, r1);
    var r3 := Arith(p[3], mode, r2);
    var r4 := Arith(p[4], mode, r3);
    var r5 := Arith(p[5], mode, r4);
    var r6 := Arith(p[6], mode, r5);
    RmcgSim(p[0], mode, s, r);
    var s0 := Block(RmcgIsns(p[0]), s);
    XasMemSim(p[1], 15, s0, r0, pad);
    var s1 := Block(XasMemIsns(p[1], 15), s0);
    MulMemSim(p[2], 16, s1, r1, pad);
    var s2 := Block(MulMemIsns(p[2], 16), s1);
    XasMemSim(p[3], 17, s2, r2, pad);
    var s3 := Block(XasMemIsns(p[3], 17), s2);
    MulMemSim(p[4], 16, s3, r3, pad);
    var s4 := Block(MulMemIsns(p[4], 16), s3);
    XasMemSim(p[5], 17, s4, r4, pad);
    var s5 := Block(XasMemIsns(p[5], 17), s4);
    MulMemSim(p[6], 16, s5, r5, pad);
    var s6 := Block(MulMemIsns(p[6], 16), s5);
    LoadSim(17, p[8].src, s6, r6, pad);
    var s7 := Block(LoadIsns(17, p[8].src), s6);
    BranchSim(p[0].dst, s7, r6, bc);
    var b7 := BranchIsns(p[0].dst);
    var b6 := LoadIsns(17, p[8].src) + b7;
    var b5 := MulMemIsns(p[6], 16) + b6;
    var b4 := XasMemIsns(p[5], 17) + b5;
    var b3 := MulMemIsns(p[4], 16) + b4;
    var b2 := XasMemIsns(p[3], 17) + b3;
    var b1 := MulMemIsns(p[2], 16) + b2;
    var b0 := XasMemIsns(p[1], 15) + b1;
    BlockAppend(RmcgIsns(p[0]), b0, s);
    BlockAppend(XasMemIsns(p[1], 15), b1, s0);
    BlockAppend(MulMemIsns(p[2], 16), b2, s1);
    BlockAppend(XasMemIsns(p[3], 17), b3, s2);
    BlockAppend(MulMemIsns(p[4], 16), b4, s3);
    BlockAppend(XasMemIsns(p[5], 17), b5, s4);
    BlockAppend(MulMemIsns(p[6], 16), b6, s5);
    BlockAppend(LoadIsns(17, p[8].src), b7, s6);
    assert Block(MemSource(p), s) == Block(b7, s7);
    assert Body(p, mode, r) == r6;
  }

  lemma LoadSim(t: Reg, src: RegIndex, s: State, r: Regs, pad: Scratchpad)
    requires 14 <= t && src < 8 && s.Live? && Agrees(s.x, r) && PadAt(s.mem, s.sp, pad)
    ensures var u := Block(LoadIsns(t, src), s); Same(s, u) && Agrees(u.x, r) && u.x[t] == pad[MemIndex(r[src])]
  {
    hide Exec, Block, MemIndex, PadAt;
    Block2(AluImm(ANDI, t, src, 2040), LdrSp(t, t), s);
    LoadPair(t, src, s, pad);
    AgreesTemp(s.x, r, t, pad[MemIndex(s.x[src])]);
  }

  // ----- fetching -----

  lemma FetchAt(code: seq<u32>, pc: nat, w: seq<u32>, k: nat)
    requires CodeAt(code, pc, w) && k < |w|
    ensures Fetch(code, pc + k) == Decode(w[k])
  {
    hide Decode;
    assert code[pc..pc + |w|][k] == code[pc + k];
  }

  lemma HoldsBlock(code: seq<u32>, pc: nat, w: seq<u32>, b: seq<Isn>)
    requires CodeAt(code, pc, w) && Encodes(w, b)
    ensures Holds(code, pc, b)
  {
    hide Decode, Fetch;
    forall k | 0 <= k < |b| ensures Fetch(code, pc + k) == Some(b[k]) {
      FetchAt(code, pc, w, k);
    }
  }

  // ----- one pass through a loop -----

  lemma BeqStep(code: seq<u32>, pc: nat, disp: int, s: State)
    requires Fetch(code, pc) == Some(BEq(disp)) && s.Live? && pc + disp >= 0
    ensures Step(code, Running(pc, s)) == Running(if s.zf then pc + disp else pc + 1, s)
  {
    hide Fetch;
  }

  /** The emitted body and the branch behind it. */
  lemma LoopPass(code: seq<u32>, pc: nat, w: seq<u32>, b: seq<Isn>, s: State)
    requires CodeAt(code, pc, w) && Encodes(w, b) && Straight(b) && Block(b, s).Live?
    requires Fetch(code, pc + |b|) == Some(BEq(-|b|))
    ensures var t := Block(b, s);
            Steps(code, Running(pc, s), |b| + 1) == Running(if t.zf then pc else pc + |b| + 1, t)
  {
    hide Fetch, Decode, Block, Step, CodeAt;
    HoldsBlock(code, pc, w, b);
    FetchBlock(code, pc, b, s);
    StepsSnoc(code, Running(pc, s), |b|);
    BeqStep(code, pc + |b|, -|b|, Block(b, s));
  }

  lemma BlocksStraight(p: Program)
    requires WellFormed(p)
    ensures Straight(RegBlock(p)) && Straight(MemBlock(p)) && Straight(TailBlock(p))
  {
    assert p[8].dst < 8;
    hide OperandsOk, HazardFree, RegPosition, MemPosition, TailOrder, PreXasIsn, XasIsn, PremulIsn, StoreIsn;
    forall k | 0 <= k < 18 ensures !RegBlock(p)[k].BEq? && !RegBlock(p)[k].Ret? {
      MovableRegIsn(p, RegPosition(k));
    }
    forall k | 0 <= k < 31 ensures !MemBlock(p)[k].BEq? && !MemBlock(p)[k].Ret? {
      MovableMemIsn(p, MemPosition(k));
    }
    TailOrderFacts(p[8].dst / 2);
    forall k | 0 <= k < 6 ensures !TailBlock(p)[k].BEq? && !TailBlock(p)[k].Ret? {
      MovableTailIsn(p, TailOrder(p[8].dst / 2)[k]);
    }
  }

  lemma MovableRegIsn(p: Program, q: nat)
    requires Compilable(p) && q < 18
    ensures !RegIsn(p, q).BEq? && !RegIsn(p, q).Ret?
  {
    RegFootprintCovers(p, q);
  }

  lemma MovableMemIsn(p: Program, q: nat)
    requires Compilable(p) && q < 31
    ensures !MemIsn(p, q).BEq? && !MemIsn(p, q).Ret?
  {
    MemFootprintCovers(p, q);
  }

  lemma MovableTailIsn(p: Program, q: nat)
    requires Compilable(p) && q < 6
    ensures !TailIsn(p, q).BEq? && !TailIsn(p, q).Ret?
  {
    hide OperandsOk;
  }

  lemma RegPass(code: seq<u32>, pc: nat, p: Program, s: State, r: Regs, bc: nat)
    requires WellFormed(p) && CodeAt(code, pc, RegLoop(p) + [BeqWord(18, 0)])
    requires s.Live? && Agrees(s.x, r) && bc <= BRANCH_LIMIT && s.x[9] == Counter(bc)
    ensures var t := Block(RegBlock(p), s);
            && Passed(s, t, p, Body(p, RegMode, r), bc)
            && Steps(code, Running(pc, s), 19) == Running(if t.zf then pc else pc + 19, t)
  {
    hide Fetch, Decode, Block, Step, Steps, CodeAt, RegLoop, RegSource, Permute, RegOrder, BeqWord, Body, Agrees,
         Counter;
    RegSchedule(p);
    ScheduleSound(RegSource(p), RegOrder(), s);
    RegSourceSim(p, s, r, bc);
    RegLoopEncodes(p);
    BlocksStraight(p);
    CodeAtPart(code, pc, RegLoop(p), [BeqWord(18, 0)]);
    FetchAt(code, pc + 18, [BeqWord(18, 0)], 0);
    BeqDecodes(18, 0);
    LoopPass(code, pc, RegLoop(p), RegBlock(p), s);
  }

  lemma MemPass(code: seq<u32>, pc: nat, p: Program, s: State, r: Regs, bc: nat, pad: Scratchpad)
    requires WellFormed(p) && CodeAt(code, pc, MemLoop(p) + [BeqWord(31, 0)])
    requires s.Live? && Agrees(s.x, r) && bc <= BRANCH_LIMIT && s.x[9] == Counter(bc)
    requires PadAt(s.mem, s.sp, pad)
    ensures var t := Block(MemBlock(p), s); var b := Body(p, MemMode(pad), r);
            && Passed(s, t, p, b, bc) && (t.Live? ==> t.x[17] == pad[MemIndex(b[p[8].src])])
            && Steps(code, Running(pc, s), 32) == Running(if t.zf then pc else pc + 32, t)
  {
    hide Fetch, Decode, Block, Step, Steps, CodeAt, MemLoop, MemSource, Permute, MemOrder, BeqWord, Body, Agrees,
         Counter;
    hide PadAt, MemIndex;
    MemSchedule(p);
    ScheduleSound(MemSource(p), MemOrder(), s);
    MemSourceSim(p, s, r, bc, pad);
    MemLoopEncodes(p);
    BlocksStraight(p);
    CodeAtPart(code, pc, MemLoop(p), [BeqWord(31, 0)]);
    FetchAt(code, pc + 31, [BeqWord(31, 0)], 0);
    BeqDecodes(31, 0);
    LoopPass(code, pc, MemLoop(p), MemBlock(p), s);
  }

  // ----- whole programs, scratchpad mode -----

  lemma MemTail(code: seq<u32>, pc: nat, p: Program, s: State, r: Regs, pad: Scratchpad)
    requires WellFormed(p) && CodeAt(code, pc, [PreXasWord(p[8]), XasWord(p[8], 17)])
    requires s.Live? && Agrees(s.x, r) && s.x[17] == pad[MemIndex(r[p[8].src])]
    ensures var t := Exec(XasIsn(p[8], 17), Exec(PreXasIsn(p[8]), s));
            && Same(s, t) && Agrees(t.x, Arith(p[8], MemMode(pad), r))
            && Steps(code, Running(pc, s), 2) == Running(pc + 2, t)
  {
    hide Fetch, Decode, Steps, Exec, Block, Result, PreXasWord, XasWord, PreXasIsn, XasIsn, MemIndex, U32, Agrees;
    hide DistinctDestinations, HazardFree;
    var i := p[8];
    A64Simulation.AgreesAt(s.x, r, i);
    var w := [PreXasWord(i), XasWord(i, 17)];
    var b := [PreXasIsn(i), XasIsn(i, 17)];
    PreXasDecodes(i);
    XasDecodes(i, 17);
    Literals();
    HoldsBlock(code, pc, w, b);
    Block2(b[0], b[1], s);
    XasPair(i, 17, s);
    AgreesWrite(s.x, r, i.dst, Result(i.opcode, s.x[i.dst], i.imm, s.x[17]));
    XasShape(i, 17);
    FetchBlock(code, pc, b, s);
  }

  lemma MemCodeSplit(p: Program)
    requires Compilable(p)
    ensures MemCode(p) == MemLoop(p) + [BeqWord(31, 0)] + [PreXasWord(p[8]), XasWord(p[8], 17)]
  {
    hide MemLoop, BeqWord, PreXasWord, XasWord;
  }

  /** From the head of the loop to the end of the program. */
  lemma {:induction false} MemRun(code: seq<u32>, pc: nat, p: Program, s: State, r: Regs, bc: nat, pad: Scratchpad)
    returns (t: State)
    requires WellFormed(p) && CodeAt(code, pc, MemCode(p))
    requires s.Live? && Agrees(s.x, r) && bc <= BRANCH_LIMIT && s.x[9] == Counter(bc)
    requires PadAt(s.mem, s.sp, pad)
    ensures var o := Passes(p, MemMode(pad), r, bc);
            && t.Live? && t.sp == s.sp && t.mem == s.mem && t.x[8] == s.x[8]
            && Agrees(t.x, o.r) && t.x[9] == Counter(o.bc)
            && Steps(code, Running(pc, s), MEM_WORDS + 32 * (bc - o.bc)) == Running(pc + MEM_WORDS, t)
    decreases bc
  {
    hide MemCode, MemLoop, CodeAt, PreXasWord, XasWord, BeqWord, OperandsOk, HazardFree;
    hide Steps, Step, Exec, Block, Body, Arith, Agrees, Counter, PadAt, And, MemIndex, MemBlock, PreXasIsn, XasIsn;
    var mode := MemMode(pad);
    var loop := MemLoop(p) + [BeqWord(31, 0)];
    var tail := [PreXasWord(p[8]), XasWord(p[8], 17)];
    MemCodeSplit(p);
    CodeAtPart(code, pc, loop, tail);
    MemPass(code, pc, p, s, r, bc, pad);
    var b := Body(p, mode, r);
    var u := Block(MemBlock(p), s);
    if Taken(p, b, bc) {
      t := MemRun(code, pc, p, u, b, bc - 1, pad);
      StepsAdd(code, Running(pc, s), 32, MEM_WORDS + 32 * (bc - 1 - Passes(p, mode, b, bc - 1).bc));
    } else {
      MemTail(code, pc + 32, p, u, b, pad);
      t := Exec(XasIsn(p[8], 17), Exec(PreXasIsn(p[8]), u));
      StepsAdd(code, Running(pc, s), 32, 2);
    }
  }

  // ----- whole programs, register mode -----

  /** Memory after the four stores of pairs. */
  function Stored(mem: Memory, sp: int, r: Regs): Memory {
    Put(Put(Put(Put(mem, sp + 48, r[1], r[0]), sp + 32, r[3], r[2]), sp + 16, r[5], r[4]), sp, r[7], r[6])
  }

  lemma StoreSim(s: State, rt: Reg, rt2: Reg, j: nat)
    requires s.Live? && Room(s.mem, s.sp) && j < 7
    ensures var t := Exec(StpSp(rt, rt2, 8 * j), s);
            t == s.(mem := Put(s.mem, s.sp + 8 * j, s.x[rt], s.x[rt2])) && Room(t.mem, s.sp)
  {
    assert s.sp + 8 * j in s.mem && s.sp + 8 * (j + 1) in s.mem;
  }

  lemma StoresSim(s: State, r: Regs)
    requires s.Live? && Agrees(s.x, r) && Room(s.mem, s.sp)
    ensures Block([StoreIsn(0), StoreIsn(1), StoreIsn(2), StoreIsn(3)], s) == s.(mem := Stored(s.mem, s.sp, r))
  {
    hide Block, Exec, Room, Put, Agrees;
    EightAgree(s.x, r);
    Block4(StoreIsn(0), StoreIsn(1), StoreIsn(2), StoreIsn(3), s);
    StoreSim(s, 1, 0, 6);
    var t := Exec(StoreIsn(0), s);
    StoreSim(t, 3, 2, 4);
    var u := Exec(StoreIsn(1), t);
    StoreSim(u, 5, 4, 2);
    var v := Exec(StoreIsn(2), u);
    StoreSim(v, 7, 6, 0);
  }

  lemma TailSourceSim(p: Program, s: State, r: Regs)
    requires WellFormed(p) && s.Live? && Agrees(s.x, r) && Room(s.mem, s.sp)
    ensures var t := Block(TailSource(p), s); var r' := Arith(p[8], RegMode, r);
            && t.Live? && t.sp == s.sp && t.mem == Stored(s.mem, s.sp, r') && t.x[8] == s.x[8] && t.x[9] == s.x[9]
            && Agrees(t.x, r')
  {
    hide Block, Agrees, Arith, Stored, PreXasIsn, XasIsn, StoreIsn, DistinctDestinations, HazardFree;
    var a, b := XasIsns(p[8]), [StoreIsn(0), StoreIsn(1), StoreIsn(2), StoreIsn(3)];
    assert TailSource(p) == a + b;
    hide TailSource, XasIsns, Room;
    BlockAppend(a, b, s);
    XasSim(p[8], s, r);
    StoresSim(Block(a, s), Arith(p[8], RegMode, r));
  }

  lemma RegTailRun(code: seq<u32>, pc: nat, p: Program, s: State, r: Regs)
    requires WellFormed(p) && CodeAt(code, pc, RegTail(p))
    requires s.Live? && Agrees(s.x, r) && Room(s.mem, s.sp)
    ensures var t := Block(TailBlock(p), s); var r' := Arith(p[8], RegMode, r);
            && t.Live? && t.sp == s.sp && t.mem == Stored(s.mem, s.sp, r') && t.x[8] == s.x[8] && t.x[9] == s.x[9]
            && Agrees(t.x, r')
            && Steps(code, Running(pc, s), 6) == Running(pc + 6, t)
  {
    assert p[8].dst < 8;
    hide Fetch, Decode, Block, Step, Steps, CodeAt, RegTail, TailSource, Permute, TailOrder, Agrees, Stored, Arith,
         Room;
    TailSchedule(p);
    ScheduleSound(TailSource(p), TailOrder(p[8].dst / 2), s);
    TailSourceSim(p, s, r);
    TailEncodes(p);
    BlocksStraight(p);
    HoldsBlock(code, pc, RegTail(p), TailBlock(p));
    FetchBlock(code, pc, TailBlock(p), s);
  }

  /** From the head of the loop to the end of the program. */
  lemma {:induction false} RegRun(code: seq<u32>, pc: nat, p: Program, s: State, r: Regs, bc: nat) returns (t: State)
    requires WellFormed(p) && CodeAt(code, pc, RegLoop(p) + [BeqWord(18, 0)] + RegTail(p))
    requires s.Live? && Agrees(s.x, r) && bc <= BRANCH_LIMIT && s.x[9] == Counter(bc) && Room(s.mem, s.sp)
    ensures var o := Passes(p, RegMode, r, bc);
            && t.Live? && t.sp == s.sp && t.mem == Stored(s.mem, s.sp, o.r) && t.x[8] == s.x[8]
            && Agrees(t.x, o.r) && t.x[9] == Counter(o.bc)
            && Steps(code, Running(pc, s), 25 + 19 * (bc - o.bc)) == Running(pc + 25, t)
    decreases bc
  {
    hide RegLoop, RegTail, CodeAt, BeqWord, OperandsOk, HazardFree, Layout, Room, Stored;
    hide Steps, Step, Exec, Block, Body, Arith, Agrees, Counter, And, RegBlock, TailBlock;
    CodeAtPart(code, pc, RegLoop(p) + [BeqWord(18, 0)], RegTail(p));
    RegPass(code, pc, p, s, r, bc);
    var b := Body(p, RegMode, r);
    var u := Block(RegBlock(p), s);
    if Taken(p, b, bc) {
      t := RegRun(code, pc, p, u, b, bc - 1);
      StepsAdd(code, Running(pc, s), 19, 25 + 19 * (bc - 1 - Passes(p, RegMode, b, bc - 1).bc));
    } else {
      RegTailRun(code, pc + 19, p, u, b);
      t := Block(TailBlock(p), u);
      StepsAdd(code, Running(pc, s), 19, 6);
    }
  }
}
