/** Running the emitted x86-64 code of one program is running the program. */
module X86Program {
  import opened Wrappers
  import opened Words
  import opened Vm
  import opened Budget
  import opened Slices
  import opened Stack
  import opened X86Machine
  import opened X86Compiler
  import opened X86Decode
  import opened X86Simulation

  // ----- where the pieces of a program lie -----

  lemma RegPiecesAt(code: seq<u8>, pc: nat, p: Program)
    requires Compilable(p) && CodeAt(code, pc, RegCode(p))
    ensures && p[0].src >= 8
            && CodeAt(code, pc, RmcgBytes(p[0]))
            && CodeAt(code, pc + 16, XasRegBytes(p[1])) && CodeAt(code, pc + 23, MulRegBytes(p[2]))
            && CodeAt(code, pc + 31, XasRegBytes(p[3])) && CodeAt(code, pc + 38, MulRegBytes(p[4]))
            && CodeAt(code, pc + 46, XasRegBytes(p[5])) && CodeAt(code, pc + 53, MulRegBytes(p[6]))
            && CodeAt(code, pc + 61, CodeBranch()) && CodeAt(code, pc + 69, JzBytes(REG_SPAN))
            && CodeAt(code, pc + 71, XasRegBytes(p[8]))
  {
    assert p[0].src >= 8;
    ShortOffsets(REG_SPAN);
    hide CodeAt, OperandsOk, RmcgBytes, XasRegBytes, MulRegBytes, CodeBranch, JzBytes;
    var b0, b1, b2, b3 := RmcgBytes(p[0]), XasRegBytes(p[1]), MulRegBytes(p[2]), XasRegBytes(p[3]);
    var b4, b5, b6, b7 := MulRegBytes(p[4]), XasRegBytes(p[5]), MulRegBytes(p[6]), CodeBranch();
    var b8 := XasRegBytes(p[8]);
    assert RegCode(p) == RegBody(p) + JzBytes(REG_SPAN) + b8;
    CodeAtPart(code, pc, RegBody(p) + JzBytes(REG_SPAN), b8);
    CodeAtPart(code, pc, RegBody(p), JzBytes(REG_SPAN));
    assert RegBody(p) == b0 + b1 + b2 + b3 + b4 + b5 + b6 + b7;
    CodeAtPart(code, pc, b0 + b1 + b2 + b3 + b4 + b5 + b6, b7);
    CodeAtPart(code, pc, b0 + b1 + b2 + b3 + b4 + b5, b6);
    CodeAtPart(code, pc, b0 + b1 + b2 + b3 + b4, b5);
    CodeAtPart(code, pc, b0 + b1 + b2 + b3, b4);
    CodeAtPart(code, pc, b0 + b1 + b2, b3);
    CodeAtPart(code, pc, b0 + b1, b2);
    CodeAtPart(code, pc, b0, b1);
  }

  lemma MemPiecesAt(code: seq<u8>, pc: nat, p: Program)
    requires Compilable(p) && CodeAt(code, pc, MemCode(p))
    ensures && p[0].src >= 8
            && CodeAt(code, pc, RmcgBytes(p[0]))
            && CodeAt(code, pc + 16, XasMemBytes(p[1])) && CodeAt(code, pc + 32, MulMemBytes(p[2]))
            && CodeAt(code, pc + 49, XasMemBytes(p[3])) && CodeAt(code, pc + 65, MulMemBytes(p[4]))
            && CodeAt(code, pc + 82, XasMemBytes(p[5])) && CodeAt(code, pc + 98, MulMemBytes(p[6]))
            && CodeAt(code, pc + 115, CodeBranch()) && CodeAt(code, pc + 123, JzBytes(MEM_SPAN))
            && CodeAt(code, pc + 125, XasMemBytes(p[8]))
  {
    assert p[0].src >= 8;
    ShortOffsets(MEM_SPAN);
    hide CodeAt, OperandsOk, RmcgBytes, XasMemBytes, MulMemBytes, CodeBranch, JzBytes;
    var b0, b1, b2, b3 := RmcgBytes(p[0]), XasMemBytes(p[1]), MulMemBytes(p[2]), XasMemBytes(p[3]);
    var b4, b5, b6, b7 := MulMemBytes(p[4]), XasMemBytes(p[5]), MulMemBytes(p[6]), CodeBranch();
    var b8 := XasMemBytes(p[8]);
    assert MemCode(p) == MemBody(p) + JzBytes(MEM_SPAN) + b8;
    CodeAtPart(code, pc, MemBody(p) + JzBytes(MEM_SPAN), b8);
    CodeAtPart(code, pc, MemBody(p), JzBytes(MEM_SPAN));
    assert MemBody(p) == b0 + b1 + b2 + b3 + b4 + b5 + b6 + b7;
    CodeAtPart(code, pc, b0 + b1 + b2 + b3 + b4 + b5 + b6, b7);
    CodeAtPart(code, pc, b0 + b1 + b2 + b3 + b4 + b5, b6);
    CodeAtPart(code, pc, b0 + b1 + b2 + b3 + b4, b5);
    CodeAtPart(code, pc, b0 + b1 + b2 + b3, b4);
    CodeAtPart(code, pc, b0 + b1 + b2, b3);
    CodeAtPart(code, pc, b0 + b1, b2);
    CodeAtPart(code, pc, b0, b1);
  }

  // ----- one pass -----

  /** After the branch: the registers agree, the zero flag is the interpreter's decision and
      the loop head will count exactly the branches taken. */
  predicate Passed(s: State, t: State, p: Program, b: Regs, bc: nat)
    requires bc <= BRANCH_LIMIT
  {
    && s.Live? && t.Live? && t.sp == s.sp && t.mem == s.mem && t.x[1] == s.x[1]
    && Agrees(t.x, b)
    && t.zf == Some(Taken(p, b, bc))
    && Counted(t, if Taken(p, b, bc) then bc - 1 else bc)
    && t.x[3] == Counter(bc) && Low32(t.x[5]) != 0
  }

  lemma RegPass(code: seq<u8>, pc: nat, p: Program, s: State, r: Regs, bc: nat) returns (t: State)
    requires Compilable(p) && CodeAt(code, pc, RegCode(p))
    requires bc <= BRANCH_LIMIT && Counted(s, bc) && Agrees(s.x, r)
    ensures && Passed(s, t, p, Body(p, RegMode, r), bc)
            && Steps(code, Running(pc + 2, s), 20)
               == Running(if Taken(p, Body(p, RegMode, r), bc) then pc + 2 else pc + 71, t)
  {
    hide Steps, Arith, Agrees, And, Counter, Low32, CodeAt, RegCode, RmcgBytes, XasRegBytes, MulRegBytes, CodeBranch,
         JzBytes;
    hide OperandOk, DistinctDestinations, ImmOk;
    RegPiecesAt(code, pc, p);
    BodyKeepsFlag(p, RegMode, r);
    var r0 := Arith(p[0], RegMode, r);
    var r1 := Arith(p[1], RegMode, r0);
    var r2 := Arith(p[2], RegMode, r1);
    var r3 := Arith(p[3], RegMode, r2);
    var r4 := Arith(p[4], RegMode, r3);
    var r5 := Arith(p[5], RegMode, r4);
    var r6 := Arith(p[6], RegMode, r5);
    assert Body(p, RegMode, r) == r6;
    hide Body;
    var s0 := RmcgRun(code, pc, p[0], RegMode, s, r, bc);
    var s1 := XasRegRun(code, pc + 16, p[1], s0, r0);
    var s2 := MulRegRun(code, pc + 23, p[2], s1, r1);
    var s3 := XasRegRun(code, pc + 31, p[3], s2, r2);
    var s4 := MulRegRun(code, pc + 38, p[4], s3, r3);
    var s5 := XasRegRun(code, pc + 46, p[5], s4, r4);
    var s6 := MulRegRun(code, pc + 53, p[6], s5, r5);
    assert s6.x[2] == r6[p[0].dst] && s6.x[3] == Counter(bc);
    t := BranchRun(code, pc + 61, REG_SPAN, p[0].dst, s6, r6, bc);
    var c := Running(pc + 2, s);
    StepsAdd(code, c, 4, 2);
    StepsAdd(code, c, 6, 2);
    StepsAdd(code, c, 8, 2);
    StepsAdd(code, c, 10, 2);
    StepsAdd(code, c, 12, 2);
    StepsAdd(code, c, 14, 2);
    StepsAdd(code, c, 16, 4);
  }

  lemma MemPass(code: seq<u8>, pc: nat, p: Program, s: State, r: Regs, bc: nat, pad: Scratchpad) returns (t: State)
    requires Compilable(p) && CodeAt(code, pc, MemCode(p))
    requires bc <= BRANCH_LIMIT && Counted(s, bc) && Agrees(s.x, r) && PadAt(s.mem, s.sp, pad)
    ensures && Passed(s, t, p, Body(p, MemMode(pad), r), bc)
            && Steps(code, Running(pc + 2, s), 32)
               == Running(if Taken(p, Body(p, MemMode(pad), r), bc) then pc + 2 else pc + 125, t)
  {
    hide Steps, Arith, Agrees, And, Counter, Low32, CodeAt, MemCode, RmcgBytes, XasMemBytes, MulMemBytes, CodeBranch,
         JzBytes;
    hide OperandOk, DistinctDestinations, ImmOk, PadAt;
    MemPiecesAt(code, pc, p);
    var mode := MemMode(pad);
    BodyKeepsFlag(p, mode, r);
    var r0 := Arith(p[0], mode, r);
    var r1 := Arith(p[1], mode, r0);
    var r2 := Arith(p[2], mode, r1);
    var r3 := Arith(p[3], mode, r2);
    var r4 := Arith(p[4], mode, r3);
    var r5 := Arith(p[5], mode, r4);
    var r6 := Arith(p[6], mode, r5);
    assert Body(p, mode, r) == r6;
    hide Body;
    var s0 := RmcgRun(code, pc, p[0], mode, s, r, bc);
    var s1 := XasMemRun(code, pc + 16, p[1], s0, r0, pad);
    var s2 := MulMemRun(code, pc + 32, p[2], s1, r1, pad);
    var s3 := XasMemRun(code, pc + 49, p[3], s2, r2, pad);
    var s4 := MulMemRun(code, pc + 65, p[4], s3, r3, pad);
    var s5 := XasMemRun(code, pc + 82, p[5], s4, r4, pad);
    var s6 := MulMemRun(code, pc + 98, p[6], s5, r5, pad);
    assert s6.x[2] == r6[p[0].dst] && s6.x[3] == Counter(bc);
    t := BranchRun(code, pc + 115, MEM_SPAN, p[0].dst, s6, r6, bc);
    var c := Running(pc + 2, s);
    StepsAdd(code, c, 4, 4);
    StepsAdd(code, c, 8, 4);
    StepsAdd(code, c, 12, 4);
    StepsAdd(code, c, 16, 4);
    StepsAdd(code, c, 20, 4);
    StepsAdd(code, c, 24, 4);
    StepsAdd(code, c, 28, 4);
  }

  // ----- whole programs -----

  /** Between programs: ebx is the counter, ebp is not zero. */
  predicate Between(s: State, r: Regs, bc: nat)
    requires bc <= BRANCH_LIMIT
  {
    s.Live? && Agrees(s.x, r) && s.x[3] == Counter(bc) && Low32(s.x[5]) != 0
  }

  /** From two bytes into the loop head to the end of the program. */
  lemma {:induction false} RegLoopRun(code: seq<u8>, pc: nat, p: Program, s: State, r: Regs, bc: nat) returns (t: State)
    requires Compilable(p) && CodeAt(code, pc, RegCode(p))
    requires bc <= BRANCH_LIMIT && Counted(s, bc) && Agrees(s.x, r)
    ensures var o := Passes(p, RegMode, r, bc);
            && Between(t, o.r, o.bc) && t.Live? && s.Live? && t.sp == s.sp && t.mem == s.mem && t.x[1] == s.x[1]
            && Steps(code, Running(pc + 2, s), 22 + 20 * (bc - o.bc)) == Running(pc + REG_BYTES, t)
    decreases bc
  {
    hide Steps, Body, Taken, Arith, Agrees, Counter, Low32, CodeAt, RegCode, XasRegBytes, OperandOk,
         DistinctDestinations;
    hide RmcgBytes, MulRegBytes, CodeBranch, JzBytes, Counted;
    var u := RegPass(code, pc, p, s, r, bc);
    var b := Body(p, RegMode, r);
    var c := Running(pc + 2, s);
    if Taken(p, b, bc) {
      TakenPositive(p, b, bc);
      t := RegLoopRun(code, pc, p, u, b, bc - 1);
      StepsAdd(code, c, 20, 22 + 20 * (bc - 1 - Passes(p, RegMode, b, bc - 1).bc));
    } else {
      RegPiecesAt(code, pc, p);
      t := XasRegRun(code, pc + 71, p[8], u, b);
      StepsAdd(code, c, 20, 2);
    }
  }

  lemma TakenPositive(p: Program, b: Regs, bc: nat)
    requires Taken(p, b, bc)
    ensures bc > 0
  {
  }

  lemma {:induction false} MemLoopRun(code: seq<u8>, pc: nat, p: Program, s: State, r: Regs, bc: nat, pad: Scratchpad)
    returns (t: State)
    requires Compilable(p) && CodeAt(code, pc, MemCode(p))
    requires bc <= BRANCH_LIMIT && Counted(s, bc) && Agrees(s.x, r) && PadAt(s.mem, s.sp, pad)
    ensures var o := Passes(p, MemMode(pad), r, bc);
            && Between(t, o.r, o.bc) && t.Live? && s.Live? && t.sp == s.sp && t.mem == s.mem && t.x[1] == s.x[1]
            && Steps(code, Running(pc + 2, s), 36 + 32 * (bc - o.bc)) == Running(pc + MEM_BYTES, t)
    decreases bc
  {
    hide Steps, Body, Taken, Arith, Agrees, Counter, Low32, CodeAt, MemCode, XasMemBytes, OperandOk,
         DistinctDestinations;
    hide RmcgBytes, MulMemBytes, CodeBranch, JzBytes, Counted, PadAt;
    var u := MemPass(code, pc, p, s, r, bc, pad);
    var b := Body(p, MemMode(pad), r);
    var c := Running(pc + 2, s);
    if Taken(p, b, bc) {
      TakenPositive(p, b, bc);
      t := MemLoopRun(code, pc, p, u, b, bc - 1, pad);
      StepsAdd(code, c, 32, 36 + 32 * (bc - 1 - Passes(p, MemMode(pad), b, bc - 1).bc));
    } else {
      MemPiecesAt(code, pc, p);
      t := XasMemRun(code, pc + 125, p[8], u, b, pad);
      StepsAdd(code, c, 32, 4);
    }
  }

  /** Entered from above, the head counts nothing. */
  lemma EnterHead(code: seq<u8>, pc: nat, i: Instruction, s: State, r: Regs, bc: nat) returns (t: State)
    requires i.src >= 8 && CodeAt(code, pc, RmcgBytes(i)) && bc <= BRANCH_LIMIT && Between(s, r, bc)
    ensures t == s.(zf := Some(false)) && Counted(t, bc) && Agrees(t.x, r)
    ensures Steps(code, Running(pc, s), 1) == Running(pc + 2, t)
  {
    hide Steps, CodeAt, CodeTarget, Agrees, Counter, Low32, ImulReg4c, OpImmBytes, OpRegBytes, U32;
    var rest := ImulReg4c(U32(i.dst), U32(i.src - 2)) + OpImmBytes(0x00c8_c149, U32(i.dst), i.imm)
      + OpRegBytes(0x4c, 0xc089, 2, U32(i.dst));
    assert RmcgBytes(i) == CodeTarget() + rest;
    CodeAtPart(code, pc, CodeTarget(), rest);
    HeadRun(code, pc, s);
    t := s.(zf := Some(false));
  }

  lemma RegRun(code: seq<u8>, pc: nat, p: Program, s: State, r: Regs, bc: nat) returns (t: State)
    requires Compilable(p) && CodeAt(code, pc, RegCode(p)) && bc <= BRANCH_LIMIT && Between(s, r, bc)
    ensures var o := Passes(p, RegMode, r, bc);
            && Between(t, o.r, o.bc) && t.Live? && s.Live? && t.sp == s.sp && t.mem == s.mem && t.x[1] == s.x[1]
            && Steps(code, Running(pc, s), 23 + 20 * (bc - o.bc)) == Running(pc + REG_BYTES, t)
  {
    hide Steps, Passes, CodeAt, RegCode, RmcgBytes, XasRegBytes, MulRegBytes, CodeBranch, JzBytes, OperandOk, Counted;
    hide DistinctDestinations, Agrees;
    RegPiecesAt(code, pc, p);
    var u := EnterHead(code, pc, p[0], s, r, bc);
    t := RegLoopRun(code, pc, p, u, r, bc);
    StepsAdd(code, Running(pc, s), 1, 22 + 20 * (bc - Passes(p, RegMode, r, bc).bc));
  }

  lemma MemRun(code: seq<u8>, pc: nat, p: Program, s: State, r: Regs, bc: nat, pad: Scratchpad) returns (t: State)
    requires Compilable(p) && CodeAt(code, pc, MemCode(p)) && bc <= BRANCH_LIMIT && Between(s, r, bc)
    requires PadAt(s.mem, s.sp, pad)
    ensures var o := Passes(p, MemMode(pad), r, bc);
            && Between(t, o.r, o.bc) && t.Live? && s.Live? && t.sp == s.sp && t.mem == s.mem && t.x[1] == s.x[1]
            && Steps(code, Running(pc, s), 37 + 32 * (bc - o.bc)) == Running(pc + MEM_BYTES, t)
  {
    hide Steps, Passes, CodeAt, MemCode, RmcgBytes, XasMemBytes, MulMemBytes, CodeBranch, JzBytes, OperandOk, Counted;
    hide DistinctDestinations, Agrees, PadAt;
    MemPiecesAt(code, pc, p);
    var u := EnterHead(code, pc, p[0], s, r, bc);
    t := MemLoopRun(code, pc, p, u, r, bc, pad);
    StepsAdd(code, Running(pc, s), 1, 36 + 32 * (bc - Passes(p, MemMode(pad), r, bc).bc));
  }

  // ----- the eight pushes -----

  lemma {:induction false} PushesRun(code: seq<u8>, pc: nat, k: nat, s: State, r: Regs)
    requires k <= 8 && CodeAt(code, pc, CodeStore()) && s.Live? && Agrees(s.x, r) && Room(s.mem, s.sp - 64)
    ensures hide Steps, Pushed;
            Steps(code, Running(pc, s), k) == Running(pc + 2 * k, s.(sp := s.sp - 8 * k, mem := Pushed(s.mem, s.sp, r, k)))
  {
    hide Steps, Decode, Room, Exec;
    if k == 0 {
      StepsZero(code, Running(pc, s));
    } else {
      PushesRun(code, pc, k - 1, s, r);
      PushedKeys(s.mem, s.sp, r, k - 1);
      var t := s.(sp := s.sp - 8 * (k - 1), mem := Pushed(s.mem, s.sp, r, k - 1));
      DecodePush(code, pc, k - 1);
      PushExec(7 + k, t);
      StepAt(code, pc + 2 * (k - 1), Push(7 + k), 2, t);
      StepsAdd(code, Running(pc, s), k - 1, 1);
    }
  }
}
