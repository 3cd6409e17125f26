/** Entry and exit of the emitted x86-64 function: it saves the callee-saved registers,
    loads the register file, and at the end stores R0-R7 and restores what it saved. */
module X86Frame {
  import opened Wrappers
  import opened Words
  import opened Vm
  import opened Slices
  import opened Stack
  import opened X86Machine
  import opened X86Compiler
  import opened X86Decode
  import opened X86Simulation

  // ----- positions -----

  /** rbx, rbp, r12, r13, r14, r15, in the order of the pushes. */
  function Kept(k: nat): (g: Gpr)
    requires k < 6
    ensures g == 3 || g == 5 || 12 <= g
  {
    match k case 0 => 3 case 1 => 5 case 2 => 12 case 3 => 13 case 4 => 14 case _ => 15
  }

  function PushPos(k: nat): nat
    requires k <= 6
  {
    if k < 2 then 3 + k else 1 + 2 * k
  }

  /** The register that holds Rk. */
  function Home(k: nat): (g: Gpr)
    requires k < REG_SIZE
    ensures g >= 6
  {
    if k < 8 then 8 + k else k - 2
  }

  function LoadPos(k: nat): nat
    requires k <= REG_SIZE
  {
    if k == 0 then 13 else 12 + 4 * k
  }

  function StorePos(k: nat): nat
    requires k <= 8
  {
    if k == 0 then 7 else 6 + 4 * k
  }

  function PopPos(k: nat): nat
    requires k <= 6
  {
    if k <= 4 then 38 + 2 * k else 42 + k
  }

  // ----- decoding -----

  lemma StackByte(code: seq<u8>, pc: nat)
    ensures At(code, pc) == 0x53 ==> Decode(code, pc) == Some(Coded(Push(3), 1))
    ensures At(code, pc) == 0x55 ==> Decode(code, pc) == Some(Coded(Push(5), 1))
    ensures At(code, pc) == 0x5b ==> Decode(code, pc) == Some(Coded(Pop(3), 1))
    ensures At(code, pc) == 0x5d ==> Decode(code, pc) == Some(Coded(Pop(5), 1))
    ensures At(code, pc) == 0xc3 ==> Decode(code, pc) == Some(Coded(Ret, 1))
  {
    hide At, DecodeWide, DecodeExtendedStack;
  }

  lemma StackBytes(code: seq<u8>, pc: nat, k: nat)
    requires k < 4 && At(code, pc) == 0x41
    ensures At(code, pc + 1) == 0x54 + U32(k) ==> Decode(code, pc) == Some(Coded(Push(12 + k), 2))
    ensures At(code, pc + 1) == 0x5c + U32(k) ==> Decode(code, pc) == Some(Coded(Pop(12 + k), 2))
  {
    hide At, DecodeWide, DecodeNarrow;
    match k case 0 => case 1 => case 2 => case 3 =>
  }

  lemma DecodePushKept(code: seq<u8>, pc: nat, k: nat)
    requires CodeAt(code, pc, CodePrologue()) && k < 6
    ensures Decode(code, pc + PushPos(k)) == Some(Coded(Push(Kept(k)), if k < 2 then 1 else 2))
  {
    hide CodeAt, At, Decode;
    ByteAt(code, pc, CodePrologue(), PushPos(k));
    ByteAt(code, pc, CodePrologue(), PushPos(k) + 1);
    StackByte(code, pc + PushPos(k));
    match k
    case 0 => case 1 =>
    case 2 => StackBytes(code, pc + PushPos(k), 0);
    case 3 => StackBytes(code, pc + PushPos(k), 1);
    case 4 => StackBytes(code, pc + PushPos(k), 2);
    case 5 => StackBytes(code, pc + PushPos(k), 3);
  }

  lemma DecodePop(code: seq<u8>, pc: nat, k: nat)
    requires CodeAt(code, pc, CodeEpilogue()) && k < 6
    ensures Decode(code, pc + PopPos(k)) == Some(Coded(Pop(Kept(5 - k)), if k < 4 then 2 else 1))
  {
    hide CodeAt, At, Decode;
    ByteAt(code, pc, CodeEpilogue(), PopPos(k));
    ByteAt(code, pc, CodeEpilogue(), PopPos(k) + 1);
    StackByte(code, pc + PopPos(k));
    match k
    case 0 => StackBytes(code, pc + PopPos(k), 3);
    case 1 => StackBytes(code, pc + PopPos(k), 2);
    case 2 => StackBytes(code, pc + PopPos(k), 1);
    case 3 => StackBytes(code, pc + PopPos(k), 0);
    case 4 => case 5 =>
  }

  /** The ModRM byte of an access to the register file, whose address is in rcx. */
  function PointerByte(k: nat): u32
    requires k < REG_SIZE
  {
    match k
    case 0 => 0x01 case 1 => 0x49 case 2 => 0x51 case 3 => 0x59 case 4 => 0x61
    case 5 => 0x69 case 6 => 0x71 case 7 => 0x79 case 8 => 0x71 case _ => 0x79
  }

  function PointerDisp(k: nat): u32
    requires k < REG_SIZE
  {
    match k
    case 0 => 0 case 1 => 8 case 2 => 16 case 3 => 24 case 4 => 32
    case 5 => 40 case 6 => 48 case 7 => 56 case 8 => 64 case _ => 72
  }

  lemma PointerDecodes(k: nat, disp: u32, b4: u32)
    requires k < REG_SIZE && (k == 0 || disp == PointerDisp(k))
    ensures DecodeWide(if k < 8 then 0x4c else 0x48, 0x8b, PointerByte(k), disp, b4)
            == Some(Coded(Load(Home(k), 1, 8 * k), if k == 0 then 3 else 4))
    ensures k < 8 ==> (DecodeWide(0x4c, 0x89, PointerByte(k), disp, b4)
                       == Some(Coded(Store(Home(k), 1, 8 * k), if k == 0 then 3 else 4)))
  {
    match k
    case 0 => case 1 => case 2 => case 3 => case 4 => case 5 => case 6 => case 7 => case 8 => case 9 =>
  }

  lemma DecodeLoad(code: seq<u8>, pc: nat, k: nat)
    requires CodeAt(code, pc, CodePrologue()) && k < REG_SIZE
    ensures hide CodeAt, Decode, CodePrologue;
            Decode(code, pc + LoadPos(k)) == Some(Coded(Load(Home(k), 1, 8 * k), if k == 0 then 3 else 4))
  {
    hide CodeAt, At, Decode, DecodeWide;
    var a, b := LoadPos(k), CodePrologue();
    ByteAt(code, pc, b, a);
    ByteAt(code, pc, b, a + 1);
    ByteAt(code, pc, b, a + 2);
    ByteAt(code, pc, b, a + 3);
    LoadBytes(k);
    hide CodePrologue, PointerByte, PointerDisp;
    DecodeIsWide(code, pc + a);
    PointerDecodes(k, At(code, pc + a + 3), At(code, pc + a + 4));
  }

  lemma LoadBytes(k: nat)
    requires k < REG_SIZE
    ensures var b := CodePrologue();
            && b[LoadPos(k)] == (if k < 8 then 0x4c else 0x48) && b[LoadPos(k) + 1] == 0x8b
            && b[LoadPos(k) + 2] as u32 == PointerByte(k) && (k > 0 ==> b[LoadPos(k) + 3] as u32 == PointerDisp(k))
  {
    match k
    case 0 => case 1 => case 2 => case 3 => case 4 => case 5 => case 6 => case 7 => case 8 => case 9 =>
  }

  lemma DecodeStore(code: seq<u8>, pc: nat, k: nat)
    requires CodeAt(code, pc, CodeEpilogue()) && k < 8
    ensures Decode(code, pc + StorePos(k)) == Some(Coded(Store(Home(k), 1, 8 * k), if k == 0 then 3 else 4))
  {
    hide CodeAt, At, Decode, DecodeWide;
    var a, b := StorePos(k), CodeEpilogue();
    ByteAt(code, pc, b, a);
    ByteAt(code, pc, b, a + 1);
    ByteAt(code, pc, b, a + 2);
    ByteAt(code, pc, b, a + 3);
    StoreBytes(k);
    hide CodeEpilogue, PointerByte, PointerDisp;
    DecodeIsWide(code, pc + a);
    PointerDecodes(k, At(code, pc + a + 3), At(code, pc + a + 4));
  }

  lemma StoreBytes(k: nat)
    requires k < 8
    ensures var b := CodeEpilogue();
            && b[StorePos(k)] == 0x4c && b[StorePos(k) + 1] == 0x89
            && b[StorePos(k) + 2] as u32 == PointerByte(k) && (k > 0 ==> b[StorePos(k) + 3] as u32 == PointerDisp(k))
  {
    match k
    case 0 => case 1 => case 2 => case 3 => case 4 => case 5 => case 6 => case 7 =>
  }

  lemma DecodeEdges(code: seq<u8>, pc: nat)
    requires CodeAt(code, pc, CodePrologue())
    ensures && Decode(code, pc) == Some(Coded(OpReg(MOV, 1, 7), 3))
            && Decode(code, pc + 52) == Some(Coded(Xor32(3, 3), 2))
            && Decode(code, pc + 54) == Some(Coded(Lea32(5, 3, 1), 3))
  {
    hide CodeAt, Decode, CodePrologue;
    EdgeMov(code, pc);
    EdgeXor(code, pc);
    EdgeLea(code, pc);
  }

  lemma EdgeMov(code: seq<u8>, pc: nat)
    requires CodeAt(code, pc, CodePrologue())
    ensures Decode(code, pc) == Some(Coded(OpReg(MOV, 1, 7), 3))
  {
    hide CodeAt, At, Decode, DecodeWide;
    ByteAt(code, pc, CodePrologue(), 0);
    ByteAt(code, pc, CodePrologue(), 1);
    ByteAt(code, pc, CodePrologue(), 2);
    DecodeIsWide(code, pc);
    MovRcx(At(code, pc + 3), At(code, pc + 4));
  }

  lemma EdgeXor(code: seq<u8>, pc: nat)
    requires CodeAt(code, pc, CodePrologue())
    ensures Decode(code, pc + 52) == Some(Coded(Xor32(3, 3), 2))
  {
    hide CodeAt, At, Decode;
    ByteAt(code, pc, CodePrologue(), 52);
    ByteAt(code, pc, CodePrologue(), 53);
    ClearAndCount(code, pc + 52);
  }

  lemma EdgeLea(code: seq<u8>, pc: nat)
    requires CodeAt(code, pc, CodePrologue())
    ensures Decode(code, pc + 54) == Some(Coded(Lea32(5, 3, 1), 3))
  {
    hide CodeAt, At, Decode;
    ByteAt(code, pc, CodePrologue(), 54);
    ByteAt(code, pc, CodePrologue(), 55);
    ByteAt(code, pc, CodePrologue(), 56);
    ClearAndCount(code, pc + 54);
  }

  lemma MovRcx(b3: u32, b4: u32)
    ensures DecodeWide(0x48, 0x89, 0xf9, b3, b4) == Some(Coded(OpReg(MOV, 1, 7), 3))
  {
  }

  lemma ClearAndCount(code: seq<u8>, pc: nat)
    ensures At(code, pc) == 0x31 && At(code, pc + 1) == 0xdb ==> Decode(code, pc) == Some(Coded(Xor32(3, 3), 2))
    ensures At(code, pc) == 0x8d && At(code, pc + 1) == 0x6b && At(code, pc + 2) == 1 ==>
                               Decode(code, pc) == Some(Coded(Lea32(5, 3, 1), 3))
  {
    hide At, DecodeWide, DecodeExtendedStack;
  }

  lemma DecodeRelease(code: seq<u8>, pc: nat)
    requires CodeAt(code, pc, CodeEpilogue())
    ensures Decode(code, pc) == Some(Coded(AddSp(2048), 7)) && Decode(code, pc + 48) == Some(Coded(Ret, 1))
  {
    hide CodeAt, At, Decode;
    ByteAt(code, pc, CodeEpilogue(), 0);
    ByteAt(code, pc, CodeEpilogue(), 1);
    ByteAt(code, pc, CodeEpilogue(), 2);
    ByteAt(code, pc, CodeEpilogue(), 3);
    ByteAt(code, pc, CodeEpilogue(), 4);
    ByteAt(code, pc, CodeEpilogue(), 5);
    ByteAt(code, pc, CodeEpilogue(), 6);
    ByteAt(code, pc, CodeEpilogue(), 48);
    StackByte(code, pc + 48);
    Release(code, pc);
  }

  lemma Release(code: seq<u8>, pc: nat)
    requires At(code, pc) == 0x48 && At(code, pc + 1) == 0x81 && At(code, pc + 2) == 0xc4
    requires At(code, pc + 3) == 0 && At(code, pc + 4) == 8 && At(code, pc + 5) == 0 && At(code, pc + 6) == 0
    ensures Decode(code, pc) == Some(Coded(AddSp(2048), 7))
  {
    hide At, DecodeWide, DecodeNarrow, DecodeExtendedStack;
    ImmParts(0, 8, 0, 0);
    assert Imm32(code, pc + 3) == 2048;
  }

  lemma ImmParts(a: u32, b: u32, c: u32, d: u32)
    requires a == 0 && b == 8 && c == 0 && d == 0
    ensures a | (b << 8) | (c << 16) | (d << 24) == 2048
  {
  }

  // ----- saving -----

  /** Memory after the first k of the six pushes. */
  function Saved(mem: Memory, sp: int, x: GprFile, k: nat): Memory
    requires k <= 6
  {
    if k == 0 then mem else Saved(mem, sp, x, k - 1)[sp - 8 * k := x[Kept(k - 1)]]
  }

  /** Where the k-th push stores. */
  function FrameSlot(sp: int, k: nat): int { sp - 8 * (k + 1) }

  /** Six words of stack for the saved registers. */
  predicate FrameRoom(mem: Memory, sp: int) {
    forall k :: 0 <= k < 6 ==> FrameSlot(sp, k) in mem
  }

  /** The saved registers lie below sp, in the order of the pushes. */
  predicate FrameAt(mem: Memory, sp: int, x: GprFile) {
    forall k :: 0 <= k < 6 ==> FrameSlot(sp, k) in mem && mem[FrameSlot(sp, k)] == x[Kept(k)]
  }

  lemma {:induction false} SavedKeys(mem: Memory, sp: int, x: GprFile, k: nat)
    requires k <= 6 && FrameRoom(mem, sp)
    ensures Saved(mem, sp, x, k).Keys == mem.Keys
  {
    if k > 0 {
      SavedKeys(mem, sp, x, k - 1);
      assert FrameSlot(sp, k - 1) in mem;
    }
  }

  lemma {:induction false} SavedCell(mem: Memory, sp: int, x: GprFile, k: nat, i: nat)
    requires i < k <= 6
    ensures var m := Saved(mem, sp, x, k); sp - 8 * (i + 1) in m && m[sp - 8 * (i + 1)] == x[Kept(i)]
  {
    hide Kept;
    if i < k - 1 {
      SavedCell(mem, sp, x, k - 1, i);
    }
  }

  lemma {:induction false} SavedElsewhere(mem: Memory, sp: int, x: GprFile, k: nat, a: int)
    requires k <= 6 && a in mem && (a < sp - 48 || sp <= a)
    ensures var m := Saved(mem, sp, x, k); a in m && m[a] == mem[a]
  {
    hide Kept;
    if k > 0 {
      SavedElsewhere(mem, sp, x, k - 1, a);
    }
  }

  lemma SavedFrame(mem: Memory, sp: int, x: GprFile)
    requires FrameRoom(mem, sp)
    ensures var m := Saved(mem, sp, x, 6);
            && m.Keys == mem.Keys && FrameAt(m, sp, x)
            && forall a :: a in mem && (a < sp - 48 || sp <= a) ==> m[a] == mem[a]
  {
    hide Saved, FrameRoom, Kept;
    SavedKeys(mem, sp, x, 6);
    var m := Saved(mem, sp, x, 6);
    forall k | 0 <= k < 6 ensures FrameSlot(sp, k) in m && m[FrameSlot(sp, k)] == x[Kept(k)] {
      SavedCell(mem, sp, x, 6, k);
    }
    forall a | a in mem && (a < sp - 48 || sp <= a) ensures m[a] == mem[a] {
      SavedElsewhere(mem, sp, x, 6, a);
    }
  }

  lemma {:induction false} SaveRun(code: seq<u8>, pc: nat, k: nat, s: State)
    requires k <= 6 && CodeAt(code, pc, CodePrologue()) && s.Live? && FrameRoom(s.mem, s.sp)
    ensures hide Steps, Saved;
            Steps(code, Running(pc + 3, s), k)
            == Running(pc + PushPos(k), s.(sp := s.sp - 8 * k, mem := Saved(s.mem, s.sp, s.x, k)))
  {
    hide Steps, Decode, FrameRoom, Exec, Kept, CodePrologue;
    if k == 0 {
      StepsZero(code, Running(pc + 3, s));
    } else {
      SaveRun(code, pc, k - 1, s);
      SavedKeys(s.mem, s.sp, s.x, k - 1);
      FrameCell(s.mem, s.sp, k - 1);
      var t := s.(sp := s.sp - 8 * (k - 1), mem := Saved(s.mem, s.sp, s.x, k - 1));
      DecodePushKept(code, pc, k - 1);
      PushExec(Kept(k - 1), t);
      StepAt(code, pc + PushPos(k - 1), Push(Kept(k - 1)), if k - 1 < 2 then 1 else 2, t);
      StepsAdd(code, Running(pc + 3, s), k - 1, 1);
    }
  }

  lemma FrameCell(mem: Memory, sp: int, k: nat)
    requires k < 6 && FrameRoom(mem, sp)
    ensures sp - 8 * (k + 1) in mem
  {
    assert FrameSlot(sp, k) in mem;
  }

  // ----- loading the register file -----

  /** After the first k of the ten loads. */
  predicate LoadedUpTo(x: GprFile, r: Regs, k: nat)
    requires k <= REG_SIZE
  {
    forall j :: 0 <= j < k ==> x[Home(j)] == r[j]
  }

  lemma LoadExec(reg: Gpr, base: Gpr, off: nat, s: State)
    requires s.Live? && Address(s.x[base]) + off in s.mem
    ensures Exec(Load(reg, base, off), s) == s.(x := s.x[reg := s.mem[Address(s.x[base]) + off]])
  {
    hide Address;
  }

  lemma LoadedMore(x: GprFile, r: Regs, k: nat)
    requires k < REG_SIZE && LoadedUpTo(x, r, k)
    ensures LoadedUpTo(x[Home(k) := r[k]], r, k + 1)
  {
    forall j | 0 <= j < k ensures Home(j) != Home(k) {
    }
  }

  lemma {:induction false} LoadRun(code: seq<u8>, pc: nat, k: nat, s: State, r: Regs) returns (t: State)
    requires k <= REG_SIZE && CodeAt(code, pc, CodePrologue()) && s.Live? && RegsAt(s.mem, Address(s.x[1]), r)
    ensures && t.Live? && t.sp == s.sp && t.mem == s.mem && t.x[1] == s.x[1] && LoadedUpTo(t.x, r, k)
            && Steps(code, Running(pc + 13, s), k) == Running(pc + LoadPos(k), t)
  {
    hide Steps, Decode, Exec, Address, CodePrologue;
    if k == 0 {
      StepsZero(code, Running(pc + 13, s));
      t := s;
    } else {
      var u := LoadRun(code, pc, k - 1, s, r);
      hide LoadedUpTo;
      DecodeLoad(code, pc, k - 1);
      RegCell(u.mem, Address(u.x[1]), r, k - 1);
      LoadExec(Home(k - 1), 1, 8 * (k - 1), u);
      LoadedMore(u.x, r, k - 1);
      t := u.(x := u.x[Home(k - 1) := r[k - 1]]);
      StepAt(code, pc + LoadPos(k - 1), Load(Home(k - 1), 1, 8 * (k - 1)), if k - 1 == 0 then 3 else 4, u);
      StepsAdd(code, Running(pc + 13, s), k - 1, 1);
    }
  }

  lemma RegCell(mem: Memory, rp: int, r: Regs, k: nat)
    requires k < REG_SIZE && RegsAt(mem, rp, r)
    ensures rp + 8 * k in mem && mem[rp + 8 * k] == r[k]
  {
  }

  lemma LoadedAgrees(x: GprFile, r: Regs)
    requires LoadedUpTo(x, r, REG_SIZE)
    ensures Agrees(x, r)
  {
    forall k | 0 <= k < 8 ensures x[8 + k] == r[k] {
      assert x[Home(k)] == r[k];
    }
    assert x[Home(8)] == r[8] && x[Home(9)] == r[9];
  }

  // ----- storing R0-R7 -----

  lemma StoreExec(reg: Gpr, base: Gpr, off: nat, s: State)
    requires s.Live? && Address(s.x[base]) + off in s.mem
    ensures Exec(Store(reg, base, off), s) == s.(mem := s.mem[Address(s.x[base]) + off := s.x[reg]])
  {
    hide Address;
  }

  lemma {:induction false} StoreRun(code: seq<u8>, pc: nat, k: nat, s: State, r: Regs)
    requires k <= 8 && CodeAt(code, pc, CodeEpilogue()) && s.Live? && Agrees(s.x, r) && Slots(s.mem, Address(s.x[1]))
    ensures hide Steps, StoredBack, Address;
            Steps(code, Running(pc + 7, s), k)
            == Running(pc + StorePos(k), s.(mem := StoredBack(s.mem, Address(s.x[1]), r, k)))
  {
    hide Steps, Decode, Exec, Address, CodeEpilogue;
    if k == 0 {
      StepsZero(code, Running(pc + 7, s));
    } else {
      var rp := Address(s.x[1]);
      StoreRun(code, pc, k - 1, s, r);
      StoredBackKeys(s.mem, rp, r, k - 1);
      assert rp + 8 * (k - 1) in s.mem;
      hide Slots;
      var t := s.(mem := StoredBack(s.mem, rp, r, k - 1));
      DecodeStore(code, pc, k - 1);
      StoreExec(Home(k - 1), 1, 8 * (k - 1), t);
      assert t.x[8 + (k - 1)] == r[k - 1];
      StepAt(code, pc + StorePos(k - 1), Store(Home(k - 1), 1, 8 * (k - 1)), if k - 1 == 0 then 3 else 4, t);
      StepsAdd(code, Running(pc + 7, s), k - 1, 1);
    }
  }

  // ----- restoring -----

  /** After the first k of the six pops, which restore in the opposite order. */
  predicate Restored(x: GprFile, x0: GprFile, k: nat)
    requires k <= 6
  {
    forall j :: 6 - k <= j < 6 ==> x[Kept(j)] == x0[Kept(j)]
  }

  lemma RestoredMore(x: GprFile, x0: GprFile, k: nat)
    requires k < 6 && Restored(x, x0, k)
    ensures Restored(x[Kept(5 - k) := x0[Kept(5 - k)]], x0, k + 1)
  {
    forall j | 6 - k <= j < 6 ensures Kept(j) != Kept(5 - k) {
    }
  }

  lemma PopExec(reg: Gpr, s: State)
    requires s.Live? && s.sp in s.mem
    ensures Exec(Pop(reg), s) == s.(x := s.x[reg := s.mem[s.sp]], sp := s.sp + 8)
  {
  }

  lemma {:induction false} RestoreRun(code: seq<u8>, pc: nat, k: nat, s: State, x0: GprFile) returns (t: State)
    requires k <= 6 && CodeAt(code, pc, CodeEpilogue()) && s.Live? && FrameAt(s.mem, s.sp + 48, x0)
    ensures && t.Live? && t.sp == s.sp + 8 * k && t.mem == s.mem && Restored(t.x, x0, k)
            && Steps(code, Running(pc + 38, s), k) == Running(pc + PopPos(k), t)
  {
    hide Steps, Decode, Exec, CodeEpilogue, Kept;
    if k == 0 {
      StepsZero(code, Running(pc + 38, s));
      t := s;
    } else {
      var u := RestoreRun(code, pc, k - 1, s, x0);
      hide Restored;
      DecodePop(code, pc, k - 1);
      var g := Kept(5 - (k - 1));
      assert FrameSlot(s.sp + 48, 5 - (k - 1)) in s.mem;
      PopExec(g, u);
      RestoredMore(u.x, x0, k - 1);
      t := u.(x := u.x[g := x0[g]], sp := u.sp + 8);
      StepAt(code, pc + PopPos(k - 1), Pop(g), if k - 1 < 4 then 2 else 1, u);
      StepsAdd(code, Running(pc + 38, s), k - 1, 1);
    }
  }
}
