/** The emitted module decodes to the structured code that it means. */
module WasmEmitted {
  import opened Wrappers
  import opened Vm
  import opened Phases
  import opened Slices
  import opened WasmMachine
  import opened WasmBinary
  import opened WasmCompiler

  // ----- the structured code -----

  const BC: nat := 12
  const BF: nat := 13
  const MM: nat := 14

  /** The local that holds Rk. */
  function Home(k: RegIndex): nat { 2 + k }

  function PreOf(op: Opcode): BinOp
    requires op.IsMul() || op.IsXas()
  {
    match op
    case MULOR => OR
    case MULXOR => XOR
    case MULADD => ADD
    case XORROR => ROTR case ADDROR => ROTR case SUBROR => ROTR
    case XORASR => SHRS case ADDASR => SHRS case SUBASR => SHRS
    case XORLSR => SHRU case ADDLSR => SHRU case SUBLSR => SHRU
  }

  function PostOf(op: Opcode): BinOp
    requires op.IsMul() || op.IsXas()
  {
    match op
    case MULOR => MUL case MULXOR => MUL case MULADD => MUL
    case XORROR => XOR case ADDROR => ADD case SUBROR => SUB
    case XORASR => XOR case ADDASR => ADD case SUBASR => SUB
    case XORLSR => XOR case ADDLSR => ADD case SUBLSR => SUB
  }

  function Rotated(i: Instruction): seq<Isn> {
    [Get(Home(i.dst)), Get(Home(i.src)), Bin(MUL)]
    + [Const64(ImmByte(i)), Bin(ROTR), Tee(Home(i.dst)), Set(BF)]
  }

  /** dst combined with the immediate. */
  function Prepared(i: Instruction): seq<Isn>
    requires i.opcode.IsMul() || i.opcode.IsXas()
  {
    [Get(Home(i.dst)), Const64(ImmByte(i)), Bin(PreOf(i.opcode))]
  }

  /** The scratchpad word that a register selects. */
  function Selected(src: RegIndex): seq<Isn> {
    [Get(Home(src)), Get(MM), Bin(AND)] + [Un(WRAP), Get(1), Bin(ADD32), Load(3, 0)]
  }

  function Finished(op: BinOp, dst: RegIndex): seq<Isn> {
    [Bin(op), Set(Home(dst))]
  }

  function Ops(mem: bool, i: Instruction): seq<Isn>
    requires i.opcode.RMCG? || i.opcode.IsMul() || i.opcode.IsXas()
  {
    if i.opcode.RMCG? then Rotated(i)
    else if !mem then Prepared(i) + [Get(Home(i.src)), Bin(PostOf(i.opcode)), Set(Home(i.dst))]
    else if i.opcode.IsMul() then Selected(i.src) + Prepared(i) + Finished(MUL, i.dst)
    else Prepared(i) + Selected(i.src) + Finished(PostOf(i.opcode), i.dst)
  }

  function TestOps(): seq<Isn> {
    [Get(BC), Get(BF), Bin(OR)] + [Const64(32), Bin(AND), Un(EQZ)]
  }

  function CountOps(): seq<Isn> {
    [Const64(1), Get(BC), Bin(ADD), Set(BC)]
  }

  function IsnCode(mem: bool, i: Instruction, next: Code): Code {
    if i.opcode.HALT? then next
    else if i.opcode.BRANCH? then Line(TestOps(), If(Line(CountOps(), Br(1, End)), next))
    else Line(Ops(mem, i), next)
  }

  /** The first n instructions of a program in front of an expression. */
  function Pieces(mem: bool, p: Program, n: nat, next: Code): Code
    requires n <= PROGRAM_SIZE
  {
    if n == 0 then next else Pieces(mem, p, n - 1, IsnCode(mem, p[n - 1], next))
  }

  function ReserveOps(): seq<Isn> {
    [Get(1), Const32(64), Bin(SUB32), Set(1)]
  }

  function StoreOps(pointer: nat, k: nat, off: nat): seq<Isn>
    requires k < 8
  {
    [Get(pointer), Get(Home(k)), Store(3, off)]
  }

  function SpillOps(n: nat): seq<Isn>
    requires n <= 8
  {
    if n == 0 then [] else SpillOps(n - 1) + StoreOps(1, n - 1, 56 - 8 * (n - 1))
  }

  function ResultOps(n: nat): seq<Isn>
    requires n <= 8
  {
    if n == 0 then [] else ResultOps(n - 1) + StoreOps(0, n - 1, 8 * (n - 1))
  }

  function LoadOps(n: nat): seq<Isn>
    requires n <= REG_SIZE
  {
    if n == 0 then [] else LoadOps(n - 1) + [Get(0), Load(3, 8 * (n - 1)), Set(Home(n - 1))]
  }

  function ClearOps(): seq<Isn> { [Const64(0), Set(BC)] }

  function SetupOps(): seq<Isn> {
    ClearOps() + [Const64(2040), Set(MM)] + [Const32(2048), Get(1), Bin(ADD32), Set(1)]
  }

  function RegProgram(p: Program, next: Code): Code {
    Line(ReserveOps(), Loop(Pieces(false, p, PROGRAM_SIZE, End), Line(SpillOps(8), next)))
  }

  function MemProgram(p: Program, next: Code): Code {
    Loop(Pieces(true, p, PROGRAM_SIZE, End), next)
  }

  function RegPrograms(l: ProgramList, n: nat, next: Code): Code
    requires n <= NUM_PROGRAMS
  {
    if n == 0 then next else RegPrograms(l, n - 1, RegProgram(l[n - 1], next))
  }

  function MemPrograms(l: ProgramList, n: nat, next: Code): Code
    requires n <= NUM_PROGRAMS
  {
    if n == 0 then next else MemPrograms(l, n - 1, MemProgram(l[n - 1], next))
  }

  function Second(l: ProgramList): Code {
    Line(ClearOps(), MemPrograms(l, NUM_PROGRAMS, Line(ResultOps(8), End)))
  }

  /** The body of the function for a list of programs. */
  function ListBody(l: ProgramList): Code {
    Line(LoadOps(REG_SIZE), Line(SetupOps(), RegPrograms(l, NUM_PROGRAMS, Second(l))))
  }

  // ----- instructions encode to the emitted bytes -----

  lemma Lookups(op: Opcode)
    requires op.IsMul() || op.IsXas()
    ensures LookupPre(op) == BinByte(PreOf(op)) && LookupPost(op) == BinByte(PostOf(op))
    ensures op.IsMul() ==> PostOf(op) == MUL
  {
  }

  lemma RotatedBytes(i: Instruction)
    ensures AllFit(Rotated(i)) && EncodeAll(Rotated(i)) == RmcgBytes(i)
  {
    hide EncodeAll, AllFit, ImmByte;
    var d, s, b := Home(i.dst), Home(i.src), ImmByte(i);
    Encode3(Get(d), Get(s), Bin(MUL));
    Encode4(Const64(b), Bin(ROTR), Tee(d), Set(BF));
    EncodeAppend([Get(d), Get(s), Bin(MUL)], [Const64(b), Bin(ROTR), Tee(d), Set(BF)]);
  }

  lemma PreparedBytes(i: Instruction)
    requires i.opcode.IsMul() || i.opcode.IsXas()
    ensures AllFit(Prepared(i))
    ensures EncodeAll(Prepared(i)) == [OP_GET, LOC_R0 + i.dst, OP_CONST_64, ImmByte(i), LookupPre(i.opcode)]
  {
    hide EncodeAll, AllFit, ImmByte;
    Lookups(i.opcode);
    hide LookupPre, PreOf;
    Encode3(Get(Home(i.dst)), Const64(ImmByte(i)), Bin(PreOf(i.opcode)));
  }

  lemma SelectedBytes(src: RegIndex)
    ensures AllFit(Selected(src)) && EncodeAll(Selected(src)) == MemSrcBytes(src)
  {
    hide EncodeAll, AllFit;
    Encode3(Get(Home(src)), Get(MM), Bin(AND));
    Encode4(Un(WRAP), Get(1), Bin(ADD32), Load(3, 0));
    EncodeAppend([Get(Home(src)), Get(MM), Bin(AND)], [Un(WRAP), Get(1), Bin(ADD32), Load(3, 0)]);
  }

  lemma FinishedBytes(op: BinOp, dst: RegIndex)
    ensures AllFit(Finished(op, dst)) && EncodeAll(Finished(op, dst)) == [BinByte(op), OP_SET, LOC_R0 + dst]
  {
    hide EncodeAll, AllFit, BinByte;
    Encode2(Bin(op), Set(Home(dst)));
  }

  lemma OpsBytes(mem: bool, i: Instruction)
    requires i.opcode.RMCG? || i.opcode.IsMul() || i.opcode.IsXas()
    ensures AllFit(Ops(mem, i)) && EncodeAll(Ops(mem, i)) == IsnBytes(mem, i)
  {
    hide EncodeAll, AllFit, ImmByte, Rotated, Prepared, Selected, Finished, RmcgBytes, MemSrcBytes, LookupPre,
         LookupPost;
    hide PreOf, PostOf, BinByte;
    if i.opcode.RMCG? {
      RotatedBytes(i);
    } else {
      Lookups(i.opcode);
      PreparedBytes(i);
      if !mem {
        RegOpsBytes(i);
      } else {
        SelectedBytes(i.src);
        FinishedBytes(PostOf(i.opcode), i.dst);
        if i.opcode.IsMul() {
          MulByte();
          EncodeAppend(Selected(i.src), Prepared(i));
          EncodeAppend(Selected(i.src) + Prepared(i), Finished(MUL, i.dst));
        } else {
          EncodeAppend(Prepared(i), Selected(i.src));
          EncodeAppend(Prepared(i) + Selected(i.src), Finished(PostOf(i.opcode), i.dst));
        }
      }
    }
  }

  lemma MulByte()
    ensures BinByte(MUL) == OP_MUL
  {
  }

  lemma RegOpsBytes(i: Instruction)
    requires i.opcode.IsMul() || i.opcode.IsXas()
    ensures AllFit(Ops(false, i)) && EncodeAll(Ops(false, i)) == IsnBytes(false, i)
  {
    hide EncodeAll, AllFit, ImmByte, Prepared, LookupPre, PreOf, PostOf, BinByte;
    PreparedBytes(i);
    Lookups(i.opcode);
    MulByte();
    hide LookupPost;
    var last := [Get(Home(i.src)), Bin(PostOf(i.opcode)), Set(Home(i.dst))];
    Encode3(Get(Home(i.src)), Bin(PostOf(i.opcode)), Set(Home(i.dst)));
    EncodeAppend(Prepared(i), last);
  }

  lemma TestBytes()
    ensures AllFit(TestOps())
    ensures EncodeAll(TestOps()) == [OP_GET, LOC_BC, OP_GET, LOC_BF, OP_OR, OP_CONST_64, 32, OP_AND, OP_EQZ]
  {
    hide EncodeAll, AllFit;
    Encode3(Get(BC), Get(BF), Bin(OR));
    Encode3(Const64(32), Bin(AND), Un(EQZ));
    EncodeAppend([Get(BC), Get(BF), Bin(OR)], [Const64(32), Bin(AND), Un(EQZ)]);
  }

  lemma CountBytes()
    ensures AllFit(CountOps())
    ensures EncodeAll(CountOps()) == [OP_CONST_64, 1, OP_GET, LOC_BC, OP_ADD_64, OP_SET, LOC_BC]
  {
    hide EncodeAll, AllFit;
    Encode4(Const64(1), Get(BC), Bin(ADD), Set(BC));
  }

  lemma BackBytes()
    ensures Fits(Br(1, End)) && Encode(Br(1, End)) == [OP_BR, 0x01, OP_END]
  {
  }

  lemma IfBytes(body: Code, next: Code)
    requires Fits(body) && Fits(next)
    ensures Fits(If(body, next)) && Encode(If(body, next)) == [OP_IF, TYPE_VOID] + Encode(body) + Encode(next)
  {
  }

  lemma BranchBytes(next: Code)
    requires Fits(next)
    ensures var c := Line(TestOps(), If(Line(CountOps(), Br(1, End)), next));
            Fits(c) && Encode(c) == CodeBranch() + Encode(next)
  {
    hide Fits, Encode, EncodeAll, AllFit, TestOps, CountOps, Line;
    BackBytes();
    CountBytes();
    var tail := Br(1, End);
    EncodeLine(CountOps(), tail);
    var body := Line(CountOps(), tail);
    IfBytes(body, next);
    TestBytes();
    EncodeLine(TestOps(), If(body, next));
    var a, b, c, d := EncodeAll(TestOps()), EncodeAll(CountOps()), Encode(tail), Encode(next);
    assert a + ([OP_IF, TYPE_VOID] + (b + c) + d) == (a + [OP_IF, TYPE_VOID] + b + c) + d;
    assert a + [OP_IF, TYPE_VOID] + b + c == CodeBranch();
  }

  lemma IsnCodeBytes(mem: bool, i: Instruction, next: Code)
    requires Fits(next)
    ensures Fits(IsnCode(mem, i, next)) && Encode(IsnCode(mem, i, next)) == IsnBytes(mem, i) + Encode(next)
  {
    hide Fits, Encode, Line, Ops, TestOps, CountOps, EncodeAll, AllFit, CodeBranch;
    hide RmcgBytes, MulRegBytes, XasRegBytes, MulMemBytes, XasMemBytes;
    if i.opcode.HALT? {
    } else if i.opcode.BRANCH? {
      BranchBytes(next);
    } else {
      hide IsnBytes;
      OpsBytes(mem, i);
      EncodeLine(Ops(mem, i), next);
    }
  }

  lemma {:induction false} PiecesBytes(mem: bool, p: Program, n: nat, next: Code)
    requires n <= PROGRAM_SIZE && Fits(next)
    ensures Fits(Pieces(mem, p, n, next)) && Encode(Pieces(mem, p, n, next)) == Prefix(mem, p, n) + Encode(next)
    decreases n
  {
    hide Fits, Encode, IsnCode, IsnBytes;
    if n > 0 {
      IsnCodeBytes(mem, p[n - 1], next);
      PiecesBytes(mem, p, n - 1, IsnCode(mem, p[n - 1], next));
    }
  }

  // ----- programs -----

  lemma StoreBytes(pointer: Byte, k: nat, off: Byte)
    requires k < 8 && pointer < 2 && off < 64
    ensures AllFit(StoreOps(pointer, k, off)) && EncodeAll(StoreOps(pointer, k, off)) == StoreRow(pointer, k, off)
  {
    hide EncodeAll, AllFit;
    Encode3(Get(pointer), Get(Home(k)), Store(3, off));
  }

  lemma {:induction false} SpillBytes(n: nat)
    requires n <= 8
    ensures AllFit(SpillOps(n)) && EncodeAll(SpillOps(n)) == SpillRows(n)
  {
    hide StoreOps, StoreRow, IsnFits;
    if n > 0 {
      SpillBytes(n - 1);
      StoreBytes(1, n - 1, 56 - 8 * (n - 1));
      hide EncodeAll, AllFit;
      EncodeAppend(SpillOps(n - 1), StoreOps(1, n - 1, 56 - 8 * (n - 1)));
    }
  }

  lemma {:induction false} ResultBytes(n: nat)
    requires n <= 8
    ensures AllFit(ResultOps(n)) && EncodeAll(ResultOps(n)) == ResultRows(n)
  {
    hide StoreOps, StoreRow, IsnFits;
    if n > 0 {
      ResultBytes(n - 1);
      StoreBytes(0, n - 1, 8 * (n - 1));
      hide EncodeAll, AllFit;
      EncodeAppend(ResultOps(n - 1), StoreOps(0, n - 1, 8 * (n - 1)));
    }
  }

  lemma {:induction false} LoadBytes(n: nat)
    requires n <= REG_SIZE
    ensures AllFit(LoadOps(n)) && EncodeAll(LoadOps(n)) == LoadRows(n)
  {
    hide EncodeAll, AllFit, LoadOps, LoadRows;
    if n == 0 {
      NoLoadBytes();
    } else {
      LoadBytes(n - 1);
      LoadBytesMore(n - 1);
    }
  }

  lemma NoLoadBytes()
    ensures AllFit(LoadOps(0)) && EncodeAll(LoadOps(0)) == LoadRows(0)
  {
  }

  lemma LoadBytesMore(n: nat)
    requires n < REG_SIZE && AllFit(LoadOps(n)) && EncodeAll(LoadOps(n)) == LoadRows(n)
    ensures AllFit(LoadOps(n + 1)) && EncodeAll(LoadOps(n + 1)) == LoadRows(n + 1)
  {
    hide EncodeAll, AllFit;
    Encode3(Get(0), Load(3, 8 * n), Set(Home(n)));
    EncodeAppend(LoadOps(n), [Get(0), Load(3, 8 * n), Set(Home(n))]);
  }

  lemma ClearBytes()
    ensures AllFit(ClearOps()) && EncodeAll(ClearOps()) == CodeClearBc()
  {
    hide EncodeAll, AllFit;
    Encode2(Const64(0), Set(BC));
  }

  lemma SetupBytes()
    ensures AllFit(SetupOps()) && EncodeAll(SetupOps()) == Setup()
  {
    hide EncodeAll, AllFit;
    Encode2(Const64(0), Set(BC));
    Encode2(Const64(2040), Set(MM));
    Encode4(Const32(2048), Get(1), Bin(ADD32), Set(1));
    EncodeAppend(ClearOps(), [Const64(2040), Set(MM)]);
    EncodeAppend(ClearOps() + [Const64(2040), Set(MM)], [Const32(2048), Get(1), Bin(ADD32), Set(1)]);
  }

  lemma ReserveBytes()
    ensures AllFit(ReserveOps()) && EncodeAll(ReserveOps()) + [OP_LOOP, TYPE_VOID] == CodeRegPrologue()
  {
    hide EncodeAll, AllFit;
    Encode4(Get(1), Const32(64), Bin(SUB32), Set(1));
  }

  lemma LoopBytes(body: Code, next: Code)
    requires Fits(body) && Fits(next)
    ensures Fits(Loop(body, next)) && Encode(Loop(body, next)) == [OP_LOOP, TYPE_VOID] + Encode(body) + Encode(next)
  {
  }

  lemma EndBytes()
    ensures Fits(End) && Encode(End) == [OP_END]
  {
  }

  lemma RegProgramBytes(p: Program, next: Code)
    requires Layout(p) && Fits(next)
    ensures Fits(RegProgram(p, next)) && Encode(RegProgram(p, next)) == RegCode(p) + Encode(next)
  {
    hide Fits, Encode, Pieces, Prefix, Line, SpillOps, SpillRows, ReserveOps, CodeRegPrologue, EncodeAll, AllFit,
         Layout;
    var stores := Line(SpillOps(8), next);
    SpillBytes(8);
    EncodeLine(SpillOps(8), next);
    EndBytes();
    PiecesBytes(false, p, PROGRAM_SIZE, End);
    var body := Pieces(false, p, PROGRAM_SIZE, End);
    LoopBytes(body, stores);
    ReserveBytes();
    EncodeLine(ReserveOps(), Loop(body, stores));
    var head, b := EncodeAll(ReserveOps()), Prefix(false, p, PROGRAM_SIZE);
    calc {
      Encode(RegProgram(p, next));
      head + ([OP_LOOP, TYPE_VOID] + (b + [OP_END]) + (SpillRows(8) + Encode(next)));
      (head + [OP_LOOP, TYPE_VOID]) + b + ([OP_END] + SpillRows(8)) + Encode(next);
    }
  }

  lemma MemProgramBytes(p: Program, next: Code)
    requires Layout(p) && Fits(next)
    ensures Fits(MemProgram(p, next)) && Encode(MemProgram(p, next)) == MemCode(p) + Encode(next)
  {
    hide Fits, Encode, Pieces, Prefix, Layout;
    EndBytes();
    PiecesBytes(true, p, PROGRAM_SIZE, End);
    LoopBytes(Pieces(true, p, PROGRAM_SIZE, End), next);
  }

  lemma {:induction false} RegProgramsBytes(l: ProgramList, n: nat, next: Code)
    requires n <= NUM_PROGRAMS && AllLaidOut(l) && Fits(next)
    ensures Fits(RegPrograms(l, n, next)) && Encode(RegPrograms(l, n, next)) == RegCodes(l, n) + Encode(next)
    decreases n
  {
    hide Fits, Encode, RegProgram, RegCode, Layout;
    if n > 0 {
      RegProgramBytes(l[n - 1], next);
      RegProgramsBytes(l, n - 1, RegProgram(l[n - 1], next));
    }
  }

  lemma {:induction false} MemProgramsBytes(l: ProgramList, n: nat, next: Code)
    requires n <= NUM_PROGRAMS && AllLaidOut(l) && Fits(next)
    ensures Fits(MemPrograms(l, n, next)) && Encode(MemPrograms(l, n, next)) == MemCodes(l, n) + Encode(next)
    decreases n
  {
    hide Fits, Encode, MemProgram, MemCode, Layout;
    if n > 0 {
      MemProgramBytes(l[n - 1], next);
      MemProgramsBytes(l, n - 1, MemProgram(l[n - 1], next));
    }
  }

  lemma SecondBytes(l: ProgramList)
    requires AllLaidOut(l)
    ensures Fits(Second(l)) && Encode(Second(l)) == CodeClearBc() + MemCodes(l, NUM_PROGRAMS) + CodeEpilogue()
  {
    hide Fits, Encode, Line, ResultOps, ResultRows, ClearOps, CodeClearBc, MemPrograms, MemCodes, EncodeAll, AllFit,
         AllLaidOut;
    EndBytes();
    ResultBytes(8);
    EncodeLine(ResultOps(8), End);
    var last := Line(ResultOps(8), End);
    MemProgramsBytes(l, NUM_PROGRAMS, last);
    ClearBytes();
    EncodeLine(ClearOps(), MemPrograms(l, NUM_PROGRAMS, last));
  }

  /** The body encodes to everything that is emitted behind the header. */
  lemma ListBytes(l: ProgramList)
    requires AllLaidOut(l)
    ensures Fits(ListBody(l)) && Header() + Encode(ListBody(l)) == ModuleBytes(l)
  {
    hide Fits, Encode, Line, LoadOps, LoadRows, SetupOps, Setup, RegPrograms, RegCodes, Second, MemCodes, EncodeAll,
         AllFit;
    hide CodeClearBc, CodeEpilogue, AllLaidOut, Header;
    SecondBytes(l);
    RegProgramsBytes(l, NUM_PROGRAMS, Second(l));
    var programs := RegPrograms(l, NUM_PROGRAMS, Second(l));
    SetupBytes();
    EncodeLine(SetupOps(), programs);
    LoadBytes(REG_SIZE);
    EncodeLine(LoadOps(REG_SIZE), Line(SetupOps(), programs));
    var h, a, b, c := Header(), LoadRows(REG_SIZE), Setup(), RegCodes(l, NUM_PROGRAMS);
    var d, e, f := CodeClearBc(), MemCodes(l, NUM_PROGRAMS), CodeEpilogue();
    calc {
      h + (a + (b + (c + (d + e + f))));
      (h + a + b) + c + d + e + f;
    }
  }

  // ----- the module -----

  lemma HeaderAt(l: ProgramList, k: nat)
    requires AllLaidOut(l) && k < 58
    ensures ModuleBytes(l)[k] == HeaderByte(k)
  {
    hide LoadRows, Setup, RegCodes, MemCodes, CodeEpilogue, CodeClearBc, AllLaidOut, HeaderByte;
  }

  lemma SmallSection(b: seq<Byte>, pos: nat, id: Byte, content: seq<Byte>)
    requires pos + 2 + |content| <= |b| && b[pos] == id && b[pos + 1] == |content| < 128
    requires forall k :: 0 <= k < |content| ==> b[pos + 2 + k] == content[k]
    ensures Expect(b, pos, id, content) == Some(pos + 2 + |content|)
  {
    hide Unsigned;
    UnsignedByte(b, pos + 1, 5);
    assert b[pos + 2..pos + 2 + |content|] == content;
  }

  /** The padded size fields: three bytes each, 11227 and 11223. */
  lemma PaddedSize(b: seq<Byte>, pos: nat, low: Byte)
    requires pos + 2 < |b| && b[pos] == low >= 128 && b[pos + 1] == 0xd7 && b[pos + 2] == 0
    ensures Unsigned(b, pos, 5) == Some(Num(low - 128 + 128 * 0x57, pos + 3))
  {
    assert Unsigned(b, pos + 2, 3) == Some(Num(0, pos + 3));
    assert Unsigned(b, pos + 1, 4) == Some(Num(0x57, pos + 3));
  }

  /** The bytes of the header are where the sections expect them. */
  predicate HeaderIn(b: seq<Byte>) {
    |b| == CODE_SIZE && forall k :: 0 <= k < 58 ==> b[k] == HeaderByte(k)
  }

  lemma MagicParses(b: seq<Byte>)
    requires HeaderIn(b)
    ensures b[..8] == Magic()
  {
    forall k | 0 <= k < 8 ensures b[k] == Magic()[k] {
      assert b[k] == HeaderByte(k);
      match k case 0 => case 1 => case 2 => case 3 => case 4 => case 5 => case 6 => case 7 =>
    }
  }

  lemma TypeParses(b: seq<Byte>)
    requires HeaderIn(b)
    ensures Expect(b, 8, 1, TypeContent()) == Some(16)
  {
    hide Expect;
    assert b[8] == HeaderByte(8) && b[9] == HeaderByte(9);
    forall k | 0 <= k < 6 ensures b[10 + k] == TypeContent()[k] {
      assert b[10 + k] == HeaderByte(10 + k);
      match k case 0 => case 1 => case 2 => case 3 => case 4 => case 5 =>
    }
    SmallSection(b, 8, 1, TypeContent());
  }

  lemma ImportParses(b: seq<Byte>)
    requires HeaderIn(b)
    ensures Expect(b, 16, 2, ImportContent()) == Some(33)
  {
    hide Expect;
    assert b[16] == HeaderByte(16) && b[17] == HeaderByte(17);
    forall k | 0 <= k < 15 ensures b[18 + k] == ImportContent()[k] {
      assert b[18 + k] == HeaderByte(18 + k);
      match k
      case 0 => case 1 => case 2 => case 3 => case 4 => case 5 => case 6 => case 7 => case 8 => case 9 => case 10 =>
      case 11 => case 12 => case 13 => case 14 =>
    }
    SmallSection(b, 16, 2, ImportContent());
  }

  lemma FunctionParses(b: seq<Byte>)
    requires HeaderIn(b)
    ensures Expect(b, 33, 3, FunctionContent()) == Some(37)
  {
    hide Expect;
    assert b[33] == HeaderByte(33) && b[34] == HeaderByte(34) && b[35] == HeaderByte(35) && b[36] == HeaderByte(36);
    SmallSection(b, 33, 3, FunctionContent());
  }

  lemma ExportParses(b: seq<Byte>)
    requires HeaderIn(b)
    ensures Expect(b, 37, 7, ExportContent()) == Some(47)
  {
    hide Expect;
    assert b[37] == HeaderByte(37) && b[38] == HeaderByte(38);
    forall k | 0 <= k < 8 ensures b[39 + k] == ExportContent()[k] {
      assert b[39 + k] == HeaderByte(39 + k);
      match k case 0 => case 1 => case 2 => case 3 => case 4 => case 5 => case 6 => case 7 =>
    }
    SmallSection(b, 37, 7, ExportContent());
  }

  /** The section ends with the module. */
  lemma CodeSectionParses(b: seq<Byte>)
    requires HeaderIn(b)
    ensures ParseSection(b, 47, 10) == Some(Section(51, CODE_SIZE))
  {
    hide Unsigned;
    assert b[47] == HeaderByte(47) && b[48] == HeaderByte(48) && b[49] == HeaderByte(49) && b[50] == HeaderByte(50);
    PaddedSize(b, 48, 0xdb);
  }

  /** The body ends with the section. */
  lemma CodeParses(b: seq<Byte>, c: Code)
    requires HeaderIn(b) && Parse(b, 58) == Some(Parsed(c, CODE_SIZE))
    ensures ParseCode(b, Section(51, CODE_SIZE)) == Some(Function(13, c))
  {
    hide Unsigned, Parse;
    assert b[51] == HeaderByte(51) && b[52] == HeaderByte(52) && b[53] == HeaderByte(53) && b[54] == HeaderByte(54);
    assert b[55] == HeaderByte(55) && b[56] == HeaderByte(56) && b[57] == HeaderByte(57);
    UnsignedByte(b, 51, 5);
    PaddedSize(b, 52, 0xd7);
    UnsignedByte(b, 55, 5);
    UnsignedByte(b, 56, 5);
  }

  /** The emitted module is well formed, all its size fields are exact, and its only function
      has the body that the list of programs means. */
  lemma ModuleDecodes(l: ProgramList)
    requires AllLaidOut(l)
    ensures ParseModule(ModuleBytes(l)) == Some(Function(13, ListBody(l)))
  {
    hide Expect, ParseSection, ParseCode, Parse, ModuleBytes, ListBody, AllLaidOut, HeaderByte, Fits, Encode, Header;
    hide Magic, TypeContent, ImportContent, FunctionContent, ExportContent;
    var b := ModuleBytes(l);
    forall k | 0 <= k < 58 ensures b[k] == HeaderByte(k) {
      HeaderAt(l, k);
    }
    MagicParses(b);
    TypeParses(b);
    ImportParses(b);
    FunctionParses(b);
    ExportParses(b);
    CodeSectionParses(b);
    ListBytes(l);
    assert CodeAt(b, 58, Encode(ListBody(l))) by {
      assert b[58..] == Encode(ListBody(l));
      assert b[58..58 + |Encode(ListBody(l))|] == b[58..];
    }
    RoundTrip(b, 58, ListBody(l));
    CodeParses(b, ListBody(l));
  }
}
