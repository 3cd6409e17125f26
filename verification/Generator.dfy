/** The program generator: sixteen random words become one program, and every program it
    yields is well formed. */
module Generator {
  import opened Words
  import opened WordLaws
  import opened Displacements
  import opened Vm
  import opened Phases
  import opened Siphash
  import opened FisherYates
  import Table = SourceTable

  const DRAWS: nat := 16

  // ----- selections -----

  function High32(a: u64): u32 {
    ((a >> 32) & 0xffff_ffff) as u32
  }

  /** The low half of a word, which selects an opcode. */
  function LowNumber(select: u64): nat {
    Low32(select) as nat
  }

  lemma LowHalf(select: u64)
    ensures LowNumber(select) == Number(select) % 0x1_0000_0000
  {
    hide Low32, Number;
    Low32Number(select);
  }

  lemma HighForm(select: u64)
    ensures ZeroExtend(High32(select)) == Lsr(select, 32)
  {
  }

  lemma HighHalf(select: u64)
    ensures Number32(High32(select)) == Number(select) / 0x1_0000_0000
  {
    hide High32, Number, Number32, ZeroExtend, Lsr, Pow2;
    HighForm(select);
    ZeroExtendNumber(High32(select));
    LsrNumber(select, 32);
    Pow32();
  }

  /** The three MUL opcodes. */
  function MulOpcode(k: nat): Opcode
    requires k < 3
  {
    match k case 0 => MULOR case 1 => MULXOR case _ => MULADD
  }

  /** The nine XAS opcodes. */
  function XasOpcode(k: nat): Opcode
    requires k < 9
  {
    match k
    case 0 => XORROR case 1 => ADDROR case 2 => SUBROR
    case 3 => XORASR case 4 => ADDASR case 5 => SUBASR
    case 6 => XORLSR case 7 => ADDLSR case _ => SUBLSR
  }

  function MulImm(k: nat): Imm
    requires k < 3
  {
    match k case 0 => 1 case 1 => 9 case _ => 33
  }

  function ImmWord(n: nat): u32
    requires n < 64
  {
    n as u32
  }

  lemma ImmWordRange(n: nat)
    requires n < 64
    ensures hide ImmWord; ImmWord(n) < 64 && (n > 0 ==> 1 <= ImmWord(n)) && (n <= 3 ==> ImmWord(n) <= 3)
  {
    match n
    case 0 => case 1 => case 2 => case 3 => case 4 => case 5 => case 6 => case 7 => case 8 => case 9 => case 10 =>
    case 11 => case 12 => case 13 => case 14 => case 15 => case 16 => case 17 => case 18 => case 19 => case 20 =>
    case 21 => case 22 => case 23 => case 24 => case 25 => case 26 => case 27 => case 28 => case 29 => case 30 =>
    case 31 => case 32 => case 33 => case 34 => case 35 => case 36 => case 37 => case 38 => case 39 => case 40 =>
    case 41 => case 42 => case 43 => case 44 => case 45 => case 46 => case 47 => case 48 => case 49 => case 50 =>
    case 51 => case 52 => case 53 => case 54 => case 55 => case 56 => case 57 => case 58 => case 59 => case 60 =>
    case 61 => case 62 => case 63 =>
  }

  lemma ImmWordNumber(n: nat)
    requires n < 64
    ensures ImmWord(n) as nat == n
  {
    WordBack32(n);
  }

  /** The opcodes that rotate. */
  predicate Rotates(op: Opcode) {
    op.RMCG? || op.XORROR? || op.ADDROR? || op.SUBROR?
  }

  /** One less than the immediate is the rest of the word modulo m. */
  predicate RestPlusOne(imm: Imm, select: u64, m: nat)
    requires m > 0
  {
    1 <= imm as nat <= m && (Number(select) - (imm as nat - 1)) % m == 0
  }

  /** 1, 9 or 33 for a MUL, 1-63 for a rotation, 1-3 for a shift, by the rest of the word. */
  predicate ImmSelected(op: Opcode, select: u64, imm: Imm) {
    hide Number, RestPlusOne;
    if op.IsMul() then
      && (Number(select) % 3 == 0 ==> imm == 1)
      && (Number(select) % 3 == 1 ==> imm == 9)
      && (Number(select) % 3 == 2 ==> imm == 33)
    else RestPlusOne(imm, select, if Rotates(op) then 63 else 3)
  }

  lemma OwnRest(imm: Imm, select: u64, m: nat)
    requires 0 < m && imm as nat == 1 + Number(select) % m
    ensures RestPlusOne(imm, select, m)
  {
    hide Number;
    var n := Number(select);
    assert n - n % m == (n / m) * m;
    QuotientIs(n - n % m, m, n / m, 0);
  }

  function GenImm(op: Opcode, select: u64): (imm: Imm)
    ensures op.IsMul() ==> imm == 1 || imm == 9 || imm == 33
    ensures !op.IsMul() ==> 1 <= imm
    ensures !op.IsMul() && !Rotates(op) ==> imm <= 3
    ensures ImmSelected(op, select, imm)
  {
    hide Number, ImmWord, RestPlusOne;
    ImmWordRange(1 + Number(select) % 63);
    ImmWordRange(1 + Number(select) % 3);
    ImmWordNumber(1 + Number(select) % 63);
    ImmWordNumber(1 + Number(select) % 3);
    OwnRest(ImmWord(1 + Number(select) % 63), select, 63);
    OwnRest(ImmWord(1 + Number(select) % 3), select, 3);
    if op.Num() <= 2 then MulImm(Number(select) % 3)
    else if op.Num() <= 6 then ImmWord(1 + Number(select) % 63)
    else ImmWord(1 + Number(select) % 3)
  }

  // ----- a program from sixteen words -----

  type Draws = g: seq<u64> | |g| == DRAWS witness seq(DRAWS, _ => 0)

  /** RMCG, then XAS and MUL in turn. */
  function OpcodeAt(g: Draws, i: nat): Opcode
    requires i < 8
  {
    hide LowNumber;
    if i == 0 then RMCG
    else if i % 2 == 1 then XasOpcode(LowNumber(g[i - 1]) % 9)
    else MulOpcode(LowNumber(g[i - 1]) % 3)
  }

  function DigitVector(g: Draws): (d: seq<nat>)
    ensures |d| == 7 && Digits(d)
  {
    hide High32;
    seq(7, k requires 0 <= k < 7 => High32(g[k]) as nat % (k + 2))
  }

  function Destinations(g: Draws): (dst: seq<nat>)
    ensures |dst| == 8 && forall i :: 0 <= i < 8 ==> dst[i] < 8
  {
    hide High32, Shuffle;
    ShufflePermutes(DigitVector(g));
    Shuffle(DigitVector(g))
  }

  /** The destination that instruction i reads, as a position. */
  function SourceDigit(select: u64, i: nat): (k: nat)
    requires i < 8
    ensures k < 8
  {
    hide Number, Table.SourceRow, Table.Permitted, Table.Digit;
    var row := Table.SourceRow(Number(select) % Table.NUM_SRC_PERM);
    Table.RowPermitted(Number(select) % Table.NUM_SRC_PERM);
    DigitRange(row, i);
    Table.Digit(row, i) as nat
  }

  lemma DigitRange(w: u32, i: nat)
    requires Table.Permitted(w) && i < 8
    ensures Table.Digit(w, i) as nat < 8
  {
    hide Table.Digit;
    assert Table.Permutation(w);
    Table.DigitsBelow8(w, i);
    SmallNumber(Table.Digit(w, i));
  }

  lemma SmallNumber(w: u32)
    requires w < 8
    ensures w as nat < 8
  {
  }

  function Sources(dst: seq<nat>, select: u64): (src: seq<nat>)
    requires |dst| == 8 && forall i :: 0 <= i < 8 ==> dst[i] < 8
    ensures |src| == 8 && forall i :: 0 <= i < 8 ==> src[i] < REG_SIZE
  {
    hide Number, SourceDigit;
    seq(8, i requires 0 <= i < 8 => if i == 0 then 8 + Number(select) % 2 else dst[SourceDigit(select, i)])
  }

  /** The first eight instructions before the branch is inserted. */
  function InstructionAt(g: Draws, i: nat): Instruction
    requires i < 8
  {
    hide Destinations, Sources, OpcodeAt;
    Instruction(OpcodeAt(g, i), Sources(Destinations(g), g[7])[i], Destinations(g)[i], GenImm(OpcodeAt(g, i), g[8 + i]))
  }

  /** The branch is inserted before the last instruction. BRANCH keeps the operands of that
      instruction, and HALT what its slot held before; nothing reads either. */
  function ItemAt(g: Draws, left: Instruction, k: nat): Instruction
    requires k < PROGRAM_SIZE
  {
    if k < 7 then InstructionAt(g, k)
    else if k == 7 then InstructionAt(g, 7).(opcode := BRANCH)
    else if k == 8 then InstructionAt(g, 7)
    else left.(opcode := HALT)
  }

  function ProgramOf(g: Draws, left: Instruction): Program {
    seq(PROGRAM_SIZE, k requires 0 <= k < PROGRAM_SIZE => ItemAt(g, left, k))
  }

  // ----- every generated program is well formed -----

  lemma OpcodeKinds(g: Draws, i: nat)
    requires i < 8
    ensures var op := OpcodeAt(g, i);
            if i == 0 then op.RMCG? else if i % 2 == 1 then op.IsXas() else op.IsMul()
  {
    hide LowNumber;
  }

  lemma GeneratedLayout(g: Draws, left: Instruction)
    ensures Layout(ProgramOf(g, left))
  {
    hide OpcodeAt, Destinations, Sources, GenImm;
    OpcodeKinds(g, 0);
    OpcodeKinds(g, 1);
    OpcodeKinds(g, 2);
    OpcodeKinds(g, 3);
    OpcodeKinds(g, 4);
    OpcodeKinds(g, 5);
    OpcodeKinds(g, 6);
    OpcodeKinds(g, 7);
  }

  lemma DestinationsDiffer(g: Draws, i: nat, j: nat)
    requires i < 8 && j < 8 && i != j
    ensures Destinations(g)[i] != Destinations(g)[j]
  {
    hide Shuffle, DigitVector;
    ShufflePermutes(DigitVector(g));
  }

  /** The rules of the table, as positions. */
  lemma SourceRules(select: u64)
    ensures hide SourceDigit; SourceDigit(select, 1) != 0 && SourceDigit(select, 1) != 1
    ensures hide SourceDigit; SourceDigit(select, 2) != 0 && SourceDigit(select, 2) != 2
    ensures hide SourceDigit; SourceDigit(select, 3) != 0 && SourceDigit(select, 3) != 2 && SourceDigit(select, 3) != 3
    ensures hide SourceDigit; SourceDigit(select, 4) != 4
    ensures hide SourceDigit; SourceDigit(select, 5) != 4 && SourceDigit(select, 5) != 5
    ensures hide SourceDigit; SourceDigit(select, 6) != 6
    ensures hide SourceDigit; SourceDigit(select, 7) != 6 && SourceDigit(select, 7) != 7
  {
    hide Number, Table.SourceRow, Table.Digit, Table.Permitted;
    var row := Table.SourceRow(Number(select) % Table.NUM_SRC_PERM);
    Table.RowPermitted(Number(select) % Table.NUM_SRC_PERM);
    Table.HazardRules(row);
    NotPosition(Table.Digit(row, 1), 0);
    NotPosition(Table.Digit(row, 1), 1);
    NotPosition(Table.Digit(row, 2), 0);
    NotPosition(Table.Digit(row, 2), 2);
    NotPosition(Table.Digit(row, 3), 0);
    NotPosition(Table.Digit(row, 3), 2);
    NotPosition(Table.Digit(row, 3), 3);
    NotPosition(Table.Digit(row, 4), 4);
    NotPosition(Table.Digit(row, 5), 4);
    NotPosition(Table.Digit(row, 5), 5);
    NotPosition(Table.Digit(row, 6), 6);
    NotPosition(Table.Digit(row, 7), 6);
    NotPosition(Table.Digit(row, 7), 7);
  }

  /** A digit other than the word k is not the number k. */
  lemma NotPosition(w: u32, k: nat)
    requires k < 8 && w != U32(k)
    ensures w as nat != k
  {
    match k case 0 => case 1 => case 2 => case 3 => case 4 => case 5 => case 6 => case 7 =>
  }

  lemma OperandsOf(g: Draws, i: nat)
    requires i < 8
    ensures var n := InstructionAt(g, i);
            && n.dst == Destinations(g)[i]
            && n.src == (if i == 0 then 8 + Number(g[7]) % 2 else Destinations(g)[SourceDigit(g[7], i)])
            && n.opcode == OpcodeAt(g, i)
  {
    hide Destinations, SourceDigit, Number, OpcodeAt, GenImm;
  }

  lemma GeneratedImm(g: Draws, i: nat)
    requires i < 8
    ensures ImmOk(InstructionAt(g, i))
  {
    hide Destinations, Sources, OpcodeAt, GenImm;
  }

  lemma NotItself(select: u64, i: nat)
    requires 1 <= i < 8
    ensures SourceDigit(select, i) != i
  {
    hide SourceDigit;
    SourceRules(select);
    match i case 1 => case 2 => case 3 => case 4 => case 5 => case 6 => case 7 =>
  }

  lemma GeneratedOperand(g: Draws, i: nat)
    requires 1 <= i < 8
    ensures OperandOk(InstructionAt(g, i))
  {
    hide InstructionAt, Destinations, SourceDigit, OpcodeAt, ImmOk, Number;
    OperandsOf(g, i);
    GeneratedImm(g, i);
    NotItself(g[7], i);
    DestinationsDiffer(g, SourceDigit(g[7], i), i);
  }

  /** Which of the first eight instructions stands at position k; 7 moves to 8. */
  function Slot(k: nat): nat {
    if k == 8 then 7 else k
  }

  lemma ItemOf(g: Draws, left: Instruction, k: nat)
    requires k < 7 || k == 8
    ensures hide ProgramOf, InstructionAt; ProgramOf(g, left)[k] == InstructionAt(g, Slot(k))
  {
    hide InstructionAt;
  }

  lemma GeneratedDistinct(g: Draws, left: Instruction)
    ensures DistinctDestinations(ProgramOf(g, left))
  {
    hide ProgramOf, InstructionAt, Destinations, OpcodeAt, SourceDigit, Number;
    var p := ProgramOf(g, left);
    forall i, j | 0 <= i < j <= 8 && i != 7 && j != 7 ensures Differ(p, i, j) {
      ItemOf(g, left, i);
      ItemOf(g, left, j);
      OperandsOf(g, Slot(i));
      OperandsOf(g, Slot(j));
      DestinationsDiffer(g, Slot(i), Slot(j));
    }
  }

  lemma GeneratedFirst(g: Draws)
    ensures hide InstructionAt, ImmOk; var n := InstructionAt(g, 0); n.dst < 8 && (n.src == 8 || n.src == 9) && ImmOk(n)
  {
    hide InstructionAt, Destinations, SourceDigit, OpcodeAt, ImmOk, Number;
    OperandsOf(g, 0);
    GeneratedImm(g, 0);
  }

  lemma GeneratedOperands(g: Draws, left: Instruction)
    ensures OperandsOk(ProgramOf(g, left))
  {
    hide ProgramOf, InstructionAt, OperandOk, ImmOk, DistinctDestinations;
    ItemOf(g, left, 0);
    ItemOf(g, left, 1);
    ItemOf(g, left, 2);
    ItemOf(g, left, 3);
    ItemOf(g, left, 4);
    ItemOf(g, left, 5);
    ItemOf(g, left, 6);
    ItemOf(g, left, 8);
    GeneratedFirst(g);
    GeneratedOperand(g, 1);
    GeneratedOperand(g, 2);
    GeneratedOperand(g, 3);
    GeneratedOperand(g, 4);
    GeneratedOperand(g, 5);
    GeneratedOperand(g, 6);
    GeneratedOperand(g, 7);
    GeneratedDistinct(g, left);
  }

  /** A pending result is not read. */
  lemma NotRead(g: Draws, left: Instruction, i: nat, j: nat)
    requires (1 <= i < 7 || i == 8) && j < 7 && SourceDigit(g[7], Slot(i)) != j
    ensures ProgramOf(g, left)[i].src != ProgramOf(g, left)[j].dst
  {
    hide ProgramOf, InstructionAt, Destinations, OpcodeAt, SourceDigit, Number;
    ItemOf(g, left, i);
    ItemOf(g, left, j);
    OperandsOf(g, Slot(i));
    OperandsOf(g, j);
    DestinationsDiffer(g, SourceDigit(g[7], Slot(i)), j);
  }

  lemma GeneratedHazards(g: Draws, left: Instruction)
    ensures HazardFree(ProgramOf(g, left))
  {
    hide ProgramOf, SourceDigit;
    SourceRules(g[7]);
    NotRead(g, left, 1, 0);
    NotRead(g, left, 2, 0);
    NotRead(g, left, 3, 0);
    NotRead(g, left, 3, 2);
    NotRead(g, left, 5, 4);
    NotRead(g, left, 8, 6);
  }

  /** Whatever the random words are, the program meets every condition that the interpreter
      and the three compilers rely on. */
  lemma ProgramWellFormed(g: Draws, left: Instruction)
    ensures WellFormed(ProgramOf(g, left))
  {
    hide ProgramOf, Layout, OperandsOk, HazardFree;
    GeneratedLayout(g, left);
    GeneratedOperands(g, left);
    GeneratedHazards(g, left);
  }

  // ----- what the words select, without the tables -----

  /** The opcode of instruction i by its place in the enumeration: RMCG, then one of the nine
      XAS opcodes and one of the three MUL opcodes in turn, from the low half of a word. */
  predicate OpcodeSelected(op: Opcode, g: Draws, i: nat)
    requires i < 8
  {
    hide Number;
    if i == 0 then op == RMCG
    else if i % 2 == 1 then op.Num() == 4 + Number(g[i - 1]) % 0x1_0000_0000 % 9
    else op.Num() == Number(g[i - 1]) % 0x1_0000_0000 % 3
  }

  /** The destinations by the digits of the shuffle, which are the high halves of the words
      modulo the number of places. */
  predicate DestinationsSelected(dst: seq<nat>, g: Draws) {
    hide Number, DigitsOf;
    && |dst| == 8 && Permutation(dst)
    && forall k :: 0 <= k < 7 ==> DigitsOf(dst)[k] == Number(g[k]) / 0x1_0000_0000 % (k + 2)
  }

  /** The sources by the row of the table that the word selects among 625, and R8 or R9. */
  predicate SourcesSelected(src: seq<nat>, dst: seq<nat>, select: u64) {
    hide Number, Number32, Table.SourceRow, Table.Digit;
    && |src| == 8 && |dst| == 8 && src[0] == 8 + Number(select) % 2
    && forall i :: 1 <= i < 8 ==>
         var place := Number32(Table.Digit(Table.SourceRow(Number(select) % 625), i));
         place < 8 && src[i] == dst[place]
  }

  lemma SelectsOpcode(g: Draws, i: nat)
    requires i < 8
    ensures OpcodeSelected(OpcodeAt(g, i), g, i)
  {
    hide Number, LowNumber;
    if i > 0 {
      LowHalf(g[i - 1]);
    }
  }

  lemma SelectsDestinations(g: Draws)
    ensures DestinationsSelected(Destinations(g), g)
  {
    hide Number, High32, DigitsOf, Shuffle, Permutation;
    var d := DigitVector(g);
    ShuffleOneToOne(d);
    forall k | 0 <= k < 7 ensures d[k] == Number(g[k]) / 0x1_0000_0000 % (k + 2) {
      HighHalf(g[k]);
    }
  }

  lemma SelectsSources(dst: seq<nat>, select: u64)
    requires |dst| == 8 && forall i :: 0 <= i < 8 ==> dst[i] < 8
    ensures SourcesSelected(Sources(dst, select), dst, select)
  {
    hide Number, Number32, SourceDigit, Table.SourceRow, Table.Digit;
    forall i | 1 <= i < 8
      ensures Number32(Table.Digit(Table.SourceRow(Number(select) % 625), i)) == SourceDigit(select, i)
    {
      DigitNumber(select, i);
    }
  }

  lemma DigitNumber(select: u64, i: nat)
    requires 1 <= i < 8
    ensures Number32(Table.Digit(Table.SourceRow(Number(select) % 625), i)) == SourceDigit(select, i)
  {
    hide Number, Table.SourceRow, Table.Digit;
  }

  /** Which item of a program instruction i is: the branch stands before the last. */
  function Seat(i: nat): nat {
    if i == 7 then 8 else i
  }

  function DestinationsIn(p: Program): seq<nat> {
    seq(8, i requires 0 <= i < 8 => p[Seat(i)].dst)
  }

  function SourcesIn(p: Program): seq<nat> {
    seq(8, i requires 0 <= i < 8 => p[Seat(i)].src)
  }

  /** The whole program, field by field, from its sixteen words. */
  predicate Described(p: Program, g: Draws) {
    hide OpcodeSelected, DestinationsSelected, SourcesSelected, ImmSelected;
    && (forall i :: 0 <= i < 8 ==> OpcodeSelected(p[Seat(i)].opcode, g, i))
    && (forall i :: 0 <= i < 8 ==> ImmSelected(p[Seat(i)].opcode, g[8 + i], p[Seat(i)].imm))
    && DestinationsSelected(DestinationsIn(p), g)
    && SourcesSelected(SourcesIn(p), DestinationsIn(p), g[7])
    && p[7] == p[8].(opcode := BRANCH) && p[9].opcode == HALT
  }

  lemma SeatOf(g: Draws, left: Instruction, i: nat)
    requires i < 8
    ensures ProgramOf(g, left)[Seat(i)] == InstructionAt(g, i)
  {
    hide InstructionAt;
  }

  lemma FieldsOf(g: Draws, left: Instruction, i: nat)
    requires i < 8
    ensures var n := ProgramOf(g, left)[Seat(i)];
            && n.dst == Destinations(g)[i] && n.src == Sources(Destinations(g), g[7])[i]
            && n.opcode == OpcodeAt(g, i) && ImmSelected(n.opcode, g[8 + i], n.imm)
  {
    hide ProgramOf, Destinations, Sources, OpcodeAt, GenImm, ImmSelected;
    SeatOf(g, left, i);
  }

  lemma ClosedItems(g: Draws, left: Instruction)
    ensures var p := ProgramOf(g, left); p[7] == p[8].(opcode := BRANCH) && p[9].opcode == HALT
  {
    hide InstructionAt;
  }

  /** Every generated program is the one that its words describe. */
  lemma ProgramDescribed(g: Draws, left: Instruction)
    ensures Described(ProgramOf(g, left), g)
  {
    hide ProgramOf, Destinations, Sources, OpcodeAt, ImmSelected, OpcodeSelected, DestinationsSelected, SourcesSelected;
    var p := ProgramOf(g, left);
    var dst := Destinations(g);
    forall i | 0 <= i < 8
      ensures p[Seat(i)].dst == dst[i] && p[Seat(i)].src == Sources(dst, g[7])[i]
      ensures OpcodeSelected(p[Seat(i)].opcode, g, i) && ImmSelected(p[Seat(i)].opcode, g[8 + i], p[Seat(i)].imm)
    {
      FieldsOf(g, left, i);
      SelectsOpcode(g, i);
    }
    assert DestinationsIn(p) == dst && SourcesIn(p) == Sources(dst, g[7]);
    SelectsDestinations(g);
    SelectsSources(dst, g[7]);
    ClosedItems(g, left);
  }

  lemma OpcodeUnique(a: Opcode, b: Opcode, g: Draws, i: nat)
    requires i < 8 && OpcodeSelected(a, g, i) && OpcodeSelected(b, g, i)
    ensures a == b
  {
    hide Number;
    SameNum(a, b);
  }

  lemma SameNum(a: Opcode, b: Opcode)
    ensures a.Num() == b.Num() ==> a == b
  {
  }

  lemma SameRest(n: int, a: int, b: int, m: nat)
    requires 1 <= a <= m && 1 <= b <= m && (n - (a - 1)) % m == 0 && (n - (b - 1)) % m == 0
    ensures a == b
  {
    var s, t := (n - (a - 1)) / m, (n - (b - 1)) / m;
    assert n - (a - 1) == s * m && n - (b - 1) == t * m;
    assert (s - t) * m == b - a;
    NoMultiple(s - t, m, b - a);
  }

  lemma RestUnique(a: Imm, b: Imm, select: u64, m: nat)
    requires m > 0 && RestPlusOne(a, select, m) && RestPlusOne(b, select, m)
    ensures a == b
  {
    hide Number, Word32;
    SameRest(Number(select), a as nat, b as nat, m);
    NumberBack32(a as nat, a);
    NumberBack32(b as nat, b);
  }

  lemma ImmUnique(op: Opcode, select: u64, a: Imm, b: Imm)
    requires ImmSelected(op, select, a) && ImmSelected(op, select, b)
    ensures a == b
  {
    hide Number, RestPlusOne;
    if !op.IsMul() {
      RestUnique(a, b, select, if Rotates(op) then 63 else 3);
    }
  }

  lemma DestinationsUnique(a: seq<nat>, b: seq<nat>, g: Draws)
    requires DestinationsSelected(a, g) && DestinationsSelected(b, g)
    ensures a == b
  {
    hide Number, DigitsOf, Permutation, Shuffle;
    ShuffleOnto(a);
    ShuffleOnto(b);
    assert DigitsOf(a) == DigitsOf(b);
  }

  lemma SourcesUnique(a: seq<nat>, b: seq<nat>, dst: seq<nat>, select: u64)
    requires SourcesSelected(a, dst, select) && SourcesSelected(b, dst, select)
    ensures a == b
  {
    hide Number, Number32, Table.SourceRow, Table.Digit;
  }

  /** The description leaves nothing open but the operands of HALT. */
  lemma DescriptionComplete(p: Program, q: Program, g: Draws)
    requires Described(p, g) && Described(q, g)
    ensures forall k :: 0 <= k < 9 ==> p[k] == q[k]
    ensures p[9].opcode == q[9].opcode
  {
    hide OpcodeSelected, DestinationsSelected, SourcesSelected, ImmSelected;
    DestinationsUnique(DestinationsIn(p), DestinationsIn(q), g);
    SourcesUnique(SourcesIn(p), SourcesIn(q), DestinationsIn(p), g[7]);
    forall i | 0 <= i < 8 ensures p[Seat(i)] == q[Seat(i)] {
      OpcodeUnique(p[Seat(i)].opcode, q[Seat(i)].opcode, g, i);
      ImmUnique(p[Seat(i)].opcode, g[8 + i], p[Seat(i)].imm, q[Seat(i)].imm);
      assert DestinationsIn(p)[i] == DestinationsIn(q)[i] && SourcesIn(p)[i] == SourcesIn(q)[i];
    }
    assert p[Seat(7)] == p[8] && q[Seat(7)] == q[8];
    forall k | 0 <= k < 7 ensures p[k] == q[k] {
      assert Seat(k) == k;
    }
  }

  // ----- the generating methods -----

  method GenMulOpcode(select: u64) returns (op: Opcode, high: u32)
    ensures op == MulOpcode(LowNumber(select) % 3) && high == High32(select)
    ensures op.Num() == Number(select) % 0x1_0000_0000 % 3
    ensures Number32(high) == Number(select) / 0x1_0000_0000
  {
    hide LowNumber, High32, Number, Number32;
    LowHalf(select);
    HighHalf(select);
    high := High32(select);
    op := MulOpcode(LowNumber(select) % 3);
  }

  method GenXasOpcode(select: u64) returns (op: Opcode, high: u32)
    ensures op == XasOpcode(LowNumber(select) % 9) && high == High32(select)
    ensures op.Num() == 4 + Number(select) % 0x1_0000_0000 % 9
    ensures Number32(high) == Number(select) / 0x1_0000_0000
  {
    hide LowNumber, High32, Number, Number32;
    LowHalf(select);
    HighHalf(select);
    high := High32(select);
    op := XasOpcode(LowNumber(select) % 9);
  }

  /** The digits that the shuffle uses: the i-th word modulo the number of places. */
  function Reduced(select: seq<u32>): (d: seq<nat>)
    ensures |d| == |select| && Digits(d)
  {
    seq(|select|, k requires 0 <= k < |select| => select[k] as nat % (k + 2))
  }

  /** The inside-out shuffle in place. */
  method GenDestinations(dst: array<nat>, select: array<u32>)
    requires dst.Length == 8 && select.Length == 7
    modifies dst
    ensures dst[..] == Shuffle(Reduced(select[..]))
    ensures Permutation(dst[..])
    ensures forall k :: 0 <= k < 7 ==> DigitsOf(dst[..])[k] == Number32(select[k]) % (k + 2)
  {
    hide DigitsOf, Permutation;
    ghost var d := Reduced(select[..]);
    ShuffleOneToOne(d);
    dst[0] := 0;
    for i := 1 to 8
      invariant dst[..i] == Shuffle(d[..i - 1])
    {
      ghost var before := dst[..i];
      dst[i] := i;
      var j := select[i - 1] as nat % (i + 1);
      dst[i] := dst[j];
      dst[j] := i;
      assert d[..i][..i - 1] == d[..i - 1] && d[..i][i - 1] == j;
      assert dst[..i + 1] == Place(before, j);
    }
    assert d[..7] == d && dst[..8] == dst[..];
  }

  method GenSources(src: array<nat>, dst: array<nat>, select: u64)
    requires src.Length == 8 && dst.Length == 8 && src != dst && forall i :: 0 <= i < 8 ==> dst[i] < 8
    modifies src
    ensures src[..] == Sources(dst[..], select)
    ensures SourcesSelected(src[..], dst[..], select)
  {
    hide Number, SourceDigit, SourcesSelected;
    SelectsSources(dst[..], select);
    for i := 1 to 8
      invariant forall k :: 1 <= k < i ==> src[k] == dst[SourceDigit(select, k)]
    {
      src[i] := dst[SourceDigit(select, i)];
    }
    src[0] := 8 + Number(select) % 2;
  }

  /** Sixteen words of the stream from the n-th on. */
  function Drawn(key: Key, start: Quad, n: nat): Draws {
    hide Output;
    seq(DRAWS, t requires 0 <= t < DRAWS => Output(key, start, n + t))
  }

  /** The opcode fields of the first n instructions are set; nothing else has changed. */
  predicate OpcodesSet(before: Program, code: Program, g: Draws, n: nat)
    requires n <= 8
  {
    && (forall k :: 0 <= k < n ==> code[k] == before[k].(opcode := OpcodeAt(g, k)))
    && (forall k :: n <= k < PROGRAM_SIZE ==> code[k] == before[k])
  }

  lemma OpcodeStep(before: Program, code: Program, g: Draws, k: nat)
    requires 1 <= k < 8 && OpcodesSet(before, code, g, k)
    ensures OpcodesSet(before, code[k := code[k].(opcode := OpcodeAt(g, k))], g, k + 1)
  {
    hide OpcodeAt;
  }

  lemma FirstOpcode(before: Program, code: Program, g: Draws)
    requires code == before[0 := before[0].(opcode := RMCG)]
    ensures OpcodesSet(before, code, g, 1)
  {
  }

  lemma DrawnAt(key: Key, start: Quad, n: nat, t: nat)
    requires t < DRAWS
    ensures Drawn(key, start, n)[t] == Output(key, start, n + t)
  {
    hide Output;
  }

  /** The first n instructions have their opcodes, from n - 1 words whose high halves are kept. */
  predicate OpcodesFrom(before: Program, g: Draws, code: Program, select: seq<u32>, n: nat)
    requires 1 <= n <= 8
  {
    && |select| == 7 && OpcodesSet(before, code, g, n)
    && forall t :: 0 <= t < n - 1 ==> select[t] == High32(g[t])
  }

  ghost predicate OpcodesDrawn(gen: SiphashRng, code: array<Instruction>, dstSelect: array<u32>,
                               before: Program, first: nat, n: nat)
    requires code.Length == PROGRAM_SIZE && 1 <= n <= 8
    reads gen, code, dstSelect
  {
    hide OpcodesFrom, Drawn;
    && gen.drawn == first + n - 1
    && OpcodesFrom(before, Drawn(gen.key, gen.start, first), code[..], dstSelect[..], n)
  }

  lemma OpcodesStart(before: Program, g: Draws, code: Program, select: seq<u32>)
    requires code == before[0 := before[0].(opcode := RMCG)] && |select| == 7
    ensures OpcodesFrom(before, g, code, select, 1)
  {
    hide OpcodesSet, High32;
    FirstOpcode(before, code, g);
  }

  lemma OpcodesMore(before: Program, g: Draws, code: Program, select: seq<u32>, k: nat)
    requires 1 <= k < 8 && OpcodesFrom(before, g, code, select, k)
    ensures var op := OpcodeAt(g, k);
            OpcodesFrom(before, g, code[k := code[k].(opcode := op)], select[k - 1 := High32(g[k - 1])], k + 1)
  {
    hide OpcodesSet, High32, OpcodeAt;
    OpcodeStep(before, code, g, k);
  }

  lemma OpcodesDone(before: Program, g: Draws, code: Program, select: seq<u32>)
    requires OpcodesFrom(before, g, code, select, 8)
    ensures OpcodesSet(before, code, g, 8) && forall k :: 0 <= k < 7 ==> select[k] == High32(g[k])
  {
    hide OpcodesSet, High32;
  }

  lemma NoneDrawn(gen: SiphashRng, code: array<Instruction>, dstSelect: array<u32>, before: Program)
    requires code.Length == PROGRAM_SIZE && dstSelect.Length == 7
    requires code[..] == before[0 := before[0].(opcode := RMCG)]
    ensures OpcodesDrawn(gen, code, dstSelect, before, gen.drawn, 1)
  {
    hide OpcodesFrom, Drawn;
    OpcodesStart(before, Drawn(gen.key, gen.start, gen.drawn), code[..], dstSelect[..]);
  }

  lemma AllDrawn(gen: SiphashRng, code: array<Instruction>, dstSelect: array<u32>, before: Program, first: nat)
    requires code.Length == PROGRAM_SIZE && dstSelect.Length == 7
    requires OpcodesDrawn(gen, code, dstSelect, before, first, 8)
    ensures var g := Drawn(gen.key, gen.start, first);
            && gen.drawn == first + 7 && OpcodesSet(before, code[..], g, 8)
            && forall k :: 0 <= k < 7 ==> dstSelect[k] == High32(g[k])
  {
    hide OpcodesFrom, OpcodesSet, Drawn, High32;
    OpcodesDone(before, Drawn(gen.key, gen.start, first), code[..], dstSelect[..]);
  }

  lemma SelectedOpcodes(before: Program, code: Program, g: Draws)
    requires OpcodesSet(before, code, g, 8)
    ensures forall k :: 0 <= k < 8 ==> OpcodeSelected(code[k].opcode, g, k)
  {
    hide OpcodeAt, OpcodeSelected;
    forall k | 0 <= k < 8 ensures OpcodeSelected(code[k].opcode, g, k) {
      SelectsOpcode(g, k);
    }
  }

  /** One of the nine XOR, ADD and SUB opcodes for instruction k, from the next word. */
  method DrawXas(gen: SiphashRng, code: array<Instruction>, dstSelect: array<u32>, k: nat,
                 ghost before: Program, ghost first: nat)
    requires gen.Valid() && code.Length == PROGRAM_SIZE && dstSelect.Length == 7 && gen.state != dstSelect as object
    requires 1 <= k < 8 && k % 2 == 1 && OpcodesDrawn(gen, code, dstSelect, before, first, k)
    modifies gen, gen.state, code, dstSelect
    ensures gen.Valid() && gen.state == old(gen.state) && gen.key == old(gen.key) && gen.start == old(gen.start)
    ensures OpcodesDrawn(gen, code, dstSelect, before, first, k + 1)
  {
    hide OpcodesFrom, Drawn, Output, LowNumber, High32, XasOpcode, MulOpcode, Mixes, Number, Number32;
    DrawnAt(gen.key, gen.start, first, k - 1);
    OpcodesMore(before, Drawn(gen.key, gen.start, first), code[..], dstSelect[..], k);
    var select := gen.Next();
    var op, high := GenXasOpcode(select);
    code[k] := code[k].(opcode := op);
    dstSelect[k - 1] := high;
  }

  /** One of the three MUL opcodes, likewise. */
  method DrawMul(gen: SiphashRng, code: array<Instruction>, dstSelect: array<u32>, k: nat,
                 ghost before: Program, ghost first: nat)
    requires gen.Valid() && code.Length == PROGRAM_SIZE && dstSelect.Length == 7 && gen.state != dstSelect as object
    requires 1 <= k < 8 && k % 2 == 0 && OpcodesDrawn(gen, code, dstSelect, before, first, k)
    modifies gen, gen.state, code, dstSelect
    ensures gen.Valid() && gen.state == old(gen.state) && gen.key == old(gen.key) && gen.start == old(gen.start)
    ensures OpcodesDrawn(gen, code, dstSelect, before, first, k + 1)
  {
    hide OpcodesFrom, Drawn, Output, LowNumber, High32, XasOpcode, MulOpcode, Mixes, Number, Number32;
    DrawnAt(gen.key, gen.start, first, k - 1);
    OpcodesMore(before, Drawn(gen.key, gen.start, first), code[..], dstSelect[..], k);
    var select := gen.Next();
    var op, high := GenMulOpcode(select);
    code[k] := code[k].(opcode := op);
    dstSelect[k - 1] := high;
  }

  /** The opcodes, in the order of the draws. */
  method GenOpcodes(gen: SiphashRng, code: array<Instruction>, dstSelect: array<u32>)
    requires gen.Valid() && code.Length == PROGRAM_SIZE && dstSelect.Length == 7 && gen.state != dstSelect as object
    modifies gen, gen.state, code, dstSelect
    ensures gen.Valid() && gen.state == old(gen.state) && gen.key == old(gen.key) && gen.start == old(gen.start)
    ensures gen.drawn == old(gen.drawn) + 7
    ensures OpcodesSet(old(code[..]), code[..], Drawn(gen.key, gen.start, old(gen.drawn)), 8)
    ensures forall k :: 0 <= k < 7 ==> dstSelect[k] == High32(Drawn(gen.key, gen.start, old(gen.drawn))[k])
    ensures forall k :: 0 <= k < 8 ==> OpcodeSelected(code[k].opcode, Drawn(gen.key, gen.start, old(gen.drawn)), k)
    ensures forall k :: 0 <= k < 7 ==>
              Number32(dstSelect[k]) == Number(Drawn(gen.key, gen.start, old(gen.drawn))[k]) / 0x1_0000_0000
  {
    hide OpcodesDrawn, OpcodesSet, OpcodeSelected, Drawn, High32, Mixes, Number, Number32;
    ghost var before, first := code[..], gen.drawn;
    code[0] := code[0].(opcode := RMCG);
    NoneDrawn(gen, code, dstSelect, before);
    DrawXas(gen, code, dstSelect, 1, before, first);
    DrawMul(gen, code, dstSelect, 2, before, first);
    DrawXas(gen, code, dstSelect, 3, before, first);
    DrawMul(gen, code, dstSelect, 4, before, first);
    DrawXas(gen, code, dstSelect, 5, before, first);
    DrawMul(gen, code, dstSelect, 6, before, first);
    DrawXas(gen, code, dstSelect, 7, before, first);
    AllDrawn(gen, code, dstSelect, before, first);
    ghost var g := Drawn(gen.key, gen.start, first);
    SelectedOpcodes(before, code[..], g);
    forall k | 0 <= k < 7 ensures Number32(dstSelect[k]) == Number(g[k]) / 0x1_0000_0000 {
      HighHalf(g[k]);
    }
  }

  /** The operands of one instruction, with its immediate drawn from the stream. */
  method GenOperands(gen: SiphashRng, code: array<Instruction>, i: nat, src: RegIndex, dst: RegIndex)
    requires gen.Valid() && code.Length == PROGRAM_SIZE && i < 8
    modifies gen, gen.state, code
    ensures gen.Valid() && gen.state == old(gen.state) && gen.key == old(gen.key) && gen.start == old(gen.start)
    ensures gen.drawn == old(gen.drawn) + 1
    ensures var op := old(code[i]).opcode;
            code[..] == old(code[..])[i := Instruction(op, src, dst, GenImm(op, Output(gen.key, gen.start, old(gen.drawn))))]
  {
    hide Output, GenImm, Mixes;
    var select := gen.Next();
    code[i] := code[i].(dst := dst);
    code[i] := code[i].(src := src);
    code[i] := code[i].(imm := GenImm(code[i].opcode, select));
  }

  /** The first n instructions are complete; the others have their opcodes only. */
  predicate OperandsSet(before: Program, code: Program, g: Draws, n: nat)
    requires n <= 8
  {
    && (forall k :: 0 <= k < n ==> code[k] == InstructionAt(g, k))
    && (forall k :: n <= k < 8 ==> code[k].opcode == OpcodeAt(g, k))
    && code[9] == before[9]
  }

  lemma OperandStep(before: Program, code: Program, g: Draws, i: nat)
    requires i < 8
    requires hide OperandsSet; OperandsSet(before, code, g, i)
    ensures hide OperandsSet, Destinations, Sources, GenImm;
            var op := code[i].opcode;
            OperandsSet(before, code[i := Instruction(op, Sources(Destinations(g), g[7])[i], Destinations(g)[i],
                                                      GenImm(op, g[8 + i]))], g, i + 1)
  {
    hide Destinations, Sources, GenImm, OpcodeAt;
  }

  lemma OpcodesThenOperands(before: Program, code: Program, g: Draws)
    requires OpcodesSet(before, code, g, 8)
    ensures OperandsSet(before, code, g, 0)
  {
    hide OpcodeAt, InstructionAt;
  }

  /** The last steps: the branch is inserted and the program ends. */
  lemma Finish(before: Program, code: Program, g: Draws)
    requires OperandsSet(before, code, g, 8)
    ensures code[8 := code[7]][7 := code[7].(opcode := BRANCH)][9 := code[9].(opcode := HALT)] == ProgramOf(g, before[9])
  {
    hide InstructionAt, OpcodeAt;
    var p := code[8 := code[7]][7 := code[7].(opcode := BRANCH)][9 := code[9].(opcode := HALT)];
    forall k | 0 <= k < PROGRAM_SIZE ensures p[k] == ItemAt(g, before[9], k) {
    }
  }

  lemma ReducedDigits(g: Draws, select: seq<u32>)
    requires |select| == 7 && forall k :: 0 <= k < 7 ==> select[k] == High32(g[k])
    ensures Reduced(select) == DigitVector(g)
  {
    hide High32;
  }

  /** The operands that the first eight words give. */
  predicate Chosen(src: seq<nat>, dst: seq<nat>, g: Draws) {
    hide Destinations, Sources;
    dst == Destinations(g) && src == Sources(Destinations(g), g[7])
  }

  /** The first n instructions are complete, from n words more. */
  ghost predicate OperandsDrawn(gen: SiphashRng, code: array<Instruction>, g: Draws, before: Program, first: nat, n: nat)
    requires code.Length == PROGRAM_SIZE && n <= 8
    reads gen, code
  {
    hide OperandsSet, Drawn;
    g == Drawn(gen.key, gen.start, first) && gen.drawn == first + 8 + n && OperandsSet(before, code[..], g, n)
  }

  /** Fills in the operands of the first eight instructions. */
  method FillOperands(gen: SiphashRng, code: array<Instruction>, src: array<nat>, dst: array<nat>,
                      ghost g: Draws, ghost before: Program, ghost first: nat)
    requires gen.Valid() && code.Length == PROGRAM_SIZE && src.Length == 8 && dst.Length == 8
    requires Chosen(src[..], dst[..], g) && OperandsDrawn(gen, code, g, before, first, 0)
    modifies gen, gen.state, code
    ensures gen.Valid() && gen.state == old(gen.state) && gen.key == old(gen.key) && gen.start == old(gen.start)
    ensures OperandsDrawn(gen, code, g, before, first, 8)
  {
    hide OperandsSet, Drawn, Output, GenImm, ImmSelected, Mixes, Destinations, Sources, OpcodeAt, InstructionAt;
    for i := 0 to 8
      invariant gen.Valid() && gen.state == old(gen.state) && gen.key == old(gen.key) && gen.start == old(gen.start)
      invariant Chosen(src[..], dst[..], g) && OperandsDrawn(gen, code, g, before, first, i)
    {
      ghost var was := code[..];
      assert dst[i] == dst[..][i] && src[i] == src[..][i];
      GenOperands(gen, code, i, src[i], dst[i]);
      DrawnAt(gen.key, gen.start, first, 8 + i);
      OperandStep(before, was, g, i);
    }
  }

  /** Destinations and sources, from the high halves of the first seven words and from the
      eighth word. */
  method GenRegisters(gen: SiphashRng, dstSelect: array<u32>, ghost g: Draws, ghost first: nat)
    returns (src: array<nat>, dst: array<nat>)
    requires gen.Valid() && dstSelect.Length == 7
    requires g == Drawn(gen.key, gen.start, first) && gen.drawn == first + 7
    requires forall k :: 0 <= k < 7 ==> dstSelect[k] == High32(g[k])
    modifies gen, gen.state
    ensures gen.Valid() && gen.state == old(gen.state) && gen.key == old(gen.key) && gen.start == old(gen.start)
    ensures gen.drawn == first + 8 && fresh(src) && fresh(dst) && src.Length == 8 && dst.Length == 8
    ensures dst[..] == Destinations(g) && src[..] == Sources(Destinations(g), g[7])
  {
    hide Drawn, Output, Mixes, Reduced, DigitVector, Shuffle, Sources, High32, DigitsOf, SourcesSelected, Permutation,
         Number32;
    ReducedDigits(g, dstSelect[..]);
    dst := new nat[8];
    GenDestinations(dst, dstSelect);
    ghost var ds := dst[..];
    assert ds == Destinations(g);
    assert forall i :: 0 <= i < 8 ==> dst[i] == ds[i];
    src := new nat[8];
    var select := gen.Next();
    DrawnAt(gen.key, gen.start, first, 7);
    GenSources(src, dst, select);
  }

  /** Slot 7 moves to slot 8 and becomes a branch; slot 9 ends the program. */
  method CloseProgram(code: array<Instruction>)
    requires code.Length == PROGRAM_SIZE
    modifies code
    ensures var c := old(code[..]);
            code[..] == c[8 := c[7]][7 := c[7].(opcode := BRANCH)][9 := c[9].(opcode := HALT)]
  {
    code[8] := code[7];
    code[7] := code[7].(opcode := BRANCH);
    code[9] := code[9].(opcode := HALT);
  }

  /** Generates one program in place from sixteen words of the stream. */
  method ProgramGenerate(gen: SiphashRng, code: array<Instruction>)
    requires gen.Valid() && code.Length == PROGRAM_SIZE
    modifies gen, gen.state, code
    ensures gen.Valid() && gen.state == old(gen.state) && gen.key == old(gen.key) && gen.start == old(gen.start)
    ensures gen.drawn == old(gen.drawn) + DRAWS
    ensures hide ProgramOf, Drawn; code[..] == ProgramOf(Drawn(gen.key, gen.start, old(gen.drawn)), old(code[9]))
    ensures Described(code[..], Drawn(gen.key, gen.start, old(gen.drawn)))
  {
    hide Described, OpcodeSelected, Number, Number32, OpcodesSet, OperandsSet, ProgramOf, Drawn, Mixes, Destinations, Sources, High32;
    ghost var before, first := code[..], gen.drawn;
    ghost var g := Drawn(gen.key, gen.start, first);
    var dstSelect := new u32[7];
    GenOpcodes(gen, code, dstSelect);
    OpcodesThenOperands(before, code[..], g);
    var src, dst := GenRegisters(gen, dstSelect, g, first);
    FillOperands(gen, code, src, dst, g, before, first);
    Finish(before, code[..], g);
    CloseProgram(code);
    ProgramDescribed(g, before[9]);
  }

  // ----- the list of programs -----

  /** The salt of the program generator: all bits set. */
  const LIST_SALT: u64 := 0xffff_ffff_ffff_ffff

  /** Program i is a function of the sixteen outputs 16 i, ..., 16 i + 15 alone, but for
      what the slot of its HALT held before. */
  function GeneratedList(key: Key, left: seq<Instruction>): (l: ProgramList)
    requires |left| == NUM_PROGRAMS
  {
    hide ProgramOf, Drawn, InitState;
    var start := InitState(key, LIST_SALT);
    seq(NUM_PROGRAMS, i requires 0 <= i < NUM_PROGRAMS => ProgramOf(Drawn(key, start, DRAWS * i), left[i]))
  }

  lemma ListItem(key: Key, left: seq<Instruction>, i: nat)
    requires |left| == NUM_PROGRAMS && i < NUM_PROGRAMS
    ensures GeneratedList(key, left)[i] == ProgramOf(Drawn(key, InitState(key, LIST_SALT), DRAWS * i), left[i])
  {
    hide ProgramOf, Drawn, InitState;
  }

  /** Outputs 16 i to 16 i + 15 of the generator whose salt has all bits set. */
  function Words16(key: Key, i: nat): Draws {
    hide InitState, Output;
    var start := InitState(key, 0xffff_ffff_ffff_ffff);
    seq(16, t requires 0 <= t < 16 => Output(key, start, 16 * i + t))
  }

  lemma WordsDrawn(key: Key, i: nat)
    ensures Drawn(key, InitState(key, LIST_SALT), DRAWS * i) == Words16(key, i)
  {
    hide InitState, Output;
  }

  /** Program i is the one that its words describe. */
  lemma ListDescribed(key: Key, left: seq<Instruction>, i: nat)
    requires |left| == NUM_PROGRAMS && i < NUM_PROGRAMS
    ensures Described(GeneratedList(key, left)[i], Words16(key, i))
  {
    hide GeneratedList, ProgramOf, Drawn, InitState, Described, Words16;
    ListItem(key, left, i);
    WordsDrawn(key, i);
    ProgramDescribed(Words16(key, i), left[i]);
  }

  lemma AllDescribed(key: Key, left: seq<Instruction>)
    requires |left| == NUM_PROGRAMS
    ensures forall i :: 0 <= i < NUM_PROGRAMS ==> Described(GeneratedList(key, left)[i], Words16(key, i))
  {
    hide GeneratedList, Described, Words16;
    forall i | 0 <= i < NUM_PROGRAMS ensures Described(GeneratedList(key, left)[i], Words16(key, i)) {
      ListDescribed(key, left, i);
    }
  }

  /** For every key, all 32 programs are well formed. */
  lemma GeneratedWellFormed(key: Key, left: seq<Instruction>)
    requires |left| == NUM_PROGRAMS
    ensures AllWellFormed(GeneratedList(key, left))
  {
    hide ProgramOf, Drawn, InitState, WellFormed;
    var start := InitState(key, LIST_SALT);
    forall i | 0 <= i < NUM_PROGRAMS ensures WellFormed(GeneratedList(key, left)[i]) {
      ProgramWellFormed(Drawn(key, start, DRAWS * i), left[i]);
    }
  }

  /** The instructions behind a list of program buffers. */
  ghost function Leftovers(programs: seq<array<Instruction>>): (left: seq<Instruction>)
    requires |programs| == NUM_PROGRAMS && forall i :: 0 <= i < NUM_PROGRAMS ==> programs[i].Length == PROGRAM_SIZE
    reads programs
    ensures |left| == NUM_PROGRAMS
  {
    seq(NUM_PROGRAMS, i requires 0 <= i < NUM_PROGRAMS reads programs => programs[i][9])
  }

  predicate Buffers(programs: seq<array<Instruction>>) {
    && |programs| == NUM_PROGRAMS
    && (forall i :: 0 <= i < NUM_PROGRAMS ==> programs[i].Length == PROGRAM_SIZE)
    && (forall i, j :: 0 <= i < j < NUM_PROGRAMS ==> programs[i] != programs[j])
  }

  method ProgramListGenerate(key: Key, programs: seq<array<Instruction>>)
    requires Buffers(programs)
    modifies programs
    ensures forall i :: 0 <= i < NUM_PROGRAMS ==> programs[i][..] == GeneratedList(key, old(Leftovers(programs)))[i]
    ensures forall i :: 0 <= i < NUM_PROGRAMS ==> Described(programs[i][..], Words16(key, i))
  {
    hide GeneratedList, ProgramOf, Drawn, InitState, Mixes, Described, Words16, SipUnround, Xor;
    ghost var left := Leftovers(programs);
    var gen := new SiphashRng(key, LIST_SALT);
    for i := 0 to NUM_PROGRAMS
      invariant gen.Valid() && fresh(gen) && fresh(gen.state)
      invariant gen.key == key && gen.start == InitState(key, LIST_SALT) && gen.drawn == DRAWS * i
      invariant forall k :: 0 <= k < i ==> programs[k][..] == GeneratedList(key, left)[k]
      invariant forall k :: i <= k < NUM_PROGRAMS ==> programs[k][9] == left[k]
    {
      ListItem(key, left, i);
      ProgramGenerate(gen, programs[i]);
    }
    AllDescribed(key, left);
  }

  // ----- what HALT leaves behind does not matter -----

  lemma {:induction false} PassesIgnoreHalt(p: Program, q: Program, mode: Mode, r: Regs, bc: nat)
    requires forall k :: 0 <= k < 9 ==> p[k] == q[k]
    ensures Passes(p, mode, r, bc) == Passes(q, mode, r, bc)
    decreases bc
  {
    hide Arith, And;
    var b := Body(p, mode, r);
    assert b == Body(q, mode, r);
    if Taken(p, b, bc) {
      hide Body;
      PassesIgnoreHalt(p, q, mode, b, bc - 1);
    }
  }

  predicate SameButHalt(l: ProgramList, m: ProgramList) {
    forall i, k :: 0 <= i < NUM_PROGRAMS && 0 <= k < 9 ==> l[i][k] == m[i][k]
  }

  lemma {:induction false} WriteIgnoresHalt(l: ProgramList, m: ProgramList, n: nat, r: Regs, mem: Scratchpad)
    requires SameButHalt(l, m) && n <= NUM_PROGRAMS
    ensures WritePhase(l, n, r, mem) == WritePhase(m, n, r, mem)
  {
    hide Passes;
    if n > 0 {
      WriteIgnoresHalt(l, m, n - 1, r, mem);
      var s := WritePhase(l, n - 1, r, mem);
      PassesIgnoreHalt(l[n - 1], m[n - 1], RegMode, s.r, s.bc);
    }
  }

  lemma {:induction false} ReadIgnoresHalt(l: ProgramList, m: ProgramList, n: nat, r: Regs, mem: Scratchpad)
    requires SameButHalt(l, m) && n <= NUM_PROGRAMS
    ensures ReadPhase(l, n, r, mem) == ReadPhase(m, n, r, mem)
  {
    hide Passes;
    if n > 0 {
      ReadIgnoresHalt(l, m, n - 1, r, mem);
      var o := ReadPhase(l, n - 1, r, mem);
      PassesIgnoreHalt(l[n - 1], m[n - 1], MemMode(mem), o.r, o.bc);
    }
  }

  /** Two generations from one key compute the same, whatever memory they were put into. */
  lemma LeftoversIrrelevant(key: Key, a: seq<Instruction>, b: seq<Instruction>, r: Regs)
    requires |a| == NUM_PROGRAMS && |b| == NUM_PROGRAMS
    ensures Execute(GeneratedList(key, a), r) == Execute(GeneratedList(key, b), r)
  {
    hide InstructionAt, Drawn, InitState, WritePhase, ReadPhase, Blank;
    var l, m := GeneratedList(key, a), GeneratedList(key, b);
    assert SameButHalt(l, m);
    WriteIgnoresHalt(l, m, NUM_PROGRAMS, r, Blank());
    var w := WritePhase(l, NUM_PROGRAMS, r, Blank());
    ReadIgnoresHalt(l, m, NUM_PROGRAMS, w.r, w.mem);
  }
}
