/** Why the hazard rules: the reordered loops compute what the programs mean in every state
    if and only if the rules hold. A violated rule is shown to matter by one state in which
    the reordered code, reading a register too early or too late, gets another result. */
module A64Hazards {
  import opened Words
  import opened WordLaws
  import opened Vm
  import opened Budget
  import opened Stack
  import opened Multiplier
  import opened A64Machine
  import opened A64Schedule
  import opened A64Order
  import opened A64Decode
  import opened A64Emitted
  import opened A64Simulation
  import opened A64Program

  // ----- tracing straight-line code -----

  /** The state before instruction n. */
  function Before(b: seq<Isn>, s: State, n: nat): State
    requires n <= |b|
  {
    Block(b[..n], s)
  }

  predicate Plain(b: seq<Isn>) {
    forall k :: 0 <= k < |b| ==> Movable(b[k]) && !b[k].StpSp?
  }

  lemma BeforeNext(b: seq<Isn>, s: State, n: nat)
    requires n < |b|
    ensures Before(b, s, n + 1) == Exec(b[n], Before(b, s, n))
  {
    hide Exec, Block;
    assert b[..n + 1] == b[..n] + [b[n]];
    BlockAppend(b[..n], [b[n]], s);
    Block1(b[n], Block(b[..n], s));
  }

  lemma ExecKeeps(i: Isn, s: State, r: Reg)
    requires Movable(i) && !i.StpSp? && Exec(i, s).Live?
    ensures s.Live?
    ensures var t := Exec(i, s);
            t.sp == s.sp && t.mem == s.mem && (Target(i) != r ==> t.x[r] == s.x[r])
  {
    hide AluValue, ImmValue, ShiftValue, Add, And, Address;
  }

  /** Code that ends well was well all along, and has not touched memory. */
  lemma {:induction false} BeforeLive(b: seq<Isn>, s: State, n: nat)
    requires Plain(b) && n <= |b| && Block(b, s).Live?
    ensures Before(b, s, n).Live?
    decreases |b| - n
  {
    hide Exec, Movable;
    if n == |b| {
      assert b[..n] == b;
    } else {
      BeforeLive(b, s, n + 1);
      BeforeNext(b, s, n);
      hide Before, Block;
      ExecKeeps(b[n], Before(b, s, n), 0);
    }
  }

  lemma {:induction false} BeforeMem(b: seq<Isn>, s: State, n: nat)
    requires Plain(b) && n <= |b| && Block(b, s).Live?
    ensures s.Live? && var t := Before(b, s, n); t.Live? && t.sp == s.sp && t.mem == s.mem
  {
    hide Exec, Movable, Target;
    BeforeLive(b, s, n);
    if n == 0 {
      assert b[..0] == [];
    } else {
      BeforeMem(b, s, n - 1);
      BeforeNext(b, s, n - 1);
      hide Before, Block;
      ExecKeeps(b[n - 1], Before(b, s, n - 1), 0);
    }
  }

  /** A register that no instruction between m and n writes. */
  lemma {:induction false} Kept(b: seq<Isn>, s: State, m: nat, n: nat, r: Reg)
    requires Plain(b) && m <= n <= |b| && Block(b, s).Live?
    requires forall k :: m <= k < n ==> Target(b[k]) != r
    ensures Before(b, s, m).Live? && Before(b, s, n).Live? && Before(b, s, n).x[r] == Before(b, s, m).x[r]
  {
    hide Exec, Movable, Target, Before, Block;
    BeforeLive(b, s, m);
    BeforeLive(b, s, n);
    if m < n {
      Kept(b, s, m, n - 1, r);
      BeforeNext(b, s, n - 1);
      ExecKeeps(b[n - 1], Before(b, s, n - 1), r);
    }
  }

  // ----- values -----

  /** A value that does not select cell 128, which 1024 does. */
  predicate Away(x: u64) {
    MemIndex(x) != 128
  }

  lemma PendingSelects()
    ensures MemIndex(1024) == 128
  {
  }

  lemma AwayValues()
    ensures Away(0) && Away(1) && Away(9) && Away(33) && Away(0xffff_ffff_ffff_ffff)
  {
  }

  lemma AwayBits(x: u64)
    requires (x / 8) % 256 != 128
    ensures Away(x)
  {
  }

  lemma RotatedBits(imm: Imm)
    requires 1 <= imm
    ensures (Rotr(1024, imm) / 8) % 256 != 128
  {
  }

  /** A rotation moves the bit that selects cell 128 elsewhere. */
  lemma AwayRotated(imm: Imm)
    requires 1 <= imm
    ensures Away(Rotr(1024, imm))
  {
    hide Rotr, Away;
    RotatedBits(imm);
    AwayBits(Rotr(1024, imm));
  }

  lemma MulZero(a: u64)
    ensures Mul(a, 0) == 0
  {
    hide Number, Word;
    ZeroNumber();
    NumberBack(0, 0);
  }

  lemma ZeroNumber()
    ensures Number(0) == 0
  {
  }

  lemma MulOne(a: u64)
    ensures Mul(a, 1) == a
  {
    hide Number, Word;
    NumberOfOne();
    Range(a);
    assert (Number(a) * 1) % TWO_64 == Number(a);
    NumberBack(Number(a), a);
  }

  lemma ShiftZero(imm: Imm)
    ensures Rotr(0, imm) == 0 && Asr(0, imm) == 0 && Lsr(0, imm) == 0
  {
  }

  lemma ZeroWith(v: u64)
    ensures Xor(0, v) == v && Or(0, v) == v && Add(0, v) == v && Sub(0, v) == 0 - v
  {
  }

  /** On a zero destination, a zero operand gives zero. */
  lemma ResultZero(i: Instruction)
    requires i.opcode.IsXas() || i.opcode.IsMul()
    ensures Result(i.opcode, 0, i.imm, 0) == 0
  {
    hide Rotr, Asr, Lsr, Mul, Or, Xor, Add, Sub;
    ShiftZero(i.imm);
    ZeroWith(0);
    MulZero(Or(0, i.imm as u64));
    MulZero(Xor(0, i.imm as u64));
    MulZero(Add(0, i.imm as u64));
  }

  /** An operand of one gives 1, -1 or the immediate of the multiplication. */
  lemma ResultOne(i: Instruction)
    requires i.opcode.IsXas() || (i.opcode.IsMul() && ImmOk(i))
    ensures var v := Result(i.opcode, 0, i.imm, 1); v != 0 && Away(v)
  {
    hide Rotr, Asr, Lsr, Mul, Or, Xor, Add, Sub, Away;
    AwayValues();
    ShiftZero(i.imm);
    ZeroWith(1);
    ZeroWith(i.imm as u64);
    MulOne(i.imm as u64);
  }

  // ----- the interpreter, on a program that breaks a rule of the scratchpad loop -----

  /** Instruction i reads the register that instruction j is to write, against a rule. */
  predicate Breaks(p: Program, i: nat, j: nat) {
    && ((j == 0 && 1 <= i <= 3) || (i == 3 && j == 2) || (i == 5 && j == 4) || (i == 8 && j == 6))
    && p[i].src == p[j].dst
  }

  /** Zero but for the register in question, and multipliers of one. */
  function Start(d: RegIndex, v: u64): Regs {
    seq(REG_SIZE, k => if k == d then v else if k < 8 then 0 else 1)
  }

  /** Zero but for cell 128. */
  function OnePad(): Scratchpad {
    seq(MEM_SIZE, k => if k == 128 then 1 else 0)
  }

  function Selected(x: u64): u64 {
    OnePad()[MemIndex(x)]
  }

  lemma SelectedAway(x: u64)
    ensures Selected(x) == if Away(x) then 0 else 1
  {
    hide MemIndex;
  }

  /** The registers after the first n instructions. */
  function After(p: Program, mode: Mode, r: Regs, n: nat): Regs
    requires n <= 7
  {
    if n == 0 then r else Arith(p[n - 1], mode, After(p, mode, r, n - 1))
  }

  lemma BodyAfter(p: Program, mode: Mode, r: Regs)
    ensures After(p, mode, r, 7) == Body(p, mode, r)
  {
    hide Arith;
    assert After(p, mode, r, 0) == r;
    assert After(p, mode, r, 1) == Arith(p[0], mode, r);
    assert After(p, mode, r, 2) == Arith(p[1], mode, After(p, mode, r, 1));
    assert After(p, mode, r, 3) == Arith(p[2], mode, After(p, mode, r, 2));
    assert After(p, mode, r, 4) == Arith(p[3], mode, After(p, mode, r, 3));
    assert After(p, mode, r, 5) == Arith(p[4], mode, After(p, mode, r, 4));
    assert After(p, mode, r, 6) == Arith(p[5], mode, After(p, mode, r, 5));
  }

  /** Before instruction n nothing selects cell 128 but the register in question, and that one
      only until instruction j has written it. */
  predicate Quiet(p: Program, i: nat, j: nat, r: Regs, n: nat)
    requires i <= 8 && j <= 8
  {
    && r[8] == 1 && r[9] == 1
    && (forall k :: 0 <= k < 8 && (k != p[j].dst || n > j) ==> Away(r[k]))
    && (n <= j ==> r[p[j].dst] == 1024)
    && (forall m :: n <= m <= 8 && m != 7 && m != j ==> r[p[m].dst] == 0)
    && (n > i ==> r[p[i].dst] == 0)
  }

  lemma StartQuiet(p: Program, i: nat, j: nat)
    requires Compilable(p) && Breaks(p, i, j)
    ensures Quiet(p, i, j, Start(p[j].dst, 1024), 0)
  {
    AwayValues();
    hide Away, Layout, ImmOk, DistinctDestinations;
    assert p[0].dst < 8;
    forall m | 0 <= m <= 8 && m != 7 && m != j ensures Start(p[j].dst, 1024)[p[m].dst] == 0 {
      OtherDestination(p, m, j);
    }
  }

  lemma OtherDestination(p: Program, m: nat, j: nat)
    requires Compilable(p) && m <= 8 && m != 7 && j <= 8 && j != 7 && m != j
    ensures p[m].dst != p[j].dst && p[m].dst < 8
  {
    assert if m < j then Differ(p, m, j) else Differ(p, j, m);
    hide Layout, ImmOk;
  }

  /** The value that an instruction leaves: it selects another cell, and it is zero when the
      operand was not cell 128. */
  lemma ValueAway(i: Instruction, r: Regs)
    requires (i.opcode.IsXas() || i.opcode.IsMul()) && ImmOk(i) && i.src < 8 && r[i.dst] == 0
    ensures var v := Arith(i, MemMode(OnePad()), r)[i.dst];
            Away(v) && (Away(r[i.src]) ==> v == 0)
  {
    hide Result, Away, MemIndex, OnePad, ImmOk;
    SelectedAway(r[i.src]);
    ResultZero(i);
    ResultOne(i);
    AwayValues();
  }

  /** The instruction that writes the register in question, when that is a MUL. */
  lemma PendingMul(i: Instruction, r: Regs)
    requires i.opcode.IsMul() && i.src < 8 && Away(r[i.src])
    ensures Away(Arith(i, MemMode(OnePad()), r)[i.dst])
  {
    hide Away, MemIndex, OnePad, Mul, Or, Xor, Add;
    SelectedAway(r[i.src]);
    var d, imm := r[i.dst], i.imm as u64;
    MulZero(Or(d, imm));
    MulZero(Xor(d, imm));
    MulZero(Add(d, imm));
    AwayValues();
  }

  /** RMCG with a multiplier of one. */
  lemma RmcgAway(i: Instruction, mode: Mode, r: Regs)
    requires i.opcode.RMCG? && ImmOk(i) && i.src >= 8 && r[i.src] == 1 && (r[i.dst] == 0 || r[i.dst] == 1024)
    ensures Away(Arith(i, mode, r)[i.dst]) && (r[i.dst] == 0 ==> Arith(i, mode, r)[i.dst] == 0)
  {
    hide Away, Mul, Rotr;
    MulOne(r[i.dst]);
    ShiftZero(i.imm);
    AwayRotated(i.imm);
    AwayValues();
  }

  lemma StepAway(p: Program, i: nat, j: nat, r: Regs, n: nat)
    requires Compilable(p) && Breaks(p, i, j) && n < 7 && Quiet(p, i, j, r, n)
    ensures var v := Arith(p[n], MemMode(OnePad()), r)[p[n].dst];
            Away(v) && (n == i ==> v == 0)
  {
    hide Arith, Away, OnePad, DistinctDestinations, ImmOk;
    if n == 0 {
      RmcgAway(p[0], MemMode(OnePad()), r);
    } else if n == j {
      PendingMul(p[n], r);
    } else {
      ValueAway(p[n], r);
    }
  }

  lemma StepQuiet(p: Program, i: nat, j: nat, r: Regs, n: nat)
    requires Compilable(p) && Breaks(p, i, j) && n < 7 && Quiet(p, i, j, r, n)
    ensures Quiet(p, i, j, Arith(p[n], MemMode(OnePad()), r), n + 1)
  {
    hide Arith, Away, OnePad, Layout, OperandsOk;
    StepAway(p, i, j, r, n);
    DestinationSmall(p, n);
    var mode := MemMode(OnePad());
    forall k: RegIndex ensures k != p[n].dst ==> Arith(p[n], mode, r)[k] == r[k] {
      ArithFrame(p[n], mode, r, k);
    }
    forall m | n < m <= 8 && m != 7 ensures p[m].dst != p[n].dst {
      OtherDestination(p, m, n);
    }
    if i != n {
      OtherDestination(p, i, n);
    }
    if j != n {
      OtherDestination(p, j, n);
    }
  }

  lemma DestinationSmall(p: Program, n: nat)
    requires Compilable(p) && n <= 8 && n != 7
    ensures p[n].dst < 8
  {
    hide Layout, ImmOk, DistinctDestinations;
  }

  /** The interpreter's results: zero, or an operand of zero for the last instruction. */
  lemma {:induction false} AfterQuiet(p: Program, i: nat, j: nat, n: nat)
    requires Compilable(p) && Breaks(p, i, j) && n <= 7
    ensures Quiet(p, i, j, After(p, MemMode(OnePad()), Start(p[j].dst, 1024), n), n)
  {
    hide Quiet, Arith, Layout, OperandsOk, OnePad, Start;
    if n == 0 {
      StartQuiet(p, i, j);
    } else {
      AfterQuiet(p, i, j, n - 1);
      StepQuiet(p, i, j, After(p, MemMode(OnePad()), Start(p[j].dst, 1024), n - 1), n - 1);
    }
  }

  lemma MeaningZero(p: Program, i: nat, j: nat)
    requires Compilable(p) && Breaks(p, i, j)
    ensures var b := Body(p, MemMode(OnePad()), Start(p[j].dst, 1024));
            if i == 8 then Selected(b[p[8].src]) == 0 else b[p[i].dst] == 0
  {
    hide Body, Away, OnePad, Start, Layout, ImmOk, DistinctDestinations;
    AfterQuiet(p, i, j, 7);
    BodyAfter(p, MemMode(OnePad()), Start(p[j].dst, 1024));
    SelectedAway(Body(p, MemMode(OnePad()), Start(p[j].dst, 1024))[p[8].src]);
  }

  // ----- the scratchpad loop, in the same state -----

  function MachineReg(d: RegIndex, v: u64, k: nat): u64 {
    if k < 8 then Start(d, v)[k] else if k == 9 then Counter(0) else if k == 10 then 9 else if k == 11 then 33 else 1
  }

  /** A processor in that state: the scratchpad lies at address 0, and no branch is left. */
  function Machine(d: RegIndex, v: u64): (s: State)
    ensures s.Live?
  {
    hide MachineReg, OnePad;
    Live(seq(31, k requires 0 <= k < 31 => MachineReg(d, v, k)), 0, false,
         map a: int | 0 <= a < 2048 && a % 8 == 0 :: OnePad()[a / 8])
  }

  lemma MachineAgrees(d: RegIndex, v: u64)
    requires d < 8
    ensures var s := Machine(d, v);
            Agrees(s.x, Start(d, v)) && PadAt(s.mem, s.sp, OnePad()) && s.x[9] == Counter(0)
  {
    hide OnePad, Counter;
  }

  lemma MachineAt(d: RegIndex, v: u64)
    requires d < 8
    ensures var x := Machine(d, v).x;
            && x[d] == v && (forall k :: 0 <= k < 8 && k != d ==> x[k] == 0)
            && x[10] == 9 && x[11] == 33 && x[12] == 1 && x[13] == 1
  {
    hide OnePad, Counter;
    forall k | 0 <= k < 31 ensures Machine(d, v).x[k] == MachineReg(d, v, k) {
    }
  }

  /** The instruction of the program whose register the k-th emitted one writes, if any. */
  function WriterAt(k: nat): (w: int)
    ensures -1 <= w <= 6
  {
    match k
    case 2 => 1 case 3 => 0 case 4 => 1 case 9 => 2 case 10 => 3 case 11 => 0 case 12 => 2
    case 13 => 3 case 18 => 4 case 19 => 5 case 21 => 4 case 22 => 5 case 27 => 6 case 30 => 6
    case _ => -1
  }

  /** The other register that it writes, if any. */
  function TempAt(k: nat): int {
    match k
    case 0 => 15 case 1 => 15 case 5 => 16 case 6 => 16 case 7 => 17 case 8 => 17
    case 14 => 16 case 15 => 16 case 16 => 17 case 17 => 17 case 20 => 14 case 23 => 16
    case 24 => 16 case 25 => 17 case 26 => 17 case 29 => 9
    case _ => -1
  }

  lemma FootprintTarget(p: Program, k: nat)
    requires k < 31
    ensures MemFootprint(p, MemPosition(k)).target == if WriterAt(k) >= 0 then p[WriterAt(k)].dst else TempAt(k)
  {
  }

  lemma MemTarget(p: Program, k: nat)
    requires Compilable(p) && k < 31
    ensures var i := MemBlock(p)[k];
            && Movable(i) && !i.StpSp?
            && Target(i) == if WriterAt(k) >= 0 then p[WriterAt(k)].dst else TempAt(k)
  {
    hide MemIsn, Compilable, Movable, Target, MemFootprint, WriterAt, TempAt, MemPosition;
    MemFootprintCovers(p, MemPosition(k));
    FootprintTarget(p, k);
    assert MemBlock(p)[k] == MemIsn(p, MemPosition(k));
  }

  lemma MemPlain(p: Program)
    requires Compilable(p)
    ensures Plain(MemBlock(p))
  {
    hide MemBlock, Movable, Compilable;
    forall k | 0 <= k < 31 ensures Movable(MemBlock(p)[k]) && !MemBlock(p)[k].StpSp? {
      MemTarget(p, k);
    }
  }

  /** Between positions m and n nothing writes the destination of instruction i. */
  lemma KeptDestination(p: Program, s: State, m: nat, n: nat, i: nat)
    requires Compilable(p) && m <= n <= 31 && i <= 8 && i != 7 && Block(MemBlock(p), s).Live?
    requires forall k :: m <= k < n ==> WriterAt(k) != i
    ensures var b := MemBlock(p);
            Before(b, s, m).Live? && Before(b, s, n).Live? && p[i].dst < 8
            && Before(b, s, n).x[p[i].dst] == Before(b, s, m).x[p[i].dst]
  {
    hide Before, MemBlock, Block, Compilable, Target, Plain, Movable;
    MemPlain(p);
    DestinationSmall(p, i);
    forall k | m <= k < n ensures Target(MemBlock(p)[k]) != p[i].dst {
      MemTarget(p, k);
      if WriterAt(k) >= 0 {
        OtherDestination(p, WriterAt(k), i);
      }
    }
    Kept(MemBlock(p), s, m, n, p[i].dst);
  }

  /** Between positions m and n nothing writes register t, which is no destination. */
  lemma KeptTemp(p: Program, s: State, m: nat, n: nat, t: Reg)
    requires Compilable(p) && m <= n <= 31 && t >= 8 && Block(MemBlock(p), s).Live?
    requires forall k :: m <= k < n ==> TempAt(k) != t
    ensures var b := MemBlock(p);
            Before(b, s, m).Live? && Before(b, s, n).Live? && Before(b, s, n).x[t] == Before(b, s, m).x[t]
  {
    hide Before, MemBlock, Block, Compilable, Target, Plain, Movable;
    MemPlain(p);
    forall k | m <= k < n ensures Target(MemBlock(p)[k]) != t {
      MemTarget(p, k);
      if WriterAt(k) >= 0 {
        DestinationSmall(p, WriterAt(k));
      }
    }
    Kept(MemBlock(p), s, m, n, t);
  }

  /** Where the operand of instruction i is loaded, with which register. */
  function LoadAt(i: nat): nat {
    match i case 1 => 0 case 2 => 5 case 3 => 7 case 5 => 16 case _ => 25
  }

  function TempOf(i: nat): Reg {
    match i case 1 => 15 case 2 => 16 case _ => 17
  }

  /** Where the two instructions that make the result of instruction i are. */
  function MixAt(i: nat): nat {
    match i case 1 => 2 case 2 => 9 case 3 => 10 case _ => 19
  }

  function OpAt(i: nat): nat {
    match i case 1 => 4 case 2 => 12 case 3 => 13 case _ => 22
  }

  lemma LoadIsAt(p: Program, i: nat)
    requires Compilable(p) && (1 <= i <= 3 || i == 5 || i == 8)
    ensures var b, k, t := MemBlock(p), LoadAt(i), TempOf(i);
            p[i].src < 8 && b[k] == AluImm(ANDI, t, p[i].src, 2040) && b[k + 1] == LdrSp(t, t)
  {
    hide Layout, ImmOk, DistinctDestinations;
    assert MemBlock(p)[LoadAt(i)] == MemIsn(p, MemPosition(LoadAt(i)));
    assert MemBlock(p)[LoadAt(i) + 1] == MemIsn(p, MemPosition(LoadAt(i) + 1));
  }

  lemma MixIsAt(p: Program, i: nat)
    requires Compilable(p) && (1 <= i <= 3 || i == 5)
    ensures hide MemBlock, PreXasIsn, XasIsn, PremulIsn, MulIsn; var b := MemBlock(p);
            if i == 2 then p[i].opcode.IsMul() && ImmOk(p[i]) && b[MixAt(i)] == PremulIsn(p[i]) && b[OpAt(i)] == MulIsn(p[i], 16)
            else p[i].opcode.IsXas() && b[MixAt(i)] == PreXasIsn(p[i]) && b[OpAt(i)] == XasIsn(p[i], TempOf(i))
  {
    hide PreXasIsn, XasIsn, PremulIsn, MulIsn, ImmOk, DistinctDestinations;
    assert MemBlock(p)[MixAt(i)] == MemIsn(p, MemPosition(MixAt(i)));
    assert MemBlock(p)[OpAt(i)] == MemIsn(p, MemPosition(OpAt(i)));
  }

  lemma RmcgIsAt(p: Program)
    requires Compilable(p)
    ensures MemBlock(p)[3] == MulIsn(p[0], p[0].src + 4)
    ensures p[0].src + 4 == 12 || p[0].src + 4 == 13
  {
    hide MulIsn, Layout, ImmOk, DistinctDestinations;
    assert MemBlock(p)[3] == MemIsn(p, MemPosition(3));
  }

  lemma StartsAt(b: seq<Isn>, s: State)
    ensures Before(b, s, 0) == s
  {
    assert b[..0] == [];
  }

  lemma EndsAt(b: seq<Isn>, s: State)
    ensures Before(b, s, |b|) == Block(b, s)
  {
    assert b[..|b|] == b;
  }

  /** The register is still pending when the reordered code reads it. */
  lemma PendingRead(p: Program, i: nat, j: nat)
    requires Compilable(p) && Breaks(p, i, j) && Block(MemBlock(p), Machine(p[j].dst, 1024)).Live?
    ensures var t := Before(MemBlock(p), Machine(p[j].dst, 1024), LoadAt(i));
            t.Live? && p[j].dst < 8 && t.x[p[j].dst] == 1024
  {
    hide Before, MemBlock, Block, Compilable, Layout, OperandsOk, Machine;
    var b, s, d := MemBlock(p), Machine(p[j].dst, 1024), p[j].dst;
    DestinationSmall(p, j);
    MachineAt(d, 1024);
    StartsAt(b, s);
    if j == 0 && i != 1 {
      KeptDestination(p, s, 0, 3, 0);
      PendingProduct(p, s);
      KeptDestination(p, s, 4, LoadAt(i), 0);
    } else {
      KeptDestination(p, s, 0, LoadAt(i), j);
    }
  }

  /** RMCG multiplies by one, and its rotation comes later. */
  lemma PendingProduct(p: Program, s: State)
    requires Compilable(p) && s == Machine(p[0].dst, 1024) && Block(MemBlock(p), s).Live? && p[0].dst < 8
    requires Before(MemBlock(p), s, 3).Live? && Before(MemBlock(p), s, 3).x[p[0].dst] == 1024
    ensures var t := Before(MemBlock(p), s, 4); t.Live? && t.x[p[0].dst] == 1024
  {
    hide Before, MemBlock, Block, Mul, Layout, OperandsOk, Exec, Machine;
    RmcgIsAt(p);
    MachineAt(p[0].dst, 1024);
    var b := MemBlock(p);
    StartsAt(b, s);
    KeptTemp(p, s, 0, 3, p[0].src + 4);
    BeforeNext(b, s, 3);
    MulExec(p[0], p[0].src + 4, Before(b, s, 3));
    MulOne(1024);
  }

  lemma MulExec(i: Instruction, src: Reg, s: State)
    requires s.Live?
    ensures Exec(MulIsn(i, src), s) == s.(x := s.x[i.dst := Mul(s.x[i.dst], s.x[src])])
  {
    hide Mul;
  }

  /** So the reordered code loads cell 128 as its operand. */
  lemma LoadsOne(p: Program, i: nat, j: nat)
    requires Compilable(p) && Breaks(p, i, j) && Block(MemBlock(p), Machine(p[j].dst, 1024)).Live?
    ensures var t := Before(MemBlock(p), Machine(p[j].dst, 1024), LoadAt(i) + 2);
            t.Live? && t.x[TempOf(i)] == 1
  {
    hide Before, MemBlock, Block, Layout, OperandsOk, Exec, MemIndex, OnePad, Machine, PadAt, Agrees, Plain;
    var b, s, k := MemBlock(p), Machine(p[j].dst, 1024), LoadAt(i);
    DestinationSmall(p, j);
    PendingRead(p, i, j);
    LoadIsAt(p, i);
    MemPlain(p);
    MachineAgrees(p[j].dst, 1024);
    BeforeMem(b, s, k);
    BeforeNext(b, s, k);
    BeforeNext(b, s, k + 1);
    LoadPair(TempOf(i), p[i].src, Before(b, s, k), OnePad());
    PendingSelects();
    CellOne();
  }

  lemma CellOne()
    ensures OnePad()[128] == 1
  {
  }

  /** And gives the result of that operand. */
  lemma ResultOfOne(p: Program, i: nat, j: nat)
    requires Compilable(p) && Breaks(p, i, j) && i != 8 && Block(MemBlock(p), Machine(p[j].dst, 1024)).Live?
    ensures p[i].dst < 8
            && Block(MemBlock(p), Machine(p[j].dst, 1024)).x[p[i].dst] == Result(p[i].opcode, 0, p[i].imm, 1)
  {
    hide Before, MemBlock, Block, Layout, OperandsOk, Exec, Machine, Result, PreXasIsn, XasIsn, PremulIsn, MulIsn;
    var b, s := MemBlock(p), Machine(p[j].dst, 1024);
    var d, t, m, o := p[i].dst, TempOf(i), MixAt(i), OpAt(i);
    MixIsAt(p, i);
    OtherDestination(p, i, j);
    DestinationSmall(p, j);
    MachineAt(p[j].dst, 1024);
    StartsAt(b, s);
    LoadsOne(p, i, j);
    KeptTemp(p, s, LoadAt(i) + 2, o, t);
    KeptDestination(p, s, 0, m, i);
    BeforeNext(b, s, m);
    KeptDestination(p, s, m + 1, o, i);
    BeforeNext(b, s, o);
    KeptDestination(p, s, o + 1, 31, i);
    EndsAt(b, s);
    if i == 2 {
      KeptTemp(p, s, 0, m, 10);
      KeptTemp(p, s, 0, m, 11);
      MixedMul(p[i], Before(b, s, m), Before(b, s, o), t);
    } else {
      MixedXas(p[i], Before(b, s, m), Before(b, s, o), t);
    }
  }

  lemma MixedXas(i: Instruction, s: State, u: State, t: Reg)
    requires i.opcode.IsXas() && s.Live? && u.Live? && u.x[i.dst] == Exec(PreXasIsn(i), s).x[i.dst]
    ensures Exec(XasIsn(i, t), u).Live?
            && Exec(XasIsn(i, t), u).x[i.dst] == Result(i.opcode, s.x[i.dst], i.imm, u.x[t])
  {
    hide Result, PreXasIsn, XasIsn, AluValue, ShiftValue;
    XasShape(i, t);
    XasValue(i, s.x[i.dst], u.x[t]);
  }

  lemma MixedMul(i: Instruction, s: State, u: State, t: Reg)
    requires i.opcode.IsMul() && ImmOk(i) && s.Live? && s.x[10] == 9 && s.x[11] == 33
    requires u.Live? && u.x[i.dst] == Exec(PremulIsn(i), s).x[i.dst]
    ensures Exec(MulIsn(i, t), u).Live?
            && Exec(MulIsn(i, t), u).x[i.dst] == Result(i.opcode, s.x[i.dst], i.imm, u.x[t])
  {
    hide Exec, Result, PremulIsn, MulIsn, Healed, Mul, ImmOk;
    PremulExec(i, s);
    MulExec(i, t, u);
    HealedResult(i, s.x[i.dst], u.x[t]);
  }

  // ----- the rules of the scratchpad loop are exact -----

  /** The reordered loop does in this state what the interpreter does: registers, branch
      decision, counter, and the operand of the last instruction. */
  predicate MemRight(p: Program, s: State, r: Regs, bc: nat, pad: Scratchpad)
    requires Compilable(p) && bc <= BRANCH_LIMIT
  {
    hide Agrees, Block, Body, MemBlock;
    var b, t := Body(p, MemMode(pad), r), Block(MemBlock(p), s);
    Passed(s, t, p, b, bc) && t.x[17] == pad[MemIndex(b[p[8].src])]
  }

  /** The states that stand for a register file and a scratchpad. */
  predicate Represents(s: State, r: Regs, bc: nat)
    requires bc <= BRANCH_LIMIT
  {
    s.Live? && Agrees(s.x, r) && s.x[9] == Counter(bc)
  }

  ghost predicate MemComputes(p: Program)
    requires Compilable(p)
  {
    forall s: State, r: Regs, bc: nat, pad: Scratchpad ::
      bc <= BRANCH_LIMIT && Represents(s, r, bc) && PadAt(s.mem, s.sp, pad) ==> MemRight(p, s, r, bc, pad)
  }

  lemma MemBroken(p: Program, i: nat, j: nat)
    requires Compilable(p) && Breaks(p, i, j) && p[j].dst < 8
    ensures !MemRight(p, Machine(p[j].dst, 1024), Start(p[j].dst, 1024), 0, OnePad())
  {
    hide Before, MemBlock, Block, Body, Layout, OperandsOk, Machine, Start, OnePad, Result, MemIndex, Counter, And;
    var b, s := MemBlock(p), Machine(p[j].dst, 1024);
    if MemRight(p, s, Start(p[j].dst, 1024), 0, OnePad()) {
      MeaningZero(p, i, j);
      if i == 8 {
        LoadsOne(p, i, j);
        KeptTemp(p, s, 27, 31, 17);
        EndsAt(b, s);
      } else {
        ResultOfOne(p, i, j);
        MixIsAt(p, i);
        ResultOne(p[i]);
      }
    }
  }

  /** The reordered loop computes what the program means, in every state, if and only if the
      program obeys the hazard rules; and then every inverted pair is independent. */
  lemma HazardsExact(p: Program)
    requires Compilable(p)
    ensures MemComputes(p) <==> HazardFree(p)
    ensures IsSchedule(MemSource(p), MemOrder()) <==> HazardFree(p)
  {
    hide IsSchedule, MemSource, MemOrder, MemComputes, HazardFree;
    if HazardFree(p) {
      MemSchedule(p);
    } else {
      var i, j := BrokenRule(p);
      BreaksComputes(p, i, j);
    }
    if IsSchedule(MemSource(p), MemOrder()) {
      ScheduleComputes(p);
    }
  }

  lemma ScheduleComputes(p: Program)
    requires Compilable(p) && IsSchedule(MemSource(p), MemOrder())
    ensures MemComputes(p)
  {
    hide IsSchedule, MemSource, MemOrder, Compilable, Block, Body, Agrees, PadAt, Counter, Permute, MemIndex, And;
    forall s: State, r: Regs, bc: nat, pad: Scratchpad
      | bc <= BRANCH_LIMIT && Represents(s, r, bc) && PadAt(s.mem, s.sp, pad)
      ensures MemRight(p, s, r, bc, pad)
    {
      ScheduleSound(MemSource(p), MemOrder(), s);
      MemSourceSim(p, s, r, bc, pad);
    }
  }

  lemma BreaksComputes(p: Program, i: nat, j: nat)
    requires Compilable(p) && Breaks(p, i, j)
    ensures !MemComputes(p)
  {
    hide MemRight, Layout, OperandsOk, MemBlock, Machine, Start, OnePad;
    var d := p[j].dst;
    DestinationSmall(p, j);
    MachineAgrees(d, 1024);
    assert Represents(Machine(d, 1024), Start(d, 1024), 0);
    MemBroken(p, i, j);
  }

  lemma BrokenRule(p: Program) returns (i: nat, j: nat)
    requires !HazardFree(p)
    ensures Breaks(p, i, j)
  {
    if p[1].src == p[0].dst { i, j := 1, 0; }
    else if p[2].src == p[0].dst { i, j := 2, 0; }
    else if p[3].src == p[0].dst { i, j := 3, 0; }
    else if p[3].src == p[2].dst { i, j := 3, 2; }
    else if p[5].src == p[4].dst { i, j := 5, 4; }
    else { i, j := 8, 6; }
  }

  // ----- the register loop: the interpreter -----

  /** Instruction i reads the result of RMCG before it is rotated. */
  predicate RegBreaks(p: Program, i: nat) {
    (i == 1 || i == 2) && p[i].src == p[0].dst
  }

  lemma RotatedOne(imm: Imm)
    requires 1 <= imm
    ensures !Odd(Rotr(1, imm))
  {
  }

  lemma OddWith(v: u64)
    ensures Odd(Xor(0, v)) == Odd(v)
    ensures Odd(Add(0, v)) == Odd(v)
    ensures Odd(Sub(0, v)) == Odd(v)
  {
  }

  lemma OddOne()
    ensures Odd(1) && Odd(9) && Odd(33)
  {
  }

  lemma EvenNumber(v: u64)
    requires !Odd(v)
    ensures Number(v) % 2 == 0
  {
    hide Number;
    Halves(v);
  }

  lemma EvenProduct(a: nat, b: nat)
    requires b % 2 == 0
    ensures ((a * b) % TWO_64) % 2 == 0
  {
    var h := b / 2;
    assert a * b == 2 * (a * h);
    assert a * b == ((a * b) / TWO_64) * TWO_64 + (a * b) % TWO_64;
  }

  /** A product with an even factor is even. */
  lemma MulEven(a: u64, v: u64)
    requires !Odd(v)
    ensures !Odd(Mul(a, v))
  {
    hide Mul, Number, Odd;
    EvenNumber(v);
    MulNumber(a, v);
    EvenProduct(Number(a), Number(v));
    if Odd(Mul(a, v)) {
      OddNumber(Mul(a, v));
    }
  }

  /** On a zero destination an operand of one gives an odd result. */
  lemma ResultOdd(i: Instruction)
    requires i.opcode.IsXas() || (i.opcode.IsMul() && ImmOk(i))
    ensures Odd(Result(i.opcode, 0, i.imm, 1))
  {
    hide Rotr, Asr, Lsr, Mul, Or, Xor, Add, Sub, Odd;
    OddOne();
    OddWith(1);
    ShiftZero(i.imm);
    ZeroWith(i.imm as u64);
    MulOne(i.imm as u64);
  }

  /** And an even operand gives an even one. */
  lemma ResultEven(i: Instruction, v: u64)
    requires (i.opcode.IsXas() || i.opcode.IsMul()) && !Odd(v)
    ensures !Odd(Result(i.opcode, 0, i.imm, v))
  {
    hide Rotr, Asr, Lsr, Mul, Or, Xor, Add, Sub, Odd;
    OddWith(v);
    ShiftZero(i.imm);
    MulEven(Or(0, i.imm as u64), v);
    MulEven(Xor(0, i.imm as u64), v);
    MulEven(Add(0, i.imm as u64), v);
  }

  lemma {:induction false} AfterKept(p: Program, mode: Mode, r: Regs, m: nat, n: nat, i: nat)
    requires Compilable(p) && i < m <= n <= 7
    ensures After(p, mode, r, n)[p[i].dst] == After(p, mode, r, m)[p[i].dst]
  {
    hide Arith, Layout, OperandsOk;
    if m < n {
      AfterKept(p, mode, r, m, n - 1, i);
      OtherDestination(p, n - 1, i);
      ArithFrame(p[n - 1], mode, After(p, mode, r, n - 1), p[i].dst);
    }
  }

  lemma MeaningEven(p: Program, i: nat)
    requires Compilable(p) && RegBreaks(p, i)
    ensures p[0].dst < 8 && !Odd(Body(p, RegMode, Start(p[0].dst, 1))[p[i].dst])
  {
    hide Odd, Layout, OperandsOk, Start, Arith, Body, After;
    var r := Start(p[0].dst, 1);
    EvenRmcg(p);
    BodyAfter(p, RegMode, r);
    AfterKept(p, RegMode, r, i + 1, 7, i);
    AfterSteps(p, RegMode, r);
    var r1 := Arith(p[0], RegMode, r);
    if i == 1 {
      EvenResult(p, 1, r1);
    } else {
      OtherDestination(p, 2, 1);
      OtherDestination(p, 0, 1);
      ArithFrame(p[1], RegMode, r1, p[0].dst);
      ArithFrame(p[1], RegMode, r1, p[2].dst);
      EvenResult(p, 2, Arith(p[1], RegMode, r1));
    }
  }

  lemma AfterSteps(p: Program, mode: Mode, r: Regs)
    ensures After(p, mode, r, 2) == Arith(p[1], mode, Arith(p[0], mode, r))
    ensures After(p, mode, r, 3) == Arith(p[2], mode, Arith(p[1], mode, Arith(p[0], mode, r)))
  {
    hide Arith;
    assert After(p, mode, r, 0) == r;
    assert After(p, mode, r, 1) == Arith(p[0], mode, r);
    assert After(p, mode, r, 2) == Arith(p[1], mode, After(p, mode, r, 1));
  }

  lemma EvenRmcg(p: Program)
    requires Compilable(p)
    ensures p[0].dst < 8
            && var r1 := Arith(p[0], RegMode, Start(p[0].dst, 1));
               !Odd(r1[p[0].dst]) && r1[p[1].dst] == 0 && r1[p[2].dst] == 0
  {
    hide Odd, Mul, Rotr, DistinctDestinations;
    MulOne(1);
    RotatedOne(p[0].imm);
    OtherDestination(p, 1, 0);
    OtherDestination(p, 2, 0);
  }

  lemma EvenResult(p: Program, i: nat, r: Regs)
    requires Compilable(p) && RegBreaks(p, i) && r[p[i].dst] == 0 && !Odd(r[p[0].dst])
    ensures !Odd(Arith(p[i], RegMode, r)[p[i].dst])
  {
    hide Odd, Result, DistinctDestinations, ImmOk;
    ResultEven(p[i], r[p[0].dst]);
  }

  // ----- the register loop: the reordered code -----

  function RegWriterAt(k: nat): (w: int)
    ensures -1 <= w <= 6
  {
    match k
    case 0 => 0 case 1 => 1 case 3 => 2 case 4 => 1 case 5 => 2 case 6 => 3 case 7 => 0
    case 8 => 3 case 9 => 4 case 10 => 4 case 11 => 5 case 13 => 5 case 14 => 6 case 17 => 6
    case _ => -1
  }

  function RegTempAt(k: nat): int {
    match k case 2 => 14 case 12 => 14 case 16 => 9 case _ => -1
  }

  lemma RegFootprintTarget(p: Program, k: nat)
    requires k < 18
    ensures RegFootprint(p, RegPosition(k)).target
            == if RegWriterAt(k) >= 0 then p[RegWriterAt(k)].dst else RegTempAt(k)
  {
  }

  lemma RegTarget(p: Program, k: nat)
    requires Compilable(p) && k < 18
    ensures var i := RegBlock(p)[k];
            && Movable(i) && !i.StpSp?
            && Target(i) == if RegWriterAt(k) >= 0 then p[RegWriterAt(k)].dst else RegTempAt(k)
  {
    hide RegIsn, Compilable, Movable, Target, RegFootprint, RegWriterAt, RegTempAt, RegPosition;
    RegFootprintCovers(p, RegPosition(k));
    RegFootprintTarget(p, k);
    assert RegBlock(p)[k] == RegIsn(p, RegPosition(k));
  }

  lemma RegPlain(p: Program)
    requires Compilable(p)
    ensures Plain(RegBlock(p))
  {
    hide RegBlock, Movable, Compilable;
    forall k | 0 <= k < 18 ensures Movable(RegBlock(p)[k]) && !RegBlock(p)[k].StpSp? {
      RegTarget(p, k);
    }
  }

  lemma RegKeptDestination(p: Program, s: State, m: nat, n: nat, i: nat)
    requires Compilable(p) && m <= n <= 18 && i <= 8 && i != 7 && Block(RegBlock(p), s).Live?
    requires forall k :: m <= k < n ==> RegWriterAt(k) != i
    ensures var b := RegBlock(p);
            Before(b, s, m).Live? && Before(b, s, n).Live? && p[i].dst < 8
            && Before(b, s, n).x[p[i].dst] == Before(b, s, m).x[p[i].dst]
  {
    hide Before, RegBlock, Block, Compilable, Target, Plain, Movable;
    RegPlain(p);
    DestinationSmall(p, i);
    forall k | m <= k < n ensures Target(RegBlock(p)[k]) != p[i].dst {
      RegTarget(p, k);
      if RegWriterAt(k) >= 0 {
        OtherDestination(p, RegWriterAt(k), i);
      }
    }
    Kept(RegBlock(p), s, m, n, p[i].dst);
  }

  lemma RegKeptTemp(p: Program, s: State, m: nat, n: nat, t: Reg)
    requires Compilable(p) && m <= n <= 18 && t >= 8 && Block(RegBlock(p), s).Live?
    requires forall k :: m <= k < n ==> RegTempAt(k) != t
    ensures var b := RegBlock(p);
            Before(b, s, m).Live? && Before(b, s, n).Live? && Before(b, s, n).x[t] == Before(b, s, m).x[t]
  {
    hide Before, RegBlock, Block, Compilable, Target, Plain, Movable;
    RegPlain(p);
    forall k | m <= k < n ensures Target(RegBlock(p)[k]) != t {
      RegTarget(p, k);
      if RegWriterAt(k) >= 0 {
        DestinationSmall(p, RegWriterAt(k));
      }
    }
    Kept(RegBlock(p), s, m, n, t);
  }

  lemma RegCodeAt(p: Program)
    requires Compilable(p)
    ensures var b := RegBlock(p);
            && p[1].opcode.IsXas() && p[2].opcode.IsMul() && ImmOk(p[2]) && p[1].src < 8 && p[2].src < 8
            && (p[0].src + 4 == 12 || p[0].src + 4 == 13)
            && b[0] == MulIsn(p[0], p[0].src + 4) && b[1] == PreXasIsn(p[1]) && b[2] == Mov(14, p[1].src)
            && b[3] == PremulIsn(p[2]) && b[4] == XasIsn(p[1], 14) && b[5] == MulIsn(p[2], p[2].src)
  {
    hide PreXasIsn, XasIsn, PremulIsn, MulIsn, ImmOk, DistinctDestinations;
    forall k | 0 <= k < 6 ensures RegBlock(p)[k] == RegIsn(p, RegPosition(k)) {
    }
  }

  /** After its first instruction the register of RMCG holds one, until it is rotated. */
  lemma ProductOne(p: Program, s: State)
    requires Compilable(p) && p[0].dst < 8 && s == Machine(p[0].dst, 1) && Block(RegBlock(p), s).Live?
    ensures forall n :: 1 <= n <= 7 ==> var t := Before(RegBlock(p), s, n); t.Live? && t.x[p[0].dst] == 1
  {
    hide Before, RegBlock, Block, Mul, Layout, OperandsOk, Exec, Machine;
    var b := RegBlock(p);
    RegCodeAt(p);
    MachineAt(p[0].dst, 1);
    StartsAt(b, s);
    BeforeNext(b, s, 0);
    MulExec(p[0], p[0].src + 4, s);
    MulOne(1);
    forall n | 1 <= n <= 7 ensures var t := Before(b, s, n); t.Live? && t.x[p[0].dst] == 1 {
      RegKeptDestination(p, s, 1, n, 0);
    }
  }

  lemma RegResultOfOne(p: Program, i: nat)
    requires Compilable(p) && RegBreaks(p, i) && p[0].dst < 8 && Block(RegBlock(p), Machine(p[0].dst, 1)).Live?
    ensures p[i].dst < 8
            && Block(RegBlock(p), Machine(p[0].dst, 1)).x[p[i].dst] == Result(p[i].opcode, 0, p[i].imm, 1)
  {
    hide Before, RegBlock, Block, Layout, OperandsOk, Exec, Machine, Result, PreXasIsn, XasIsn, PremulIsn, MulIsn;
    var b, s, m, o := RegBlock(p), Machine(p[0].dst, 1), if i == 1 then 1 else 3, if i == 1 then 4 else 5;
    RegCodeAt(p);
    OtherDestination(p, i, 0);
    MachineAt(p[0].dst, 1);
    StartsAt(b, s);
    ProductOne(p, s);
    RegKeptDestination(p, s, 0, m, i);
    BeforeNext(b, s, m);
    RegKeptDestination(p, s, m + 1, o, i);
    BeforeNext(b, s, o);
    RegKeptDestination(p, s, o + 1, 18, i);
    EndsAt(b, s);
    if i == 1 {
      BeforeNext(b, s, 2);
      CopyExec(14, p[1].src, Before(b, s, 2));
      RegKeptTemp(p, s, 3, 4, 14);
      MixedXas(p[1], Before(b, s, 1), Before(b, s, 4), 14);
    } else {
      RegKeptTemp(p, s, 0, 3, 10);
      RegKeptTemp(p, s, 0, 3, 11);
      MixedMul(p[2], Before(b, s, 3), Before(b, s, 5), p[2].src);
    }
  }

  lemma CopyExec(rd: Reg, rm: Reg, s: State)
    requires s.Live?
    ensures Exec(Mov(rd, rm), s) == s.(x := s.x[rd := s.x[rm]])
  {
  }

  // ----- the rules of the register loop are exact -----

  ghost predicate RegComputes(p: Program)
    requires Compilable(p)
  {
    forall s: State, r: Regs, bc: nat :: bc <= BRANCH_LIMIT && Represents(s, r, bc) ==> RegRight(p, s, r, bc)
  }

  predicate RegRight(p: Program, s: State, r: Regs, bc: nat)
    requires Compilable(p) && bc <= BRANCH_LIMIT
  {
    hide Agrees, Block, Body, RegBlock;
    Passed(s, Block(RegBlock(p), s), p, Body(p, RegMode, r), bc)
  }

  lemma RegBroken(p: Program, i: nat)
    requires Compilable(p) && RegBreaks(p, i)
    ensures !RegComputes(p)
  {
    hide RegBlock, Block, Body, Layout, OperandsOk, Machine, Start, Result, Counter, And, Odd;
    DestinationSmall(p, 0);
    var d := p[0].dst;
    MachineAgrees(d, 1);
    assert Represents(Machine(d, 1), Start(d, 1), 0);
    if RegRight(p, Machine(d, 1), Start(d, 1), 0) {
      MeaningEven(p, i);
      RegResultOfOne(p, i);
      RegCodeAt(p);
      ResultOdd(p[i]);
    }
  }

  lemma RegScheduleComputes(p: Program)
    requires Compilable(p) && IsSchedule(RegSource(p), RegOrder())
    ensures RegComputes(p)
  {
    hide IsSchedule, RegSource, RegOrder, Compilable, Block, Body, Agrees, Counter, Permute, And;
    forall s: State, r: Regs, bc: nat | bc <= BRANCH_LIMIT && Represents(s, r, bc) ensures RegRight(p, s, r, bc) {
      ScheduleSound(RegSource(p), RegOrder(), s);
      RegSourceSim(p, s, r, bc);
    }
  }

  /** The same for the register loop, which needs only two of the rules. */
  lemma RegHazardsExact(p: Program)
    requires Compilable(p)
    ensures RegComputes(p) <==> RegHazardFree(p)
    ensures IsSchedule(RegSource(p), RegOrder()) <==> RegHazardFree(p)
  {
    hide IsSchedule, RegSource, RegOrder, RegComputes, RegHazardFree;
    if RegHazardFree(p) {
      RegSchedule(p);
    } else {
      var i := RegBrokenRule(p);
      RegBroken(p, i);
    }
    if IsSchedule(RegSource(p), RegOrder()) {
      RegScheduleComputes(p);
    }
  }

  lemma RegBrokenRule(p: Program) returns (i: nat)
    requires !RegHazardFree(p)
    ensures RegBreaks(p, i)
  {
    i := if p[1].src == p[0].dst then 1 else 2;
  }
}
