/** The AArch64 schedule. In source order every instruction of the program becomes two to
    four machine instructions; the back end emits the same instructions in another order,
    which is legal for every well-formed program. */
module A64Order {
  import opened Vm
  import opened A64Machine
  import opened A64Schedule
  import opened A64Decode

  // ----- source order -----

  /** The multipliers R8 and R9 live in x12 and x13. */
  function RmcgIsns(i: Instruction): seq<Isn>
    requires i.src >= 8
  {
    [MulIsn(i, i.src + 4), RorIsn(i)]
  }

  function XasIsns(i: Instruction): seq<Isn>
    requires i.opcode.IsXas()
  {
    [PreXasIsn(i), XasIsn(i, i.src)]
  }

  /** The source is copied to x14 before it is used. */
  function XasCopyIsns(i: Instruction): seq<Isn>
    requires i.opcode.IsXas()
  {
    [PreXasIsn(i), Mov(14, i.src), XasIsn(i, 14)]
  }

  function MulIsns(i: Instruction): seq<Isn>
    requires i.opcode.IsMul()
  {
    [PremulIsn(i), MulIsn(i, i.src)]
  }

  /** t := the scratchpad word that register src selects. */
  function LoadIsns(t: Reg, src: RegIndex): seq<Isn> {
    [AluImm(ANDI, t, src, 2040), LdrSp(t, t)]
  }

  function XasMemIsns(i: Instruction, t: Reg): seq<Isn>
    requires i.opcode.IsXas()
  {
    LoadIsns(t, i.src) + [PreXasIsn(i), XasIsn(i, t)]
  }

  function MulMemIsns(i: Instruction, t: Reg): seq<Isn>
    requires i.opcode.IsMul()
  {
    LoadIsns(t, i.src) + [PremulIsn(i), MulIsn(i, t)]
  }

  function BranchIsns(d: RegIndex): seq<Isn> {
    [Alu(ORR, 14, d, 9), Tst(14, 32), CincEq(9, 9)]
  }

  function RegIsn(p: Program, k: nat): Isn
    requires Compilable(p) && k < 18
  {
    match k
    case 0 => MulIsn(p[0], p[0].src + 4)
    case 1 => RorIsn(p[0])
    case 2 => PreXasIsn(p[1])
    case 3 => Mov(14, p[1].src)
    case 4 => XasIsn(p[1], 14)
    case 5 => PremulIsn(p[2])
    case 6 => MulIsn(p[2], p[2].src)
    case 7 => PreXasIsn(p[3])
    case 8 => XasIsn(p[3], p[3].src)
    case 9 => PremulIsn(p[4])
    case 10 => MulIsn(p[4], p[4].src)
    case 11 => PreXasIsn(p[5])
    case 12 => XasIsn(p[5], p[5].src)
    case 13 => PremulIsn(p[6])
    case 14 => MulIsn(p[6], p[6].src)
    case 15 => Alu(ORR, 14, p[0].dst, 9)
    case 16 => Tst(14, 32)
    case _ => CincEq(9, 9)
  }

  function RegSource(p: Program): (b: seq<Isn>)
    requires Compilable(p)
    ensures |b| == 18
  {
    seq(18, k requires 0 <= k < 18 => RegIsn(p, k))
  }

  function MemIsn(p: Program, k: nat): Isn
    requires Compilable(p) && k < 31
  {
    match k
    case 0 => MulIsn(p[0], p[0].src + 4)
    case 1 => RorIsn(p[0])
    case 2 => AluImm(ANDI, 15, p[1].src, 2040)
    case 3 => LdrSp(15, 15)
    case 4 => PreXasIsn(p[1])
    case 5 => XasIsn(p[1], 15)
    case 6 => AluImm(ANDI, 16, p[2].src, 2040)
    case 7 => LdrSp(16, 16)
    case 8 => PremulIsn(p[2])
    case 9 => MulIsn(p[2], 16)
    case 10 => AluImm(ANDI, 17, p[3].src, 2040)
    case 11 => LdrSp(17, 17)
    case 12 => PreXasIsn(p[3])
    case 13 => XasIsn(p[3], 17)
    case 14 => AluImm(ANDI, 16, p[4].src, 2040)
    case 15 => LdrSp(16, 16)
    case 16 => PremulIsn(p[4])
    case 17 => MulIsn(p[4], 16)
    case 18 => AluImm(ANDI, 17, p[5].src, 2040)
    case 19 => LdrSp(17, 17)
    case 20 => PreXasIsn(p[5])
    case 21 => XasIsn(p[5], 17)
    case 22 => AluImm(ANDI, 16, p[6].src, 2040)
    case 23 => LdrSp(16, 16)
    case 24 => PremulIsn(p[6])
    case 25 => MulIsn(p[6], 16)
    case 26 => AluImm(ANDI, 17, p[8].src, 2040)
    case 27 => LdrSp(17, 17)
    case 28 => Alu(ORR, 14, p[0].dst, 9)
    case 29 => Tst(14, 32)
    case _ => CincEq(9, 9)
  }

  function MemSource(p: Program): (b: seq<Isn>)
    requires Compilable(p)
    ensures |b| == 31
  {
    seq(31, k requires 0 <= k < 31 => MemIsn(p, k))
  }

  /** The stores of the pairs (R0, R1), (R2, R3), (R4, R5) and (R6, R7). */
  function StoreIsn(pair: nat): Isn
    requires pair < 4
  {
    match pair
    case 0 => StpSp(1, 0, 48)
    case 1 => StpSp(3, 2, 32)
    case 2 => StpSp(5, 4, 16)
    case _ => StpSp(7, 6, 0)
  }

  function TailIsn(p: Program, k: nat): Isn
    requires Compilable(p) && k < 6
  {
    match k
    case 0 => PreXasIsn(p[8])
    case 1 => XasIsn(p[8], p[8].src)
    case _ => StoreIsn(k - 2)
  }

  function TailSource(p: Program): (b: seq<Isn>)
    requires Compilable(p)
    ensures |b| == 6
  {
    seq(6, k requires 0 <= k < 6 => TailIsn(p, k))
  }

  // ----- emitted order -----

  /** The source position of the k-th emitted instruction of the register loop. */
  function RegPosition(k: nat): (q: nat)
    ensures k < 18 ==> q < 18
  {
    match k
    case 0 => 0 case 1 => 2 case 2 => 3 case 3 => 5 case 4 => 4 case 5 => 6
    case 6 => 7 case 7 => 1 case 8 => 8 case 9 => 9 case 10 => 10 case 11 => 11
    case 12 => 15 case 13 => 12 case 14 => 13 case 15 => 16 case 16 => 17
    case _ => 14
  }

  /** The source position of the k-th emitted instruction of the scratchpad loop. */
  function MemPosition(k: nat): (q: nat)
    ensures k < 31 ==> q < 31
  {
    match k
    case 0 => 2 case 1 => 3 case 2 => 4 case 3 => 0 case 4 => 5 case 5 => 6
    case 6 => 7 case 7 => 10 case 8 => 11 case 9 => 8 case 10 => 12 case 11 => 1
    case 12 => 9 case 13 => 13 case 14 => 14 case 15 => 15 case 16 => 18 case 17 => 19
    case 18 => 16 case 19 => 20 case 20 => 28 case 21 => 17 case 22 => 21 case 23 => 22
    case 24 => 23 case 25 => 26 case 26 => 27 case 27 => 24 case 28 => 29 case 29 => 30
    case _ => 25
  }

  function RegOrder(): (o: seq<nat>)
    ensures |o| == 18
  {
    seq(18, k requires 0 <= k < 18 => RegPosition(k))
  }

  function MemOrder(): (o: seq<nat>)
    ensures |o| == 31
  {
    seq(31, k requires 0 <= k < 31 => MemPosition(k))
  }

  /** The pair that holds the destination of the last instruction is stored last. */
  function TailOrder(pair: nat): seq<nat>
    requires pair < 4
  {
    [2 + (pair + 1) % 4, 0, 2 + (pair + 2) % 4, 1, 2 + (pair + 3) % 4, 2 + pair]
  }

  /** The pairs of source positions that the emitted order of the register loop inverts. */
  predicate RegInverted(q: nat, r: nat) {
    || (q == 1 && 2 <= r <= 7)
    || (q == 4 && r == 5)
    || (12 <= q <= 14 && r == 15)
    || (q == 14 && 16 <= r <= 17)
  }

  /** Where in the emitted code a source position went. */
  function RegPlace(q: nat): nat
    requires q < 18
    ensures RegPlace(q) < 18 && RegPosition(RegPlace(q)) == q
  {
    match q
    case 0 => 0 case 1 => 7 case 2 => 1 case 3 => 2 case 4 => 4 case 5 => 3
    case 6 => 5 case 7 => 6 case 8 => 8 case 9 => 9 case 10 => 10 case 11 => 11
    case 12 => 13 case 13 => 14 case 14 => 17 case 15 => 12 case 16 => 15
    case _ => 16
  }

  lemma RegPlaceInverse(k: nat)
    requires k < 18
    ensures RegPlace(RegPosition(k)) == k
  {
  }

  lemma RegOrderFacts()
    ensures IsPermutation(RegOrder(), 18)
  {
    hide RegPosition, RegPlace;
    forall j, k | 0 <= j < k < 18 ensures RegOrder()[j] != RegOrder()[k] {
      RegPlaceInverse(j);
      RegPlaceInverse(k);
    }
    forall q | 0 <= q < 18 ensures q in RegOrder() {
      assert RegOrder()[RegPlace(q)] == q;
    }
  }

  lemma RegInversions(j: nat, k: nat)
    requires j < k < 18 && RegPosition(j) > RegPosition(k)
    ensures RegInverted(RegPosition(k), RegPosition(j))
  {
  }

  // ----- the schedules are legal -----

  function RegFootprint(p: Program, q: nat): Footprint
  {
    match q
    case 0 => Footprint(p[0].dst, p[0].dst, p[0].src + 4, p[0].src + 4)
    case 1 => Footprint(p[0].dst, p[0].dst, p[0].dst, p[0].dst)
    case 2 => Footprint(p[1].dst, p[1].dst, p[1].dst, p[1].dst)
    case 3 => Footprint(14, p[1].src, p[1].src, p[1].src)
    case 4 => Footprint(p[1].dst, p[1].dst, 14, 14)
    case 5 => Footprint(p[2].dst, p[2].dst, 10, 11)
    case 6 => Footprint(p[2].dst, p[2].dst, p[2].src, p[2].src)
    case 7 => Footprint(p[3].dst, p[3].dst, p[3].dst, p[3].dst)
    case 8 => Footprint(p[3].dst, p[3].dst, p[3].src, p[3].src)
    case 9 => Footprint(p[4].dst, p[4].dst, 10, 11)
    case 10 => Footprint(p[4].dst, p[4].dst, p[4].src, p[4].src)
    case 11 => Footprint(p[5].dst, p[5].dst, p[5].dst, p[5].dst)
    case 12 => Footprint(p[5].dst, p[5].dst, p[5].src, p[5].src)
    case 13 => Footprint(p[6].dst, p[6].dst, 10, 11)
    case 14 => Footprint(p[6].dst, p[6].dst, p[6].src, p[6].src)
    case 15 => Footprint(14, p[0].dst, 9, 9)
    case 16 => Footprint(-1, 14, 14, 14)
    case _ => Footprint(9, 9, 9, 9)
  }

  lemma BuilderCovers(i: Instruction, t: Reg)
    ensures Footprint(i.dst, i.dst, t, t).Covers(MulIsn(i, t))
    ensures Footprint(i.dst, i.dst, i.dst, i.dst).Covers(RorIsn(i))
    ensures i.opcode.IsXas() ==> Footprint(i.dst, i.dst, i.dst, i.dst).Covers(PreXasIsn(i))
    ensures i.opcode.IsXas() ==> Footprint(i.dst, i.dst, t, t).Covers(XasIsn(i, t))
    ensures i.opcode.IsMul() ==> Footprint(i.dst, i.dst, 10, 11).Covers(PremulIsn(i))
  {
  }

  lemma SimpleCovers(d: RegIndex, t: Reg)
    ensures Footprint(t, d, d, d).Covers(Mov(t, d))
    ensures Footprint(t, d, d, d).Covers(AluImm(ANDI, t, d, 2040))
    ensures Footprint(t, t, t, t).Covers(LdrSp(t, t))
    ensures Footprint(14, d, 9, 9).Covers(Alu(ORR, 14, d, 9))
    ensures Footprint(-1, 14, 14, 14).Covers(Tst(14, 32))
    ensures Footprint(9, 9, 9, 9).Covers(CincEq(9, 9))
  {
  }

  lemma RegFootprintCovers(p: Program, q: nat)
    requires Compilable(p) && q < 18
    ensures RegFootprint(p, q).Covers(RegIsn(p, q))
  {
    hide Footprint.Covers, MulIsn, RorIsn, PreXasIsn, XasIsn, PremulIsn, OperandsOk;
    BuilderCovers(p[0], p[0].src + 4);
    BuilderCovers(p[1], 14);
    BuilderCovers(p[2], p[2].src);
    BuilderCovers(p[3], p[3].src);
    BuilderCovers(p[4], p[4].src);
    BuilderCovers(p[5], p[5].src);
    BuilderCovers(p[6], p[6].src);
    SimpleCovers(p[1].src, 14);
    SimpleCovers(p[0].dst, 14);
  }

  function MemFootprint(p: Program, q: nat): Footprint
  {
    match q
    case 0 => Footprint(p[0].dst, p[0].dst, p[0].src + 4, p[0].src + 4)
    case 1 => Footprint(p[0].dst, p[0].dst, p[0].dst, p[0].dst)
    case 2 => Footprint(15, p[1].src, p[1].src, p[1].src)
    case 3 => Footprint(15, 15, 15, 15)
    case 4 => Footprint(p[1].dst, p[1].dst, p[1].dst, p[1].dst)
    case 5 => Footprint(p[1].dst, p[1].dst, 15, 15)
    case 6 => Footprint(16, p[2].src, p[2].src, p[2].src)
    case 7 => Footprint(16, 16, 16, 16)
    case 8 => Footprint(p[2].dst, p[2].dst, 10, 11)
    case 9 => Footprint(p[2].dst, p[2].dst, 16, 16)
    case 10 => Footprint(17, p[3].src, p[3].src, p[3].src)
    case 11 => Footprint(17, 17, 17, 17)
    case 12 => Footprint(p[3].dst, p[3].dst, p[3].dst, p[3].dst)
    case 13 => Footprint(p[3].dst, p[3].dst, 17, 17)
    case 14 => Footprint(16, p[4].src, p[4].src, p[4].src)
    case 15 => Footprint(16, 16, 16, 16)
    case 16 => Footprint(p[4].dst, p[4].dst, 10, 11)
    case 17 => Footprint(p[4].dst, p[4].dst, 16, 16)
    case 18 => Footprint(17, p[5].src, p[5].src, p[5].src)
    case 19 => Footprint(17, 17, 17, 17)
    case 20 => Footprint(p[5].dst, p[5].dst, p[5].dst, p[5].dst)
    case 21 => Footprint(p[5].dst, p[5].dst, 17, 17)
    case 22 => Footprint(16, p[6].src, p[6].src, p[6].src)
    case 23 => Footprint(16, 16, 16, 16)
    case 24 => Footprint(p[6].dst, p[6].dst, 10, 11)
    case 25 => Footprint(p[6].dst, p[6].dst, 16, 16)
    case 26 => Footprint(17, p[8].src, p[8].src, p[8].src)
    case 27 => Footprint(17, 17, 17, 17)
    case 28 => Footprint(14, p[0].dst, 9, 9)
    case 29 => Footprint(-1, 14, 14, 14)
    case _ => Footprint(9, 9, 9, 9)
  }

  lemma MemFootprintCovers(p: Program, q: nat)
    requires Compilable(p) && q < 31
    ensures MemFootprint(p, q).Covers(MemIsn(p, q))
  {
    hide Footprint.Covers, MulIsn, RorIsn, PreXasIsn, XasIsn, PremulIsn, OperandsOk;
    BuilderCovers(p[0], p[0].src + 4);
    BuilderCovers(p[1], 15);
    BuilderCovers(p[2], 16);
    BuilderCovers(p[3], 17);
    BuilderCovers(p[4], 16);
    BuilderCovers(p[5], 17);
    BuilderCovers(p[6], 16);
    SimpleCovers(p[0].dst, 14);
    SimpleCovers(p[1].src, 15);
    SimpleCovers(p[2].src, 16);
    SimpleCovers(p[3].src, 17);
    SimpleCovers(p[4].src, 16);
    SimpleCovers(p[5].src, 17);
    SimpleCovers(p[6].src, 16);
    SimpleCovers(p[8].src, 17);
  }

  /** The register loop only delays the rotation of RMCG, past the next two reads. */
  predicate RegHazardFree(p: Program) {
    p[1].src != p[0].dst && p[2].src != p[0].dst
  }

  lemma RegApart(p: Program, q: nat, r: nat)
    requires Compilable(p) && RegHazardFree(p) && RegInverted(q, r)
    ensures Apart(RegFootprint(p, q), RegFootprint(p, r))
  {
    assert Differ(p, 0, 1) && Differ(p, 0, 2) && Differ(p, 0, 3) && Differ(p, 0, 5) && Differ(p, 0, 6)
      && Differ(p, 1, 2);
  }

  /** The emitted order of the register loop inverts only independent pairs. */
  lemma RegSchedule(p: Program)
    requires Compilable(p) && RegHazardFree(p)
    ensures IsSchedule(RegSource(p), RegOrder())
  {
    hide OperandsOk, RegHazardFree, Independent, RegPosition, RegIsn;
    var a := RegSource(p);
    RegOrderFacts();
    forall j, k | 0 <= j < k < 18 && RegOrder()[j] > RegOrder()[k]
      ensures Independent(a[RegOrder()[k]], a[RegOrder()[j]])
    {
      RegInversions(j, k);
      RegIndependent(p, RegPosition(k), RegPosition(j));
    }
  }

  lemma RegIndependent(p: Program, q: nat, r: nat)
    requires Compilable(p) && RegHazardFree(p) && q < r < 18 && RegInverted(q, r)
    ensures Independent(RegIsn(p, q), RegIsn(p, r))
  {
    RegFootprintCovers(p, q);
    RegFootprintCovers(p, r);
    RegApart(p, q, r);
    assert q <= 14 && !RegIsn(p, q).Tst? && !RegIsn(p, q).CincEq?;
    hide Compilable, Independent, Footprint.Covers, Apart, RegFootprint, RegIsn;
    ApartIndependent(RegIsn(p, q), RegIsn(p, r), RegFootprint(p, q), RegFootprint(p, r));
  }

  /** The pairs of source positions that the emitted order of the scratchpad loop inverts. */
  predicate MemInverted(q: nat, r: nat) {
    || (q == 0 && 2 <= r <= 4)
    || (q == 1 && 2 <= r <= 12 && r != 9)
    || (8 <= q <= 9 && 10 <= r <= 11)
    || (q == 9 && r == 12)
    || (16 <= q <= 17 && 18 <= r <= 19)
    || (q == 17 && (r == 20 || r == 28))
    || (21 <= q <= 27 && r == 28)
    || (24 <= q <= 25 && 26 <= r <= 27)
    || (q == 25 && 29 <= r <= 30)
  }

  function MemPlace(q: nat): nat
    requires q < 31
    ensures MemPlace(q) < 31 && MemPosition(MemPlace(q)) == q
  {
    match q
    case 0 => 3 case 1 => 11 case 2 => 0 case 3 => 1 case 4 => 2 case 5 => 4
    case 6 => 5 case 7 => 6 case 8 => 9 case 9 => 12 case 10 => 7 case 11 => 8
    case 12 => 10 case 13 => 13 case 14 => 14 case 15 => 15 case 16 => 18 case 17 => 21
    case 18 => 16 case 19 => 17 case 20 => 19 case 21 => 22 case 22 => 23 case 23 => 24
    case 24 => 27 case 25 => 30 case 26 => 25 case 27 => 26 case 28 => 20 case 29 => 28
    case _ => 29
  }

  lemma MemPlaceInverse(k: nat)
    requires k < 31
    ensures MemPlace(MemPosition(k)) == k
  {
  }

  lemma MemOrderFacts()
    ensures IsPermutation(MemOrder(), 31)
  {
    hide MemPosition, MemPlace;
    forall j, k | 0 <= j < k < 31 ensures MemOrder()[j] != MemOrder()[k] {
      MemPlaceInverse(j);
      MemPlaceInverse(k);
    }
    forall q | 0 <= q < 31 ensures q in MemOrder() {
      assert MemOrder()[MemPlace(q)] == q;
    }
  }

  lemma MemInversions(j: nat, k: nat)
    requires j < k < 31 && MemPosition(j) > MemPosition(k)
    ensures MemInverted(MemPosition(k), MemPosition(j))
  {
  }

  lemma MemApartEarly(p: Program, q: nat, r: nat)
    requires WellFormed(p) && MemInverted(q, r) && q <= 1
    ensures Apart(MemFootprint(p, q), MemFootprint(p, r))
  {
    assert Differ(p, 0, 1) && Differ(p, 0, 2) && Differ(p, 0, 3);
  }

  lemma MemApartMiddle(p: Program, q: nat, r: nat)
    requires WellFormed(p) && MemInverted(q, r) && 8 <= q <= 17
    ensures Apart(MemFootprint(p, q), MemFootprint(p, r))
  {
    assert Differ(p, 2, 3) && Differ(p, 4, 5) && Differ(p, 0, 4);
  }

  lemma MemApartLate(p: Program, q: nat, r: nat)
    requires WellFormed(p) && MemInverted(q, r) && 21 <= q
    ensures Apart(MemFootprint(p, q), MemFootprint(p, r))
  {
    assert Differ(p, 0, 5) && Differ(p, 0, 6);
  }

  /** Here every hazard rule is used: the loads of an operand, and the rotation that RMCG
      left pending, move past instructions that may not touch the same register. */
  lemma MemApart(p: Program, q: nat, r: nat)
    requires WellFormed(p) && MemInverted(q, r)
    ensures Apart(MemFootprint(p, q), MemFootprint(p, r))
  {
    hide WellFormed, MemFootprint, Apart;
    if q <= 1 {
      MemApartEarly(p, q, r);
    } else if q <= 17 {
      MemApartMiddle(p, q, r);
    } else {
      MemApartLate(p, q, r);
    }
  }

  /** The emitted order of the scratchpad loop inverts only independent pairs. */
  lemma MemSchedule(p: Program)
    requires WellFormed(p)
    ensures IsSchedule(MemSource(p), MemOrder())
  {
    hide OperandsOk, HazardFree, Independent, MemPosition, MemIsn;
    var a := MemSource(p);
    MemOrderFacts();
    forall j, k | 0 <= j < k < 31 && MemOrder()[j] > MemOrder()[k]
      ensures Independent(a[MemOrder()[k]], a[MemOrder()[j]])
    {
      MemInversions(j, k);
      MemIndependent(p, MemPosition(k), MemPosition(j));
    }
  }

  lemma MemIndependent(p: Program, q: nat, r: nat)
    requires WellFormed(p) && q < r < 31 && MemInverted(q, r)
    ensures Independent(MemIsn(p, q), MemIsn(p, r))
  {
    MemFootprintCovers(p, q);
    MemFootprintCovers(p, r);
    MemApart(p, q, r);
    assert q <= 27 && !MemIsn(p, q).Tst? && !MemIsn(p, q).CincEq?;
    hide WellFormed, Independent, Footprint.Covers, Apart, MemFootprint, MemIsn;
    ApartIndependent(MemIsn(p, q), MemIsn(p, r), MemFootprint(p, q), MemFootprint(p, r));
  }

  lemma TailOrderFacts(pair: nat)
    requires pair < 4
    ensures IsPermutation(TailOrder(pair), 6)
    ensures var o := TailOrder(pair);
            forall j, k :: 0 <= j < k < 6 && o[j] > o[k] ==> o[k] >= 2 || (o[j] >= 2 && o[j] != 2 + pair)
  {
    match pair
    case 0 => case 1 => case 2 => case 3 =>
  }

  lemma StoresIndependent(q: nat, r: nat)
    requires q < r < 4
    ensures Independent(StoreIsn(q), StoreIsn(r))
  {
  }

  /** A store of another pair and an instruction on dst. */
  lemma StoreMoves(i: Isn, dst: RegIndex, src: RegIndex, k: nat)
    requires k < 4 && dst < 8 && k != dst / 2 && Footprint(dst, dst, src, src).Covers(i) && !i.Tst? && !i.LdrSp?
    ensures Independent(i, StoreIsn(k))
  {
  }

  /** The stores move up past the last instruction, except the one of its own pair. */
  lemma TailSchedule(p: Program)
    requires WellFormed(p)
    ensures IsSchedule(TailSource(p), TailOrder(p[8].dst / 2))
  {
    var a := TailSource(p);
    var pair := p[8].dst / 2;
    forall q, r | 0 <= q < r < 6 && (q >= 2 || (r >= 2 && r != 2 + pair)) ensures Independent(a[q], a[r]) {
      if q >= 2 {
        StoresIndependent(q - 2, r - 2);
      } else {
        BuilderCovers(p[8], p[8].src);
        StoreMoves(a[q], p[8].dst, p[8].src, r - 2);
      }
    }
    hide Independent, IsPermutation, TailSource, TailOrder;
    TailOrderFacts(pair);
  }
}
