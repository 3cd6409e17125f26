/** The hash function itself, without any representation: keys from a seed, registers from a
    nonce, both phases, and the final mix. */
module HashFunction {
  import opened Words
  import opened WordLaws
  import opened Vm
  import opened Phases
  import opened Siphash
  import opened Generator
  import opened Multiplier

  type Seed = s: seq<u8> | |s| == 32 witness seq(32, _ => 0)

  /** Eight bytes, least significant first. */
  function Load64(b0: u8, b1: u8, b2: u8, b3: u8, b4: u8, b5: u8, b6: u8, b7: u8): u64 {
    (b0 as u64) | (b1 as u64 << 8) | (b2 as u64 << 16) | (b3 as u64 << 24)
    | (b4 as u64 << 32) | (b5 as u64 << 40) | (b6 as u64 << 48) | (b7 as u64 << 56)
  }

  function WordAt(seed: Seed, i: nat): u64
    requires i < 4
  {
    Load64(seed[8 * i], seed[8 * i + 1], seed[8 * i + 2], seed[8 * i + 3],
           seed[8 * i + 4], seed[8 * i + 5], seed[8 * i + 6], seed[8 * i + 7])
  }

  /** The key of the program generator. */
  function ProgramKey(seed: Seed): Key {
    Key(WordAt(seed, 0), WordAt(seed, 1))
  }

  /** The key of the register generator. */
  function RegisterKey(seed: Seed): Key {
    Key(WordAt(seed, 2), WordAt(seed, 3))
  }

  function AdjustR8(a: u64): u64 {
    (a & 0xffff_ffff_ffff_fff8) | 3
  }

  function AdjustR9(a: u64): u64 {
    (a & 0xffff_ffff_ffff_fff8) | 5
  }

  /** Eight outputs of the generator salted with the nonce, and two odd multipliers. */
  function InitialRegs(key: Key, input: u64): Regs {
    hide Output, AdjustR8, AdjustR9, InitState;
    var q := InitState(key, input);
    seq(8, i requires 0 <= i < 8 => Output(key, q, i)) + [AdjustR8(Output(key, q, 4)), AdjustR9(Output(key, q, 7))]
  }

  /** The hash, from the registers after execution. */
  function Finalize(r: Regs): u64 {
    hide SipRound, Xor;
    var a := SipRound(Quad(r[0], r[1], r[2], r[3]));
    var b := SipRound(Quad(r[4], r[5], r[6], r[7]));
    Xor(Xor(a.v3, b.v3), r[9])
  }

  function HashOf(l: ProgramList, key: Key, input: u64): u64 {
    hide Execute, InitialRegs, Finalize;
    Finalize(Execute(l, InitialRegs(key, input)))
  }

  /** What HALT slots may hold before a list is generated; any value stands for them. */
  function AnyLeftovers(): (left: seq<Instruction>)
    ensures |left| == NUM_PROGRAMS
  {
    seq(NUM_PROGRAMS, _ => Instruction(HALT, 0, 0, 0))
  }

  function Programs(seed: Seed): ProgramList {
    GeneratedList(ProgramKey(seed), AnyLeftovers())
  }

  function Hash(seed: Seed, input: u64): u64 {
    hide Programs, HashOf, RegisterKey;
    HashOf(Programs(seed), RegisterKey(seed), input)
  }

  /** A list was generated for a seed, in whatever memory. */
  ghost predicate GeneratedFor(l: ProgramList, seed: Seed) {
    exists left: seq<Instruction> :: |left| == NUM_PROGRAMS && l == GeneratedList(ProgramKey(seed), left)
  }

  lemma GeneratedForSeed(l: ProgramList, seed: Seed)
    requires GeneratedFor(l, seed)
    ensures AllWellFormed(l)
    ensures forall input :: HashOf(l, RegisterKey(seed), input) == Hash(seed, input)
  {
    hide GeneratedList, Execute, InitialRegs, Finalize, ProgramKey, RegisterKey, AnyLeftovers;
    var left: seq<Instruction> :| |left| == NUM_PROGRAMS && l == GeneratedList(ProgramKey(seed), left);
    GeneratedWellFormed(ProgramKey(seed), left);
    forall input ensures HashOf(l, RegisterKey(seed), input) == Hash(seed, input) {
      LeftoversIrrelevant(ProgramKey(seed), left, AnyLeftovers(), InitialRegs(RegisterKey(seed), input));
    }
  }

  // ----- the bytes of a seed -----

  /** The word holds eight bytes, the first in its lowest place. */
  predicate HoldsBytes(w: u64, b: seq<u8>)
    requires |b| == 8
  {
    && w & 0xff == b[0] as u64 && (w >> 8) & 0xff == b[1] as u64
    && (w >> 16) & 0xff == b[2] as u64 && (w >> 24) & 0xff == b[3] as u64
    && (w >> 32) & 0xff == b[4] as u64 && (w >> 40) & 0xff == b[5] as u64
    && (w >> 48) & 0xff == b[6] as u64 && (w >> 56) & 0xff == b[7] as u64
  }

  predicate KeyHolds(key: Key, b: seq<u8>)
    requires |b| == 16
  {
    HoldsBytes(key.k0, b[..8]) && HoldsBytes(key.k1, b[8..])
  }

  lemma LoadHolds(b: seq<u8>)
    requires |b| == 8
    ensures HoldsBytes(Load64(b[0], b[1], b[2], b[3], b[4], b[5], b[6], b[7]), b)
  {
  }

  lemma WordHolds(seed: Seed, i: nat)
    requires i < 4
    ensures HoldsBytes(WordAt(seed, i), seed[8 * i..8 * i + 8])
  {
    hide Load64, HoldsBytes;
    LoadHolds(seed[8 * i..8 * i + 8]);
  }

  /** The first key holds bytes 0-15 and the second bytes 16-31, least significant first. */
  lemma KeysHoldSeed(seed: Seed)
    ensures KeyHolds(ProgramKey(seed), seed[..16]) && KeyHolds(RegisterKey(seed), seed[16..])
  {
    hide WordAt, HoldsBytes;
    WordHolds(seed, 0);
    WordHolds(seed, 1);
    WordHolds(seed, 2);
    WordHolds(seed, 3);
    assert seed[..16][..8] == seed[0..8] && seed[..16][8..] == seed[8..16];
    assert seed[16..][..8] == seed[16..24] && seed[16..][8..] == seed[24..32];
  }

  /** A list was generated from a key that holds these bytes. */
  ghost predicate GeneratedFromBytes(l: ProgramList, b: seq<u8>)
    requires |b| == 16
  {
    exists key: Key, left: seq<Instruction> ::
      KeyHolds(key, b) && |left| == NUM_PROGRAMS && l == GeneratedList(key, left)
  }

  lemma GeneratedForBytes(l: ProgramList, seed: Seed)
    requires GeneratedFor(l, seed)
    ensures GeneratedFromBytes(l, seed[..16])
  {
    hide GeneratedList, ProgramKey, RegisterKey, KeyHolds;
    KeysHoldSeed(seed);
  }

  // ----- the registers before and after execution -----

  lemma InitialState(key: Key, input: u64)
    ensures var r := InitialRegs(key, input); InitState(key, input) == Quad(r[3], r[2], r[1], r[0])
  {
    hide InitState, Output, AdjustR8, AdjustR9;
    FirstOutputs(key, InitState(key, input));
  }

  lemma AdjustedNumber(a: u64)
    ensures Number(AdjustR8(a)) == Number(a) - Number(a) % 8 + 3
    ensures Number(AdjustR9(a)) == Number(a) - Number(a) % 8 + 5
  {
    hide Number, AdjustR8, AdjustR9, Or, And;
    AdjustForm(a);
    ReplacedNumber(a, 3);
    ReplacedNumber(a, 5);
    Small();
  }

  lemma AdjustForm(a: u64)
    ensures AdjustR8(a) == Or(And(a, 0xffff_ffff_ffff_fff8), 3)
    ensures AdjustR9(a) == Or(And(a, 0xffff_ffff_ffff_fff8), 5)
  {
  }

  lemma Small()
    ensures Number(3) == 3 && Number(5) == 5
  {
  }

  /** R0-R3 are the state of the salted generator, last word first, R4-R7 that after one mix,
      and R8 and R9 are R4 and R7 with 3 and 5 as the rest modulo 8. */
  predicate RegistersFor(key: Key, input: u64, r: Regs) {
    hide InitState, MixState, Number;
    && Quad(r[3], r[2], r[1], r[0]) == InitState(key, input)
    && Quad(r[7], r[6], r[5], r[4]) == MixState(key, InitState(key, input))
    && Number(r[8]) == Number(r[4]) - Number(r[4]) % 8 + 3
    && Number(r[9]) == Number(r[7]) - Number(r[7]) % 8 + 5
  }

  lemma InitialRegisters(key: Key, input: u64)
    ensures RegistersFor(key, input, InitialRegs(key, input))
  {
    hide InitState, MixState, Output, AdjustR8, AdjustR9, Number;
    var q := InitState(key, input);
    InitialState(key, input);
    FirstOutputs(key, MixState(key, q));
    NextOutputs(key, q, 0);
    NextOutputs(key, q, 1);
    NextOutputs(key, q, 2);
    NextOutputs(key, q, 3);
    AdjustedNumber(Output(key, q, 4));
    AdjustedNumber(Output(key, q, 7));
  }

  /** The final mix, by the words that one round takes to R0-R3 and to R4-R7. */
  lemma FinalMix(r: Regs, p: Quad, q: Quad)
    requires Quad(r[0], r[1], r[2], r[3]) == SipUnround(p) && Quad(r[4], r[5], r[6], r[7]) == SipUnround(q)
    ensures Finalize(r) == Xor(Xor(p.v3, q.v3), r[9])
  {
    hide SipRound, SipUnround, Xor;
    SipRoundInverse(p);
    SipRoundInverse(q);
  }

  /** h is the hash that the registers give, whatever words one round takes to them. */
  ghost predicate FinalHash(r: Regs, h: u64) {
    hide SipUnround, Xor;
    forall p, q :: Quad(r[0], r[1], r[2], r[3]) == SipUnround(p) && Quad(r[4], r[5], r[6], r[7]) == SipUnround(q)
      ==> h == Xor(Xor(p.v3, q.v3), r[9])
  }

  lemma FinalMixAll(r: Regs)
    ensures FinalHash(r, Finalize(r))
  {
    hide SipUnround, Finalize, Xor;
    forall p, q | Quad(r[0], r[1], r[2], r[3]) == SipUnround(p) && Quad(r[4], r[5], r[6], r[7]) == SipUnround(q)
      ensures Finalize(r) == Xor(Xor(p.v3, q.v3), r[9])
    {
      FinalMix(r, p, q);
    }
  }

  // ----- distinct nonces -----

  /** Distinct nonces start from distinct register files: R0-R3 already differ. */
  lemma DistinctNonces(key: Key, a: u64, b: u64)
    requires a != b
    ensures InitialRegs(key, a)[..4] != InitialRegs(key, b)[..4]
  {
    hide InitialRegs, InitState;
    var r, s := InitialRegs(key, a), InitialRegs(key, b);
    InitialState(key, a);
    InitialState(key, b);
    if r[..4] == s[..4] {
      assert r[0] == r[..4][0] == s[0] && r[1] == r[..4][1] == s[1] && r[2] == r[..4][2] == s[2]
        && r[3] == r[..4][3] == s[3];
      SaltInjective(key, a, b);
    }
  }

  lemma LoadInjective(a: Seed, b: Seed, i: nat)
    requires i < 4 && WordAt(a, i) == WordAt(b, i)
    ensures forall k :: 8 * i <= k < 8 * i + 8 ==> a[k] == b[k]
  {
    EightBytes(a[8 * i], a[8 * i + 1], a[8 * i + 2], a[8 * i + 3], a[8 * i + 4], a[8 * i + 5], a[8 * i + 6], a[8 * i + 7],
               b[8 * i], b[8 * i + 1], b[8 * i + 2], b[8 * i + 3], b[8 * i + 4], b[8 * i + 5], b[8 * i + 6], b[8 * i + 7]);
    hide Load64;
  }

  lemma EightBytes(a0: u8, a1: u8, a2: u8, a3: u8, a4: u8, a5: u8, a6: u8, a7: u8,
                   b0: u8, b1: u8, b2: u8, b3: u8, b4: u8, b5: u8, b6: u8, b7: u8)
    requires Load64(a0, a1, a2, a3, a4, a5, a6, a7) == Load64(b0, b1, b2, b3, b4, b5, b6, b7)
    ensures a0 == b0 && a1 == b1 && a2 == b2 && a3 == b3 && a4 == b4 && a5 == b5 && a6 == b6 && a7 == b7
  {
  }

  /** The two keys hold the whole seed. */
  lemma KeysDetermineSeed(a: Seed, b: Seed)
    requires ProgramKey(a) == ProgramKey(b) && RegisterKey(a) == RegisterKey(b)
    ensures a == b
  {
    hide Load64;
    LoadInjective(a, b, 0);
    LoadInjective(a, b, 1);
    LoadInjective(a, b, 2);
    LoadInjective(a, b, 3);
  }

  // ----- the multipliers -----

  lemma AdjustedOdd(a: u64)
    ensures And(AdjustR8(a), 7) == 3 && And(AdjustR9(a), 7) == 5
    ensures Odd(AdjustR8(a)) && Odd(AdjustR9(a))
  {
  }

  /** R8 is 3 and R9 is 5 modulo 8. */
  lemma InitialMultipliers(key: Key, input: u64)
    ensures var r := InitialRegs(key, input);
            && And(r[8], 7) == 3 && And(r[9], 7) == 5
            && Odd(r[8]) && Odd(r[9])
  {
    hide InitState, Output, AdjustR8, AdjustR9, And, Odd;
    AdjustedOdd(Output(key, InitState(key, input), 4));
    AdjustedOdd(Output(key, InitState(key, input), 7));
  }

  /** RMCG with multiplier s is a bijection on its destination, which t undoes. */
  ghost predicate Undone(imm: Imm, s: u64, t: u64) {
    hide Result, Undo;
    && (forall d :: Undo(Result(RMCG, d, imm, s), imm, t) == d)
    && (forall v :: Result(RMCG, Undo(v, imm, t), imm, s) == v)
  }

  /** Whatever the passes of a program do, its RMCG keeps an odd multiplier. */
  lemma PassesBijective(p: Program, mode: Mode, r: Regs) returns (t: u64)
    requires OperandsOk(p) && Odd(r[8]) && Odd(r[9])
    ensures forall k: nat :: Undone(p[0].imm, AtPass(p, mode, r, k)[p[0].src], t)
  {
    hide AtPass, Result, Undo, Odd, DistinctDestinations, OperandOk, ImmOk;
    var src := p[0].src;
    t := RmcgBijection(r[src], p[0].imm);
    forall k: nat ensures Undone(p[0].imm, AtPass(p, mode, r, k)[src], t) {
      PassKeepsMultiplier(p, mode, r, k, src);
    }
  }

  /** In every run, every RMCG step of the writing phase, in every pass of its loop, is a
      bijection on its destination: the multipliers are never written and stay odd. */
  lemma WriteRmcgBijective(l: ProgramList, n: nat, key: Key, input: u64) returns (t: u64)
    requires AllWellFormed(l) && n < NUM_PROGRAMS
    ensures hide WritePhase, InitialRegs, AtPass, Undone;
            var r := WritePhase(l, n, InitialRegs(key, input), Blank()).r;
            forall k: nat :: Undone(l[n][0].imm, AtPass(l[n], RegMode, r, k)[l[n][0].src], t)
  {
    hide WritePhase, InitialRegs, AtPass, Undone, Odd, And, Blank, DistinctDestinations, OperandOk, ImmOk, Layout,
         HazardFree;
    var s := InitialRegs(key, input);
    InitialMultipliers(key, input);
    WriteKeepsMultiplier(l, n, s, Blank(), 8);
    WriteKeepsMultiplier(l, n, s, Blank(), 9);
    assert WellFormed(l[n]);
    t := PassesBijective(l[n], RegMode, WritePhase(l, n, s, Blank()).r);
  }

  /** Likewise in the reading phase, which starts from what the writing phase has left. */
  lemma ReadRmcgBijective(l: ProgramList, n: nat, key: Key, input: u64) returns (t: u64)
    requires AllWellFormed(l) && n < NUM_PROGRAMS
    ensures hide WritePhase, ReadPhase, InitialRegs, AtPass, Undone;
            var w := WritePhase(l, NUM_PROGRAMS, InitialRegs(key, input), Blank());
            var r := ReadPhase(l, n, w.r, w.mem).r;
            forall k: nat :: Undone(l[n][0].imm, AtPass(l[n], MemMode(w.mem), r, k)[l[n][0].src], t)
  {
    hide WritePhase, ReadPhase, InitialRegs, AtPass, Undone, Odd, And, Blank, DistinctDestinations, OperandOk, ImmOk,
         Layout, HazardFree;
    var s := InitialRegs(key, input);
    InitialMultipliers(key, input);
    WriteKeepsMultiplier(l, NUM_PROGRAMS, s, Blank(), 8);
    WriteKeepsMultiplier(l, NUM_PROGRAMS, s, Blank(), 9);
    var w := WritePhase(l, NUM_PROGRAMS, s, Blank());
    ReadKeepsMultiplier(l, n, w.r, w.mem, 8);
    ReadKeepsMultiplier(l, n, w.r, w.mem, 9);
    assert WellFormed(l[n]);
    t := PassesBijective(l[n], MemMode(w.mem), ReadPhase(l, n, w.r, w.mem).r);
  }
}
