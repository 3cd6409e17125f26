/** What each opcode computes, in integers: the meaning of the interpreter's expressions on
    64-bit unsigned words and, for the arithmetic shifts, on signed ones. */
module Arithmetic {
  import opened Words
  import opened WordLaws
  import opened Displacements
  import opened Vm

  /** The quotient by 2^k, and what the division dropped, on top. */
  function Rotated(x: nat, k: nat): int
    requires k <= 64
  {
    hide Pow2;
    x / Pow2(k) + (x * Pow2(64 - k)) % TWO_64
  }

  function Amount(imm: Imm): (k: nat)
    ensures k <= 64
  {
    imm as nat
  }

  /** The destination before the operation: rotated, shifted as a signed number or shifted. */
  function Shifted(op: Opcode, d: u64, imm: Imm): int {
    hide Number, Amount, Pow2, Rotated, Signed;
    if op.XORROR? || op.ADDROR? || op.SUBROR? then Rotated(Number(d), Amount(imm))
    else if op.XORASR? || op.ADDASR? || op.SUBASR? then Signed(d) / Pow2(Amount(imm))
    else Number(d) / Pow2(Amount(imm))
  }

  predicate NumberBit(n: nat, j: nat) {
    hide Pow2;
    (n / Pow2(j)) % 2 == 1
  }

  /** The number n modulo 2^64 and the word s, combined bit by bit by exclusive or. */
  ghost predicate IsXor(v: u64, n: int, s: u64) {
    hide Number, NumberBit;
    forall j: nat :: NumberBit(Number(v), j) == (NumberBit(n % TWO_64, j) != NumberBit(Number(s), j))
  }

  /** v is what opcode op makes of destination d, immediate and source s. */
  ghost predicate Computes(op: Opcode, d: u64, imm: Imm, s: u64, v: u64) {
    hide Number, Amount, Shifted, Rotated, IsXor, Or, Xor;
    match op
    case MULOR => Number(v) == (Number(Or(d, imm as u64)) * Number(s)) % TWO_64
    case MULXOR => Number(v) == (Number(Xor(d, imm as u64)) * Number(s)) % TWO_64
    case MULADD => Number(v) == ((Number(d) + Amount(imm)) * Number(s)) % TWO_64
    case RMCG => Number(v) == Rotated((Number(d) * Number(s)) % TWO_64, Amount(imm))
    case XORROR | XORASR | XORLSR => IsXor(v, Shifted(op, d, imm), s)
    case ADDROR | ADDASR | ADDLSR => Number(v) == (Shifted(op, d, imm) + Number(s)) % TWO_64
    case SUBROR | SUBASR | SUBLSR => Number(v) == (Shifted(op, d, imm) - Number(s)) % TWO_64
    case BRANCH | HALT => v == d
  }

  // ----- the shifted destination -----

  function ShiftedWord(op: Opcode, d: u64, imm: Imm): u64 {
    if op.XORROR? || op.ADDROR? || op.SUBROR? then Rotr(d, imm)
    else if op.XORASR? || op.ADDASR? || op.SUBASR? then Asr(d, imm)
    else Lsr(d, imm)
  }

  lemma AmountIs(imm: Imm)
    ensures Number32(imm) == Amount(imm)
  {
  }

  lemma RotatedWord(d: u64, imm: Imm)
    ensures Number(Rotr(d, imm)) == Rotated(Number(d), Amount(imm))
  {
    hide Number, Number32, Amount, Rotr;
    AmountIs(imm);
    RotrNumber(d, imm);
  }

  /** A signed number as the word that stores it. */
  lemma SignedRest(a: u64)
    ensures Number(a) == Signed(a) % TWO_64
  {
    hide Number;
    Range(a);
  }

  lemma ShiftedIs(op: Opcode, d: u64, imm: Imm)
    ensures Number(ShiftedWord(op, d, imm)) == Shifted(op, d, imm) % TWO_64
  {
    hide Number, Number32, Amount, Rotr, Asr, Lsr, Pow2, Rotated, Signed;
    AmountIs(imm);
    Range(ShiftedWord(op, d, imm));
    RotatedWord(d, imm);
    LsrNumber(d, imm);
    AsrSigned(d, imm);
    SignedRest(Asr(d, imm));
  }

  // ----- the operations -----

  lemma AddRest(n: int, y: nat)
    ensures (n % TWO_64 + y) % TWO_64 == (n + y) % TWO_64
  {
  }

  lemma SubRest(n: int, y: nat)
    ensures (n % TWO_64 - y) % TWO_64 == (n - y) % TWO_64
  {
  }

  lemma AddOrSub(w: u64, n: int, s: u64)
    requires Number(w) == n % TWO_64
    ensures Number(Add(w, s)) == (n + Number(s)) % TWO_64
    ensures Number(Sub(w, s)) == (n - Number(s)) % TWO_64
  {
    hide Number, Add, Sub;
    AddNumber(w, s);
    SubNumber(w, s);
    AddRest(n, Number(s));
    SubRest(n, Number(s));
  }

  lemma XorOf(w: u64, n: int, s: u64)
    requires Number(w) == n % TWO_64
    ensures IsXor(Xor(w, s), n, s)
  {
    hide Number, Xor, NumberBit;
    forall j: nat
      ensures NumberBit(Number(Xor(w, s)), j) == (NumberBit(n % TWO_64, j) != NumberBit(Number(s), j))
    {
      BitIs(w, j);
      BitIs(s, j);
      BitIs(Xor(w, s), j);
      BitwiseBits(w, s, j);
    }
  }

  lemma BitIs(a: u64, j: nat)
    ensures Bit(a, j) == NumberBit(Number(a), j)
  {
    hide Number, Pow2;
  }

  lemma MulRest(n: nat, y: nat)
    ensures ((n % TWO_64) * y) % TWO_64 == (n * y) % TWO_64
  {
    var q, r := n / TWO_64, n % TWO_64;
    assert n * y == q * y * TWO_64 + r * y;
    var t, u := (r * y) / TWO_64, (r * y) % TWO_64;
    QuotientIs(n * y, TWO_64, q * y + t, u);
  }

  lemma WideImm(imm: Imm)
    ensures Number(imm as u64) == Amount(imm)
  {
    ZeroExtendNumber(imm);
  }

  lemma AddedProduct(d: u64, imm: Imm, s: u64)
    ensures Number(Mul(Add(d, imm as u64), s)) == ((Number(d) + Amount(imm)) * Number(s)) % TWO_64
  {
    hide Number, Add, Mul, Amount;
    WideImm(imm);
    AddNumber(d, imm as u64);
    MulNumber(Add(d, imm as u64), s);
    MulRest(Number(d) + Amount(imm), Number(s));
  }

  lemma MulComputes(op: Opcode, d: u64, imm: Imm, s: u64)
    requires op.IsMul() || op.RMCG?
    ensures Computes(op, d, imm, s, Result(op, d, imm, s))
  {
    hide Number, Amount, Rotated, Or, Xor, Add, Mul, Rotr;
    MulNumber(Or(d, imm as u64), s);
    MulNumber(Xor(d, imm as u64), s);
    AddedProduct(d, imm, s);
    MulNumber(d, s);
    RotatedWord(Mul(d, s), imm);
  }

  lemma XasComputes(op: Opcode, d: u64, imm: Imm, s: u64)
    requires op.IsXas()
    ensures Computes(op, d, imm, s, Result(op, d, imm, s))
  {
    hide Number, Shifted, IsXor, Xor, Add, Sub, Rotr, Asr, Lsr;
    var w, n := ShiftedWord(op, d, imm), Shifted(op, d, imm);
    ShiftedIs(op, d, imm);
    AddOrSub(w, n, s);
    XorOf(w, n, s);
  }

  /** Every opcode of the interpreter computes its integer meaning. */
  lemma ResultComputes(op: Opcode, d: u64, imm: Imm, s: u64)
    ensures Computes(op, d, imm, s, Result(op, d, imm, s))
  {
    hide Computes, Result;
    if op.IsMul() || op.RMCG? {
      MulComputes(op, d, imm, s);
    } else if op.IsXas() {
      XasComputes(op, d, imm, s);
    } else {
      NothingComputed(op, d, imm, s);
    }
  }

  lemma NothingComputed(op: Opcode, d: u64, imm: Imm, s: u64)
    requires op.BRANCH? || op.HALT?
    ensures Computes(op, d, imm, s, Result(op, d, imm, s))
  {
  }
}
