/** The congruential step RMCG: its multipliers are odd, so it is a bijection on its
    destination register. */
module Multiplier {
  import opened Words
  import opened WordLaws
  import opened Vm

  /** An inverse modulo m gives an inverse modulo m squared. */
  lemma Newton(s: int, t: int, c: int, m: int) returns (t': int, c': int)
    requires s * t == 1 + c * m
    ensures s * t' == 1 + c' * (m * m)
  {
    t', c' := t * (2 - s * t), -(c * c);
    var x := c * m;
    assert s * t' == (1 + x) * (1 - x) by { Regroup(s, t); }
    assert x * x == (c * c) * (m * m) by { Squares(c, m); }
    assert (1 + x) * (1 - x) == 1 - x * x;
    assert c' * (m * m) == -((c * c) * (m * m));
  }

  lemma Regroup(s: int, t: int)
    ensures s * (t * (2 - s * t)) == (s * t) * (2 - s * t)
  {
  }

  lemma Squares(c: int, m: int)
    ensures (c * m) * (c * m) == (c * c) * (m * m)
  {
  }

  /** An odd number has an inverse modulo 2^64. */
  lemma OddInverse(s: nat) returns (n: nat, c: int)
    requires s % 2 == 1
    ensures s * n == 1 + c * TWO_64
  {
    var t: int;
    t, c := Newton(s, 1, s / 2, 2);
    t, c := Newton(s, t, c, 4);
    t, c := Newton(s, t, c, 0x10);
    t, c := Newton(s, t, c, 0x100);
    t, c := Newton(s, t, c, 0x1_0000);
    t, c := Newton(s, t, c, 0x1_0000_0000);
    n := t % TWO_64;
    var q := t / TWO_64;
    assert t == q * TWO_64 + n;
    assert s * n == s * t - s * (q * TWO_64) == 1 + (c - s * q) * TWO_64 by { Distribute(s, t, q, n, c); }
    c := c - s * q;
  }

  lemma Distribute(s: int, t: int, q: int, n: int, c: int)
    requires t == q * TWO_64 + n && s * t == 1 + c * TWO_64
    ensures s * n == s * t - s * (q * TWO_64) == 1 + (c - s * q) * TWO_64
  {
    assert s * (q * TWO_64) == (s * q) * TWO_64;
  }

  predicate Odd(s: u64) {
    s & 1 == 1
  }

  lemma OddNumber(s: u64)
    requires Odd(s)
    ensures Number(s) % 2 == 1
  {
    hide Number;
    Halves(s);
  }

  /** The two numbers multiply to one modulo 2^64. */
  predicate Inverses(s: u64, t: u64) {
    Mul(s, t) == 1
  }

  lemma ModProduct(a: nat, b: nat)
    ensures ((a % TWO_64) * b) % TWO_64 == (a * b) % TWO_64
  {
    var q, r := a / TWO_64, a % TWO_64;
    assert a == q * TWO_64 + r;
    assert a * b == (q * b) * TWO_64 + r * b;
    ModShift(q * b, r * b);
  }

  lemma ModShift(q: int, x: int)
    ensures (q * TWO_64 + x) % TWO_64 == x % TWO_64
  {
    var d := x / TWO_64;
    assert x == d * TWO_64 + x % TWO_64;
    assert q * TWO_64 + x == (q + d) * TWO_64 + x % TWO_64;
  }

  lemma OneNumber(a: u64)
    ensures a == 1 <==> Number(a) == 1
  {
    hide Word, Number;
    NumberOfOne();
    NumberBack(1, 1);
    if Number(a) == 1 {
      NumberBack(1, a);
    }
  }

  lemma NumberOfOne()
    ensures Number(1) == 1
  {
  }

  /** Every odd word has an inverse. */
  lemma InverseExists(s: u64) returns (t: u64)
    requires Odd(s)
    ensures Inverses(s, t)
  {
    hide Mul, Number, Word, Odd;
    OddNumber(s);
    var n, c := OddInverse(Number(s));
    t := Word(n % TWO_64);
    WordBack(n % TWO_64);
    MulNumber(s, t);
    ModProduct(n, Number(s));
    assert n * Number(s) == c * TWO_64 + 1;
    ModShift(c, 1);
    assert Number(t) * Number(s) == Number(s) * Number(t);
    OneNumber(Mul(s, t));
  }

  lemma ProductUndone(x: nat, y: nat, z: nat)
    requires x < TWO_64 && (y * z) % TWO_64 == 1
    ensures (((x * y) % TWO_64) * z) % TWO_64 == x
  {
    ModProduct(x * y, z);
    Rearrange(x, y, z);
    var p := y * z;
    ModProduct(p, x);
    assert (p % TWO_64) * x == x;
  }

  /** Multiplying by an inverse undoes the multiplication. */
  lemma MulUndone(d: u64, s: u64, t: u64)
    requires Inverses(s, t)
    ensures Mul(Mul(d, s), t) == d
  {
    hide Mul, Number, Word;
    MulNumber(s, t);
    OneNumber(Mul(s, t));
    MulNumber(d, s);
    MulNumber(Mul(d, s), t);
    Range(d);
    ProductUndone(Number(d), Number(s), Number(t));
    NumberBack(Number(d), d);
    NumberBack(Number(d), Mul(Mul(d, s), t));
  }

  lemma Rearrange(x: int, y: int, z: int)
    ensures x * y * z == (y * z) * x
  {
  }

  lemma RotateUndone(x: u64, n: u32)
    requires n <= 64
    ensures Rotr(Rotr(x, n), Rest(n)) == x && Rotr(Rotr(x, Rest(n)), n) == x
  {
    hide Rotr, Rest;
    RotrUndone(x, n);
    RotrUndone(x, Rest(n));
    RestTwice64(n);
  }

  /** The destination before an RMCG step, from its result. */
  function Undo(v: u64, imm: Imm, t: u64): u64 {
    Mul(Rotr(v, Rest(imm)), t)
  }

  /** RMCG with an odd multiplier is a bijection: Undo inverts it on both sides. */
  lemma RmcgBijection(s: u64, imm: Imm) returns (t: u64)
    requires Odd(s)
    ensures forall d :: Undo(Result(RMCG, d, imm, s), imm, t) == d
    ensures forall v :: Result(RMCG, Undo(v, imm, t), imm, s) == v
  {
    hide Mul, Rotr, Rest, Odd;
    t := InverseExists(s);
    forall d ensures Undo(Result(RMCG, d, imm, s), imm, t) == d {
      RotateUndone(Mul(d, s), imm);
      MulUndone(d, s, t);
    }
    MulCommutes(s, t);
    forall v ensures Result(RMCG, Undo(v, imm, t), imm, s) == v {
      RotateUndone(v, imm);
      MulUndone(Rotr(v, Rest(imm)), t, s);
    }
  }
}
