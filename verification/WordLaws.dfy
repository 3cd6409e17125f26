/** What the word operations compute, in terms of numbers: every machine and the interpreter
    share them, so nothing that compares those would notice a wrong one. */
module WordLaws {
  import opened Words
  import opened Displacements

  function Pow2(n: nat): (p: nat)
    ensures p >= 1
  {
    if n == 0 then 1 else 2 * Pow2(n - 1)
  }

  lemma {:induction false} PowSum(m: nat, n: nat)
    ensures Pow2(m + n) == Pow2(m) * Pow2(n)
  {
    if m > 0 {
      PowSum(m - 1, n);
      assert Pow2(m) * Pow2(n) == 2 * (Pow2(m - 1) * Pow2(n));
    }
  }

  lemma Pow8()
    ensures Pow2(8) == 0x100
  {
  }

  lemma Powers()
    ensures Pow2(32) == 0x1_0000_0000 && Pow2(64) == TWO_64
  {
    hide Pow2;
    Pow8();
    PowSum(8, 8);
    PowSum(16, 16);
    PowSum(32, 32);
  }

  /** The number that a word stands for in two's complement. */
  function Signed(a: u64): int {
    hide Number;
    if Number(a) < 0x8000_0000_0000_0000 then Number(a) else Number(a) - TWO_64
  }

  // ----- halves of words -----

  lemma SmallHalf(x: u64)
    ensures x >> 1 < 0x8000_0000_0000_0000
  {
  }

  lemma Bits(x: u64)
    ensures x & 1 == 0 ==> x == (x >> 1) << 1
    ensures x & 1 != 0 ==> x == ((x >> 1) << 1) | 1
  {
  }

  lemma Twice(y: u64)
    requires y < 0x8000_0000_0000_0000
    ensures Number(y << 1) == 2 * Number(y) && Number((y << 1) | 1) == 2 * Number(y) + 1
  {
  }

  lemma Halves(x: u64)
    ensures x & 1 == 0 ==> Number(x) == 2 * Number(x >> 1)
    ensures x & 1 != 0 ==> Number(x) == 2 * Number(x >> 1) + 1
  {
    hide Number;
    SmallHalf(x);
    Bits(x);
    Twice(x >> 1);
  }

  lemma Zero()
    ensures Number(0) == 0
  {
  }

  lemma Range(a: u64)
    ensures Number(a) < TWO_64
  {
  }

  // ----- addition and subtraction -----

  predicate AllOnes(x: u64) { x == 0xffff_ffff_ffff_ffff }

  lemma IncBits(x: u64)
    ensures x & 1 == 0 ==> (x + 1) & 1 != 0 && (x + 1) >> 1 == x >> 1 && !AllOnes(x)
    ensures x & 1 != 0 && !AllOnes(x) ==> (x + 1) & 1 == 0 && (x + 1) >> 1 == (x >> 1) + 1 && !AllOnes(x >> 1)
  {
  }

  lemma {:induction false} IncNumber(x: u64)
    requires !AllOnes(x)
    ensures Number(x + 1) == Number(x) + 1
    decreases Number(x)
  {
    hide Number, AllOnes;
    Halves(x);
    Halves(x + 1);
    IncBits(x);
    if x & 1 != 0 {
      IncNumber(x >> 1);
    }
  }

  lemma Wrap(x: u64)
    requires AllOnes(x)
    ensures Number(x) == TWO_64 - 1 && x + 1 == 0
  {
  }

  lemma IncWraps(x: u64)
    ensures Number(x + 1) == (Number(x) + 1) % TWO_64
  {
    hide Number, AllOnes;
    Zero();
    Range(x);
    Range(x + 1);
    if AllOnes(x) { Wrap(x); } else { IncNumber(x); }
  }

  function Inc(x: u64): u64 { x + 1 }

  lemma IncIs(x: u64)
    ensures Number(Inc(x)) == (Number(x) + 1) % TWO_64
    ensures !AllOnes(x) ==> Number(Inc(x)) == Number(x) + 1
  {
    hide Number, AllOnes;
    IncWraps(x);
    if !AllOnes(x) {
      IncNumber(x);
    }
  }

  lemma Predecessor(b: u64) returns (c: u64)
    requires b != 0
    ensures !AllOnes(c) && Inc(c) == b
  {
    c := b - 1;
  }

  lemma AddZero(a: u64)
    ensures Add(a, 0) == a
  {
  }

  lemma AddModOne(n: nat)
    ensures (n % TWO_64 + 1) % TWO_64 == (n + 1) % TWO_64
  {
  }

  /** Addition modulo 2^64. */
  lemma {:induction false} AddNumber(a: u64, b: u64)
    ensures Number(Add(a, b)) == (Number(a) + Number(b)) % TWO_64
    decreases Number(b)
  {
    hide Number, AllOnes, Add, Inc;
    Zero();
    Range(a);
    if b == 0 {
      AddZero(a);
    } else {
      var c := Predecessor(b);
      IncIs(c);
      AddNumber(a, c);
      IncIs(Add(a, c));
      AddModOne(Number(a) + Number(c));
      AddInc(a, c, b);
    }
  }

  lemma AddInc(a: u64, c: u64, b: u64)
    requires Inc(c) == b
    ensures Add(a, b) == Inc(Add(a, c))
  {
    hide Add, Inc;
    IncForm(c);
    AddForm(a, c);
    SumForm(a, c);
    IncOfSum(a, c);
  }

  lemma IncForm(x: u64)
    ensures Inc(x) == x + 1
  {
  }

  lemma AddForm(a: u64, b: u64)
    ensures Add(a, b) == a + b
  {
  }

  lemma SumForm(a: u64, c: u64)
    ensures Add(a, c + 1) == a + c + 1
  {
  }

  lemma IncOfSum(a: u64, c: u64)
    ensures Inc(a + c) == a + c + 1
  {
  }

  lemma SubAdd(a: u64, b: u64)
    ensures Add(Sub(a, b), b) == a
  {
    SubThenAdd(a, b);
  }

  /** Subtraction modulo 2^64. */
  lemma SubNumber(a: u64, b: u64)
    ensures Number(Sub(a, b)) == (Number(a) - Number(b)) % TWO_64
  {
    hide Number, Add, Sub;
    SubAdd(a, b);
    AddNumber(Sub(a, b), b);
    Range(a);
    Range(b);
    Range(Sub(a, b));
  }

  lemma NotAdd(a: u64)
    ensures AllOnes(Add(!a, a))
  {
  }

  lemma NotNumber(a: u64)
    ensures Number(!a) == TWO_64 - 1 - Number(a)
  {
    hide Number, Add, AllOnes;
    NotAdd(a);
    Wrap(Add(!a, a));
    AddNumber(!a, a);
    Range(a);
    Range(!a);
  }

  // ----- shifts to the right -----

  lemma HalfQuotient(x: nat, p: nat)
    requires p >= 1
    ensures (x / p) / 2 == x / (2 * p)
  {
    var q, r := x / p, x % p;
    var h, b := q / 2, q % 2;
    assert x == q * p + r && q == 2 * h + b;
    assert x == h * (2 * p) + (b * p + r);
    assert 0 <= b * p + r < 2 * p by { if b == 0 { } else { assert b * p == p; } }
    QuotientIs(x, 2 * p, h, b * p + r);
  }

  lemma QuotientIs(x: int, p: nat, q: int, r: int)
    requires p >= 1 && x == q * p + r && 0 <= r < p
    ensures x / p == q && x % p == r
  {
    var q', r' := x / p, x % p;
    assert x == q' * p + r';
    NoMultiple(q - q', p, r' - r);
  }

  lemma NoMultiple(d: int, p: nat, e: int)
    requires d * p == e && 0 - p < e < p
    ensures d == 0
  {
    assert d >= 1 ==> (d - 1) * p >= 0;
    assert d <= -1 ==> (-d - 1) * p >= 0;
  }

  lemma PreviousAmount(n: u32) returns (m: u32)
    requires 0 < n <= 64
    ensures m < 64 && Next(m) == n && NotLast(m)
  {
    m := n - 1;
  }

  lemma RightFrom0(a: u64, m: u32)
    requires m < 16
    ensures a >> (m + 1) == (a >> m) >> 1
  {
  }

  lemma RightFrom16(a: u64, m: u32)
    requires 16 <= m < 32
    ensures a >> (m + 1) == (a >> m) >> 1
  {
  }

  lemma RightFrom32(a: u64, m: u32)
    requires 32 <= m < 48
    ensures a >> (m + 1) == (a >> m) >> 1
  {
  }

  lemma RightFrom48(a: u64, m: u32)
    requires 48 <= m < 64
    ensures a >> (m + 1) == (a >> m) >> 1
  {
  }

  lemma RightStep(a: u64, m: u32)
    requires m < 64
    ensures Next(m) <= 64 && Lsr(a, Next(m)) == Lsr(a, m) >> 1
  {
    if m < 16 { RightFrom0(a, m); } else if m < 32 { RightFrom16(a, m); }
    else if m < 48 { RightFrom32(a, m); } else { RightFrom48(a, m); }
  }

  lemma NoShift(a: u64)
    ensures Lsr(a, 0) == a && Lsl(a, 0) == a
  {
  }

  lemma ZeroAmount()
    ensures Number32(0) == 0
  {
  }

  lemma HalfNumber(x: u64)
    ensures Number(x >> 1) == Number(x) / 2
  {
    hide Number;
    Halves(x);
  }

  /** A shift to the right divides. */
  lemma {:induction false} LsrNumber(a: u64, n: u32)
    requires n <= 64
    ensures Number(Lsr(a, n)) == Number(a) / Pow2(Number32(n))
    decreases Number32(n)
  {
    hide Number, Number32, Lsr, Next, NotLast;
    ZeroAmount();
    if n == 0 {
      NoShift(a);
    } else {
      var m := PreviousAmount(n);
      Successor(m);
      LsrNumber(a, m);
      RightStep(a, m);
      HalfNumber(Lsr(a, m));
      HalfQuotient(Number(a), Pow2(Number32(m)));
    }
  }

  // ----- shifts to the left -----

  lemma LeftFrom0(a: u64, m: u32)
    requires m < 16
    ensures a << (m + 1) == (a << m) << 1
  {
  }

  lemma LeftFrom16(a: u64, m: u32)
    requires 16 <= m < 32
    ensures a << (m + 1) == (a << m) << 1
  {
  }

  lemma LeftFrom32(a: u64, m: u32)
    requires 32 <= m < 48
    ensures a << (m + 1) == (a << m) << 1
  {
  }

  lemma LeftFrom48(a: u64, m: u32)
    requires 48 <= m < 64
    ensures a << (m + 1) == (a << m) << 1
  {
  }

  lemma Double(x: u64)
    ensures x << 1 == Add(x, x)
  {
  }

  lemma LeftStep(a: u64, m: u32)
    requires m < 64
    ensures Next(m) <= 64 && Lsl(a, Next(m)) == Lsl(a, m) << 1
  {
    if m < 16 { LeftFrom0(a, m); } else if m < 32 { LeftFrom16(a, m); }
    else if m < 48 { LeftFrom32(a, m); } else { LeftFrom48(a, m); }
  }

  lemma LeftDouble(a: u64, m: u32)
    requires m < 64
    ensures Next(m) <= 64 && Lsl(a, Next(m)) == Add(Lsl(a, m), Lsl(a, m))
  {
    hide Next, Lsl, Add;
    LeftStep(a, m);
    Double(Lsl(a, m));
  }

  function Scaled(x: nat, p: nat): nat {
    (x * p) % TWO_64
  }

  lemma RestTwice(y: nat)
    ensures (y % TWO_64 + y % TWO_64) % TWO_64 == (2 * y) % TWO_64
  {
  }

  lemma ScaledTwice(x: nat, p: nat)
    ensures (Scaled(x, p) + Scaled(x, p)) % TWO_64 == Scaled(x, 2 * p)
  {
    RestTwice(x * p);
    assert x * (2 * p) == 2 * (x * p);
  }

  lemma ScaledOnce(x: nat)
    requires x < TWO_64
    ensures Scaled(x, 1) == x
  {
  }

  /** A shift to the left multiplies, modulo 2^64. */
  lemma {:induction false} LslNumber(a: u64, n: u32)
    requires n <= 64
    ensures Number(Lsl(a, n)) == Scaled(Number(a), Pow2(Number32(n)))
    decreases Number32(n)
  {
    hide Number, Number32, Lsl, Next, NotLast, Add, Scaled;
    ZeroAmount();
    Range(a);
    if n == 0 {
      NoShift(a);
      ScaledOnce(Number(a));
    } else {
      var m := PreviousAmount(n);
      Successor(m);
      LslNumber(a, m);
      LeftDouble(a, m);
      AddNumber(Lsl(a, m), Lsl(a, m));
      ScaledTwice(Number(a), Pow2(Number32(m)));
    }
  }

  lemma WholeMultiple(x: nat, p: nat)
    requires p >= 1 && x < TWO_64
    ensures Scaled(x / p, p) == x - x % p
  {
    var y := (x / p) * p;
    assert y == x - x % p;
    ScaledOnce(y);
  }

  /** Shifting out and back in clears the lowest n bits. */
  lemma Truncated(a: u64, n: u32)
    requires n <= 64
    ensures Number(Lsl(Lsr(a, n), n)) == Number(a) - Number(a) % Pow2(Number32(n))
  {
    hide Number, Number32, Lsr, Lsl, Scaled;
    LsrNumber(a, n);
    LslNumber(Lsr(a, n), n);
    Range(a);
    WholeMultiple(Number(a), Pow2(Number32(n)));
  }

  // ----- rotations -----

  predicate Disjoint(u: u64, v: u64) { u & v == 0 }

  function Half(x: u64): u64 { x >> 1 }

  predicate Low(x: u64) { x & 1 != 0 }

  lemma HalfLow(x: u64)
    ensures Number(x) == 2 * Number(Half(x)) + if Low(x) then 1 else 0
  {
    hide Number;
    Halves(x);
  }

  lemma DisjointHalves(u: u64, v: u64)
    requires Disjoint(u, v)
    ensures Disjoint(Half(u), Half(v)) && Half(Or(u, v)) == Or(Half(u), Half(v))
    ensures Low(Or(u, v)) == (Low(u) || Low(v)) && !(Low(u) && Low(v))
  {
  }

  lemma OrZero(v: u64)
    ensures Or(0, v) == v
  {
  }

  lemma NonZero(u: u64)
    ensures u != 0 ==> Number(u) > 0
  {
  }

  /** Words without a common bit. */
  lemma {:induction false} DisjointNumber(u: u64, v: u64)
    requires Disjoint(u, v)
    ensures Number(Or(u, v)) == Number(u) + Number(v)
    decreases Number(u)
  {
    hide Number, Disjoint, Half, Low, Or;
    Zero();
    if u == 0 {
      OrZero(v);
    } else {
      DisjointHalves(u, v);
      HalfLow(u);
      HalfLow(v);
      HalfLow(Or(u, v));
      NonZero(u);
      DisjointNumber(Half(u), Half(v));
    }
  }

  lemma Parted(x: u64, n: u32)
    requires n <= 64
    ensures Disjoint(Lsr(x, n), Lsl(x, Rest(n))) && Disjoint(Lsl(x, n), Lsr(x, Rest(n)))
  {
  }

  lemma WholeAmount()
    ensures Rest(0) == 64 && Number32(64) == 64
  {
  }

  lemma RestNext(m: u32)
    requires m < 64
    ensures Next(m) <= 64 && NotLast(Rest(Next(m))) && Next(Rest(Next(m))) == Rest(m)
  {
  }

  lemma {:induction false} RestNumber(n: u32)
    requires n <= 64
    ensures Rest(n) <= 64 && Number32(n) + Number32(Rest(n)) == 64
    decreases Number32(n)
  {
    hide Number32, Rest, Next, NotLast;
    ZeroAmount();
    if n == 0 {
      WholeAmount();
    } else {
      var m := PreviousAmount(n);
      Successor(m);
      RestNumber(m);
      RestNext(m);
      Successor(Rest(n));
    }
  }

  /** A rotation to the right keeps the quotient by 2^n and moves the rest to the top. */
  lemma RotrNumber(x: u64, n: u32)
    requires n <= 64
    ensures Number32(n) <= 64
    ensures var k := Number32(n);
            Number(Rotr(x, n)) == Number(x) / Pow2(k) + (Number(x) * Pow2(64 - k)) % TWO_64
  {
    hide Number, Number32, Lsr, Lsl, Rest, Disjoint, Or;
    RestNumber(n);
    Parted(x, n);
    DisjointNumber(Lsr(x, n), Lsl(x, Rest(n)));
    LsrNumber(x, n);
    LslNumber(x, Rest(n));
  }

  /** A rotation to the left multiplies by 2^n and puts what overflows below. */
  lemma RotlNumber(x: u64, n: u32)
    requires n <= 64
    ensures Number32(n) <= 64
    ensures var k := Number32(n);
            Number(Rotl(x, n)) == (Number(x) * Pow2(k)) % TWO_64 + Number(x) / Pow2(64 - k)
  {
    hide Number, Number32, Lsr, Lsl, Rest, Disjoint, Or;
    RestNumber(n);
    Parted(x, n);
    DisjointNumber(Lsl(x, n), Lsr(x, Rest(n)));
    LslNumber(x, n);
    LsrNumber(x, Rest(n));
  }

  lemma SmallQuotient(x: nat, a: nat, b: nat)
    requires a >= 1 && x < a * b
    ensures x / a < b
  {
    var q, _ := Parts(x, a);
    if q >= b {
      Monotone(b, q, a);
    }
  }

  lemma Monotone(b: nat, q: nat, a: nat)
    requires b <= q
    ensures b * a <= q * a
  {
  }

  /** Quotient and rest trade places twice. */
  lemma TradedTwice(x: nat, a: nat, b: nat)
    requires a >= 1 && b >= 1 && a * b == TWO_64 && x < TWO_64
    ensures var y := x / a + (x * b) % TWO_64; y / b + (y * a) % TWO_64 == x
  {
    var q, r := Parts(x, a);
    SmallQuotient(x, a, b);
    Rearranged(x, q, r, a, b);
    Monotone(r + 1, a, b);
    QuotientIs(x * b, TWO_64, q, r * b);
    var y := q + r * b;
    Rearranged(y, r, q, b, a);
    QuotientIs(y, b, r, q);
    QuotientIs(y * a, TWO_64, r, q * a);
  }

  lemma Rearranged(x: nat, q: nat, r: nat, a: nat, b: nat)
    requires x == q * a + r && a * b == TWO_64
    ensures x * b == q * TWO_64 + r * b
  {
    assert (q * a) * b == q * (a * b);
  }

  lemma SameNumber(x: u64, y: u64)
    requires Number(x) == Number(y)
    ensures x == y
  {
    hide Number, Word;
    NumberBack(Number(x), x);
    NumberBack(Number(x), y);
  }

  lemma RestTwice64(n: u32)
    requires n <= 64
    ensures Rest(Rest(n)) == n
  {
  }

  lemma WholePower(k: nat)
    requires k <= 64
    ensures Pow2(k) * Pow2(64 - k) == TWO_64
  {
    hide Pow2;
    PowSum(k, 64 - k);
    Powers();
  }

  /** Rotating by n and then by 64 - n is no rotation. */
  lemma RotrUndone(x: u64, n: u32)
    requires n <= 64
    ensures Rotr(Rotr(x, n), Rest(n)) == x
  {
    hide Number, Number32, Rotr, Rest, Pow2;
    var k := Number32(n);
    RestNumber(n);
    RotrNumber(x, n);
    RotrNumber(Rotr(x, n), Rest(n));
    WholePower(k);
    Range(x);
    TradedTwice(Number(x), Pow2(k), Pow2(64 - k));
    SameNumber(x, Rotr(Rotr(x, n), Rest(n)));
  }

  lemma RotlIsRotr(x: u64, n: u32)
    requires n <= 64
    ensures Rotl(x, n) == Rotr(x, Rest(n))
  {
    hide Number, Number32, Rotl, Rotr, Rest, Pow2;
    RestNumber(n);
    RotlNumber(x, n);
    RotrNumber(x, Rest(n));
    SameNumber(Rotl(x, n), Rotr(x, Rest(n)));
  }

  lemma RotlUndone(x: u64, n: u32)
    requires n <= 64
    ensures Rotl(Rotl(x, n), Rest(n)) == x
  {
    hide Rotl, Rotr, Rest;
    RotlIsRotr(x, n);
    RotlIsRotr(Rotl(x, n), Rest(n));
    RotrUndone(x, Rest(n));
  }

  // ----- the arithmetic shift -----

  lemma TopBit(a: u64)
    ensures Number(a) < 0x8000_0000_0000_0000 ==> a < 0x8000_0000_0000_0000
  {
  }

  lemma TopBits(a: u64)
    ensures a < 0x8000_0000_0000_0000 <==> a & 0x8000_0000_0000_0000 == 0
    ensures a < 0x8000_0000_0000_0000 <==> !a >= 0x8000_0000_0000_0000
  {
  }

  /** The sign is the top bit. */
  lemma SignBit(a: u64)
    ensures Positive(a) <==> Number(a) < 0x8000_0000_0000_0000
  {
    hide Number;
    TopBits(a);
    TopBit(a);
    TopBit(!a);
    NotNumber(a);
  }

  lemma NotForm(a: u64)
    ensures Number(Not(a)) == TWO_64 - 1 - Number(a)
  {
    hide Number;
    NotNumber(a);
  }

  lemma FloorBelow(m: nat, p: nat)
    requires p >= 1
    ensures (0 - m - 1) / p == 0 - m / p - 1
  {
    var q, r := m / p, m % p;
    assert m == q * p + r;
    assert (0 - q - 1) * p == 0 - q * p - p;
    QuotientIs(0 - m - 1, p, 0 - q - 1, p - 1 - r);
  }

  lemma SmallerQuotient(m: nat, p: nat)
    requires p >= 1
    ensures m / p <= m
  {
    var q, _ := Parts(m, p);
    NotLess(q, p);
  }

  lemma Parts(m: nat, p: nat) returns (q: nat, r: nat)
    requires p >= 1
    ensures m == q * p + r && q == m / p && r < p
  {
    q, r := m / p, m % p;
  }

  lemma {:induction false} NotLess(q: nat, p: nat)
    requires p >= 1
    ensures q <= q * p
  {
    if p > 1 {
      NotLess(q, p - 1);
    }
  }

  /** The arithmetic shift divides the signed number and rounds down. */
  lemma AsrSigned(a: u64, n: u32)
    requires n <= 64
    ensures Signed(Asr(a, n)) == Signed(a) / Pow2(Number32(n))
  {
    hide Number, Number32, Lsr, Not, Positive, Pow2;
    var p := Pow2(Number32(n));
    SignBit(a);
    Range(a);
    if Positive(a) {
      LsrNumber(a, n);
      SmallerQuotient(Number(a), p);
    } else {
      NotForm(a);
      LsrNumber(Not(a), n);
      NotForm(Lsr(Not(a), n));
      FloorBelow(Number(Not(a)), p);
      SmallerQuotient(Number(Not(a)), p);
    }
  }

  // ----- multiplication -----

  /** Multiplication modulo 2^64. */
  lemma MulNumber(a: u64, b: u64)
    ensures Number(Mul(a, b)) == (Number(a) * Number(b)) % 0x1_0000_0000_0000_0000
  {
    hide Number, Word;
    WordBack((Number(a) * Number(b)) % TWO_64);
  }

  // ----- bit by bit -----

  /** Bit j of the number of a word. */
  ghost predicate Bit(a: u64, j: nat) {
    hide Number, Pow2;
    (Number(a) / Pow2(j)) % 2 == 1
  }

  lemma LowBit(a: u64)
    ensures Bit(a, 0) == Low(a)
  {
    hide Number, Half, Low;
    HalfLow(a);
  }

  lemma QuotientOfHalf(x: nat, p: nat)
    requires p >= 1
    ensures x / (2 * p) == (x / 2) / p
  {
    HalfQuotient(x, p);
    var h, b := x / 2, x % 2;
    var q, r := h / p, h % p;
    assert x == 2 * h + b && h == q * p + r;
    assert 2 * (q * p) == q * (2 * p);
    QuotientIs(x, 2 * p, q, 2 * r + b);
  }

  lemma HigherBit(a: u64, j: nat)
    requires j > 0
    ensures Bit(a, j) == Bit(Half(a), j - 1)
  {
    hide Number, Half, Low;
    HalfLow(a);
    QuotientOfHalf(Number(a), Pow2(j - 1));
  }

  lemma XorHalves(a: u64, b: u64)
    ensures Half(Xor(a, b)) == Xor(Half(a), Half(b)) && (Low(Xor(a, b)) <==> Low(a) != Low(b))
  {
  }

  lemma OrHalves(a: u64, b: u64)
    ensures Half(Or(a, b)) == Or(Half(a), Half(b)) && (Low(Or(a, b)) <==> Low(a) || Low(b))
  {
  }

  lemma AndHalves(a: u64, b: u64)
    ensures Half(And(a, b)) == And(Half(a), Half(b)) && (Low(And(a, b)) <==> Low(a) && Low(b))
  {
  }

  /** The bitwise operations, bit by bit. */
  lemma {:induction false} BitwiseBits(a: u64, b: u64, j: nat)
    ensures Bit(Xor(a, b), j) == (Bit(a, j) != Bit(b, j))
    ensures Bit(Or(a, b), j) == (Bit(a, j) || Bit(b, j))
    ensures Bit(And(a, b), j) == (Bit(a, j) && Bit(b, j))
    decreases j
  {
    hide Bit, Half, Low, Xor, Or, And;
    XorHalves(a, b);
    OrHalves(a, b);
    AndHalves(a, b);
    if j == 0 {
      LowBit(a); LowBit(b); LowBit(Xor(a, b)); LowBit(Or(a, b)); LowBit(And(a, b));
    } else {
      HigherBit(a, j); HigherBit(b, j); HigherBit(Xor(a, b), j); HigherBit(Or(a, b), j); HigherBit(And(a, b), j);
      BitwiseBits(Half(a), Half(b), j - 1);
    }
  }

  // ----- between words of 32 and of 64 bits -----

  lemma WideHalves(x: u32)
    ensures ZeroExtend(x) & 1 == 0 <==> x & 1 == 0
    ensures ZeroExtend(x) >> 1 == ZeroExtend(x >> 1)
    ensures x == 0 ==> ZeroExtend(x) == 0
  {
  }

  lemma NonZero32(x: u32)
    ensures x != 0 ==> Number32(x) > 0
  {
  }

  /** Widening keeps the number. */
  lemma {:induction false} ZeroExtendNumber(x: u32)
    ensures Number(ZeroExtend(x)) == Number32(x)
    decreases Number32(x)
  {
    hide Number, Number32, ZeroExtend;
    WideHalves(x);
    if x == 0 {
      Zero();
      ZeroNumber();
    } else {
      Halves(ZeroExtend(x));
      Halved(x);
      NonZero32(x);
      ZeroExtendNumber(x >> 1);
    }
  }

  lemma TwoHalves(a: u64)
    ensures a == Or(Lsl(Lsr(a, 32), 32), ZeroExtend(Low32(a)))
    ensures Disjoint(Lsl(Lsr(a, 32), 32), ZeroExtend(Low32(a)))
  {
  }

  lemma Pow32()
    ensures Number32(32) == 32 && Pow2(Number32(32)) == 0x1_0000_0000
  {
    hide Pow2;
    Powers();
  }

  /** Narrowing keeps the rest modulo 2^32. */
  lemma Low32Number(a: u64)
    ensures Number32(Low32(a)) == Number(a) % 0x1_0000_0000
  {
    hide Number, Number32, Lsl, Lsr, ZeroExtend, Low32, Or, Disjoint, Pow2;
    Pow32();
    TwoHalves(a);
    DisjointNumber(Lsl(Lsr(a, 32), 32), ZeroExtend(Low32(a)));
    ZeroExtendNumber(Low32(a));
    Truncated(a, 32);
  }

  // ----- masks -----

  lemma Pow3And4()
    ensures Pow2(Number32(3)) == 8 && Pow2(Number32(4)) == 16
  {
    assert Pow2(3) == 8 && Pow2(4) == 16;
  }

  lemma LastDigit(a: u64)
    ensures a == Or(Lsl(Lsr(a, 4), 4), And(a, 15)) && Disjoint(Lsl(Lsr(a, 4), 4), And(a, 15))
  {
  }

  lemma And15Number(a: u64)
    ensures Number(And(a, 15)) == Number(a) % 16
  {
    hide Number, Number32, Lsl, Lsr, And, Or, Disjoint, Pow2;
    Pow3And4();
    LastDigit(a);
    DisjointNumber(Lsl(Lsr(a, 4), 4), And(a, 15));
    Truncated(a, 4);
  }

  lemma ReplacedForm(a: u64, v: u64)
    requires v < 8
    ensures Or(And(a, 0xffff_ffff_ffff_fff8), v) == Or(Lsl(Lsr(a, 3), 3), v) && Disjoint(Lsl(Lsr(a, 3), 3), v)
  {
  }

  /** The three lowest bits replaced. */
  lemma ReplacedNumber(a: u64, v: u64)
    requires v < 8
    ensures Number(Or(And(a, 0xffff_ffff_ffff_fff8), v)) == Number(a) - Number(a) % 8 + Number(v)
  {
    hide Number, Number32, Lsl, Lsr, And, Or, Disjoint, Pow2;
    Pow3And4();
    ReplacedForm(a, v);
    DisjointNumber(Lsl(Lsr(a, 3), 3), v);
    Truncated(a, 3);
  }
}
