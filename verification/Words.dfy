/** Machine words shared by the virtual machine and by the three targets. */
module Words {
  type u8 = bv8
  type u32 = bv32
  type u64 = bv64

  /** Memory holds 8-byte words, by address; an address outside the domain is inaccessible. */
  type Memory = map<int, u64>

  const TWO_64: nat := 0x1_0000_0000_0000_0000

  function Word(n: nat): u64
    requires n < TWO_64
  {
    n as u64
  }

  function Number(a: u64): nat {
    a as nat
  }

  /** 64-bit multiplication, which wraps modulo 2^64. */
  function Mul(a: u64, b: u64): u64 {
    Word((Number(a) * Number(b)) % TWO_64)
  }

  function Add(a: u64, b: u64): u64 { a + b }

  function Sub(a: u64, b: u64): u64 { a - b }

  function Xor(a: u64, b: u64): u64 { a ^ b }

  function Or(a: u64, b: u64): u64 { a | b }

  function And(a: u64, b: u64): u64 { a & b }

  /** Logical shift to the right. */
  function Lsr(a: u64, n: u32): u64
    requires n <= 64
  {
    a >> n
  }

  function Lsl(a: u64, n: u32): u64
    requires n <= 64
  {
    a << n
  }

  /** What is left of the 64 places. */
  function Rest(n: u32): (m: u32)
    requires n <= 64
    ensures m <= 64
  {
    64 - n
  }

  function Rotr(a: u64, n: u32): u64
    requires n <= 64
  {
    Or(Lsr(a, n), Lsl(a, Rest(n)))
  }

  function Rotl(a: u64, n: u32): u64
    requires n <= 64
  {
    Or(Lsl(a, n), Lsr(a, Rest(n)))
  }

  function Not(a: u64): u64 { !a }

  predicate Positive(a: u64) { a & 0x8000_0000_0000_0000 == 0 }

  /** Arithmetic shift to the right: the sign bit is copied into the vacated bits. */
  function Asr(a: u64, n: u32): u64
    requires n <= 64
  {
    if Positive(a) then Lsr(a, n) else Not(Lsr(Not(a), n))
  }

  function Low32(a: u64): u32 {
    (a & 0xffff_ffff) as u32
  }

  function ZeroExtend(a: u32): u64 {
    a as u64
  }

  // ----- cancellation -----

  lemma XorBack(x: u64, y: u64)
    ensures Xor(Xor(x, y), y) == x
  {
  }

  lemma SubRaw(x: u64, y: u64)
    ensures Sub(x + y, y) == x
  {
  }

  lemma AddRaw(x: u64, y: u64)
    ensures Add(x - y, y) == x
  {
  }

  lemma AddThenSub(x: u64, y: u64)
    ensures Sub(Add(x, y), y) == x
  {
    hide Sub;
    SubRaw(x, y);
  }

  lemma SubThenAdd(x: u64, y: u64)
    ensures Add(Sub(x, y), y) == x
  {
    hide Add;
    AddRaw(x, y);
  }

  lemma AddBack(x: u64, y: u64)
    ensures Sub(Add(x, y), y) == x && Add(Sub(x, y), y) == x
  {
    hide Add, Sub;
    AddThenSub(x, y);
    SubThenAdd(x, y);
  }

  lemma XorCancel(x: u64, p: u64, q: u64)
    requires Xor(x, p) == Xor(x, q)
    ensures p == q
  {
    assert x ^ (x ^ p) == p && x ^ (x ^ q) == q;
  }

  lemma AddCancel(p: u64, q: u64, z: u64)
    requires Add(p, z) == Add(q, z)
    ensures p == q
  {
    hide Add, Sub;
    AddBack(p, z);
    AddBack(q, z);
  }

  lemma AddCommutes(x: u64, y: u64)
    ensures Add(x, y) == Add(y, x)
  {
  }

  // ----- little-endian storage, as written by memcpy on the supported hosts -----

  function Byte0(w: u32): u8 { (w & 0xff) as u8 }

  function Byte1(w: u32): u8 { ((w >> 8) & 0xff) as u8 }

  function Byte2(w: u32): u8 { ((w >> 16) & 0xff) as u8 }

  function Byte3(w: u32): u8 { ((w >> 24) & 0xff) as u8 }

  function Bytes32(w: u32): (b: seq<u8>)
    ensures |b| == 4
  {
    [Byte0(w), Byte1(w), Byte2(w), Byte3(w)]
  }

  function Load32(b0: u8, b1: u8, b2: u8, b3: u8): u32 {
    (b0 as u32) | (b1 as u32 << 8) | (b2 as u32 << 16) | (b3 as u32 << 24)
  }

  lemma LoadBytes32(w: u32)
    ensures Load32(Byte0(w), Byte1(w), Byte2(w), Byte3(w)) == w
  {
  }

  /** A register number as the machine word that an encoder shifts into place. */
  function U32(n: nat): u32
    requires n < 32
  {
    n as u32
  }

  /** Register numbers survive the trip through a machine word. */
  lemma Cast32(n: nat)
    requires n < 32
    ensures U32(n) as nat == n
    ensures U32(n) < 32
    ensures n < 16 ==> U32(n) < 16
    ensures n < 8 ==> U32(n) < 8
  {
    if n < 16 {
      Cast16(n);
    } else {
      match n
      case 16 => case 17 => case 18 => case 19 => case 20 => case 21 => case 22 => case 23 => case 24 => case 25 =>
      case 26 => case 27 => case 28 => case 29 => case 30 => case 31 =>
    }
  }

  lemma Cast16(n: nat)
    requires n < 16
    ensures U32(n) as nat == n
    ensures U32(n) < 16
    ensures n < 8 ==> U32(n) < 8
  {
    match n
    case 0 => case 1 => case 2 => case 3 => case 4 => case 5 => case 6 => case 7 => case 8 => case 9 => case 10 =>
    case 11 => case 12 => case 13 => case 14 => case 15 =>
  }

  // ----- numbers and words -----

  /** A word is determined by its number. */
  lemma NumberBack(n: nat, x: u64)
    requires n == Number(x)
    ensures n < TWO_64 && Word(n) == x
  {
  }

  lemma ShiftIn(y: u64)
    requires Number(y) < 0x8000_0000_0000_0000
    ensures Number(y << 1) == 2 * Number(y) && Number((y << 1) | 1) == 2 * Number(y) + 1
  {
    assert y < 0x8000_0000_0000_0000;
  }

  lemma ZeroBack()
    ensures Number(Word(0)) == 0
  {
  }

  /** A number below 2^64 survives the trip through a machine word, bit by bit. */
  lemma {:induction false} WordBack(n: nat)
    requires n < TWO_64
    ensures Number(Word(n)) == n
  {
    hide Word, Number;
    ZeroBack();
    if n > 0 {
      WordBack(n / 2);
      var y := Word(n / 2);
      ShiftIn(y);
      if n % 2 == 0 { NumberBack(n, y << 1); } else { NumberBack(n, (y << 1) | 1); }
    }
  }

  lemma MulCommutes(a: u64, b: u64)
    ensures Mul(a, b) == Mul(b, a)
  {
    hide Word, Number;
    assert Number(a) * Number(b) == Number(b) * Number(a);
  }
}
