/** The values of 32-bit words, and of the negated words that displacements are stored as. */
module Displacements {
  import opened Words

  function Number32(x: u32): nat { x as nat }

  function Word32(n: nat): u32
    requires n < 0x1_0000_0000
  {
    n as u32
  }

  // ----- bit by bit -----

  lemma Doubled(y: u32)
    requires y < 0x8000_0000
    ensures Number32(y << 1) == 2 * Number32(y) && Number32((y << 1) | 1) == 2 * Number32(y) + 1
  {
  }

  lemma HalfSmall(x: u32)
    ensures x >> 1 < 0x8000_0000
  {
  }

  lemma HalfBits(x: u32)
    ensures x & 1 == 0 ==> x == (x >> 1) << 1
    ensures x & 1 != 0 ==> x == ((x >> 1) << 1) | 1
  {
  }

  lemma Halved(x: u32)
    ensures x & 1 == 0 ==> Number32(x) == 2 * Number32(x >> 1)
    ensures x & 1 != 0 ==> Number32(x) == 2 * Number32(x >> 1) + 1
  {
    hide Number32;
    HalfSmall(x);
    HalfBits(x);
    Doubled(x >> 1);
  }

  lemma ZeroNumber()
    ensures Number32(0) == 0
  {
  }

  // ----- successors -----

  function Next(x: u32): u32 { x + 1 }

  predicate NotLast(x: u32) { x < 0xffff_ffff }

  lemma NextBits(x: u32)
    requires NotLast(x)
    ensures x & 1 == 0 ==> Next(x) & 1 != 0 && Next(x) >> 1 == x >> 1
    ensures x & 1 != 0 ==> Next(x) & 1 == 0 && Next(x) >> 1 == Next(x >> 1) && NotLast(x >> 1)
  {
  }

  /** Adding one to a word that is not the largest adds one to its value. */
  lemma {:induction false} Successor(x: u32)
    requires NotLast(x)
    ensures Number32(Next(x)) == Number32(x) + 1
    decreases Number32(x)
  {
    hide Number32, Next, NotLast;
    Halved(x);
    Halved(Next(x));
    NextBits(x);
    if x & 1 != 0 {
      Successor(x >> 1);
    }
  }

  // ----- complements -----

  /** m is a run of ones from bit 0 on, and x lies within it. */
  predicate Mask(m: u32, x: u32) {
    m & (m + 1) == 0 && x | m == m
  }

  lemma MaskBits(m: u32, x: u32)
    requires Mask(m, x)
    ensures m == 0 ==> x == 0 && m ^ x == 0
    ensures m != 0 ==> m & 1 == 1 && Mask(m >> 1, x >> 1)
    ensures (m ^ x) >> 1 == (m >> 1) ^ (x >> 1)
    ensures m != 0 ==> ((m ^ x) & 1 == 0 <==> x & 1 != 0)
  {
  }

  /** The complement within a mask. */
  lemma {:induction false} Complement(m: u32, x: u32)
    requires Mask(m, x)
    ensures Number32(m ^ x) + Number32(x) == Number32(m)
    decreases Number32(m)
  {
    hide Number32, Mask;
    MaskBits(m, x);
    Halved(m);
    Halved(x);
    Halved(m ^ x);
    if m == 0 {
      ZeroNumber();
    } else {
      Complement(m >> 1, x >> 1);
    }
  }

  function Flip(m: u32, x: u32): u32 { m ^ x }

  lemma Flipped(m: u32, x: u32)
    requires Mask(m, x)
    ensures Number32(Flip(m, x)) + Number32(x) == Number32(m)
  {
    hide Number32, Mask;
    Complement(m, x);
  }

  // ----- numbers as words -----

  lemma NumberBack32(n: nat, x: u32)
    requires n == Number32(x)
    ensures n < 0x1_0000_0000 && Word32(n) == x
  {
  }

  lemma SmallNumber(x: u32)
    ensures Number32(x) < 0x8000_0000 ==> x < 0x8000_0000
  {
  }

  lemma ZeroWord()
    ensures Word32(0) == 0
  {
  }

  /** A number below 2^32 survives the trip through a word. */
  lemma {:induction false} WordBack32(n: nat)
    requires n < 0x1_0000_0000
    ensures Number32(Word32(n)) == n
  {
    hide Number32, Word32;
    ZeroNumber();
    ZeroWord();
    if n > 0 {
      WordBack32(n / 2);
      var y := Word32(n / 2);
      SmallNumber(y);
      Doubled(y);
      if n % 2 == 0 { NumberBack32(n, y << 1); } else { NumberBack32(n, (y << 1) | 1); }
    }
  }
}
