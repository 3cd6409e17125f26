/** The random number generator: SipRound, keyed initialisation with a salt, the mix step
    and the stream of outputs, four per state from the last word to the first. */
module Siphash {
  import opened Words
  import opened WordLaws

  datatype Quad = Quad(v0: u64, v1: u64, v2: u64, v3: u64)
  {
    function At(k: nat): u64
      requires k < 4
    {
      match k case 0 => v0 case 1 => v1 case 2 => v2 case _ => v3
    }
  }

  datatype Key = Key(k0: u64, k1: u64)

  // ----- SipRound -----

  /** Both halves of a round have this shape: add, rotate and xor, then swap halves of v0. */
  function HalfRound(a: u64, b: u64, c: u64, d: u64, s: u32, t: u32): Quad
    requires s <= 64 && t <= 64
  {
    var a1, c1 := Add(a, b), Add(c, d);
    Quad(Rotl(a1, 32), Xor(Rotl(b, s), a1), c1, Xor(Rotl(d, t), c1))
  }

  function UndoHalf(q: Quad, s: u32, t: u32): Quad
    requires s <= 64 && t <= 64
  {
    var a1 := Rotl(q.v0, 32);
    var b, d := Rotl(Xor(q.v1, a1), Rest(s)), Rotl(Xor(q.v3, q.v2), Rest(t));
    Quad(Sub(a1, b), b, Sub(q.v2, d), d)
  }

  function SipRound(q: Quad): Quad {
    var h := HalfRound(q.v0, q.v1, q.v2, q.v3, 13, 16);
    var g := HalfRound(h.v2, h.v1, h.v0, h.v3, 17, 21);
    Quad(g.v2, g.v1, g.v0, g.v3)
  }

  function SipUnround(q: Quad): Quad {
    var h := UndoHalf(Quad(q.v2, q.v1, q.v0, q.v3), 17, 21);
    UndoHalf(Quad(h.v2, h.v1, h.v0, h.v3), 13, 16)
  }

  lemma HalfTurn(x: u64)
    ensures Rotl(Rotl(x, 32), 32) == x
  {
    hide Rotl;
    RotlUndone(x, 32);
  }

  lemma HalfInverse(q: Quad, s: u32, t: u32)
    requires s <= 64 && t <= 64
    ensures UndoHalf(HalfRound(q.v0, q.v1, q.v2, q.v3, s, t), s, t) == q
    ensures var p := UndoHalf(q, s, t); HalfRound(p.v0, p.v1, p.v2, p.v3, s, t) == q
  {
    hide Add, Sub, Xor, Rotl, Rest;
    var a1, c1 := Add(q.v0, q.v1), Add(q.v2, q.v3);
    HalfTurn(a1);
    RotlUndone(q.v1, s);
    RotlUndone(q.v3, t);
    XorBack(Rotl(q.v1, s), a1);
    XorBack(Rotl(q.v3, t), c1);
    AddBack(q.v0, q.v1);
    AddBack(q.v2, q.v3);
    var r1 := Rotl(q.v0, 32);
    HalfTurn(q.v0);
    RestTwice64(s);
    RestTwice64(t);
    RotlUndone(Xor(q.v1, r1), Rest(s));
    RotlUndone(Xor(q.v3, q.v2), Rest(t));
    XorBack(q.v1, r1);
    XorBack(q.v3, q.v2);
    AddBack(r1, Rotl(Xor(q.v1, r1), Rest(s)));
    AddBack(q.v2, Rotl(Xor(q.v3, q.v2), Rest(t)));
  }

  /** SipRound is a bijection on four words: SipUnround inverts it on both sides. */
  lemma SipRoundInverse(q: Quad)
    ensures SipUnround(SipRound(q)) == q && SipRound(SipUnround(q)) == q
  {
    hide HalfRound, UndoHalf;
    var h := HalfRound(q.v0, q.v1, q.v2, q.v3, 13, 16);
    HalfInverse(q, 13, 16);
    HalfInverse(Quad(h.v2, h.v1, h.v0, h.v3), 17, 21);
    var p := UndoHalf(Quad(q.v2, q.v1, q.v0, q.v3), 17, 21);
    HalfInverse(Quad(q.v2, q.v1, q.v0, q.v3), 17, 21);
    HalfInverse(Quad(p.v2, p.v1, p.v0, p.v3), 13, 16);
  }

  /** How the words after a round depend on those before it and on one another. */
  lemma RoundLaws(q: Quad)
    ensures var w := SipRound(q);
            && w.v0 == Add(Rotl(Add(q.v0, q.v1), 32), Xor(Rotl(q.v3, 16), Add(q.v2, q.v3)))
            && w.v2 == Rotl(Add(Add(q.v2, q.v3), Xor(Rotl(q.v1, 13), Add(q.v0, q.v1))), 32)
            && w.v1 == Xor(Rotl(Xor(Rotl(q.v1, 13), Add(q.v0, q.v1)), 17), Rotl(w.v2, 32))
            && w.v3 == Xor(Rotl(Xor(Rotl(q.v3, 16), Add(q.v2, q.v3)), 21), w.v0)
  {
    hide Add, Xor, Rotl;
    HalfTurn(Add(Add(q.v2, q.v3), Xor(Rotl(q.v1, 13), Add(q.v0, q.v1))));
  }

  /** The round as the macro performs it, updating four words step by step. */
  method Round(a: u64, b: u64, c: u64, d: u64) returns (v0: u64, v1: u64, v2: u64, v3: u64)
    ensures Quad(v0, v1, v2, v3) == SipRound(Quad(a, b, c, d))
    ensures v0 == Add(Rotl(Add(a, b), 32), Xor(Rotl(d, 16), Add(c, d)))
    ensures v2 == Rotl(Add(Add(c, d), Xor(Rotl(b, 13), Add(a, b))), 32)
    ensures v1 == Xor(Rotl(Xor(Rotl(b, 13), Add(a, b)), 17), Rotl(v2, 32))
    ensures v3 == Xor(Rotl(Xor(Rotl(d, 16), Add(c, d)), 21), v0)
  {
    hide Add, Xor, Rotl;
    RoundLaws(Quad(a, b, c, d));
    v0, v1, v2, v3 := a, b, c, d;
    v0 := Add(v0, v1); v2 := Add(v2, v3); v1 := Rotl(v1, 13);
    v3 := Rotl(v3, 16); v1 := Xor(v1, v0); v3 := Xor(v3, v2);
    v0 := Rotl(v0, 32); v2 := Add(v2, v1); v0 := Add(v0, v3);
    v1 := Rotl(v1, 17); v3 := Rotl(v3, 21);
    v1 := Xor(v1, v2); v3 := Xor(v3, v0); v2 := Rotl(v2, 32);
  }

  function Rounds(q: Quad, n: nat): Quad {
    if n == 0 then q else SipRound(Rounds(q, n - 1))
  }

  lemma {:induction false} RoundsInjective(p: Quad, q: Quad, n: nat)
    requires Rounds(p, n) == Rounds(q, n)
    ensures p == q
  {
    hide SipRound, SipUnround;
    if n > 0 {
      SipRoundInverse(Rounds(p, n - 1));
      SipRoundInverse(Rounds(q, n - 1));
      RoundsInjective(p, q, n - 1);
    }
  }

  // ----- initialisation -----

  function Salted(key: Key, salt: u64): Quad {
    Quad(Xor(0x736f_6d65_7073_6575, key.k0), Xor(0x646f_7261_6e64_6f6d, key.k1),
         Xor(0x6c79_6765_6e65_7261, key.k0), Xor(Xor(0x7465_6462_7974_6573, key.k1), salt))
  }

  /** The salt enters a second time after the first round. */
  function Resalted(q: Quad, salt: u64): Quad {
    Quad(Xor(q.v0, salt), q.v1, Xor(q.v2, 0xbb), q.v3)
  }

  function InitState(key: Key, salt: u64): Quad {
    Rounds(Resalted(SipRound(Salted(key, salt)), salt), 3)
  }

  /** Three rounds and one round taken back lead from the state to the constants. */
  lemma InitUndone(key: Key, salt: u64)
    ensures var q := SipUnround(SipUnround(SipUnround(InitState(key, salt))));
            SipUnround(Quad(Xor(q.v0, salt), q.v1, Xor(q.v2, 0xbb), q.v3))
            == Quad(Xor(0x736f_6d65_7073_6575, key.k0), Xor(0x646f_7261_6e64_6f6d, key.k1),
                    Xor(0x6c79_6765_6e65_7261, key.k0), Xor(Xor(0x7465_6462_7974_6573, key.k1), salt))
  {
    hide SipRound, SipUnround, Xor;
    var s := SipRound(Salted(key, salt));
    var p := Resalted(s, salt);
    SipRoundInverse(Salted(key, salt));
    FourRounds(p);
    SipRoundInverse(p);
    SipRoundInverse(Rounds(p, 1));
    SipRoundInverse(Rounds(p, 2));
    XorBack(s.v0, salt);
    XorBack(s.v2, 0xbb);
  }

  /** The second word after one round tells the salt, because everything it is combined
      with does not depend on the salt. */
  lemma SecondWord(q: Quad, d: u64, a: u64, b: u64)
    requires SipRound(q.(v3 := Xor(d, a))).v1 == SipRound(q.(v3 := Xor(d, b))).v1
    ensures a == b
  {
    hide Rotl, Add, Xor;
    var k := Xor(Rotl(q.v1, 13), Add(q.v0, q.v1));
    assert SipRound(q.(v3 := Xor(d, a))).v1 == Xor(Rotl(k, 17), Add(Add(q.v2, Xor(d, a)), k));
    assert SipRound(q.(v3 := Xor(d, b))).v1 == Xor(Rotl(k, 17), Add(Add(q.v2, Xor(d, b)), k));
    Cancel(Rotl(k, 17), q.v2, k, d, a, b);
  }

  lemma Cancel(x: u64, y: u64, z: u64, d: u64, a: u64, b: u64)
    requires Xor(x, Add(Add(y, Xor(d, a)), z)) == Xor(x, Add(Add(y, Xor(d, b)), z))
    ensures a == b
  {
    hide Add, Xor;
    XorCancel(x, Add(Add(y, Xor(d, a)), z), Add(Add(y, Xor(d, b)), z));
    AddCancel(Add(y, Xor(d, a)), Add(y, Xor(d, b)), z);
    AddCommutes(y, Xor(d, a));
    AddCommutes(y, Xor(d, b));
    AddCancel(Xor(d, a), Xor(d, b), y);
    XorCancel(d, a, b);
  }

  /** For a fixed key, distinct salts give distinct states, although the salt enters twice. */
  lemma SaltInjective(key: Key, a: u64, b: u64)
    requires InitState(key, a) == InitState(key, b)
    ensures a == b
  {
    hide SipRound, Rounds, Xor;
    RoundsInjective(Resalted(SipRound(Salted(key, a)), a), Resalted(SipRound(Salted(key, b)), b), 3);
    var d := Xor(0x7465_6462_7974_6573, key.k1);
    assert Salted(key, b) == Salted(key, a).(v3 := Xor(d, b));
    SecondWord(Salted(key, a), d, a, b);
  }

  // ----- mixing -----

  function Keyed(key: Key, q: Quad): Quad {
    Quad(Xor(q.v0, key.k0), Xor(q.v1, key.k1), Xor(q.v2, key.k0), Xor(q.v3, key.k1))
  }

  function MixState(key: Key, q: Quad): Quad {
    Rounds(Keyed(key, q), 4)
  }

  function UnmixState(key: Key, q: Quad): Quad {
    Keyed(key, SipUnround(SipUnround(SipUnround(SipUnround(q)))))
  }

  lemma KeyedForm(key: Key, q: Quad)
    ensures Keyed(key, q) == Quad(Xor(q.v0, key.k0), Xor(q.v1, key.k1), Xor(q.v2, key.k0), Xor(q.v3, key.k1))
  {
  }

  lemma KeyedTwice(key: Key, q: Quad)
    ensures Keyed(key, Keyed(key, q)) == q
  {
    hide Xor;
    XorBack(q.v0, key.k0);
    XorBack(q.v1, key.k1);
    XorBack(q.v2, key.k0);
    XorBack(q.v3, key.k1);
  }

  /** Four rounds taken back lead to the words before the mix, each combined with its key. */
  lemma MixUndone(key: Key, q: Quad)
    ensures SipUnround(SipUnround(SipUnround(SipUnround(MixState(key, q)))))
            == Quad(Xor(q.v0, key.k0), Xor(q.v1, key.k1), Xor(q.v2, key.k0), Xor(q.v3, key.k1))
  {
    hide SipRound, SipUnround, Xor;
    var p := Keyed(key, q);
    FourRounds(p);
    SipRoundInverse(p);
    SipRoundInverse(Rounds(p, 1));
    SipRoundInverse(Rounds(p, 2));
    SipRoundInverse(Rounds(p, 3));
  }

  /** The mix step permutes the states. */
  lemma MixInverse(key: Key, q: Quad)
    ensures UnmixState(key, MixState(key, q)) == q && MixState(key, UnmixState(key, q)) == q
  {
    hide SipRound, SipUnround, Keyed;
    KeyedTwice(key, q);
    MixUndone(key, q);
    KeyedForm(key, q);
    var u3, u2, u1 := SipUnround(q), SipUnround(SipUnround(q)), SipUnround(SipUnround(SipUnround(q)));
    var u0 := SipUnround(u1);
    SipRoundInverse(q);
    SipRoundInverse(u3);
    SipRoundInverse(u2);
    SipRoundInverse(u1);
    FourRounds(u0);
    KeyedTwice(key, u0);
  }

  lemma FourRounds(p: Quad)
    ensures Rounds(p, 0) == p && Rounds(p, 1) == SipRound(p)
    ensures Rounds(p, 2) == SipRound(Rounds(p, 1)) && Rounds(p, 3) == SipRound(Rounds(p, 2))
    ensures Rounds(p, 4) == SipRound(Rounds(p, 3))
  {
    hide SipRound;
  }

  // ----- the stream -----

  function Mixes(key: Key, q: Quad, n: nat): Quad {
    if n == 0 then q else MixState(key, Mixes(key, q, n - 1))
  }

  /** The k-th output of a generator that starts in state q. */
  function Output(key: Key, q: Quad, k: nat): u64 {
    Mixes(key, q, k / 4).At(3 - k % 4)
  }

  /** The first four outputs are the state itself, last word first. */
  lemma FirstOutputs(key: Key, q: Quad)
    ensures q == Quad(Output(key, q, 3), Output(key, q, 2), Output(key, q, 1), Output(key, q, 0))
  {
    hide MixState;
  }

  lemma {:induction false} MixFirst(key: Key, q: Quad, n: nat)
    ensures Mixes(key, q, n + 1) == Mixes(key, MixState(key, q), n)
  {
    hide MixState;
    if n > 0 {
      MixFirst(key, q, n - 1);
    }
  }

  /** After four outputs the stream goes on as that of the mixed state. */
  lemma NextOutputs(key: Key, q: Quad, k: nat)
    ensures Output(key, q, k + 4) == Output(key, MixState(key, q), k)
  {
    hide MixState, Mixes;
    MixFirst(key, q, k / 4);
  }

  /** How often the state has been mixed when n words are drawn. */
  function Mixed(n: nat): nat {
    if n == 0 then 0 else (n - 1) / 4
  }

  /** The words not yet drawn of the current state. */
  function Left(n: nat): int {
    4 * (Mixed(n) + 1) - n
  }

  lemma Counting(n: nat)
    ensures 0 <= Left(n) <= 4
    ensures Left(n) == 0 ==> Mixed(n + 1) == Mixed(n) + 1 && Left(n + 1) == 3
    ensures Left(n) != 0 ==> Mixed(n + 1) == Mixed(n) && Left(n + 1) == Left(n) - 1
    ensures Mixed(n + 1) == n / 4 && Left(n + 1) == 3 - n % 4
  {
  }

  /** The generator object: key, four words of state and the number of words not yet drawn.
      The ghost fields remember where the stream started and how much was drawn from it. */
  class SiphashRng {
    var key: Key
    var state: array<u64>
    var count: nat
    ghost var start: Quad
    ghost var drawn: nat

    ghost predicate Valid()
      reads this, state
    {
      && state.Length == 4 && count <= 4
      && count == Left(drawn) && Words() == Mixes(key, start, Mixed(drawn))
    }

    ghost function Words(): Quad
      reads this, state
      requires state.Length == 4
    {
      Quad(state[0], state[1], state[2], state[3])
    }

    constructor (key: Key, salt: u64)
      ensures Valid() && fresh(state)
      ensures this.key == key && start == InitState(key, salt) && drawn == 0
      ensures var q := SipUnround(SipUnround(SipUnround(start)));
              SipUnround(Quad(Xor(q.v0, salt), q.v1, Xor(q.v2, 0xbb), q.v3))
              == Quad(Xor(0x736f_6d65_7073_6575, key.k0), Xor(0x646f_7261_6e64_6f6d, key.k1),
                      Xor(0x6c79_6765_6e65_7261, key.k0), Xor(Xor(0x7465_6462_7974_6573, key.k1), salt))
    {
      hide SipRound, SipUnround, Xor;
      InitUndone(key, salt);
      var v0, v1 := Xor(0x736f_6d65_7073_6575, key.k0), Xor(0x646f_7261_6e64_6f6d, key.k1);
      var v2, v3 := Xor(0x6c79_6765_6e65_7261, key.k0), Xor(0x7465_6462_7974_6573, key.k1);
      v3 := Xor(v3, salt);
      v0, v1, v2, v3 := Round(v0, v1, v2, v3);
      v0 := Xor(v0, salt);
      v2 := Xor(v2, 0xbb);
      FourRounds(Quad(v0, v1, v2, v3));
      v0, v1, v2, v3 := Round(v0, v1, v2, v3);
      v0, v1, v2, v3 := Round(v0, v1, v2, v3);
      v0, v1, v2, v3 := Round(v0, v1, v2, v3);
      this.key := key;
      state := new u64[4];
      count := 4;
      start := Quad(v0, v1, v2, v3);
      drawn := 0;
      new;
      state[0], state[1], state[2], state[3] := v0, v1, v2, v3;
    }

    method Mix()
      requires state.Length == 4
      modifies state
      ensures Words() == MixState(key, old(Words()))
      ensures var q := old(Words());
              SipUnround(SipUnround(SipUnround(SipUnround(Words()))))
              == Quad(Xor(q.v0, key.k0), Xor(q.v1, key.k1), Xor(q.v2, key.k0), Xor(q.v3, key.k1))
    {
      hide SipRound, SipUnround, Xor;
      MixUndone(key, Words());
      var k0, k1 := key.k0, key.k1;
      var v0, v1, v2, v3 := Xor(state[0], k0), Xor(state[1], k1), Xor(state[2], k0), Xor(state[3], k1);
      FourRounds(Quad(v0, v1, v2, v3));
      v0, v1, v2, v3 := Round(v0, v1, v2, v3);
      v0, v1, v2, v3 := Round(v0, v1, v2, v3);
      v0, v1, v2, v3 := Round(v0, v1, v2, v3);
      v0, v1, v2, v3 := Round(v0, v1, v2, v3);
      state[0], state[1], state[2], state[3] := v0, v1, v2, v3;
    }

    /** The k-th call returns the k-th output. */
    method Next() returns (x: u64)
      requires Valid()
      modifies this, state
      ensures Valid() && state == old(state) && key == old(key) && start == old(start)
      ensures drawn == old(drawn) + 1 && x == Output(key, start, old(drawn))
    {
      hide MixState, SipUnround, Xor, Mixed, Left;
      Counting(drawn);
      var c := count;
      if c == 0 {
        Mix();
        c := 4;
      }
      c := c - 1;
      count := c;
      drawn := drawn + 1;
      return state[c];
    }
  }
}
