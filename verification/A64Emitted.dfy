/** The code of a program, word by word, is its schedule. */
module A64Emitted {
  import opened Wrappers
  import opened Words
  import opened Vm
  import opened A64Machine
  import opened A64Schedule
  import opened A64Compiler
  import opened A64Decode
  import opened A64Order

  function RegBlock(p: Program): (b: seq<Isn>)
    requires Compilable(p)
    ensures |b| == 18
  {
    RegOrderFacts();
    Permute(RegSource(p), RegOrder())
  }

  function MemBlock(p: Program): (b: seq<Isn>)
    requires Compilable(p)
    ensures |b| == 31
  {
    MemOrderFacts();
    Permute(MemSource(p), MemOrder())
  }

  function TailBlock(p: Program): (b: seq<Isn>)
    requires WellFormed(p)
  {
    TailOrderFacts(p[8].dst / 2);
    Permute(TailSource(p), TailOrder(p[8].dst / 2))
  }

  predicate Encodes(w: seq<u32>, b: seq<Isn>) {
    |w| == |b| && forall k :: 0 <= k < |w| ==> Decode(w[k]) == Some(b[k])
  }

  lemma Literals()
    ensures U32(9) == 9 && U32(14) == 14 && U32(15) == 15 && U32(16) == 16 && U32(17) == 17
  {
  }

  lemma RegWordDecodes(p: Program, k: nat)
    requires Compilable(p) && k < 18
    ensures Decode(RegWord(p, k)) == Some(RegIsn(p, RegPosition(k)))
  {
    hide Decode, MulWord, RorWord, MovWord, OrrWord, PreXasWord, XasWord, PremulWord, LdrSpWord, And2040Word, U32;
    hide MulIsn, RorIsn, PreXasIsn, XasIsn, PremulIsn, BranchCode;
    assert p[0].src >= 8 && ImmOk(p[2]) && ImmOk(p[4]) && ImmOk(p[6]);
    hide OperandsOk, ImmOk;
    Literals();
    match k
    case 0 => MulDecodes(p[0], p[0].src + 4);
    case 1 => PreXasDecodes(p[1]);
    case 2 => MovDecodes(14, p[1].src);
    case 3 => PremulDecodes(p[2]);
    case 4 => XasDecodes(p[1], 14);
    case 5 => MulDecodes(p[2], p[2].src);
    case 6 => PreXasDecodes(p[3]);
    case 7 => RorDecodes(p[0]);
    case 8 => XasDecodes(p[3], p[3].src);
    case 9 => PremulDecodes(p[4]);
    case 10 => MulDecodes(p[4], p[4].src);
    case 11 => PreXasDecodes(p[5]);
    case 12 => OrrDecodes(14, p[0].dst, 9);
    case 13 => XasDecodes(p[5], p[5].src);
    case 14 => PremulDecodes(p[6]);
    case 15 => BranchCodeDecodes();
    case 16 => BranchCodeDecodes();
    case 17 => MulDecodes(p[6], p[6].src);
  }

  lemma MemWordDecodes1(p: Program, k: nat)
    requires Compilable(p) && k < 16
    ensures Decode(MemWord(p, k)) == Some(MemIsn(p, MemPosition(k)))
  {
    hide Decode, MulWord, RorWord, MovWord, OrrWord, PreXasWord, XasWord, PremulWord, LdrSpWord, And2040Word, U32;
    hide MulIsn, RorIsn, PreXasIsn, XasIsn, PremulIsn, BranchCode;
    assert p[0].src >= 8 && ImmOk(p[2]) && ImmOk(p[4]) && ImmOk(p[6]);
    hide OperandsOk, ImmOk;
    Literals();
    match k
    case 0 => And2040Decodes(15, p[1].src);
    case 1 => LdrSpDecodes(15);
    case 2 => PreXasDecodes(p[1]);
    case 3 => MulDecodes(p[0], p[0].src + 4);
    case 4 => XasDecodes(p[1], 15);
    case 5 => And2040Decodes(16, p[2].src);
    case 6 => LdrSpDecodes(16);
    case 7 => And2040Decodes(17, p[3].src);
    case 8 => LdrSpDecodes(17);
    case 9 => PremulDecodes(p[2]);
    case 10 => PreXasDecodes(p[3]);
    case 11 => RorDecodes(p[0]);
    case 12 => MulDecodes(p[2], 16);
    case 13 => XasDecodes(p[3], 17);
    case 14 => And2040Decodes(16, p[4].src);
    case 15 => LdrSpDecodes(16);
  }

  lemma MemWordDecodes2(p: Program, k: nat)
    requires Compilable(p) && 16 <= k < 24
    ensures Decode(MemWord(p, k)) == Some(MemIsn(p, MemPosition(k)))
  {
    hide Decode, MulWord, RorWord, MovWord, OrrWord, PreXasWord, XasWord, PremulWord, LdrSpWord, And2040Word, U32;
    hide MulIsn, RorIsn, PreXasIsn, XasIsn, PremulIsn, BranchCode;
    assert p[0].src >= 8 && ImmOk(p[2]) && ImmOk(p[4]) && ImmOk(p[6]);
    hide OperandsOk, ImmOk;
    Literals();
    match k
    case 16 => And2040Decodes(17, p[5].src);
    case 17 => LdrSpDecodes(17);
    case 18 => PremulDecodes(p[4]);
    case 19 => PreXasDecodes(p[5]);
    case 20 => OrrDecodes(14, p[0].dst, 9);
    case 21 => MulDecodes(p[4], 16);
    case 22 => XasDecodes(p[5], 17);
    case 23 => And2040Decodes(16, p[6].src);
  }

  lemma MemWordDecodes3(p: Program, k: nat)
    requires Compilable(p) && 24 <= k < 31
    ensures Decode(MemWord(p, k)) == Some(MemIsn(p, MemPosition(k)))
  {
    hide Decode, MulWord, RorWord, MovWord, OrrWord, PreXasWord, XasWord, PremulWord, LdrSpWord, And2040Word, U32;
    hide MulIsn, RorIsn, PreXasIsn, XasIsn, PremulIsn, BranchCode;
    assert p[0].src >= 8 && ImmOk(p[2]) && ImmOk(p[4]) && ImmOk(p[6]);
    hide OperandsOk, ImmOk;
    Literals();
    match k
    case 24 => LdrSpDecodes(16);
    case 25 => And2040Decodes(17, p[8].src);
    case 26 => LdrSpDecodes(17);
    case 27 => PremulDecodes(p[6]);
    case 28 => BranchCodeDecodes();
    case 29 => BranchCodeDecodes();
    case 30 => MulDecodes(p[6], 16);
  }

  lemma RegLoopEncodes(p: Program)
    requires WellFormed(p)
    ensures Encodes(RegLoop(p), RegBlock(p))
  {
    hide Decode, RegWord, RegIsn, RegPosition, OperandsOk;
    forall k | 0 <= k < 18 ensures Decode(RegLoop(p)[k]) == Some(RegBlock(p)[k]) {
      RegWordDecodes(p, k);
    }
  }

  lemma MemLoopEncodes(p: Program)
    requires WellFormed(p)
    ensures Encodes(MemLoop(p), MemBlock(p))
  {
    hide Decode, MemWord, MemIsn, MemPosition, OperandsOk;
    forall k | 0 <= k < 31 ensures Decode(MemLoop(p)[k]) == Some(MemBlock(p)[k]) {
      if k < 16 { MemWordDecodes1(p, k); } else if k < 24 { MemWordDecodes2(p, k); } else { MemWordDecodes3(p, k); }
    }
  }

  /** The table starts with the pair after the one that dst8 belongs to. */
  lemma StoreWordDecodes(pair: nat, t: nat)
    requires pair < 4 && t < 4
    ensures Decode(StorePair(pair + t)) == Some(StoreIsn((pair + 1 + t) % 4))
  {
    hide Decode, StorePair;
    StorePairDecodes(pair + t);
  }

  lemma TailWordDecodes(p: Program, pair: nat, k: nat)
    requires Compilable(p) && p[8].dst < 8 && pair == p[8].dst / 2 && k < 6
    ensures Decode(TailWord(p, k)) == Some(TailIsn(p, TailOrder(pair)[k]))
  {
    hide Decode, PreXasWord, XasWord, PreXasIsn, XasIsn, U32, OperandsOk, StorePair, StoreIsn;
    match k
    case 0 => StoreWordDecodes(pair, 0);
    case 1 => PreXasDecodes(p[8]);
    case 2 => StoreWordDecodes(pair, 1);
    case 3 => XasDecodes(p[8], p[8].src);
    case 4 => StoreWordDecodes(pair, 2);
    case 5 => StoreWordDecodes(pair, 3);
  }

  lemma TailEncodes(p: Program)
    requires WellFormed(p)
    ensures Encodes(RegTail(p), TailBlock(p))
  {
    assert p[8].dst < 8;
    hide Decode, TailWord, TailIsn, TailOrder, OperandsOk;
    forall k | 0 <= k < 6 ensures Decode(RegTail(p)[k]) == Some(TailBlock(p)[k]) {
      TailWordDecodes(p, p[8].dst / 2, k);
    }
  }
}
