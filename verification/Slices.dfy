/** Pieces of a code buffer. */
module Slices {
  /** The pieces w lies in the code at pc. */
  ghost predicate CodeAt<T>(code: seq<T>, pc: nat, w: seq<T>) {
    pc + |w| <= |code| && code[pc..pc + |w|] == w
  }

  lemma CodeAtPart<T>(code: seq<T>, pc: nat, a: seq<T>, b: seq<T>)
    requires CodeAt(code, pc, a + b)
    ensures CodeAt(code, pc, a) && CodeAt(code, pc + |a|, b)
  {
    var c := code[pc..pc + |a + b|];
    assert c[..|a|] == a && c[|a|..] == b;
    assert code[pc..pc + |a|] == c[..|a|];
    assert code[pc + |a|..pc + |a| + |b|] == c[|a|..];
  }

  lemma ElementAt<T>(code: seq<T>, pc: nat, w: seq<T>, k: nat)
    requires CodeAt(code, pc, w) && k < |w|
    ensures pc + k < |code| && code[pc + k] == w[k]
  {
    assert code[pc..pc + |w|][k] == code[pc + k];
  }

  lemma SliceOfSlice<T>(c: seq<T>, lo: nat, hi: nat, a: nat, b: nat)
    requires lo <= hi <= |c| && a <= b <= hi - lo
    ensures c[lo..hi][a..b] == c[lo + a..lo + b]
  {
    var s := c[lo..hi];
    assert |s[a..b]| == |c[lo + a..lo + b]|;
    forall k | 0 <= k < b - a ensures s[a..b][k] == c[lo + a..lo + b][k] {
      assert s[a..b][k] == s[a + k] == c[lo + (a + k)];
    }
  }
}
