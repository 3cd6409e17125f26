/** The inside-out Fisher-Yates shuffle, for any number of elements: a bijection between
    digit vectors and permutations. */
module FisherYates {
  /** One digit per element after the first; the i-th digit is at most i. */
  predicate Digits(d: seq<nat>) {
    forall k :: 0 <= k < |d| ==> d[k] <= k + 1
  }

  /** The numbers 0, ..., |p| - 1 in some order. */
  predicate Permutation(p: seq<nat>) {
    && (forall i :: 0 <= i < |p| ==> p[i] < |p|)
    && (forall i, j :: 0 <= i < j < |p| ==> p[i] != p[j])
  }

  /** The next element goes to place j and what was there moves to the end. */
  function Place(p: seq<nat>, j: nat): (q: seq<nat>)
    requires j <= |p|
    ensures |q| == |p| + 1
  {
    var i := |p|;
    if j == i then p + [i] else p[j := i] + [p[j]]
  }

  /** The shuffle of |d| + 1 elements. */
  function Shuffle(d: seq<nat>): (p: seq<nat>)
    requires Digits(d)
    ensures |p| == |d| + 1
  {
    if d == [] then [0] else Place(Shuffle(d[..|d| - 1]), d[|d| - 1])
  }

  /** One step more puts the next number at place j and moves what was there to the end. */
  lemma ShuffleStep(d: seq<nat>, j: nat)
    requires Digits(d) && j <= |d| + 1
    ensures Digits(d + [j]) && |Shuffle(d + [j])| == |Shuffle(d)| + 1
    ensures var p, q := Shuffle(d), Shuffle(d + [j]);
            && q[j] == |p| && (j < |p| ==> q[|p|] == p[j])
            && forall k :: 0 <= k < |p| && k != j ==> q[k] == p[k]
  {
    assert (d + [j])[..|d|] == d;
  }

  /** Where the largest element of a permutation stands. */
  function IndexOf(p: seq<nat>, v: nat): (j: nat)
    requires v in p
    ensures j < |p| && p[j] == v
  {
    if p[0] == v then 0 else 1 + IndexOf(p[1..], v)
  }

  /** Takes the largest element out again. */
  function Remove(p: seq<nat>, j: nat): (q: seq<nat>)
    requires j < |p|
    ensures |q| == |p| - 1
  {
    var i := |p| - 1;
    if j == i then p[..i] else p[..i][j := p[i]]
  }

  lemma {:induction false} PlaceKeeps(p: seq<nat>, j: nat)
    requires Permutation(p) && j <= |p|
    ensures Permutation(Place(p, j))
  {
    var q := Place(p, j);
    forall a, b | 0 <= a < b < |q| ensures q[a] != q[b] {
    }
  }

  /** The result is always a permutation. */
  lemma {:induction false} ShufflePermutes(d: seq<nat>)
    requires Digits(d)
    ensures Permutation(Shuffle(d))
  {
    if d != [] {
      ShufflePermutes(d[..|d| - 1]);
      PlaceKeeps(Shuffle(d[..|d| - 1]), d[|d| - 1]);
    }
  }

  // ----- the inverse -----

  function Numbers(n: nat): set<nat> {
    if n == 0 then {} else Numbers(n - 1) + {n - 1}
  }

  lemma {:induction false} NumbersBelow(n: nat)
    ensures |Numbers(n)| == n && forall x: nat :: x in Numbers(n) <==> x < n
  {
    if n > 0 {
      NumbersBelow(n - 1);
    }
  }

  /** A permutation of n elements contains each of them, by counting. */
  lemma Onto(p: seq<nat>, v: nat)
    requires Permutation(p) && v < |p|
    ensures v in p
  {
    if v !in p {
      var s := Elements(p, |p|);
      NumbersBelow(|p|);
      assert p[..|p|] == p;
      Smaller(s, Numbers(|p|) - {v});
    }
  }

  /** The set of the first n elements has n members. */
  lemma {:induction false} Elements(p: seq<nat>, n: nat) returns (s: set<nat>)
    requires Permutation(p) && n <= |p|
    ensures |s| == n && forall x :: x in s <==> x in p[..n]
  {
    if n == 0 {
      s := {};
    } else {
      s := Elements(p, n - 1);
      assert p[..n] == p[..n - 1] + [p[n - 1]];
      assert p[n - 1] !in p[..n - 1];
      s := s + {p[n - 1]};
    }
  }

  lemma {:induction false} Smaller(a: set<nat>, b: set<nat>)
    requires a <= b
    ensures |a| <= |b|
    decreases a
  {
    if a != {} {
      var x :| x in a;
      Smaller(a - {x}, b - {x});
    }
  }

  lemma RemoveKeeps(p: seq<nat>, j: nat)
    requires Permutation(p) && j < |p| && p[j] == |p| - 1
    ensures Permutation(Remove(p, j))
  {
    var q := Remove(p, j);
    forall a | 0 <= a < |q| ensures q[a] < |q| {
      assert p[a] != p[j] || a == j;
    }
  }

  /** The digits that produce a permutation. */
  function DigitsOf(p: seq<nat>): (d: seq<nat>)
    requires Permutation(p) && p != []
    ensures |d| == |p| - 1
    decreases |p|
  {
    if |p| == 1 then []
    else
      Onto(p, |p| - 1);
      var j := IndexOf(p, |p| - 1);
      RemoveKeeps(p, j);
      DigitsOf(Remove(p, j)) + [j]
  }

  lemma UniqueIndex(p: seq<nat>, j: nat)
    requires Permutation(p) && j < |p|
    ensures IndexOf(p, p[j]) == j
  {
  }

  lemma PlaceRemove(p: seq<nat>, j: nat)
    requires Permutation(p) && j <= |p|
    ensures Place(p, j)[j] == |p| && Remove(Place(p, j), j) == p
  {
  }

  lemma RemovePlace(p: seq<nat>, j: nat)
    requires j < |p| && p[j] == |p| - 1
    ensures Place(Remove(p, j), j) == p
  {
  }

  /** Every permutation is reached. */
  lemma {:induction false} ShuffleOnto(p: seq<nat>)
    requires Permutation(p) && p != []
    ensures Digits(DigitsOf(p)) && Shuffle(DigitsOf(p)) == p
    decreases |p|
  {
    if |p| == 1 {
      assert p == [0];
    } else {
      Onto(p, |p| - 1);
      var j := IndexOf(p, |p| - 1);
      RemoveKeeps(p, j);
      var q := Remove(p, j);
      ShuffleOnto(q);
      RemovePlace(p, j);
      var d := DigitsOf(p);
      assert d[..|d| - 1] == DigitsOf(q) && d[|d| - 1] == j;
    }
  }

  /** Each permutation is reached by exactly one digit vector. */
  lemma {:induction false} ShuffleOneToOne(d: seq<nat>)
    requires Digits(d)
    ensures Permutation(Shuffle(d)) && DigitsOf(Shuffle(d)) == d
  {
    hide Permutation, Place, DigitsOf;
    ShufflePermutes(d);
    if d == [] {
      NoDigits(Shuffle(d));
    } else {
      var e, j := d[..|d| - 1], d[|d| - 1];
      ShuffleOneToOne(e);
      LastDigit(Shuffle(e), j);
      assert d == e + [j];
    }
  }

  lemma NoDigits(p: seq<nat>)
    requires Permutation(p) && |p| == 1
    ensures DigitsOf(p) == []
  {
    hide Permutation;
  }

  /** The place of the largest element is the last digit, and the rest give the others. */
  lemma LastDigit(q: seq<nat>, j: nat)
    requires Permutation(q) && q != [] && j <= |q| && Permutation(Place(q, j))
    ensures DigitsOf(Place(q, j)) == DigitsOf(q) + [j]
  {
    hide Permutation;
    var p := Place(q, j);
    PlaceRemove(q, j);
    Onto(p, |p| - 1);
    UniqueIndex(p, j);
    RemoveKeeps(p, j);
    hide Place, Remove, IndexOf;
  }
}
