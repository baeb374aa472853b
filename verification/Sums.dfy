/** Sums over the goroutines of a program: one weight per goroutine, added up in index order. */
module Sums {

  /** The sum of `w(i, s[i])` over the positions of `s`. */
  ghost function Total<T>(s: seq<T>, w: (nat, T) -> nat): nat {
    if s == [] then 0 else Total(s[..|s| - 1], w) + w(|s| - 1, s[|s| - 1])
  }

  /** Replacing one element exchanges its weight for the new one. */
  lemma {:induction false} TotalUpdate<T>(s: seq<T>, i: nat, x: T, w: (nat, T) -> nat)
    requires i < |s|
    ensures Total(s[i := x], w) + w(i, s[i]) == Total(s, w) + w(i, x)
  {
    var n := |s| - 1;
    if i == n {
      assert s[i := x][..n] == s[..n];
    } else {
      TotalUpdate(s[..n], i, x, w);
      assert s[i := x][..n] == s[..n][i := x];
    }
  }

  lemma TotalAppend<T>(s: seq<T>, x: T, w: (nat, T) -> nat)
    ensures Total(s + [x], w) == Total(s, w) + w(|s|, x)
  {
    assert (s + [x])[..|s|] == s;
  }

  /** No element weighs more than the total. */
  lemma {:induction false} TotalAtLeast<T>(s: seq<T>, i: nat, w: (nat, T) -> nat)
    requires i < |s|
    ensures w(i, s[i]) <= Total(s, w)
  {
    if i < |s| - 1 {
      TotalAtLeast(s[..|s| - 1], i, w);
    }
  }

  lemma {:induction false} TotalZero<T>(s: seq<T>, w: (nat, T) -> nat)
    requires forall i :: 0 <= i < |s| ==> w(i, s[i]) == 0
    ensures Total(s, w) == 0
  {
    if s != [] {
      TotalZero(s[..|s| - 1], w);
    }
  }

  /** A positive total has a positive weight. */
  lemma {:induction false} TotalWitness<T>(s: seq<T>, w: (nat, T) -> nat) returns (i: nat)
    requires Total(s, w) > 0
    ensures i < |s| && w(i, s[i]) > 0
  {
    var n := |s| - 1;
    if w(n, s[n]) > 0 {
      i := n;
    } else {
      i := TotalWitness(s[..n], w);
    }
  }

  /** 0/1 weights that sum to 1 single out one position. */
  lemma {:induction false} TotalUnique<T>(s: seq<T>, w: (nat, T) -> nat) returns (i: nat)
    requires Total(s, w) == 1
    ensures i < |s| && w(i, s[i]) == 1
    ensures forall j :: 0 <= j < |s| && j != i ==> w(j, s[j]) == 0
  {
    i := TotalWitness(s, w);
    TotalAtLeast(s, i, w);
    forall j | 0 <= j < |s| && j != i
      ensures w(j, s[j]) == 0
    {
      TotalTwo(s, i, j, w);
    }
  }

  lemma {:induction false} TotalTwo<T>(s: seq<T>, i: nat, j: nat, w: (nat, T) -> nat)
    requires i < |s| && j < |s| && i != j
    ensures w(i, s[i]) + w(j, s[j]) <= Total(s, w)
  {
    var n := |s| - 1;
    if i == n {
      TotalAtLeast(s[..n], j, w);
    } else if j == n {
      TotalAtLeast(s[..n], i, w);
    } else {
      TotalTwo(s[..n], i, j, w);
    }
  }
}
