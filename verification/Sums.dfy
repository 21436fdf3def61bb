// Weighted sums over sequences. Every counter of the concurrent models is tied to one of
// these: "how many callers are parked" is the sum of a 0/1 weight over the callers.
module Sums {

  function Sum<T>(s: seq<T>, w: T -> nat): nat {
    if s == [] then 0 else Sum(s[..|s| - 1], w) + w(s[|s| - 1])
  }

  lemma SumAppend<T>(s: seq<T>, x: T, w: T -> nat)
    ensures Sum(s + [x], w) == Sum(s, w) + w(x)
  {
    assert (s + [x])[..|s|] == s;
  }

  // Replacing one element moves the sum by the difference of the two weights.
  lemma {:induction false} SumUpdate<T>(s: seq<T>, i: nat, x: T, w: T -> nat)
    requires i < |s|
    ensures Sum(s[i := x], w) + w(s[i]) == Sum(s, w) + w(x)
  {
    var n := |s| - 1;
    if i == n {
      assert s[i := x][..n] == s[..n];
    } else {
      assert s[i := x][..n] == s[..n][i := x];
      SumUpdate(s[..n], i, x, w);
    }
  }

  lemma {:induction false} SumConcat<T>(a: seq<T>, b: seq<T>, w: T -> nat)
    ensures Sum(a + b, w) == Sum(a, w) + Sum(b, w)
  {
    if b == [] {
      assert a + b == a;
    } else {
      var n := |b| - 1;
      assert a + b == (a + b[..n]) + [b[n]];
      SumAppend(a + b[..n], b[n], w);
      SumConcat(a, b[..n], w);
    }
  }

  lemma {:induction false} SumLe<T>(s: seq<T>, v: T -> nat, w: T -> nat)
    requires forall i :: 0 <= i < |s| ==> v(s[i]) <= w(s[i])
    ensures Sum(s, v) <= Sum(s, w)
  {
    if s != [] {
      SumLe(s[..|s| - 1], v, w);
    }
  }

  lemma {:induction false} SumElement<T>(s: seq<T>, i: nat, w: T -> nat)
    requires i < |s|
    ensures w(s[i]) <= Sum(s, w)
  {
    if i < |s| - 1 {
      SumElement(s[..|s| - 1], i, w);
    }
  }

  // Two different positions contribute independently.
  lemma {:induction false} SumTwo<T>(s: seq<T>, i: nat, j: nat, w: T -> nat)
    requires i < j < |s|
    ensures w(s[i]) + w(s[j]) <= Sum(s, w)
  {
    if j == |s| - 1 {
      SumElement(s[..j], i, w);
    } else {
      SumTwo(s[..|s| - 1], i, j, w);
    }
  }

  lemma {:induction false} SumZero<T>(s: seq<T>, w: T -> nat)
    requires forall i :: 0 <= i < |s| ==> w(s[i]) == 0
    ensures Sum(s, w) == 0
  {
    if s != [] {
      SumZero(s[..|s| - 1], w);
    }
  }

  // When at most one position contributes, that position is the sum.
  lemma {:induction false} SumSingle<T>(s: seq<T>, h: nat, w: T -> nat)
    requires h < |s|
    requires forall i :: 0 <= i < |s| && i != h ==> w(s[i]) == 0
    ensures Sum(s, w) == w(s[h])
  {
    if h == |s| - 1 {
      SumZero(s[..h], w);
    } else {
      SumSingle(s[..|s| - 1], h, w);
    }
  }

  lemma {:induction false} SumBound<T>(s: seq<T>, w: T -> nat, bound: nat)
    requires forall i :: 0 <= i < |s| ==> w(s[i]) <= bound
    ensures Sum(s, w) <= |s| * bound
  {
    if s != [] {
      SumBound(s[..|s| - 1], w, bound);
      assert |s| * bound == (|s| - 1) * bound + bound;
    }
  }

  // A positive sum has a position that contributes.
  lemma {:induction false} SumWitness<T>(s: seq<T>, w: T -> nat) returns (i: nat)
    requires Sum(s, w) > 0
    ensures i < |s| && w(s[i]) > 0
  {
    var n := |s| - 1;
    if w(s[n]) > 0 {
      i := n;
    } else {
      i := SumWitness(s[..n], w);
    }
  }

  // Pointwise additive weights have additive sums.
  lemma {:induction false} SumSplit<T>(s: seq<T>, u: T -> nat, v: T -> nat, w: T -> nat)
    requires forall i :: 0 <= i < |s| ==> u(s[i]) + v(s[i]) == w(s[i])
    ensures Sum(s, u) + Sum(s, v) == Sum(s, w)
  {
    if s != [] {
      SumSplit(s[..|s| - 1], u, v, w);
    }
  }

  // Sums do not depend on the order of the elements.
  lemma {:induction false} SumPermutation<T>(a: seq<T>, b: seq<T>, w: T -> nat)
    requires multiset(a) == multiset(b)
    ensures Sum(a, w) == Sum(b, w)
  {
    if a == [] {
      assert |multiset(b)| == 0;
    } else {
      var n := |a| - 1;
      assert a == a[..n] + [a[n]];
      assert a[n] in multiset(b);
      var j :| 0 <= j < |b| && b[j] == a[n];
      assert b == b[..j] + [b[j]] + b[j + 1..];
      SumConcat(b[..j] + [b[j]], b[j + 1..], w);
      SumAppend(b[..j], b[j], w);
      SumConcat(b[..j], b[j + 1..], w);
      var rest := b[..j] + b[j + 1..];
      assert multiset(rest) == multiset(b) - multiset{a[n]};
      assert multiset(a[..n]) == multiset(a) - multiset{a[n]};
      SumPermutation(a[..n], rest, w);
    }
  }
}
