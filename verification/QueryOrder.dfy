// The order `sort` puts key/value pairs in: keys bytewise, then values bytewise.
module QueryOrder {
  import opened Percent
  import opened Sorting

  type Pair = (Bytes, Bytes)

  predicate LexLe(a: Bytes, b: Bytes) {
    a == [] || (b != [] && (a[0] < b[0] || (a[0] == b[0] && LexLe(a[1..], b[1..]))))
  }

  predicate PairLe(p: Pair, q: Pair) {
    if p.0 == q.0 then LexLe(p.1, q.1) else LexLe(p.0, q.0)
  }

  lemma {:induction false} LexTotal(a: Bytes, b: Bytes)
    ensures LexLe(a, b) || LexLe(b, a)
    ensures LexLe(a, b) && LexLe(b, a) ==> a == b
  {
    if a != [] && b != [] && a[0] == b[0] {
      LexTotal(a[1..], b[1..]);
      assert a == [a[0]] + a[1..] && b == [b[0]] + b[1..];
    }
  }

  lemma {:induction false} LexTransitive(a: Bytes, b: Bytes, c: Bytes)
    requires LexLe(a, b) && LexLe(b, c)
    ensures LexLe(a, c)
  {
    if a != [] && a[0] == b[0] == c[0] {
      LexTransitive(a[1..], b[1..], c[1..]);
    }
  }

  lemma BytesAreOrdered()
    ensures Preorder(LexLe) && Antisymmetric(LexLe)
  {
    forall a, b ensures (LexLe(a, b) || LexLe(b, a)) && (LexLe(a, b) && LexLe(b, a) ==> a == b) {
      LexTotal(a, b);
    }
    forall a, b, c | LexLe(a, b) && LexLe(b, c) ensures LexLe(a, c) {
      LexTransitive(a, b, c);
    }
  }

  lemma PairTotal(p: Pair, q: Pair)
    ensures PairLe(p, q) || PairLe(q, p)
    ensures PairLe(p, q) && PairLe(q, p) ==> p == q
  {
    LexTotal(p.0, q.0);
    LexTotal(p.1, q.1);
  }

  lemma PairTransitive(p: Pair, q: Pair, r: Pair)
    requires PairLe(p, q) && PairLe(q, r)
    ensures PairLe(p, r)
  {
    if p.0 == q.0 == r.0 {
      LexTransitive(p.1, q.1, r.1);
    } else if p.0 != q.0 && q.0 != r.0 {
      LexTransitive(p.0, q.0, r.0);
      LexTotal(p.0, q.0);
    }
  }

  lemma PairsAreOrdered()
    ensures Preorder(PairLe) && Antisymmetric(PairLe)
  {
    forall p, q ensures (PairLe(p, q) || PairLe(q, p)) && (PairLe(p, q) && PairLe(q, p) ==> p == q) {
      PairTotal(p, q);
    }
    forall p, q, r | PairLe(p, q) && PairLe(q, r) ensures PairLe(p, r) {
      PairTransitive(p, q, r);
    }
  }

  function SortPairs(ps: seq<Pair>): seq<Pair> { Sort(ps, PairLe) }

  lemma SortPairsPermutes(ps: seq<Pair>)
    ensures multiset(SortPairs(ps)) == multiset(ps)
  {
    PairsAreOrdered();
    SortSorts(ps, PairLe);
  }

  // Keys never go down, and values do not under one key.
  lemma SortedByKeyThenValue(ps: seq<Pair>, i: nat, j: nat)
    requires i < j < |SortPairs(ps)|
    ensures var (p, q) := (SortPairs(ps)[i], SortPairs(ps)[j]);
      LexLe(p.0, q.0) && (p.0 == q.0 ==> LexLe(p.1, q.1))
  {
    PairsAreOrdered();
    SortSorts(ps, PairLe);
    LexTotal(SortPairs(ps)[i].0, SortPairs(ps)[j].0);
  }

  // Sorting forgets the order and nothing else.
  lemma SameSort(a: seq<Pair>, b: seq<Pair>)
    ensures SortPairs(a) == SortPairs(b) <==> multiset(a) == multiset(b)
  {
    PairsAreOrdered();
    SortSorts(a, PairLe);
    SortSorts(b, PairLe);
    if multiset(a) == multiset(b) {
      SortedUnique(SortPairs(a), SortPairs(b), PairLe);
    }
  }
}
