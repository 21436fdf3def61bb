// The order in which the members of a group raised a shared counter, newest last. It is history:
// the schedulers keep only the counter, and the peak that each member publishes on its own.
module EntryOrder {
  import opened Sums
  import opened Sequences

  // The order after `w` has left; positions behind it move up by one.
  function Without(order: seq<nat>, w: nat): (r: seq<nat>)
    ensures w !in order ==> r == order
    ensures w in order ==> |r| == |order| - 1
    ensures forall j :: 0 <= j < |r| ==> r[j] == order[j] || (j + 1 < |order| && r[j] == order[j + 1])
  {
    if order == [] then [] else if order[0] == w then order[1..] else [order[0]] + Without(order[1..], w)
  }

  lemma {:induction false} WithoutMembers(order: seq<nat>, w: nat)
    requires Distinct(order)
    ensures Distinct(Without(order, w))
    ensures forall x :: x in Without(order, w) <==> x in order && x != w
  {
    if order != [] {
      var rest := order[1..];
      assert Distinct(rest);
      WithoutMembers(rest, w);
      assert order == [order[0]] + rest;
      assert order[0] !in rest;
    }
  }

  lemma {:induction false} DistinctCard(order: seq<nat>, s: set<nat>)
    requires forall x :: x in s ==> x in order
    ensures |s| <= |order|
  {
    if order == [] {
      assert s == {};
    } else {
      var n := |order| - 1;
      assert order == order[..n] + [order[n]];
      DistinctCard(order[..n], s - {order[n]});
      assert |s| <= |s - {order[n]}| + 1 by {
        assert s <= (s - {order[n]}) + {order[n]};
        Subset(s, (s - {order[n]}) + {order[n]});
      }
    }
  }

  lemma {:induction false} Subset<T>(a: set<T>, b: set<T>)
    requires a <= b
    ensures |a| <= |b|
  {
    assert b == a + (b - a);
  }

  // Some member of any group of entrants entered when at least that many had entered: the newest.
  lemma {:induction false} NewestSawAll(order: seq<nat>, s: set<nat>) returns (i: nat)
    requires s != {}
    requires forall x :: x in s ==> x in order
    ensures i < |order| && order[i] in s && |s| <= i + 1
  {
    assert order != [];
    var n := |order| - 1;
    if order[n] in s {
      DistinctCard(order, s);
      i := n;
    } else {
      assert order == order[..n] + [order[n]];
      i := NewestSawAll(order[..n], s);
    }
  }

  // Distinct entrants below `bound` are at most `bound` many.
  lemma {:induction false} EntrantsBelow(order: seq<nat>, bound: nat)
    requires Distinct(order)
    requires forall x :: x in order ==> x < bound
    ensures |order| <= bound
    decreases bound
  {
    if bound == 0 {
      assert forall i :: 0 <= i < |order| ==> order[i] in order;
    } else {
      WithoutMembers(order, bound - 1);
      EntrantsBelow(Without(order, bound - 1), bound - 1);
    }
  }

  // A 0/1 sum is the size of the set of contributing positions.
  lemma {:induction false} SumIsCard<T>(s: seq<T>, w: T -> nat, members: set<nat>)
    requires forall i :: 0 <= i < |s| ==> w(s[i]) <= 1
    requires forall i: nat :: i in members <==> i < |s| && w(s[i]) > 0
    ensures Sum(s, w) == |members|
  {
    if s == [] {
      assert members == {};
    } else {
      var n := |s| - 1;
      SumIsCard(s[..n], w, members - {n});
    }
  }
}
