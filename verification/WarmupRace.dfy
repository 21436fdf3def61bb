// One digest, two warm-ups at once: the removal after a failure is by digest, so a request that
// waited on the failed cell can take a younger cell out of the map while it is being filled. The
// bound of `FlightsInProgress` is therefore not always one.
module WarmupRace {
  import opened Sums
  import opened WarmupProtocol
  import opened WarmupTheorems

  function Four(a: Pc, b: Pc, c: Pc, e: Pc): seq<Caller> {
    [Caller(7, a), Caller(7, b), Caller(7, c), Caller(7, e)]
  }

  lemma Go(s: State, c: nat, good: bool) returns (t: State)
    requires Reachable(s, 4, 2) && ShapeInv(s) && Enabled(s, Advance(c, good, false))
    ensures t == Step(s, c, good, false) && ShapeInv(t) && Reachable(t, 4, 2)
  {
    t := ReachableExtends(s, Advance(c, good, false), 4, 2);
  }

  lemma AllArrived() returns (s: State)
    ensures ShapeInv(s) && Reachable(s, 4, 2) && s.callers == Four(Arrived, Arrived, Arrived, Arrived)
    ensures s == Init(4, 2).(callers := s.callers)
  {
    s := Init(4, 2);
    assert Reaches([], s, 4, 2);
    s := ReachableExtends(s, Arrive(7), 4, 2);
    s := ReachableExtends(s, Arrive(7), 4, 2);
    s := ReachableExtends(s, Arrive(7), 4, 2);
    s := ReachableExtends(s, Arrive(7), 4, 2);
  }

  lemma AllAdmitted() returns (s: State)
    ensures ShapeInv(s) && Reachable(s, 4, 2)
    ensures s.callers == Four(Admitted, Admitted, Admitted, Admitted)
    ensures s.warmups == map[] && s.cells == [] && s.artifacts == {} && s.budget == 2 && s.removals == []
  {
    s := AllArrived();
    s := Go(s, 0, true);
    s := Go(s, 1, true);
    s := Go(s, 2, true);
    s := Go(s, 3, true);
  }

  ghost predicate Looks(s: State, callers: seq<Caller>, cells: seq<Cell>, warmups: map<Digest, nat>) {
    && ShapeInv(s) && Reachable(s, 4, 2)
    && s.callers == callers && s.cells == cells && s.warmups == warmups && s.artifacts == {}
  }

  lemma OneFillsOneWaits() returns (s: State)
    ensures Looks(s, Four(Checking(0), Attached(0), Admitted, Admitted), [Cell(7, Busy(0))], map[7 := 0])
    ensures s.budget == 2
  {
    s := AllAdmitted();
    s := Go(s, 0, true);
    s := Go(s, 1, true);
    assert s.callers == Four(Attached(0), Attached(0), Admitted, Admitted);
    s := Go(s, 0, true);
  }

  lemma FirstReleases() returns (s: State)
    ensures Looks(s, Four(Releasing(0, false), Attached(0), Admitted, Admitted), [Cell(7, Busy(0))], map[7 := 0])
  {
    s := OneFillsOneWaits();
    s := Go(s, 0, true);
    s := Go(s, 0, true);
    s := Go(s, 0, false);
  }

  // The first request fails its warm-up; the second waited for it.
  lemma FirstFails() returns (s: State)
    ensures Looks(s, Four(Replying(Unavailable), Attached(0), Admitted, Admitted), [Cell(7, Filled(false))], map[])
  {
    s := FirstReleases();
    s := Go(s, 0, true);
    s := Go(s, 0, true);
    s := Go(s, 0, true);
  }

  // The third starts over with a cell of its own.
  lemma ThirdStartsOver() returns (s: State)
    ensures Looks(s, Four(Replying(Unavailable), Attached(0), Checking(1), Admitted),
                  [Cell(7, Filled(false)), Cell(7, Busy(2))], map[7 := 1])
  {
    s := FirstFails();
    s := Go(s, 2, true);
    s := Go(s, 2, true);
  }

  // The second learns of the failure and removes the third's cell.
  lemma SecondRemovesIt() returns (s: State)
    ensures Looks(s, Four(Replying(Unavailable), Replying(Unavailable), Checking(1), Admitted),
                  [Cell(7, Filled(false)), Cell(7, Busy(2))], map[])
  {
    s := ThirdStartsOver();
    s := Go(s, 1, true);
    s := Go(s, 1, true);
  }

  lemma TwoWarmupsAtOnce() returns (s: State)
    ensures Reachable(s, 4, 2) && Sum(s.callers, FillingW(7)) >= 2
  {
    s := SecondRemovesIt();
    s := Go(s, 3, true);
    s := Go(s, 3, true);
    assert s.callers == Four(Replying(Unavailable), Replying(Unavailable), Checking(1), Checking(2));
    SumTwo(s.callers, 2, 3, FillingW(7));
  }
}
