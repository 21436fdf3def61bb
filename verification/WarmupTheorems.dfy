// What the Garage can rely on about warm-up and admission, for every number of requests, every
// schedule and every answer of the artifact store and the runtime.
module WarmupTheorems {
  import opened Sums
  import opened WarmupProtocol
  import opened WarmupSafety

  // ----- runs -----

  ghost predicate Runs(s: State, acts: seq<Action>)
    requires ShapeInv(s)
    decreases |acts|
  {
    acts == [] || (Enabled(s, acts[0]) && (ApplyKeepsShape(s, acts[0]); Runs(Apply(s, acts[0]), acts[1..])))
  }

  ghost function After(s: State, acts: seq<Action>): (t: State)
    requires ShapeInv(s) && Runs(s, acts)
    ensures ShapeInv(t)
    decreases |acts|
  {
    if acts == [] then s else (ApplyKeepsShape(s, acts[0]); After(Apply(s, acts[0]), acts[1..]))
  }

  // How many actions of a run are of a kind, judged in the state they are taken in.
  ghost function Count(s: State, acts: seq<Action>, kind: (State, Action) -> bool): nat
    requires ShapeInv(s) && Runs(s, acts)
    decreases |acts|
  {
    if acts == [] then 0
    else (ApplyKeepsShape(s, acts[0]); Unit(kind(s, acts[0])) + Count(Apply(s, acts[0]), acts[1..], kind))
  }

  lemma ApplyKeepsShape(s: State, a: Action)
    requires ShapeInv(s) && Enabled(s, a)
    ensures ShapeInv(Apply(s, a))
  {
    if a.Advance? {
      StepKeepsShape(s, a.c, a.good, a.warm);
    }
  }

  lemma {:induction false} RunKeepsInv(s: State, acts: seq<Action>, maxPending: nat, maxPreparations: nat)
    requires Inv(s, maxPending, maxPreparations) && Runs(s, acts)
    ensures Inv(After(s, acts), maxPending, maxPreparations) && s.artifacts <= After(s, acts).artifacts
    decreases |acts|
  {
    if acts != [] {
      ApplyKeepsInv(s, maxPending, maxPreparations, acts[0], Apply(s, acts[0]));
      if acts[0].Advance? {
        StepOnlyAdds(s, acts[0].c, acts[0].good, acts[0].warm);
      }
      RunKeepsInv(Apply(s, acts[0]), acts[1..], maxPending, maxPreparations);
    }
  }

  ghost predicate Reaches(acts: seq<Action>, s: State, maxPending: nat, maxPreparations: nat) {
    Runs(Init(maxPending, maxPreparations), acts) && After(Init(maxPending, maxPreparations), acts) == s
  }

  ghost predicate Reachable(s: State, maxPending: nat, maxPreparations: nat) {
    exists acts :: Reaches(acts, s, maxPending, maxPreparations)
  }

  lemma ReachableInv(s: State, maxPending: nat, maxPreparations: nat)
    requires Reachable(s, maxPending, maxPreparations)
    ensures Inv(s, maxPending, maxPreparations)
  {
    var acts :| Reaches(acts, s, maxPending, maxPreparations);
    InitInv(maxPending, maxPreparations);
    RunKeepsInv(Init(maxPending, maxPreparations), acts, maxPending, maxPreparations);
  }

  // ----- readiness -----

  // A request that was told its artifact is warm finds it in the dispatcher's map, whatever happens
  // between the two; no lane is ever asked for in vain.
  lemma LanesGoToReadyArtifacts(s: State, maxPending: nat, maxPreparations: nat)
    requires Reachable(s, maxPending, maxPreparations)
    ensures forall c :: 0 <= c < |s.callers| && WarmedUp(s.callers[c].pc) ==> s.callers[c].key in s.artifacts
    ensures forall c :: 0 <= c < |s.callers| ==> !Ends(s.callers[c].pc, LookupFailed)
  {
    ReachableInv(s, maxPending, maxPreparations);
  }

  // ----- the counters -----

  lemma PreparationsAddUp(s: State, maxPending: nat, maxPreparations: nat)
    requires Reachable(s, maxPending, maxPreparations)
    ensures s.preparations == s.compilations + s.restores + s.failures + Sum(s.callers, InFlightW)
    ensures s.executions == Sum(s.callers, ExecutedW)
    ensures Sum(s.callers, InFlightW) <= Sum(s.callers, PermitW) <= Budget(maxPreparations)
    ensures Sum(s.callers, PendingW) <= maxPending
  {
    ReachableInv(s, maxPending, maxPreparations);
    SumLe(s.callers, InFlightW, PermitW);
  }

  // ----- single flight -----

  // A cell is attempted once, so the attempts on a digest are its cells that are no longer empty.
  lemma {:induction false} AttemptsAreCells(
      s: State, acts: seq<Action>, maxPending: nat, maxPreparations: nat, d: Digest)
    requires Inv(s, maxPending, maxPreparations) && Runs(s, acts)
    ensures Sum(After(s, acts).cells, AttemptW(d)) == Sum(s.cells, AttemptW(d)) + Count(s, acts, Attempt(d))
    decreases |acts|
  {
    if acts != [] {
      ApplyKeepsInv(s, maxPending, maxPreparations, acts[0], Apply(s, acts[0]));
      if acts[0].Advance? {
        AttemptAdvances(s, acts[0].c, acts[0].good, acts[0].warm, d);
      }
      AttemptsAreCells(Apply(s, acts[0]), acts[1..], maxPending, maxPreparations, d);
    }
  }

  // However many requests ask for a digest, the warm-ups started for it are at most one more than
  // the requests that were refused because one failed. While none was refused, one warm-up serves
  // all requests, so exactly one has been started once the artifact is ready.
  lemma SingleFlight(acts: seq<Action>, maxPending: nat, maxPreparations: nat, d: Digest)
    requires Runs(Init(maxPending, maxPreparations), acts)
    ensures var s := Init(maxPending, maxPreparations);
      && Count(s, acts, Attempt(d)) <= 1 + Sum(After(s, acts).callers, FailedW(d))
      && (d in After(s, acts).artifacts ==> Count(s, acts, Attempt(d)) >= 1)
  {
    var s := Init(maxPending, maxPreparations);
    InitInv(maxPending, maxPreparations);
    RunKeepsInv(s, acts, maxPending, maxPreparations);
    AttemptsAreCells(s, acts, maxPending, maxPreparations, d);
    var t := After(s, acts);
    assert CreationOk(t, d);
    SumLe(t.cells, AttemptW(d), CellW(d));
  }

  // At any moment the warm-ups running for a digest are at most one more than the removals that hit
  // a younger cell than the one that failed.
  lemma FlightsInProgress(s: State, maxPending: nat, maxPreparations: nat, d: Digest)
    requires Reachable(s, maxPending, maxPreparations)
    ensures Sum(s.callers, FillingW(d)) <= 1 + Sum(s.removals, StaleW(d))
    ensures Sum(s.removals, StaleW(d)) <= Sum(s.callers, FailedW(d))
  {
    ReachableInv(s, maxPending, maxPreparations);
    assert FlightOk(s, d) && OpenOk(s, d) && CreationOk(s, d);
    SumLe(s.cells, BusyW(d), OpenW(d));
    SumLe(s.removals, StaleW(d), RemovalW(d));
  }

  lemma ReachesExtends(acts: seq<Action>, s: State, a: Action, maxPending: nat, maxPreparations: nat)
    requires Reaches(acts, s, maxPending, maxPreparations)
    requires ShapeInv(s) && Enabled(s, a)
    ensures ShapeInv(Apply(s, a)) && Reaches(acts + [a], Apply(s, a), maxPending, maxPreparations)
  {
    ApplyKeepsShape(s, a);
    AfterAppend(Init(maxPending, maxPreparations), acts, a);
  }

  lemma ReachableExtends(s: State, a: Action, maxPending: nat, maxPreparations: nat) returns (t: State)
    requires Reachable(s, maxPending, maxPreparations)
    requires ShapeInv(s) && Enabled(s, a)
    ensures t == Apply(s, a) && ShapeInv(t) && Reachable(t, maxPending, maxPreparations)
  {
    t := Apply(s, a);
    var acts :| Reaches(acts, s, maxPending, maxPreparations);
    ReachesExtends(acts, s, a, maxPending, maxPreparations);
  }

  lemma {:induction false} AfterAppend(s: State, acts: seq<Action>, a: Action)
    requires ShapeInv(s) && Runs(s, acts) && Enabled(After(s, acts), a)
    ensures Runs(s, acts + [a]) && After(s, acts + [a]) == Apply(After(s, acts), a)
    decreases |acts|
  {
    if acts == [] {
      ApplyKeepsShape(s, a);
      assert [a][1..] == [];
      assert Runs(Apply(s, a), []);
    } else {
      ApplyKeepsShape(s, acts[0]);
      AfterAppend(Apply(s, acts[0]), acts[1..], a);
      assert (acts + [a])[1..] == acts[1..] + [a];
    }
  }

  // ----- artifacts that are ready stay ready -----

  predicate StartsPreparation(s: State, a: Action, d: Digest) {
    a.Advance? && a.c < |s.callers| && s.callers[a.c].key == d && s.callers[a.c].pc.Preparing?
  }

  function Preparation(d: Digest): (State, Action) -> bool { (s: State, a: Action) => StartsPreparation(s, a, d) }

  lemma PreparerLeaves(s: State, c: nat, good: bool, warm: bool, d: Digest)
    requires ShapeInv(s) && Enabled(s, Advance(c, good, warm)) && d in s.artifacts
    ensures Sum(Step(s, c, good, warm).callers, PreparerW(d)) + Unit(Preparation(d)(s, Advance(c, good, warm)))
      <= Sum(s.callers, PreparerW(d))
  {
    StepMovesOneCaller(s, c, good, warm);
    SumUpdate(s.callers, c, Step(s, c, good, warm).callers[c], PreparerW(d));
  }

  // Once a digest is in the dispatcher's map it is prepared again at most by the requests that had
  // already looked and not found it.
  lemma {:induction false} ReadyDigestsAreNotPreparedAgain(s: State, acts: seq<Action>, d: Digest)
    requires ShapeInv(s) && Runs(s, acts) && d in s.artifacts
    ensures d in After(s, acts).artifacts
    ensures Count(s, acts, Preparation(d)) + Sum(After(s, acts).callers, PreparerW(d)) <= Sum(s.callers, PreparerW(d))
    decreases |acts|
  {
    if acts != [] {
      ApplyKeepsShape(s, acts[0]);
      match acts[0] {
        case Arrive(key) => SumAppend(s.callers, Caller(key, Arrived), PreparerW(d));
        case Advance(c, good, warm) =>
          PreparerLeaves(s, c, good, warm, d);
          StepOnlyAdds(s, c, good, warm);
      }
      ReadyDigestsAreNotPreparedAgain(Apply(s, acts[0]), acts[1..], d);
    }
  }

  // ----- progress -----

  ghost predicate Moves(s: State, c: nat) { Enabled(s, Advance(c, true, true)) }

  ghost predicate CanMove(s: State) { exists c: nat :: Moves(s, c) }

  // The request filling a cell moves, or waits for a permit that somebody else is about to return.
  lemma FillerMoves(s: State, maxPending: nat, maxPreparations: nat, c: nat)
    requires Inv(s, maxPending, maxPreparations)
    requires c < |s.callers| && Filling(s.callers[c].pc)
    ensures CanMove(s)
  {
    if s.callers[c].pc.Budgeting? && s.budget == 0 {
      var h := SumWitness(s.callers, PermitW);
      assert Moves(s, h);
    } else {
      assert Moves(s, c);
    }
  }

  // While a request is unanswered, some request can move, whatever the store and the runtime do.
  lemma NoDeadlock(s: State, maxPending: nat, maxPreparations: nat)
    requires Reachable(s, maxPending, maxPreparations)
    requires exists c :: 0 <= c < |s.callers| && !s.callers[c].pc.Finished?
    ensures CanMove(s)
  {
    ReachableInv(s, maxPending, maxPreparations);
    var c :| 0 <= c < |s.callers| && !s.callers[c].pc.Finished?;
    var pc := s.callers[c].pc;
    if Filling(pc) {
      FillerMoves(s, maxPending, maxPreparations, c);
    } else if pc.Attached? && s.cells[pc.cell].state.Busy? {
      assert FilledBy(s, s.cells[pc.cell].state.caller, pc.cell);
      FillerMoves(s, maxPending, maxPreparations, s.cells[pc.cell].state.caller);
    } else {
      assert Moves(s, c);
    }
  }

  lemma StepLowersOwnRank(s: State, c: nat, good: bool, warm: bool)
    requires ShapeInv(s) && Enabled(s, Advance(c, good, warm))
    ensures |Step(s, c, good, warm).callers| == |s.callers|
    ensures RankW(Step(s, c, good, warm).callers[c]) < RankW(s.callers[c])
  {
    var pc := Step(s, c, good, warm).callers[c].pc;
    match s.callers[c].pc
    case Arrived => assert pc.Admitted? || pc.Finished?;
    case Admitted => assert pc.Attached?;
    case Attached(_) => assert pc.Checking? || pc.Resolved?;
    case Checking(_) => assert pc.Settling? || pc.Budgeting?;
    case Budgeting(_) => assert pc.Opening?;
    case Opening(_) => assert pc.Preparing? || pc.Releasing?;
    case Preparing(_) => assert pc.Registering?;
    case Registering(_) => assert pc.Counting? || pc.Releasing?;
    case Counting(_, _) => assert pc.Releasing?;
    case Releasing(_, _) => assert pc.Settling?;
    case Settling(_, _) => assert pc.Resolved?;
    case Resolved(_, _) => assert pc.Dispatching? || pc.Replying?;
    case Dispatching => assert pc.LookingUp?;
    case LookingUp => assert pc.Executing? || pc.Replying?;
    case Executing => assert pc.Replying?;
    case Replying(_) => assert pc.Finished?;
  }

  lemma MoveLowersRank(s: State, c: nat, good: bool, warm: bool)
    requires ShapeInv(s) && Enabled(s, Advance(c, good, warm))
    ensures Sum(Step(s, c, good, warm).callers, RankW) < Sum(s.callers, RankW)
  {
    StepMovesOneCaller(s, c, good, warm);
    StepLowersOwnRank(s, c, good, warm);
    hide Step;
    SumUpdate(s.callers, c, Step(s, c, good, warm).callers[c], RankW);
  }

  function ArrivalKind(): (State, Action) -> bool { (s: State, a: Action) => a.Arrive? }

  // Sixteen moves per request, and its arrival, are all there can be.
  lemma {:induction false} RunsAreShort(s: State, acts: seq<Action>)
    requires ShapeInv(s) && Runs(s, acts)
    ensures |acts| + Sum(After(s, acts).callers, RankW) <= Sum(s.callers, RankW) + 17 * Count(s, acts, ArrivalKind())
    decreases |acts|
  {
    if acts != [] {
      ApplyKeepsShape(s, acts[0]);
      match acts[0] {
        case Arrive(key) => SumAppend(s.callers, Caller(key, Arrived), RankW);
        case Advance(c, good, warm) => MoveLowersRank(s, c, good, warm);
      }
      RunsAreShort(Apply(s, acts[0]), acts[1..]);
    }
  }

  // When nothing can move any more, every request is answered, every permit is back, no preparation
  // is in flight, and the warm-up map holds no failure: what it holds is ready.
  lemma QuietGarage(s: State, maxPending: nat, maxPreparations: nat)
    requires Reachable(s, maxPending, maxPreparations) && !CanMove(s)
    ensures forall c :: 0 <= c < |s.callers| ==> s.callers[c].pc.Finished?
    ensures s.pending == maxPending && s.budget == Budget(maxPreparations)
    ensures s.preparations == s.compilations + s.restores + s.failures
    ensures s.warmups.Keys <= s.artifacts
  {
    ReachableInv(s, maxPending, maxPreparations);
    if c: nat :| c < |s.callers| && !s.callers[c].pc.Finished? {
      NoDeadlock(s, maxPending, maxPreparations);
    }
    SumZero(s.callers, PendingW);
    SumZero(s.callers, PermitW);
    SumZero(s.callers, InFlightW);
    forall d | d in s.warmups ensures d in s.artifacts {
      assert Tended(s, s.warmups[d]);
    }
  }
}
