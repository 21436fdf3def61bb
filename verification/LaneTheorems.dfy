// What callers of `run_one` can rely on, for every number of callers and every schedule.
module LaneTheorems {
  import opened Wrappers
  import opened Sums
  import opened GridClock
  import opened EntryOrder
  import opened LaneProtocol
  import opened LaneSafety

  // ----- runs -----

  ghost predicate Run(s: State, acts: seq<Action>, t: State)
    decreases |acts|
  {
    if acts == [] then t == s
    else ShapeInv(s) && Enabled(s, acts[0]) && Run(Apply(s, acts[0]), acts[1..], t)
  }

  ghost predicate Reachable(s: State, lanes: nat, spurious: nat) {
    exists acts :: Run(Init(lanes, spurious), acts, s)
  }

  lemma SameLanes(s: State, a: Action)
    requires ShapeInv(s) && Enabled(s, a)
    ensures |Apply(s, a).slots| == |s.slots|
  {}

  lemma {:induction false} RunKeepsInv(s: State, acts: seq<Action>, t: State)
    requires Inv(s) && Run(s, acts, t)
    ensures Inv(t) && |t.slots| == |s.slots|
    decreases |acts|
  {
    if acts != [] {
      ApplyKeepsInv(s, acts[0]);
      SameLanes(s, acts[0]);
      RunKeepsInv(Apply(s, acts[0]), acts[1..], t);
    }
  }

  lemma ReachableInv(s: State, lanes: nat, spurious: nat)
    requires lanes > 0 && Reachable(s, lanes, spurious)
    ensures Inv(s) && |s.slots| == lanes
  {
    InitInv(lanes, spurious);
    var acts :| Run(Init(lanes, spurious), acts, s);
    RunKeepsInv(Init(lanes, spurious), acts, s);
  }

  lemma RunOne(s: State, a: Action)
    requires ShapeInv(s) && Enabled(s, a)
    ensures Run(s, [a], Apply(s, a))
  {
    hide ShapeInv, Enabled, Apply;
    assert [a][1..] == [];
    assert Run(Apply(s, a), [], Apply(s, a));
  }

  lemma {:induction false} RunExtends(s: State, acts: seq<Action>, t: State, a: Action)
    requires Run(s, acts, t) && ShapeInv(t) && Enabled(t, a)
    ensures Run(s, acts + [a], Apply(t, a))
    decreases |acts|
  {
    hide ShapeInv, Enabled, Apply;
    if acts == [] {
      assert acts + [a] == [a];
      RunOne(s, a);
    } else {
      RunExtends(Apply(s, acts[0]), acts[1..], t, a);
      assert (acts + [a])[0] == acts[0];
      assert (acts + [a])[1..] == acts[1..] + [a];
    }
  }

  lemma ReachableExtends(s: State, lanes: nat, spurious: nat, a: Action)
    requires Reachable(s, lanes, spurious) && ShapeInv(s) && Enabled(s, a)
    ensures Reachable(Apply(s, a), lanes, spurious)
  {
    hide Run;
    var acts :| Run(Init(lanes, spurious), acts, s);
    RunExtends(Init(lanes, spurious), acts, s, a);
  }

  // ----- lanes and counters -----

  lemma LanesAreExclusive(s: State, lanes: nat, spurious: nat)
    requires lanes > 0 && Reachable(s, lanes, spurious)
    ensures forall c, d :: 0 <= c < d < |s.callers| && Owns(s.callers[c].pc) && Owns(s.callers[d].pc) ==>
      s.callers[c].pc.lane != s.callers[d].pc.lane
    ensures forall c :: 0 <= c < |s.callers| && Owns(s.callers[c].pc) ==>
      && s.callers[c].pc.lane < lanes == |s.slots|
      && s.slots[s.callers[c].pc.lane] == Some(s.callers[c].id)
    ensures Sum(s.slots, TakenW) == Sum(s.callers, OwnsW)
  {
    ReachableInv(s, lanes, spurious);
  }

  lemma CountersStayInRange(s: State, lanes: nat, spurious: nat)
    requires lanes > 0 && Reachable(s, lanes, spurious)
    ensures 0 <= s.active <= lanes && s.peak <= lanes && 0 <= s.waiting <= |s.callers|
    ensures s.clock.busy <= lanes * s.clock.now
  {
    ReachableInv(s, lanes, spurious);
    ActiveBounds(s);
    SumBound(s.callers, WaitingW, 1);
    BusyWithinCapacity(s.clock, lanes);
  }

  // Past the peak update and before the active count drops.
  predicate PastPeak(pc: Pc) { Active(pc) && !pc.Raised? }

  function PastPeakW(c: Caller): nat { Unit(PastPeak(c.pc)) }

  // No more tasks ever overlap than `shared_peak` says, although each caller publishes the value
  // its own increment returned, in any order.
  lemma PeakCoversOverlap(s: State, lanes: nat, spurious: nat)
    requires lanes > 0 && Reachable(s, lanes, spurious)
    ensures Sum(s.callers, PastPeakW) <= s.peak
  {
    ReachableInv(s, lanes, spurious);
    var members := set c: nat | c < |s.callers| && PastPeakW(s.callers[c]) > 0;
    SumIsCard(s.callers, PastPeakW, members);
    if members != {} {
      var i := NewestSawAll(s.order, members);
      assert Published(s, i);
    }
  }

  // ----- the heartbeat -----

  // `free_lanes` as the heartbeat computes it: a saturating subtraction.
  function FreeLanes(v: Snapshot): nat {
    if v.running <= |v.lanes| then |v.lanes| - v.running else 0
  }

  // Every snapshot, taken while other callers raise and lower the counters, shows at least as many
  // occupied lanes as running callers, and the heartbeat's two figures add up.
  lemma SnapshotsAddUp(s: State, lanes: nat, spurious: nat, o: nat)
    requires lanes > 0 && Reachable(s, lanes, spurious)
    requires o < |s.observers| && s.observers[o].Reported?
    ensures var v := s.observers[o].snapshot;
      && v.running <= Sum(v.lanes, TakenW)
      && v.running + FreeLanes(v) == |v.lanes| == lanes
      && v.peak <= lanes
  {
    ReachableInv(s, lanes, spurious);
    TakenBound(s.observers[o].snapshot.lanes);
  }

  // ----- liveness -----

  lemma NoLostWakeup(s: State, lanes: nat, spurious: nat)
    requires lanes > 0 && Reachable(s, lanes, spurious)
    requires s.lock.Free? && exists c :: 0 <= c < |s.callers| && s.callers[c].pc.Parked?
    ensures lanes - Sum(s.slots, TakenW) <= Sum(s.callers, WokenW)
  {
    ReachableInv(s, lanes, spurious);
    var c :| 0 <= c < |s.callers| && s.callers[c].pc.Parked?;
    SumElement(s.callers, c, ParkedW);
  }

  // Actions that carry some call or snapshot forward. Arrivals, ids drawn by a batch and the passage
  // of time do not, and a spurious wake-up is never relied upon.
  predicate Progress(a: Action) { a.Advance? || a.Notify? || a.Observe? }

  ghost predicate CanMove(s: State) {
    exists a :: Progress(a) && Enabled(s, a)
  }

  lemma Moves(s: State, a: Action)
    requires Progress(a) && Enabled(s, a)
    ensures CanMove(s)
  {}

  lemma NotifierMoves(s: State, c: nat)
    requires c < |s.callers| && s.callers[c].pc.Lowered?
    ensures CanMove(s)
  {
    if w: nat :| w < |s.callers| && s.callers[w].pc.Parked? {
      Moves(s, Notify(c, Some(w)));
    } else {
      Moves(s, Notify(c, None));
    }
  }

  lemma NotAllParked(s: State)
    requires Inv(s)
    requires forall c :: 0 <= c < |s.callers| ==> s.callers[c].pc.Parked? || s.callers[c].pc.Done?
    ensures forall c :: 0 <= c < |s.callers| ==> s.callers[c].pc.Done?
  {
    forall c | 0 <= c < |s.callers| ensures s.callers[c].pc.Done? {
      if s.callers[c].pc.Parked? {
        SumElement(s.callers, c, ParkedW);
        SumZero(s.callers, OwnsW);
        SumZero(s.callers, WokenW);
        assert false;
      }
    }
  }

  // The pool never gets stuck: while a call has not returned, somebody can move, without help from
  // a spurious wake-up. In particular the unfinished callers are never all parked.
  lemma NoDeadlock(s: State, lanes: nat, spurious: nat)
    requires lanes > 0 && Reachable(s, lanes, spurious)
    requires exists c :: 0 <= c < |s.callers| && !s.callers[c].pc.Done?
    ensures CanMove(s)
  {
    ReachableInv(s, lanes, spurious);
    match s.lock
    case ByObserver(o) => Moves(s, Observe(o));
    case ByCaller(h) =>
      if s.callers[h].pc.Lowered? {
        NotifierMoves(s, h);
      } else {
        Moves(s, Advance(h));
      }
    case Free =>
      if c: nat :| c < |s.callers| && !s.callers[c].pc.Parked? && !s.callers[c].pc.Done? {
        assert !HoldsLock(s.callers[c].pc);
        Moves(s, Advance(c));
      } else {
        NotAllParked(s);
      }
  }

  // What the calls and snapshots made so far still have to do.
  function Work(s: State): nat { Sum(s.callers, RankW) + Sum(s.observers, ObserverRankW) }

  function Measure(s: State): nat { Work(s) + 3 * s.spurious }

  function Cost(a: Action): int {
    match a
    case Arrive => 20
    case Ask => 5
    case Tick(_) => 0
    case Foreign(_) => 0
    case _ => -1
  }

  lemma StepLowersOwnRank(s: State, c: nat)
    requires ShapeInv(s) && Enabled(s, Advance(c))
    ensures |Step(s, c).callers| == |s.callers|
    ensures RankW(Step(s, c).callers[c]) < RankW(s.callers[c])
  {
    var pc := Step(s, c).callers[c].pc;
    match s.callers[c].pc
    case Arrived => assert pc.Numbered?;
    case Numbered => assert pc.Contending?;
    case Contending(_) => assert pc.Scanning?;
    case Scanning(_) => assert pc.Claimed? || pc.Parked?;
    case Claimed(_) => assert pc.Dequeued?;
    case Dequeued(_) => assert pc.Assigned?;
    case Assigned(_) => assert pc.Raised?;
    case Raised(_, _) => assert pc.Ready?;
    case Ready(_) => assert pc.Running?;
    case Running(_, _) => assert pc.Finished?;
    case Finished(_, _, _) => assert pc.Returning?;
    case Returning(_) => assert pc.Clearing?;
    case Clearing(_) => assert pc.Cleared?;
    case Cleared(_) => assert pc.Lowered?;
    case Notified => assert pc.Done?;
  }

  lemma MoveCost(s: State, c: nat)
    requires ShapeInv(s) && Enabled(s, Advance(c))
    ensures Measure(Step(s, c)) < Measure(s)
  {
    StepMovesOneCaller(s, c);
    StepLowersOwnRank(s, c);
    SumUpdate(s.callers, c, Step(s, c).callers[c], RankW);
  }

  lemma NotifyCost(s: State, c: nat, waiter: Option<nat>)
    requires ShapeInv(s) && Enabled(s, Notify(c, waiter))
    ensures Measure(Apply(s, Notify(c, waiter))) < Measure(s)
  {
    var t := At(s, c, Notified);
    SumUpdate(s.callers, c, t.callers[c], RankW);
    if waiter.Some? {
      SumUpdate(t.callers, waiter.value, t.callers[waiter.value].(pc := Contending(true)), RankW);
    }
  }

  // Barging and parking again is paid for by the notification, or the spurious wake-up, that
  // started it.
  lemma EveryMoveCosts(s: State, a: Action)
    requires ShapeInv(s) && Enabled(s, a)
    ensures Measure(Apply(s, a)) <= Measure(s) + Cost(a)
  {
    match a
    case Arrive => SumAppend(s.callers, Caller(0, Arrived), RankW);
    case Ask => SumAppend(s.observers, Asking, ObserverRankW);
    case Tick(_) =>
    case Foreign(_) =>
    case Advance(c) => MoveCost(s, c);
    case Notify(c, waiter) => NotifyCost(s, c, waiter);
    case Spurious(c) => SumUpdate(s.callers, c, s.callers[c].(pc := Contending(true)), RankW);
    case Observe(o) => SumUpdate(s.observers, o, StepObserver(s, o).observers[o], ObserverRankW);
  }

  lemma SpuriousBudget(s: State, a: Action)
    requires ShapeInv(s) && Enabled(s, a)
    ensures Apply(s, a).spurious == if a.Spurious? then s.spurious - 1 else s.spurious
  {}

  // Time and foreign ids take nothing from the work to be done, and enable nothing.
  lemma QuietChange(s: State, lanes: nat, spurious: nat, a: Action)
    requires lanes > 0 && Reachable(s, lanes, spurious) && Inv(s) && (a.Tick? || a.Foreign?)
    ensures ShapeInv(s)
    ensures var t := Apply(s, a);
      Reachable(t, lanes, spurious) && Measure(t) == Measure(s) && (CanMove(t) ==> CanMove(s))
  {
    ReachableExtends(s, lanes, spurious, a);
    var t := Apply(s, a);
    if CanMove(t) {
      var b :| Progress(b) && Enabled(t, b);
      assert Enabled(s, b);
    }
  }

  function Count(acts: seq<Action>, kind: Action -> bool): nat {
    if acts == [] then 0 else Unit(kind(acts[0])) + Count(acts[1..], kind)
  }

  predicate Arrival(a: Action) { a.Arrive? }
  predicate Question(a: Action) { a.Ask? }
  predicate SpuriousWake(a: Action) { a.Spurious? }

  // Over any run there are at most twenty moves per call, five per snapshot and two per spurious
  // wake-up, and as many fewer as there is work left.
  lemma {:induction false} RunsAreShort(s: State, acts: seq<Action>, t: State)
    requires Run(s, acts, t)
    ensures Count(acts, Progress) + Work(t) <=
      Work(s) + 20 * Count(acts, Arrival) + 5 * Count(acts, Question) + 2 * Count(acts, SpuriousWake)
    decreases |acts|
  {
    if acts != [] {
      EveryMoveCosts(s, acts[0]);
      SpuriousBudget(s, acts[0]);
      RunsAreShort(Apply(s, acts[0]), acts[1..], t);
    }
  }

  // When nothing can move any more, every call has returned and the pool is as it was created.
  lemma QuietPoolIsClean(s: State, lanes: nat, spurious: nat)
    requires lanes > 0 && Reachable(s, lanes, spurious) && !CanMove(s)
    ensures forall c :: 0 <= c < |s.callers| ==> s.callers[c].pc.Done?
    ensures forall l :: 0 <= l < lanes ==> l < |s.slots| && s.slots[l].None?
    ensures s.lock.Free? && s.active == 0 && s.waiting == 0
  {
    ReachableInv(s, lanes, spurious);
    if c: nat :| c < |s.callers| && !s.callers[c].pc.Done? {
      NoDeadlock(s, lanes, spurious);
    }
    if s.lock.ByObserver? {
      Moves(s, Observe(s.lock.observer));
    }
    SumZero(s.callers, ActiveW);
    SumZero(s.callers, WaitingW);
    SumZero(s.callers, OwnsW);
    forall l | 0 <= l < lanes ensures s.slots[l].None? {
      SumElement(s.slots, l, TakenW);
    }
  }
}
