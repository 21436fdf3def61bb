// Two runs on one lane in which the quotient of busy time and lane time exceeds one, and the clamp
// hides it: a reading that loads the busy time late, with one call and no batch at all; and one call
// and one batch that both take all the time there is.
module UtilizationRace {
  import opened Wrappers
  import opened GridClock
  import opened GridProtocol
  import opened GridSafety
  import opened GridTheorems
  import opened Utilization
  import L = LaneProtocol
  import B = BatchProtocol

  lemma Go(g: Grid, a: Action, use: Use) returns (t: Grid)
    requires ReachableBy(g, 1, 0, use) && Suits(use, a) && Shape(g) && Enabled(g, a)
    ensures t == Apply(g, a) && ReachableBy(t, 1, 0, use) && Shape(t)
  {
    hide L.Inv, B.Inv, L.ShapeInv, B.ShapeInv, L.Apply, B.Apply, L.Enabled, B.Enabled, Apply, Enabled, Shape, Inv;
    hide Run;
    InitInv(1, 0);
    var acts :| Run(Init(1, 0), acts, g) && All(acts, use);
    RunKeepsInv(Init(1, 0), acts, g);
    t := Apply(g, a);
    RunExtends(Init(1, 0), acts, g, a);
    ApplyKeepsInv(g, a);
    InvHasShape(t);
    assert All(acts + [a], use);
  }

  // One more action of the call.
  lemma Call(g: Grid, use: Use) returns (t: Grid)
    requires ReachableBy(g, 1, 0, use) && Suits(use, One(L.Advance(0)))
    requires Shape(g) && L.Enabled(g.one, L.Advance(0)) && !g.one.callers[0].pc.Arrived?
    ensures t.one == L.Step(g.one, 0) && t.many == g.many && t.draft == g.draft && t.batchIds == g.batchIds
    ensures ReachableBy(t, 1, 0, use) && Shape(t)
  {
    t := Go(g, One(L.Advance(0)), use);
  }

  // One more action of the worker.
  lemma Work(g: Grid) returns (t: Grid)
    requires ReachableBy(g, 1, 0, Mixed) && Shape(g) && g.draft.None? && B.Enabled(g.many, B.Advance(0))
    ensures t.many == B.Step(g.many, 0) && t.one == g.one && t.draft == g.draft
    ensures ReachableBy(t, 1, 0, Mixed) && Shape(t)
  {
    t := Go(g, Many(0), Mixed);
  }

  // ----- a call on its own -----

  lemma NoActions(g: Grid, acts: seq<Action>)
    requires acts == []
    ensures Run(g, acts, g)
  {}

  lemma Created() returns (g: Grid)
    ensures g == Init(1, 0) && ReachableBy(g, 1, 0, CallsOnly) && Shape(g)
  {
    hide Init, Inv, Run, Shape;
    InitInv(1, 0);
    g := Init(1, 0);
    InvHasShape(g);
    NoActions(g, []);
    assert All([], CallsOnly);
  }

  ghost predicate Calling(g: Grid, pc: L.Pc) {
    && ReachableBy(g, 1, 0, CallsOnly) && Shape(g) && g.draft.None? && g.batchIds == {}
    && |g.one.callers| == 1 && g.one.callers[0].pc == pc && Untouched(g)
  }

  // No time has passed, and no batch has begun.
  ghost predicate Untouched(g: Grid) {
    && g.one.clock == Started(1)
    && g.many.workers == [B.Exited] && g.many.clock == Started(1)
  }

  ghost predicate Idle(g: Grid) { g.one.lock == L.Free && g.one.slots == [None] }

  lemma InitIsIdle()
    ensures Init(1, 0).one.callers == [] && Init(1, 0).draft.None? && Init(1, 0).batchIds == {}
    ensures Untouched(Init(1, 0)) && Idle(Init(1, 0))
  {}

  lemma ArrivalAdds(s: L.State)
    requires L.ShapeInv(s)
    ensures L.Apply(s, L.Arrive) == s.(callers := s.callers + [L.Caller(0, L.Arrived)])
  {}

  lemma CallArrived() returns (g: Grid)
    ensures Calling(g, L.Arrived) && Idle(g)
  {
    hide Init, L.Init, B.Init, L.Apply, L.ShapeInv, B.ShapeInv, Inv;
    g := Created();
    InitIsIdle();
    ArrivalAdds(g.one);
    g := Go(g, One(L.Arrive), CallsOnly);
  }

  lemma CallNumbered() returns (g: Grid)
    ensures Calling(g, L.Numbered) && Idle(g)
  {
    g := CallArrived();
    g := Go(g, One(L.Advance(0)), CallsOnly);
  }

  // A call with nobody in its way, up to the start of its task.
  ghost predicate Unhindered(s: L.State) {
    && |s.callers| == 1 && s.clock == Started(1)
    && s.lock == (if L.HoldsLock(s.callers[0].pc) then L.ByCaller(0) else L.Free)
    && match s.callers[0].pc
       case Numbered => s.slots == [None]
       case Contending(_) => s.slots == [None]
       case Scanning(_) => s.slots == [None]
       case Claimed(lane) => lane == 0
       case Dequeued(lane) => lane == 0
       case Assigned(lane) => lane == 0
       case Raised(lane, _) => lane == 0
       case Ready(lane) => lane == 0
       case Running(lane, since) => lane == 0 && since == 0
       case _ => false
  }

  lemma Proceeds(s: L.State)
    requires L.ShapeInv(s) && Unhindered(s) && !s.callers[0].pc.Running?
    ensures L.Enabled(s, L.Advance(0)) && Unhindered(L.Step(s, 0))
    ensures L.RankW(L.Step(s, 0).callers[0]) < L.RankW(s.callers[0])
  {}

  lemma CallRunning() returns (g: Grid)
    ensures Calling(g, L.Running(0, 0))
  {
    g := CallNumbered();
    while !g.one.callers[0].pc.Running?
      invariant ReachableBy(g, 1, 0, CallsOnly) && Shape(g) && g.draft.None? && g.batchIds == {}
      invariant Unhindered(g.one) && g.many.workers == [B.Exited] && g.many.clock == Started(1)
      decreases L.RankW(g.one.callers[0])
    {
      Proceeds(g.one);
      hide L.Step, Unhindered, L.ShapeInv, B.ShapeInv;
      g := Call(g, CallsOnly);
    }
  }

  // ----- a late load -----

  ghost predicate Timed(g: Grid, pc: L.Pc, now: nat, busy: nat) {
    && ReachableBy(g, 1, 0, CallsOnly) && Shape(g) && g.draft.None? && g.batchIds == {}
    && |g.one.callers| == 1 && g.one.callers[0].pc == pc
    && g.one.clock.now == now && g.one.clock.busy == busy && g.many.clock.busy == 0
  }

  lemma StartsTimed(g: Grid)
    requires Calling(g, L.Running(0, 0))
    ensures Timed(g, L.Running(0, 0), 0, 0)
  {}

  lemma TimePasses(g: Grid, now: nat, nanos: nat) returns (t: Grid)
    requires Timed(g, L.Running(0, 0), now, 0)
    ensures Enabled(g, Tick(nanos)) && t == Apply(g, Tick(nanos)) && Timed(t, L.Running(0, 0), now + nanos, 0)
  {
    t := Go(g, Tick(nanos), CallsOnly);
  }

  lemma TaskEnds(g: Grid, now: nat) returns (t: Grid)
    requires Timed(g, L.Running(0, 0), now, 0)
    ensures Enabled(g, One(L.Advance(0))) && t == Apply(g, One(L.Advance(0)))
    ensures Timed(t, L.Finished(0, 0, now), now, 0)
  {
    t := Go(g, One(L.Advance(0)), CallsOnly);
  }

  lemma TaskIsBilled(g: Grid, now: nat) returns (t: Grid)
    requires Timed(g, L.Finished(0, 0, now), now, 0)
    ensures Enabled(g, One(L.Advance(0))) && t == Apply(g, One(L.Advance(0)))
    ensures Timed(t, L.Returning(0), now, now)
  {
    t := Go(g, One(L.Advance(0)), CallsOnly);
  }

  lemma ByCallsIsReachable(g: Grid)
    requires ReachableBy(g, 1, 0, CallsOnly)
    ensures Reachable(g, 1, 0) && ReachableBy(g, 1, 0, NoBatchWork) && ReachableBy(g, 1, 0, Mixed)
  {
    hide Init, Run;
    var acts :| Run(Init(1, 0), acts, g) && All(acts, CallsOnly);
    assert All(acts, NoBatchWork) && All(acts, Mixed);
  }

  lemma ThreeActions(g: Grid, a: Action, h: Grid, b: Action, i: Grid, c: Action, t: Grid)
    requires Shape(g) && Shape(h) && Shape(i) && Enabled(g, a) && Enabled(h, b) && Enabled(i, c)
    requires h == Apply(g, a) && i == Apply(h, b) && t == Apply(i, c)
    ensures Run(g, [a, b, c], t)
  {
    hide Shape, Enabled, Apply, Run;
    NoActions(g, []);
    RunExtends(g, [], g, a);
    RunExtends(g, [] + [a], h, b);
    RunExtends(g, [] + [a] + [b], i, c);
    assert [] + [a] + [b] + [c] == [a, b, c];
  }

  // One call, no batch, and the elapsed time read while its task runs. The task ends `n` nanoseconds
  // later and is billed in full before the busy time is loaded, so the quotient is any size.
  lemma LateLoad(n: nat) returns (g: Grid, acts: seq<Action>, t: Grid)
    ensures OneApiReading(g, acts, t, 1, 0) && g.batchIds == t.batchIds == {} && All(acts, CallsOnly)
    ensures g.one.clock.now == 1 && t.one.clock.now == 1 + n
    ensures Ratio(t.busy, 1, 1) == (1 + n) as real
    ensures n > 0 ==> GridUtilization(t.busy, 1, 1) == 1.0
  {
    hide Inv, Shape, Run, Reachable, ReachableBy, Apply, Enabled, GridUtilization, Untouched;
    var f := CallRunning();
    StartsTimed(f);
    hide Calling;
    g := TimePasses(f, 0, 1);
    var h := TimePasses(g, 1, n);
    var i := TaskEnds(h, 1 + n);
    t := TaskIsBilled(i, 1 + n);
    ByCallsIsReachable(g);
    ByCallsIsReachable(h);
    ByCallsIsReachable(i);
    ByCallsIsReachable(t);
    acts := [Tick(n), One(L.Advance(0)), One(L.Advance(0))];
    ThreeActions(g, Tick(n), h, One(L.Advance(0)), i, One(L.Advance(0)), t);
    EachApiFits(t, 1, 0);
    assert All(acts, CallsOnly) && All(acts, NoBatchWork);
    hide Timed;
    Clamped(t.busy);
  }

  lemma Clamped(busy: nat)
    ensures Ratio(busy, 1, 1) == busy as real
    ensures busy > 1 ==> GridUtilization(busy, 1, 1) == 1.0
  {}

  // ----- a call and a batch -----

  ghost predicate At(g: Grid, w: B.Pc, clock: Clock) {
    && ReachableBy(g, 1, 0, Mixed) && Shape(g) && g.draft.None?
    && |g.one.callers| == 1 && g.one.callers[0].pc == L.Running(0, 0) && g.one.clock == clock
    && g.many.workers == [w] && g.many.clock == clock
  }

  lemma BatchOpened() returns (g: Grid)
    ensures ReachableBy(g, 1, 0, Mixed) && Shape(g) && Untouched(g)
    ensures |g.one.callers| == 1 && g.one.callers[0].pc == L.Running(0, 0)
    ensures g.draft.Some? && g.draft.value.count == 1 && g.draft.value.ids == []
  {
    g := CallRunning();
    ByCallsIsReachable(g);
    hide Inv, Reachable, ReachableBy;
    g := Go(g, Open(1, (id, lane) => None, v => false), Mixed);
  }

  lemma WorkerStarted() returns (g: Grid)
    ensures At(g, B.Claiming, Started(1)) && g.many.cursor == 0 && g.many.count == 1
  {
    g := BatchOpened();
    g := Go(g, Draw, Mixed);
    g := Go(g, Launch, Mixed);
  }

  // The worker on its one job, up to the start of the task.
  ghost predicate Working(s: B.State) {
    && |s.workers| == 1 && s.clock == Started(1)
    && match s.workers[0]
       case Claiming => s.cursor == 0 && s.count == 1
       case Fetched(k) => k == 0
       case Taken(k) => k == 0
       case Marked(k) => k == 0
       case Raised(k, _) => k == 0
       case Peaked(k) => k == 0
       case Begun(k) => k == 0
       case Working(k, since) => k == 0 && since == 0
       case _ => false
  }

  lemma WorkProceeds(s: B.State)
    requires B.ShapeInv(s) && Working(s) && !s.workers[0].Working?
    ensures B.Enabled(s, B.Advance(0)) && Working(B.Step(s, 0))
    ensures s.workers[0].Claiming? ==> B.Step(s, 0).workers[0] == B.Fetched(0)
    ensures !s.workers[0].Claiming? ==> B.RankW(B.Step(s, 0).workers[0]) < B.RankW(s.workers[0])
  {}

  lemma WorkerWorking() returns (g: Grid)
    ensures At(g, B.Working(0, 0), Started(1))
  {
    g := WorkerStarted();
    WorkProceeds(g.many);
    g := Work(g);
    while !g.many.workers[0].Working?
      invariant ReachableBy(g, 1, 0, Mixed) && Shape(g) && g.draft.None?
      invariant |g.one.callers| == 1 && g.one.callers[0].pc == L.Running(0, 0) && g.one.clock == Started(1)
      invariant Working(g.many) && !g.many.workers[0].Claiming?
      decreases B.RankW(g.many.workers[0])
    {
      WorkProceeds(g.many);
      hide B.Step, L.ShapeInv, B.ShapeInv;
      g := Work(g);
    }
  }

  lemma TimeIsUp() returns (g: Grid)
    ensures At(g, B.Working(0, 0), Started(1).(now := 1))
  {
    g := WorkerWorking();
    g := Go(g, Tick(1), Mixed);
  }

  lemma CallFinished() returns (g: Grid)
    ensures ReachableBy(g, 1, 0, Mixed) && Shape(g) && g.draft.None? && g.one.clock == Started(1).(now := 1)
    ensures |g.one.callers| == 1 && g.one.callers[0].pc == L.Finished(0, 0, 1)
    ensures g.many.workers == [B.Working(0, 0)] && g.many.clock == Started(1).(now := 1)
  {
    g := TimeIsUp();
    g := Call(g, Mixed);
  }

  lemma BothFinished() returns (g: Grid)
    ensures ReachableBy(g, 1, 0, Mixed) && Shape(g) && g.draft.None? && g.one.clock.now == 1
    ensures |g.one.callers| == 1 && g.one.callers[0].pc == L.Finished(0, 0, 1)
    ensures |g.many.workers| == 1 && g.many.workers[0].Worked?
    ensures g.many.workers[0].since == 0 && g.many.workers[0].until == 1
    ensures g.one.clock.busy == 0 && g.many.clock.busy == 0
  {
    g := CallFinished();
    g := Work(g);
  }

  lemma AnyIsReachable(g: Grid)
    requires ReachableBy(g, 1, 0, Mixed)
    ensures Reachable(g, 1, 0)
  {}

  lemma MixedUseNeedsTheClamp() returns (g: Grid)
    ensures Reachable(g, 1, 0) && g.one.clock.now == 1 && g.busy == 2
    ensures GridUtilization(g.busy, 1, 1) == 1.0 && Ratio(g.busy, 1, 1) == 2.0
  {
    hide Reachable, ReachableBy, Inv, Run;
    g := BothFinished();
    g := Call(g, Mixed);
    g := Work(g);
    AnyIsReachable(g);
    EachApiFits(g, 1, 0);
  }
}
