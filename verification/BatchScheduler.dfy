// A batch run as the scheduler performs it: the run state, changed in place by its workers, from
// drawing the ids to the sorted results. The interleaving of the workers is arbitrary. Lines are
// those of crates/pit-scheduler/src/lib.rs.
module BatchScheduler {
  import opened Wrappers
  import opened Sums
  import opened GridClock
  import opened EntryOrder
  import opened Sorting
  import opened Executions
  import opened BatchProtocol
  import opened BatchSafety
  import opened BatchTheorems
  import opened BatchHistory

  datatype Snapshot = Snapshot(
    lanes: seq<LaneState>, running: int, queued: int, completed: int, failed: int, peak: nat)

  datatype SchedulerRun = SchedulerRun(results: seq<Report>, events: seq<Event>, snapshot: Snapshot)

  predicate ById(p: Report, q: Report) { p.id <= q.id }

  class RunState {
    var count: nat
    var ids: seq<nat>
    var task: (nat, nat) -> Option<ExecutionStatus>
    var rejects: ExecutionStatus -> bool
    var cursor: nat
    var queued: int
    var running: int
    var completed: int
    var failed: int
    var peak: nat
    var lanes: seq<LaneState>
    var events: seq<Event>
    var results: seq<Report>
    var workers: seq<Pc>
    var nextId: nat
    var now: nat
    var busyNanos: nat
    ghost var jobs: seq<Job>
    ghost var order: seq<nat>
    ghost var billed: seq<nat>
    ghost var idleSince: seq<nat>

    ghost function Times(): Clock
      reads this
    {
      Clock(now, busyNanos, billed, idleSince)
    }

    ghost function Model(): State
      reads this
    {
      State(count, ids, task, rejects, cursor, queued, running, completed, failed, peak, lanes, events,
            results, workers, jobs, order, nextId, Times())
    }

    // Lines 423-436: the state of a new run, on the ids just drawn. The id counter and the busy time
    // live on in the scheduler; here they are handed over from the run before.
    constructor (before: RunState, taken: seq<nat>, ids: seq<nat>, nextId: nat, events: seq<Event>,
                 task: (nat, nat) -> Option<ExecutionStatus>, rejects: ExecutionStatus -> bool)
      requires ids == DrawIds(before.nextId, taken) && nextId == IdsAfter(before.nextId, taken)
      requires events == QueuedEvents(ids)
      ensures Model() == Fresh(before.Model(), taken, task, rejects)
    {
      count, cursor, queued, running, completed, failed, peak := |taken|, 0, |taken|, 0, 0, 0, 0;
      this.ids, this.nextId, this.events := ids, nextId, events;
      this.task, this.rejects := task, rejects;
      lanes, workers, jobs := FreeLanes(|before.lanes|), NewWorkers(|before.lanes|), NewJobs(|taken|);
      results, order := [], [];
      now, busyNanos, billed, idleSince := before.now, before.busyNanos, before.billed, before.idleSince;
    }

    // A scheduler before its first batch.
    constructor Unused(laneCount: nat)
      ensures Model() == Init(laneCount)
    {
      count, cursor, queued, running, completed, failed, peak, nextId := 0, laneCount, 0, 0, 0, 0, 0, 0;
      ids, events, results, jobs, order := [], [], [], [], [];
      task, rejects := Init(laneCount).task, Init(laneCount).rejects;
      lanes, workers := Init(laneCount).lanes, Init(laneCount).workers;
      now, busyNanos := 0, 0;
      billed, idleSince := GridClock.Started(laneCount).billed, GridClock.Started(laneCount).idleSince;
    }

    method PushEvent(event: Event)
      modifies this`events
      ensures events == old(events) + [event]
    {
      events := events + [event];
    }

    method SetLane(lane: nat, state: LaneState)
      requires lane < |lanes|
      modifies this`lanes
      ensures lanes == old(lanes)[lane := state]
    {
      lanes := lanes[lane := state];
    }

    function View(): Snapshot
      reads this
    {
      Snapshot(lanes, running, queued, completed, failed, peak)
    }

    method TakeSnapshot() returns (snapshot: Snapshot)
      ensures snapshot == View()
    {
      snapshot := Snapshot(lanes, running, queued, completed, failed, peak);
    }

    method Move(w: nat, pc: Pc)
      requires w < |workers|
      modifies this`workers
      ensures workers == old(workers)[w := pc]
    {
      workers := workers[w := pc];
    }

    ghost predicate At(w: nat)
      reads this
    {
      ShapeInv(Model()) && Enabled(Model(), Advance(w))
    }

    // Lines 452-455: take the index at the cursor and move the cursor on, or leave past the end.
    method Claim(w: nat)
      requires At(w) && workers[w].Claiming?
      modifies this`cursor, this`jobs, this`workers
      ensures Model() == Step(old(Model()), w)
    {
      var index := cursor;
      cursor := cursor + 1;
      if index >= count {
        Move(w, Exited);
      } else {
        jobs := jobs[index := Active(w)];
        Move(w, Fetched(index));
      }
    }

    method Dequeue(w: nat)
      requires At(w) && workers[w].Fetched?
      modifies this`queued, this`workers
      ensures Model() == Step(old(Model()), w)
    {
      queued := queued - 1;
      Move(w, Taken(workers[w].job));
    }

    method MarkLane(w: nat)
      requires At(w) && workers[w].Taken?
      modifies this`lanes, this`workers
      ensures Model() == Step(old(Model()), w)
    {
      SetLane(w, Running(ids[workers[w].job]));
      Move(w, Marked(workers[w].job));
    }

    method RaiseRunning(w: nat)
      requires At(w) && workers[w].Marked?
      modifies this`running, this`order, this`workers
      ensures Model() == Step(old(Model()), w)
    {
      running := running + 1;
      order := order + [w];
      Move(w, Raised(workers[w].job, AsCount(running)));
    }

    method RaisePeak(w: nat)
      requires At(w) && workers[w].Raised?
      modifies this`peak, this`workers
      ensures Model() == Step(old(Model()), w)
    {
      if workers[w].seen > peak {
        peak := workers[w].seen;
      }
      Move(w, Peaked(workers[w].job));
    }

    method LogStart(w: nat)
      requires At(w) && workers[w].Peaked?
      modifies this`events, this`workers
      ensures Model() == Step(old(Model()), w)
    {
      PushEvent(Event.Started(ids[workers[w].job], w));
      Move(w, Begun(workers[w].job));
    }

    // `busy_nanos.fetch_add`, with the lane's history.
    method Charge(lane: nat, since: nat, until: nat)
      requires lane < |billed| == |idleSince| && since <= until
      modifies this`busyNanos, this`billed, this`idleSince
      ensures Times() == Bill(old(Times()), lane, since, until)
    {
      busyNanos := busyNanos + (until - since);
      billed := billed[lane := billed[lane] + (until - since)];
      idleSince := idleSince[lane := until];
    }

    method StartTask(w: nat)
      requires At(w) && workers[w].Begun?
      modifies this`workers
      ensures Model() == Step(old(Model()), w)
    {
      Move(w, Working(workers[w].job, now));
    }

    // Lines 473-484: the task has run, and what it returned is classified.
    method FinishTask(w: nat)
      requires At(w) && workers[w].Working?
      modifies this`workers
      ensures Model() == Step(old(Model()), w)
    {
      var k := workers[w].job;
      var value := task(ids[k], w);
      Move(w, Worked(k, Verdict(value.Some? && !rejects(value.value), value), workers[w].since, now));
    }

    // Lines 496-499.
    method AddBusyTime(w: nat)
      requires At(w) && workers[w].Worked?
      modifies this`busyNanos, this`billed, this`idleSince, this`workers
      ensures Model() == Step(old(Model()), w)
    {
      var Worked(k, verdict, since, until) := workers[w];
      Charge(w, since, until);
      Move(w, Billed(k, verdict));
    }

    // Lines 500-515, first half: count the outcome.
    method Tally(w: nat)
      requires At(w) && workers[w].Billed?
      modifies this`completed, this`failed, this`workers
      ensures Model() == Step(old(Model()), w)
    {
      if workers[w].verdict.success {
        completed := completed + 1;
      } else {
        failed := failed + 1;
      }
      Move(w, Tallied(workers[w].job, workers[w].verdict));
    }

    method LogEnd(w: nat)
      requires At(w) && workers[w].Tallied?
      modifies this`events, this`workers
      ensures Model() == Step(old(Model()), w)
    {
      PushEvent(Ending(ids[workers[w].job], w, workers[w].verdict.success));
      Move(w, Logged(workers[w].job, workers[w].verdict));
    }

    // `running.fetch_sub`, with the order of entry.
    method LowerCount(w: nat)
      modifies this`running, this`order
      ensures running == old(running) - 1 && order == Without(old(order), w)
    {
      running := running - 1;
      order := Without(order, w);
    }

    method LowerRunning(w: nat)
      requires At(w) && workers[w].Logged?
      modifies this`running, this`order, this`workers
      ensures Model() == Step(old(Model()), w)
    {
      LowerCount(w);
      Move(w, Lowered(workers[w].job, workers[w].verdict));
    }

    method FreeLane(w: nat)
      requires At(w) && workers[w].Lowered?
      modifies this`lanes, this`workers
      ensures Model() == Step(old(Model()), w)
    {
      SetLane(w, LaneState.Free);
      Move(w, Freed(workers[w].job, workers[w].verdict));
    }

    // The push into the result vector, with the history of the job.
    method PushResult(report: Report)
      requires report.job < |jobs|
      modifies this`results, this`jobs
      ensures results == old(results) + [report]
      ensures jobs == old(jobs)[report.job := Finished(report.lane, report.verdict)]
    {
      results := results + [report];
      jobs := jobs[report.job := Finished(report.lane, report.verdict)];
    }

    method HandIn(w: nat)
      requires At(w) && workers[w].Freed?
      modifies this`results, this`jobs, this`workers
      ensures Model() == Step(old(Model()), w)
    {
      var Freed(k, verdict) := workers[w];
      PushResult(Report(k, ids[k], w, verdict));
      Move(w, Claiming);
    }

    // One atomic action of one worker, whichever comes next.
    method WorkerStep(w: nat)
      requires Inv(Model()) && Enabled(Model(), Advance(w))
      modifies this
      ensures Model() == Step(old(Model()), w) && Inv(Model())
    {
      StepKeepsInv(Model(), w);
      match workers[w]
      case Claiming => Claim(w);
      case Fetched(_) => Dequeue(w);
      case Taken(_) => MarkLane(w);
      case Marked(_) => RaiseRunning(w);
      case Raised(_, _) => RaisePeak(w);
      case Peaked(_) => LogStart(w);
      case Begun(_) => StartTask(w);
      case Working(_, _) => FinishTask(w);
      case Worked(_, _, _, _) => AddBusyTime(w);
      case Billed(_, _) => Tally(w);
      case Tallied(_, _) => LogEnd(w);
      case Logged(_, _) => LowerRunning(w);
      case Lowered(_, _) => FreeLane(w);
      case Freed(_, _) => HandIn(w);
    }

    // The worker loops of all lanes, in any interleaving, with time passing and other callers
    // drawing ids in between, until every worker has left its loop. `acts` is what happened.
    method RunWorkers() returns (ghost acts: seq<Action>)
      requires |workers| > 0 && Reachable(Model(), |workers|)
      modifies this
      ensures |workers| == old(|workers|) && Reachable(Model(), |workers|) && Idle(Model())
      ensures Continues(old(Model()), acts, Model())
    {
      ReachableInv(Model(), |workers|);
      RunNone(Model());
      acts := [];
      assert Continues(Model(), acts, Model());
      hide Inv, Reachable, Measure, Continues;
      while exists w :: 0 <= w < |workers| && !workers[w].Exited?
        invariant |workers| == old(|workers|) && Reachable(Model(), |workers|) && Inv(Model())
        invariant Continues(old(Model()), acts, Model())
        decreases Measure(Model())
      {
        var w :| 0 <= w < |workers| && !workers[w].Exited?;
        ghost var before := Model();
        ghost var more := Round(w);
        ContinuesConcat(old(Model()), acts, before, more, Model());
        acts := acts + more;
      }
    }

    // One action of worker `w`; time passes; others draw ids.
    method Round(w: nat) returns (ghost more: seq<Action>)
      requires |workers| > 0 && Reachable(Model(), |workers|) && Inv(Model())
      requires w < |workers| && !workers[w].Exited?
      modifies this
      ensures |workers| == old(|workers|) && Reachable(Model(), |workers|) && Inv(Model())
      ensures Measure(Model()) < old(Measure(Model())) && Continues(old(Model()), more, Model())
    {
      hide Inv, Reachable, Measure, Run;
      Turn(w);
      ghost var turned := Model();
      var nanos := Pass();
      ghost var passed := Model();
      var drawn := OthersDraw();
      RunConcat(old(Model()), [Advance(w)], turned, [Tick(nanos)], passed);
      RunConcat(old(Model()), [Advance(w)] + [Tick(nanos)], passed, [Foreign(drawn)], Model());
      more := [Advance(w)] + [Tick(nanos)] + [Foreign(drawn)];
    }

    method Turn(w: nat)
      requires |workers| > 0 && Reachable(Model(), |workers|) && Inv(Model())
      requires w < |workers| && !workers[w].Exited?
      modifies this
      ensures |workers| == old(|workers|) && Reachable(Model(), |workers|) && Inv(Model())
      ensures Measure(Model()) < old(Measure(Model())) && Run(old(Model()), [Advance(w)], Model())
    {
      EveryActionGetsCloser(Model(), w);
      StepMovesOneWorker(Model(), w);
      RunOne(Model(), Advance(w));
      ReachableExtends(Model(), |workers|, Advance(w));
      WorkerStep(w);
    }

    method Pass() returns (nanos: nat)
      requires |workers| > 0 && Reachable(Model(), |workers|) && Inv(Model())
      modifies this`now
      ensures Reachable(Model(), |workers|) && Inv(Model()) && Measure(Model()) == old(Measure(Model()))
      ensures Run(old(Model()), [Tick(nanos)], Model())
    {
      hide Inv, ShapeInv, Reachable, Measure, Run, Apply;
      nanos :| nanos >= 0;
      ghost var before := Model();
      ghost var after := before.(clock := before.clock.(now := before.clock.now + nanos));
      InvHasShape(before);
      NothingMoves(before, Tick(nanos), after);
      QuietChange(before, |workers|, Tick(nanos), after);
      ReachableInv(after, |workers|);
      now := now + nanos;
    }

    method OthersDraw() returns (drawn: nat)
      requires |workers| > 0 && Reachable(Model(), |workers|) && Inv(Model())
      modifies this`nextId
      ensures Reachable(Model(), |workers|) && Inv(Model()) && Measure(Model()) == old(Measure(Model()))
      ensures Run(old(Model()), [Foreign(drawn)], Model())
    {
      hide Inv, ShapeInv, Reachable, Measure, Run, Apply;
      drawn :| drawn >= 0;
      ghost var before := Model();
      ghost var after := before.(nextId := before.nextId + drawn);
      InvHasShape(before);
      NothingMoves(before, Foreign(drawn), after);
      QuietChange(before, |workers|, Foreign(drawn), after);
      ReachableInv(after, |workers|);
      nextId := nextId + drawn;
    }
  }

  lemma ScoresOfJoined(s: State, lanes: nat, sorted: seq<Report>)
    requires lanes > 0 && Reachable(s, lanes) && Idle(s) && multiset(sorted) == multiset(s.results)
    ensures s.completed == Sum(sorted, SuccessW) && s.failed == Sum(sorted, FailureW)
  {
    ReachableInv(s, lanes);
    AtRestSums(s.workers);
    SumPermutation(sorted, s.results, SuccessW);
    SumPermutation(sorted, s.results, FailureW);
  }

  lemma ExactPeak(s: State, lanes: nat, a: Action, acts: seq<Action>, t: State)
    requires lanes > 0 && Reachable(s, lanes) && a.Begin? && Enabled(s, a) && Idle(t)
    requires Continues(Fresh(s, a.taken, a.task, a.rejects), acts, t)
    ensures t.peak == MostBusy(Fresh(s, a.taken, a.task, a.rejects), acts, t)
  {
    ReachableInv(s, lanes);
    PeakIsMostBusy(s, lanes, a, acts, t);
  }

  class PitScheduler {
    var run: RunState      // the current or last run

    constructor (laneCount: nat)
      requires laneCount > 0
      ensures Idles(laneCount) && fresh(run)
    {
      run := new RunState.Unused(laneCount);
      new;
      InitInv(laneCount);
      assert Run(Init(laneCount), [], run.Model());
    }

    ghost predicate Idles(laneCount: nat)
      reads this, run
    {
      laneCount > 0 && |run.workers| == laneCount && Reachable(run.Model(), laneCount) && Idle(run.Model())
    }

    // Lines 424-427: one id a job, while other callers draw ids too.
    static method DrawAll(next: nat, taken: seq<nat>) returns (ids: seq<nat>, after: nat)
      ensures ids == DrawIds(next, taken) && after == IdsAfter(next, taken)
    {
      ids, after := [], next;
      for k := 0 to |taken|
        invariant ids == DrawIds(next, taken[..k]) && after == IdsAfter(next, taken[..k])
      {
        DrawOneMore(next, taken[..k], taken[k]);
        assert taken[..k + 1] == taken[..k] + [taken[k]];
        ids, after := ids + [after + taken[k]], after + taken[k] + 1;
      }
      assert taken[..|taken|] == taken;
    }

    // Lines 432-434.
    static method QueueAll(ids: seq<nat>) returns (events: seq<Event>)
      ensures events == QueuedEvents(ids)
    {
      events := [];
      for k := 0 to |ids|
        invariant events == QueuedEvents(ids[..k])
      {
        events := events + [Queued(ids[k])];
        assert events == QueuedEvents(ids[..k + 1]);
      }
      assert ids[..|ids|] == ids;
    }

    method Begin(ghost laneCount: nat, taken: seq<nat>, task: (nat, nat) -> Option<ExecutionStatus>,
                 rejects: ExecutionStatus -> bool)
      requires Idles(laneCount) && taken != []
      modifies this
      ensures fresh(run) && |run.workers| == laneCount && Reachable(run.Model(), laneCount)
      ensures run.Model() == Fresh(old(run.Model()), taken, task, rejects)
    {
      ReachableInv(run.Model(), laneCount);
      ReachableExtends(run.Model(), laneCount, Action.Begin(taken, task, rejects));
      var ids, nextId := DrawAll(run.nextId, taken);
      var events := QueueAll(ids);
      run := new RunState(run, taken, ids, nextId, events, task, rejects);
      ReachableInv(run.Model(), laneCount);
    }

    // `run_many_classified`, from the guard on the count to the report.
    // `acts` is what happened between the start of its workers and the join.
    method RunManyClassified(
      ghost laneCount: nat, taken: seq<nat>, task: (nat, nat) -> Option<ExecutionStatus>,
      rejects: ExecutionStatus -> bool)
      returns (r: Result<SchedulerRun, string>, ghost acts: seq<Action>)
      requires Idles(laneCount)
      modifies this
      ensures Idles(laneCount)
      ensures taken == [] ==> r.Err? && run == old(run)
      ensures taken != [] ==> r.Ok? && r.value.events == run.events && r.value.snapshot == run.View()
      ensures taken != [] ==> Complete(r.value, DrawIds(old(run.nextId), taken), laneCount, task, rejects)
      ensures taken != [] ==> Continues(Fresh(old(run.Model()), taken, task, rejects), acts, run.Model())
      ensures taken != [] ==>
        r.value.snapshot.peak == MostBusy(Fresh(old(run.Model()), taken, task, rejects), acts, run.Model())
    {
      acts := [];
      if taken == [] {
        r := Err("execution count must be greater than zero");
        return;
      }
      DrawnIds(run.nextId, taken);
      ghost var before := run.Model();
      Begin(laneCount, taken, task, rejects);
      acts := run.RunWorkers();
      BatchStays(Fresh(before, taken, task, rejects), acts, run.Model());
      ExactPeak(before, laneCount, Action.Begin(taken, task, rejects), acts, run.Model());
      var sorted := Sort(run.results, ById);
      SortSorts(run.results, ById);
      var snapshot := run.TakeSnapshot();
      ResultsComeBackInSubmissionOrder(run.Model(), laneCount, sorted);
      JoinedCountersAreFinal(run.Model(), laneCount);
      LogNeverExceedsPeak(run.Model(), laneCount);
      JoinedLogIsWellFormed(run.Model(), laneCount);
      LogMatchesResults(run.Model(), laneCount, sorted);
      ScoresOfJoined(run.Model(), laneCount, sorted);
      r := Ok(SchedulerRun(sorted, run.events, snapshot));
    }
  }

  // What one run reports: a result a job, in submission order, with the classifier's verdict on what
  // the task returned for that id; final counters; and a log that tells the same story.
  ghost predicate Complete(run: SchedulerRun, ids: seq<nat>, lanes: nat,
                           task: (nat, nat) -> Option<ExecutionStatus>, rejects: ExecutionStatus -> bool) {
    && |run.results| == |ids|
    && (forall k :: 0 <= k < |ids| ==> Answers(run.results[k], ids[k], lanes, task, rejects))
    && run.snapshot.queued == 0 && run.snapshot.running == 0
    && run.snapshot.completed == Sum(run.results, SuccessW)
    && run.snapshot.failed == Sum(run.results, FailureW)
    && run.snapshot.peak <= lanes && run.snapshot.peak <= |ids|
    && |run.snapshot.lanes| == lanes && (forall w :: 0 <= w < lanes ==> run.snapshot.lanes[w].Free?)
    && Logged(run, ids, lanes)
  }

  // Three events a job, the Queued ones first and in id order; each result with the start and the
  // ending the log has for it; lanes that take turns; and at no moment more executions than the peak.
  ghost predicate Logged(run: SchedulerRun, ids: seq<nat>, lanes: nat)
    requires |run.results| == |ids|
  {
    && Increasing(ids) && |run.events| == 3 * |ids|
    && (forall k :: 0 <= k < |ids| ==> run.events[k] == Event.Queued(ids[k]))
    && (forall k :: 0 <= k < |ids| ==> OfId(run.events, ids[k]) == LifeOfReport(run.results[k]))
    && (forall w :: 0 <= w < lanes ==> Paired(OfLane(run.events, w)))
    && (forall n :: 0 <= n <= |run.events| ==> Depth(run.events[..n]) <= run.snapshot.peak)
  }

  predicate Answers(r: Report, id: nat, lanes: nat,
                    task: (nat, nat) -> Option<ExecutionStatus>, rejects: ExecutionStatus -> bool) {
    && r.id == id && r.lane < lanes
    && r.verdict.value == task(id, r.lane)
    && (r.verdict.success <==> r.verdict.value.Some? && !rejects(r.verdict.value.value))
  }
}
