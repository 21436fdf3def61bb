// Every atomic action of every worker keeps the batch invariants, whatever the schedule.
module BatchSafety {
  import opened Sums
  import opened GridClock
  import opened EntryOrder
  import opened BatchProtocol

  lemma InvHasShape(s: State)
    requires Inv(s)
    ensures ShapeInv(s)
  {}

  // ----- one worker moves -----

  lemma StepMovesOneWorker(s: State, w: nat)
    requires ShapeInv(s) && Enabled(s, Advance(w))
    ensures var t := Step(s, w);
      && |t.workers| == |s.workers| && t.workers == s.workers[w := t.workers[w]]
      && t.count == s.count && t.ids == s.ids && t.nextId == s.nextId && t.task == s.task && t.rejects == s.rejects
  {
    hide Next;
  }

  lemma StepKeepsShape(s: State, w: nat)
    requires ShapeInv(s) && Enabled(s, Advance(w))
    ensures ShapeInv(Step(s, w))
  {}

  // A job changes hands when it is claimed and when its report is handed in.
  lemma JobMoves(s: State, w: nat)
    requires ShapeInv(s) && Enabled(s, Advance(w))
    ensures var t := Step(s, w); var pc, after := s.workers[w], Step(s, w).workers[w];
      if pc.Claiming? then
        && t.cursor == s.cursor + 1
        && (if s.cursor < s.count then after == Fetched(s.cursor) && t.jobs == s.jobs[s.cursor := Active(w)]
            else after == Exited && t.jobs == s.jobs)
      else
        && t.cursor == s.cursor
        && (if pc.Freed? then after == Claiming && t.jobs == s.jobs[pc.job := Finished(w, pc.verdict)]
            else Holds(after) && after.job == pc.job && t.jobs == s.jobs)
  {}

  lemma StepKeepsJobs(s: State, w: nat)
    requires ShapeInv(s) && JobInv(s) && Enabled(s, Advance(w))
    ensures ShapeInv(Step(s, w)) && JobInv(Step(s, w))
  {
    StepKeepsShape(s, w);
    StepMovesOneWorker(s, w);
    JobMoves(s, w);
    var t := Step(s, w);
    hide Step;
    assert forall k :: 0 <= k < s.count && s.jobs[k].Active? ==> HeldBy(s, s.jobs[k].worker, k);
    forall k | 0 <= k < t.count && t.jobs[k].Active? ensures HeldBy(t, t.jobs[k].worker, k) {
      assert t.jobs[k] == s.jobs[k] || (s.workers[w].Claiming? && k == s.cursor);
    }
  }

  // A verdict is counted when the worker tallies it, and passes to the report it hands in.
  lemma ScoreMoves(s: State, w: nat)
    requires ShapeInv(s) && Enabled(s, Advance(w))
    ensures var t := Step(s, w); var pc := s.workers[w];
      if pc.Freed? then
        && t.results == s.results + [Report(pc.job, s.ids[pc.job], w, pc.verdict)]
        && t.completed == s.completed && t.failed == s.failed && WonW(t.workers[w]) == LostW(t.workers[w]) == 0
      else
        && t.results == s.results
        && t.completed == s.completed + WonW(t.workers[w]) - WonW(pc)
        && t.failed == s.failed + LostW(t.workers[w]) - LostW(pc)
  {}

  lemma StepKeepsCursor(s: State, w: nat)
    requires ShapeInv(s) && CursorInv(s) && Enabled(s, Advance(w))
    ensures CursorInv(Step(s, w))
  {
    var t := Step(s, w);
    StepMovesOneWorker(s, w);
    JobMoves(s, w);
    ScoreMoves(s, w);
    hide Step;
    SumUpdate(s.workers, w, t.workers[w], HoldsW);
    SumUpdate(s.workers, w, t.workers[w], ExitedW);
  }

  lemma StepKeepsQueued(s: State, w: nat)
    requires ShapeInv(s) && Enabled(s, Advance(w))
    requires s.queued == s.count - Claimed(s) + Sum(s.workers, FetchedW)
    ensures Step(s, w).queued == s.count - Claimed(Step(s, w)) + Sum(Step(s, w).workers, FetchedW)
  {
    StepMovesOneWorker(s, w);
    SumUpdate(s.workers, w, Step(s, w).workers[w], FetchedW);
  }

  lemma StepKeepsRunning(s: State, w: nat)
    requires ShapeInv(s) && Enabled(s, Advance(w))
    requires s.running == Sum(s.workers, CountedW)
    ensures Step(s, w).running == Sum(Step(s, w).workers, CountedW)
  {
    StepMovesOneWorker(s, w);
    SumUpdate(s.workers, w, Step(s, w).workers[w], CountedW);
  }

  lemma StepKeepsScores(s: State, w: nat)
    requires ShapeInv(s) && Enabled(s, Advance(w))
    requires s.completed == Sum(s.results, SuccessW) + Sum(s.workers, WonW)
    requires s.failed == Sum(s.results, FailureW) + Sum(s.workers, LostW)
    ensures var t := Step(s, w);
      && t.completed == Sum(t.results, SuccessW) + Sum(t.workers, WonW)
      && t.failed == Sum(t.results, FailureW) + Sum(t.workers, LostW)
  {
    var t := Step(s, w);
    StepMovesOneWorker(s, w);
    ScoreMoves(s, w);
    hide Step;
    SumUpdate(s.workers, w, t.workers[w], WonW);
    SumUpdate(s.workers, w, t.workers[w], LostW);
    if s.workers[w].Freed? {
      var r := t.results[|s.results|];
      assert t.results == s.results + [r];
      SumAppend(s.results, r, SuccessW);
      SumAppend(s.results, r, FailureW);
    }
  }

  lemma StepKeepsResults(s: State, w: nat)
    requires ShapeInv(s) && JobInv(s) && ResultInv(s) && Enabled(s, Advance(w))
    ensures ShapeInv(Step(s, w)) && ResultInv(Step(s, w))
  {
    StepKeepsShape(s, w);
    StepMovesOneWorker(s, w);
    var t := Step(s, w);
    assert forall r :: 0 <= r < |s.results| ==> Reported(s, s.results[r]);
    assert t.results == s.results || (s.workers[w].Freed? && t.results == s.results + [t.results[|s.results|]]);
    forall r | 0 <= r < |t.results| ensures Reported(t, t.results[r]) {
      if r < |s.results| {
        assert Reported(s, s.results[r]);
      }
    }
  }

  lemma StepKeepsLanes(s: State, w: nat)
    requires ShapeInv(s) && LaneInv(s) && Enabled(s, Advance(w))
    ensures ShapeInv(Step(s, w)) && LaneInv(Step(s, w))
  {
    StepKeepsShape(s, w);
    StepMovesOneWorker(s, w);
    var t := Step(s, w);
    assert forall v :: 0 <= v < |s.lanes| && v != w ==> t.lanes[v] == s.lanes[v];
  }

  lemma RaiseKeepsOrder(s: State, w: nat)
    requires ShapeInv(s) && OrderInv(s) && Enabled(s, Advance(w)) && s.workers[w].Marked?
    ensures OrderInv(Step(s, w))
  {
    var t := Step(s, w);
    assert w !in s.order;
    forall i | 0 <= i < |t.order| ensures Published(t, i) {
      assert i < |s.order| ==> Published(s, i) && s.order[i] in s.order;
    }
  }

  lemma LowerKeepsOrder(s: State, w: nat)
    requires ShapeInv(s) && OrderInv(s) && Enabled(s, Advance(w)) && s.workers[w].Logged?
    ensures OrderInv(Step(s, w))
  {
    var t := Step(s, w);
    assert w in s.order;
    WithoutMembers(s.order, w);
    forall i | 0 <= i < |t.order| ensures Published(t, i) {
      assert t.order[i] in t.order;
      assert Published(s, i) && Published(s, i + 1);
    }
  }

  lemma StepKeepsOrder(s: State, w: nat)
    requires ShapeInv(s) && OrderInv(s) && Enabled(s, Advance(w))
    ensures OrderInv(Step(s, w))
  {
    var t := Step(s, w);
    if s.workers[w].Marked? {
      RaiseKeepsOrder(s, w);
    } else if s.workers[w].Logged? {
      LowerKeepsOrder(s, w);
    } else {
      StepMovesOneWorker(s, w);
      assert t.order == s.order && t.running == s.running;
      assert Counted(t.workers[w]) <==> Counted(s.workers[w]);
      forall i | 0 <= i < |t.order| ensures Published(t, i) {
        assert Published(s, i);
      }
    }
  }

  // Workers counted as running are distinct lanes working on distinct jobs.
  lemma RunningBound(s: State)
    requires CursorInv(s) && OrderInv(s) && s.running == Sum(s.workers, CountedW)
    ensures 0 <= s.running <= |s.workers| && s.running <= s.count
  {
    EntrantsBelow(s.order, |s.workers|);
    SumLe(s.workers, CountedW, HoldsW);
  }

  lemma StepKeepsPeak(s: State, w: nat)
    requires ShapeInv(s) && PeakInv(s) && Enabled(s, Advance(w))
    requires Step(s, w).running <= |s.workers| && Step(s, w).running <= s.count
    ensures PeakInv(Step(s, w))
  {
    StepMovesOneWorker(s, w);
    var t := Step(s, w);
    assert t.workers[w].Raised? ==> t.workers[w].seen == AsCount(t.running);
  }

  lemma StepKeepsClock(s: State, w: nat)
    requires ShapeInv(s) && ClockInv(s) && Enabled(s, Advance(w))
    ensures ShapeInv(Step(s, w)) && ClockInv(Step(s, w))
  {
    StepKeepsShape(s, w);
    StepMovesOneWorker(s, w);
    var t := Step(s, w);
    var pc := s.workers[w];
    if pc.Worked? {
      BillFair(s.clock, |s.workers|, w, pc.since, pc.until);
    } else {
      assert t.clock == s.clock;
    }
  }

  // A worker reaches its verdict when the task returns, and carries it to the report.
  lemma VerdictMoves(s: State, w: nat)
    requires ShapeInv(s) && Enabled(s, Advance(w))
    ensures var pc, after := s.workers[w], Step(s, w).workers[w];
      Judged(after) ==>
        && Holds(pc) && after.job == pc.job
        && after.verdict == if Judged(pc) then pc.verdict else Judge(s, s.task(s.ids[pc.job], w))
  {}

  lemma StepKeepsVerdicts(s: State, w: nat)
    requires ShapeInv(s) && VerdictInv(s) && Enabled(s, Advance(w))
    ensures ShapeInv(Step(s, w)) && VerdictInv(Step(s, w))
  {
    StepKeepsShape(s, w);
    StepMovesOneWorker(s, w);
    ScoreMoves(s, w);
    VerdictMoves(s, w);
    hide Step;
  }

  // ----- the event log -----

  lemma LogAppend(events: seq<Event>, e: Event)
    ensures forall id :: OfId(events + [e], id) == OfId(events, id) + (if e.id == id then [e] else [])
    ensures forall lane ::
      OfLane(events + [e], lane) == OfLane(events, lane) + (if !e.Queued? && e.lane == lane then [e] else [])
    ensures e.Queued? ==> Depth(events + [e]) == Depth(events)
    ensures e.Started? ==> Depth(events + [e]) == Depth(events) + 1
    ensures e.Completed? || e.Failed? ==> Depth(events + [e]) == Depth(events) - 1
  {
    assert (events + [e])[..|events|] == events;
  }

  // The event a step writes, if it writes one.
  function Written(s: State, w: nat): seq<Event>
    requires ShapeInv(s) && Enabled(s, Advance(w))
  {
    match s.workers[w]
    case Peaked(k) => [Event.Started(s.ids[k], w)]
    case Tallied(k, verdict) => [Ending(s.ids[k], w, verdict.success)]
    case _ => []
  }

  lemma StepWrites(s: State, w: nat)
    requires ShapeInv(s) && Enabled(s, Advance(w))
    ensures Step(s, w).events == s.events + Written(s, w)
  {}

  // A step changes the life of the worker's own job only.
  lemma HistoryElsewhere(s: State, w: nat, k: nat)
    requires ShapeInv(s) && JobInv(s) && Enabled(s, Advance(w)) && k < s.count
    requires Holds(s.workers[w]) ==> s.workers[w].job != k
    ensures ShapeInv(Step(s, w)) && History(Step(s, w), k) == History(s, k)
  {
    StepKeepsShape(s, w);
    StepMovesOneWorker(s, w);
    assert s.jobs[k].Active? ==> HeldBy(s, s.jobs[k].worker, k);
    assert Step(s, w).jobs[k] == s.jobs[k] || (s.workers[w].Claiming? && s.jobs[k].Unclaimed?);
  }

  lemma HistoryHere(s: State, w: nat, k: nat)
    requires ShapeInv(s) && JobInv(s) && Enabled(s, Advance(w)) && HeldBy(s, w, k)
    ensures ShapeInv(Step(s, w)) && History(Step(s, w), k) == History(s, k) + Written(s, w)
  {
    StepKeepsShape(s, w);
    assert s.jobs[k] == Active(w);
    assert s.workers[w].Freed? ==> Step(s, w).jobs[k] == Finished(w, s.workers[w].verdict);
    assert !s.workers[w].Freed? ==> Step(s, w).jobs[k] == s.jobs[k];
  }

  // What a worker writes is about the job it holds.
  lemma WritesOwnJob(s: State, w: nat, k: nat)
    requires ShapeInv(s) && IdInv(s) && Enabled(s, Advance(w)) && k < s.count
    ensures Written(s, w) == [] ||
      (Written(s, w) == [Written(s, w)[0]] && (Written(s, w)[0].id == s.ids[k] <==> HeldBy(s, w, k)))
  {}

  lemma LifeGrows(s: State, w: nat, k: nat)
    requires ShapeInv(s) && IdInv(s) && JobInv(s) && Enabled(s, Advance(w)) && k < s.count
    requires OfId(s.events, s.ids[k]) == History(s, k)
    ensures ShapeInv(Step(s, w)) && OfId(Step(s, w).events, s.ids[k]) == History(Step(s, w), k)
  {
    StepKeepsShape(s, w);
    StepMovesOneWorker(s, w);
    StepWrites(s, w);
    WritesOwnJob(s, w, k);
    var e := Written(s, w);
    if HeldBy(s, w, k) {
      HistoryHere(s, w, k);
    } else {
      HistoryElsewhere(s, w, k);
    }
    hide Step, History, Written, ShapeInv, JobInv;
    if e == [] {
      assert s.events + e == s.events && History(s, k) + e == History(s, k);
    } else {
      LogAppend(s.events, e[0]);
      assert History(s, k) + [] == History(s, k);
    }
  }

  lemma StepKeepsLives(s: State, w: nat)
    requires ShapeInv(s) && IdInv(s) && JobInv(s) && LogInv(s) && Enabled(s, Advance(w))
    ensures ShapeInv(Step(s, w)) && Step(s, w).count == s.count
    ensures forall k :: 0 <= k < s.count ==> OfId(Step(s, w).events, s.ids[k]) == History(Step(s, w), k)
  {
    StepKeepsShape(s, w);
    StepMovesOneWorker(s, w);
    forall k | 0 <= k < s.count ensures OfId(Step(s, w).events, s.ids[k]) == History(Step(s, w), k) {
      LifeGrows(s, w, k);
    }
  }

  // A worker has written two events about its job by the time it hands the report in.
  lemma LogGrows(s: State, w: nat)
    requires ShapeInv(s) && Enabled(s, Advance(w))
    ensures WrittenW(s.workers[w]) + |Written(s, w)| ==
      WrittenW(Step(s, w).workers[w]) + (if s.workers[w].Freed? then 2 else 0)
  {}

  lemma StepKeepsLogLength(s: State, w: nat)
    requires ShapeInv(s) && Enabled(s, Advance(w))
    requires |s.events| == s.count + Sum(s.workers, WrittenW) + 2 * |s.results|
    ensures |Step(s, w).events| == s.count + Sum(Step(s, w).workers, WrittenW) + 2 * |Step(s, w).results|
  {
    StepMovesOneWorker(s, w);
    StepWrites(s, w);
    ScoreMoves(s, w);
    LogGrows(s, w);
    hide Step;
    SumUpdate(s.workers, w, Step(s, w).workers[w], WrittenW);
  }

  lemma StepKeepsLog(s: State, w: nat)
    requires ShapeInv(s) && IdInv(s) && JobInv(s) && LogInv(s) && Enabled(s, Advance(w))
    ensures ShapeInv(Step(s, w)) && LogInv(Step(s, w))
  {
    StepMovesOneWorker(s, w);
    StepKeepsLives(s, w);
    StepKeepsLogLength(s, w);
    StepWrites(s, w);
    assert forall e :: e in Written(s, w) ==> !e.Queued?;
  }

  lemma LaneEvents(s: State, w: nat, v: nat)
    requires ShapeInv(s) && Enabled(s, Advance(w))
    ensures OfLane(Step(s, w).events, v) == OfLane(s.events, v) + (if v == w then Written(s, w) else [])
  {
    StepWrites(s, w);
    if Written(s, w) != [] {
      LogAppend(s.events, Written(s, w)[0]);
    } else {
      assert s.events + [] == s.events;
    }
  }

  lemma StepKeepsLaneLogs(s: State, w: nat)
    requires ShapeInv(s) && LaneLogInv(s) && Enabled(s, Advance(w))
    ensures ShapeInv(Step(s, w)) && LaneLogInv(Step(s, w))
  {
    StepKeepsShape(s, w);
    StepMovesOneWorker(s, w);
    var t := Step(s, w);
    forall v | 0 <= v < |t.workers| ensures LaneLog(OfLane(t.events, v), t.workers[v], v, t.ids) {
      LaneEvents(s, w, v);
      if v == w {
        OwnLaneLog(s, w, OfLane(s.events, w));
      } else {
        assert OfLane(s.events, v) + [] == OfLane(s.events, v);
        assert t.workers[v] == s.workers[v];
      }
    }
  }

  lemma OwnLaneLog(s: State, w: nat, log: seq<Event>)
    requires ShapeInv(s) && Enabled(s, Advance(w))
    requires LaneLog(log, s.workers[w], w, s.ids)
    ensures ShapeInv(Step(s, w))
    ensures LaneLog(log + Written(s, w), Step(s, w).workers[w], w, s.ids)
  {
    StepKeepsShape(s, w);
    var pc := s.workers[w];
    var after := log + Written(s, w);
    if pc.Peaked? {
      assert after[..|after| - 1] == log;
    } else if pc.Tallied? {
      assert after[..|after| - 2] == log[..|log| - 1];
    } else {
      assert after == log;
    }
  }

  lemma OpensWithTheLog(s: State, w: nat)
    requires ShapeInv(s) && Enabled(s, Advance(w))
    ensures var pc, after := s.workers[w], Step(s, w).workers[w];
      if pc.Peaked? then !Open(pc) && Open(after)
      else if pc.Tallied? then Open(pc) && !Open(after)
      else Open(pc) <==> Open(after)
  {}

  // A log that grows by one event at most stays within the peak when it does so at its end.
  lemma PrefixesWithin(events: seq<Event>, more: seq<Event>, was: nat, peak: nat)
    requires |more| <= 1 && was <= peak && Depth(events + more) <= peak
    requires forall n :: 0 <= n <= |events| ==> Depth(events[..n]) <= was
    ensures forall n :: 0 <= n <= |events + more| ==> Depth((events + more)[..n]) <= peak
  {
    hide Depth;
    forall n | 0 <= n <= |events + more| ensures Depth((events + more)[..n]) <= peak {
      if n <= |events| {
        assert (events + more)[..n] == events[..n];
      } else {
        assert (events + more)[..n] == events + more;
      }
    }
  }

  lemma DepthMoves(s: State, w: nat)
    requires ShapeInv(s) && Enabled(s, Advance(w))
    ensures |Step(s, w).workers| == |s.workers|
    ensures Depth(s.events + Written(s, w)) == Depth(s.events) + OpenW(Step(s, w).workers[w]) - OpenW(s.workers[w])
  {
    OpensWithTheLog(s, w);
    StepMovesOneWorker(s, w);
    hide Step;
    if Written(s, w) != [] {
      LogAppend(s.events, Written(s, w)[0]);
    } else {
      assert s.events + Written(s, w) == s.events;
    }
  }

  lemma StepKeepsDepth(s: State, w: nat)
    requires ShapeInv(s) && DepthInv(s) && Enabled(s, Advance(w))
    requires Sum(Step(s, w).workers, OpenW) <= Step(s, w).peak && s.peak <= Step(s, w).peak
    ensures DepthInv(Step(s, w))
  {
    var t := Step(s, w);
    StepMovesOneWorker(s, w);
    StepWrites(s, w);
    DepthMoves(s, w);
    hide Step, Depth;
    SumUpdate(s.workers, w, t.workers[w], OpenW);
    PrefixesWithin(s.events, Written(s, w), s.peak, t.peak);
  }

  lemma PeakNeverFalls(s: State, w: nat)
    requires ShapeInv(s) && Enabled(s, Advance(w))
    ensures s.peak <= Step(s, w).peak
  {}

  // Those the log shows as running all raised `running` and published the value they saw; the one
  // that did so last saw all of them.
  lemma OpenWithinPeak(s: State)
    requires OrderInv(s)
    ensures Sum(s.workers, OpenW) <= s.peak
  {
    var members := set w: nat | w < |s.workers| && OpenW(s.workers[w]) > 0;
    SumIsCard(s.workers, OpenW, members);
    if members != {} {
      var i := NewestSawAll(s.order, members);
      assert Published(s, i);
    }
  }

  // ----- all together -----

  lemma StepKeepsInv(s: State, w: nat)
    requires Inv(s) && Enabled(s, Advance(w))
    ensures Inv(Step(s, w))
  {
    StepMovesOneWorker(s, w);
    StepKeepsJobs(s, w);
    StepKeepsCursor(s, w);
    StepKeepsQueued(s, w);
    StepKeepsRunning(s, w);
    StepKeepsScores(s, w);
    StepKeepsResults(s, w);
    StepKeepsLanes(s, w);
    StepKeepsOrder(s, w);
    RunningBound(Step(s, w));
    StepKeepsPeak(s, w);
    StepKeepsClock(s, w);
    StepKeepsLog(s, w);
    StepKeepsLaneLogs(s, w);
    PeakNeverFalls(s, w);
    OpenWithinPeak(Step(s, w));
    StepKeepsDepth(s, w);
    StepKeepsVerdicts(s, w);
  }

  // ----- a batch begins -----

  lemma {:induction false} DrawnIds(next: nat, taken: seq<nat>)
    ensures |DrawIds(next, taken)| == |taken|
    ensures Increasing(DrawIds(next, taken)) && next <= IdsAfter(next, taken)
    ensures forall k :: 0 <= k < |taken| ==> next <= DrawIds(next, taken)[k] < IdsAfter(next, taken)
    decreases taken
  {
    if taken != [] {
      DrawnIds(next + taken[0] + 1, taken[1..]);
    }
  }

  lemma {:induction false} DrawOneMore(next: nat, taken: seq<nat>, x: nat)
    ensures DrawIds(next, taken + [x]) == DrawIds(next, taken) + [IdsAfter(next, taken) + x]
    ensures IdsAfter(next, taken + [x]) == IdsAfter(next, taken) + x + 1
    decreases taken
  {
    if taken == [] {
      assert taken + [x] == [x];
    } else {
      assert (taken + [x])[1..] == taken[1..] + [x];
      DrawOneMore(next + taken[0] + 1, taken[1..], x);
    }
  }

  lemma QueuedOneMore(ids: seq<nat>)
    requires ids != []
    ensures QueuedEvents(ids) == QueuedEvents(ids[..|ids| - 1]) + [Queued(ids[|ids| - 1])]
  {}

  lemma {:induction false} QueuedDepth(ids: seq<nat>)
    ensures Depth(QueuedEvents(ids)) == 0
  {
    if ids != [] {
      QueuedDepth(ids[..|ids| - 1]);
      QueuedOneMore(ids);
      LogAppend(QueuedEvents(ids[..|ids| - 1]), Queued(ids[|ids| - 1]));
    }
  }

  lemma {:induction false} QueuedOnLane(ids: seq<nat>, lane: nat)
    ensures OfLane(QueuedEvents(ids), lane) == []
  {
    if ids != [] {
      QueuedOnLane(ids[..|ids| - 1], lane);
      QueuedOneMore(ids);
      LogAppend(QueuedEvents(ids[..|ids| - 1]), Queued(ids[|ids| - 1]));
    }
  }

  lemma {:induction false} QueuedOnce(ids: seq<nat>, id: nat)
    requires Increasing(ids)
    ensures OfId(QueuedEvents(ids), id) == if id in ids then [Queued(id)] else []
  {
    if ids != [] {
      var n := |ids| - 1;
      QueuedOnce(ids[..n], id);
      QueuedOneMore(ids);
      LogAppend(QueuedEvents(ids[..n]), Queued(ids[n]));
      hide OfId, QueuedEvents;
      assert ids == ids[..n] + [ids[n]];
      assert ids[n] !in ids[..n];
    }
  }

  lemma QueuedPrefixes(ids: seq<nat>, n: nat)
    requires Increasing(ids) && n <= |ids|
    ensures Depth(QueuedEvents(ids)[..n]) == 0
  {
    assert QueuedEvents(ids)[..n] == QueuedEvents(ids[..n]);
    QueuedDepth(ids[..n]);
  }

  lemma AtRestSums(ws: seq<Pc>)
    requires forall w :: 0 <= w < |ws| ==> ws[w].Claiming? || ws[w].Exited?
    ensures Sum(ws, HoldsW) == 0 && Sum(ws, FetchedW) == 0 && Sum(ws, CountedW) == 0 && Sum(ws, OpenW) == 0
    ensures Sum(ws, WonW) == 0 && Sum(ws, LostW) == 0 && Sum(ws, WrittenW) == 0
  {
    SumZero(ws, HoldsW);
    SumZero(ws, FetchedW);
    SumZero(ws, CountedW);
    SumZero(ws, OpenW);
    SumZero(ws, WonW);
    SumZero(ws, LostW);
    SumZero(ws, WrittenW);
  }

  lemma {:induction false} AllExited(ws: seq<Pc>)
    requires forall w :: 0 <= w < |ws| ==> ws[w].Exited?
    ensures Sum(ws, ExitedW) == |ws|
  {
    if ws != [] {
      AllExited(ws[..|ws| - 1]);
    }
  }

  lemma InitInv(lanes: nat)
    ensures Inv(Init(lanes))
  {
    StartedFair(lanes);
    AtRestSums(Init(lanes).workers);
    AllExited(Init(lanes).workers);
  }

  lemma BeginCounts(s: State, a: Action)
    requires ShapeInv(s) && Enabled(s, a) && a.Begin?
    requires Fair(s.clock, |s.workers|)
    ensures var t := Apply(s, a);
      ShapeInv(t) && IdInv(t) && CursorInv(t) && CounterInv(t) && OrderInv(t) && PeakInv(t) && ClockInv(t)
  {
    DrawnIds(s.nextId, a.taken);
    var t := Apply(s, a);
    AtRestSums(t.workers);
    SumZero(t.workers, ExitedW);
  }

  lemma BeginJobs(s: State, a: Action)
    requires ShapeInv(s) && Enabled(s, a) && a.Begin?
    requires ShapeInv(Apply(s, a))
    ensures var t := Apply(s, a); JobInv(t) && ResultInv(t) && LaneInv(t) && VerdictInv(t)
  {}

  lemma BeginLog(s: State, a: Action)
    requires ShapeInv(s) && Enabled(s, a) && a.Begin?
    requires ShapeInv(Apply(s, a)) && IdInv(Apply(s, a))
    ensures var t := Apply(s, a); LogInv(t) && LaneLogInv(t) && DepthInv(t)
  {
    var t := Apply(s, a);
    AtRestSums(t.workers);
    QueuedDepth(t.ids);
    hide OfId, OfLane, Depth;
    forall k | 0 <= k < t.count ensures OfId(t.events, t.ids[k]) == History(t, k) {
      QueuedOnce(t.ids, t.ids[k]);
    }
    forall w | 0 <= w < |t.workers| ensures LaneLog(OfLane(t.events, w), t.workers[w], w, t.ids) {
      QueuedOnLane(t.ids, w);
    }
    forall n | 0 <= n <= |t.events| ensures Depth(t.events[..n]) <= t.peak {
      QueuedPrefixes(t.ids, n);
    }
  }

  lemma BeginKeepsInv(s: State, a: Action)
    requires Inv(s) && Enabled(s, a) && a.Begin?
    ensures Inv(Apply(s, a))
  {
    BeginCounts(s, a);
    BeginJobs(s, a);
    BeginLog(s, a);
  }

  lemma OtherKeepsJobs(s: State, a: Action)
    requires ShapeInv(s) && JobInv(s) && ResultInv(s) && OrderInv(s) && (a.Foreign? || a.Tick?)
    ensures var t := Apply(s, a); ShapeInv(t) && JobInv(t) && ResultInv(t) && OrderInv(t)
  {
    var t := Apply(s, a);
    assert forall r :: 0 <= r < |s.results| ==> Reported(s, s.results[r]) ==> Reported(t, s.results[r]);
    assert forall i :: 0 <= i < |s.order| ==> Published(s, i) ==> Published(t, i);
    assert forall w: nat, k: nat :: HeldBy(s, w, k) ==> HeldBy(t, w, k);
  }

  lemma OtherKeepsHistory(s: State, a: Action, k: nat)
    requires ShapeInv(s) && (a.Foreign? || a.Tick?) && k < s.count
    ensures var t := Apply(s, a); ShapeInv(t) && History(t, k) == History(s, k)
  {}

  lemma OtherKeepsLives(s: State, a: Action)
    requires ShapeInv(s) && LogInv(s) && (a.Foreign? || a.Tick?)
    ensures var t := Apply(s, a); ShapeInv(t) && LogInv(t)
  {
    hide History, OfId;
    var t := Apply(s, a);
    forall k | 0 <= k < s.count ensures OfId(t.events, t.ids[k]) == History(t, k) {
      OtherKeepsHistory(s, a, k);
    }
  }

  lemma OtherKeepsLaneLogs(s: State, a: Action)
    requires ShapeInv(s) && LaneLogInv(s) && DepthInv(s) && (a.Foreign? || a.Tick?)
    ensures var t := Apply(s, a); ShapeInv(t) && LaneLogInv(t) && DepthInv(t)
  {
    hide OfLane, Depth, Paired;
  }

  lemma OtherKeepsClock(s: State, a: Action)
    requires ShapeInv(s) && IdInv(s) && ClockInv(s) && VerdictInv(s) && LaneInv(s) && (a.Foreign? || a.Tick?)
    ensures var t := Apply(s, a); ShapeInv(t) && IdInv(t) && ClockInv(t) && VerdictInv(t) && LaneInv(t)
  {}

  lemma OtherKeepsCounters(s: State, a: Action)
    requires ShapeInv(s) && CursorInv(s) && CounterInv(s) && PeakInv(s) && (a.Foreign? || a.Tick?)
    ensures var t := Apply(s, a); CursorInv(t) && CounterInv(t) && PeakInv(t)
  {}

  lemma OtherKeepsInv(s: State, a: Action)
    requires Inv(s) && (a.Foreign? || a.Tick?)
    ensures Inv(Apply(s, a))
  {
    hide ShapeInv, IdInv, JobInv, CursorInv, CounterInv, ResultInv, LaneInv, OrderInv, PeakInv, ClockInv;
    hide LogInv, LaneLogInv, DepthInv, VerdictInv, Apply;
    OtherKeepsJobs(s, a);
    OtherKeepsLives(s, a);
    OtherKeepsLaneLogs(s, a);
    OtherKeepsClock(s, a);
    OtherKeepsCounters(s, a);
  }

  lemma ApplyKeepsInv(s: State, a: Action)
    requires Inv(s) && Enabled(s, a)
    ensures Inv(Apply(s, a))
  {
    match a
    case Advance(w) => StepKeepsInv(s, w);
    case Begin(_, _, _) => BeginKeepsInv(s, a);
    case _ => OtherKeepsInv(s, a);
  }
}
