// What callers of `run_many_classified` can rely on, for every schedule of its workers and any
// number of earlier batches and concurrent `run_one` calls.
module BatchTheorems {
  import opened Sums
  import opened GridClock
  import opened EntryOrder
  import opened Sequences
  import opened BatchProtocol
  import opened BatchSafety

  ghost predicate Run(s: State, acts: seq<Action>, t: State)
    decreases |acts|
  {
    if acts == [] then t == s
    else ShapeInv(s) && Enabled(s, acts[0]) && Run(Apply(s, acts[0]), acts[1..], t)
  }

  ghost predicate Reachable(s: State, lanes: nat) {
    exists acts :: Run(Init(lanes), acts, s)
  }

  lemma SameLanes(s: State, a: Action)
    requires ShapeInv(s) && Enabled(s, a)
    ensures |Apply(s, a).workers| == |s.workers|
  {}

  lemma {:induction false} RunKeepsInv(s: State, acts: seq<Action>, t: State)
    requires Inv(s) && Run(s, acts, t)
    ensures Inv(t) && |t.workers| == |s.workers|
    decreases |acts|
  {
    if acts != [] {
      ApplyKeepsInv(s, acts[0]);
      SameLanes(s, acts[0]);
      RunKeepsInv(Apply(s, acts[0]), acts[1..], t);
    }
  }

  lemma ReachableInv(s: State, lanes: nat)
    requires lanes > 0 && Reachable(s, lanes)
    ensures Inv(s) && |s.workers| == |s.lanes| == lanes
  {
    InitInv(lanes);
    var acts :| Run(Init(lanes), acts, s);
    RunKeepsInv(Init(lanes), acts, s);
  }

  lemma RunNone(s: State)
    ensures Run(s, [], s)
  {}

  lemma RunOne(s: State, a: Action)
    requires ShapeInv(s) && Enabled(s, a)
    ensures Run(s, [a], Apply(s, a))
  {
    hide ShapeInv, Enabled, Apply;
    assert [a][1..] == [];
    assert Run(Apply(s, a), [], Apply(s, a));
  }

  lemma {:induction false} RunConcat(s: State, acts: seq<Action>, t: State, more: seq<Action>, u: State)
    requires Run(s, acts, t) && Run(t, more, u)
    ensures Run(s, acts + more, u)
    decreases |acts|
  {
    hide ShapeInv, Enabled, Apply;
    if acts == [] {
      assert acts + more == more;
    } else {
      RunConcat(Apply(s, acts[0]), acts[1..], t, more, u);
      assert (acts + more)[0] == acts[0];
      assert (acts + more)[1..] == acts[1..] + more;
    }
  }

  lemma ReachableExtends(s: State, lanes: nat, a: Action)
    requires Reachable(s, lanes) && ShapeInv(s) && Enabled(s, a)
    ensures Reachable(Apply(s, a), lanes)
  {
    hide Run;
    var acts :| Run(Init(lanes), acts, s);
    RunOne(s, a);
    RunConcat(Init(lanes), acts, s, [a], Apply(s, a));
  }

  // ----- the peak -----

  // For every prefix of the log, the executions it shows as running are covered by the recorded
  // peak, and the peak never exceeds what the lanes or the jobs allow.
  lemma LogNeverExceedsPeak(s: State, lanes: nat)
    requires lanes > 0 && Reachable(s, lanes)
    ensures forall n :: 0 <= n <= |s.events| ==> Depth(s.events[..n]) <= s.peak
    ensures s.peak <= lanes && s.peak <= s.count
  {
    ReachableInv(s, lanes);
  }

  // ----- conservation -----

  // Between lowering `queued` and raising `running`.
  function GapW(pc: Pc): nat { Unit(pc.Taken? || pc.Marked?) }
  // Between raising `completed` or `failed` and lowering `running`.
  function OverlapW(pc: Pc): nat { Unit(pc.Tallied? || pc.Logged?) }

  lemma {:induction false} WorkerBalance(ws: seq<Pc>)
    ensures Sum(ws, HoldsW) + Sum(ws, OverlapW) ==
      Sum(ws, FetchedW) + Sum(ws, GapW) + Sum(ws, CountedW) + Sum(ws, WonW) + Sum(ws, LostW)
  {
    if ws != [] {
      WorkerBalance(ws[..|ws| - 1]);
      var pc := ws[|ws| - 1];
      assert HoldsW(pc) + OverlapW(pc) == FetchedW(pc) + GapW(pc) + CountedW(pc) + WonW(pc) + LostW(pc);
    }
  }

  lemma {:induction false} EveryReportScores(rs: seq<Report>)
    ensures Sum(rs, SuccessW) + Sum(rs, FailureW) == |rs|
  {
    if rs != [] {
      EveryReportScores(rs[..|rs| - 1]);
    }
  }

  // At every step the four counters account for every job, up to the workers that are between two
  // of the atomic updates; and `queued` never goes below zero.
  lemma JobsAreConserved(s: State, lanes: nat)
    requires lanes > 0 && Reachable(s, lanes)
    ensures s.queued + s.running + s.completed + s.failed ==
      s.count - Sum(s.workers, GapW) + Sum(s.workers, OverlapW)
    ensures s.queued >= 0 && s.running >= 0 && s.completed >= 0 && s.failed >= 0
  {
    ReachableInv(s, lanes);
    WorkerBalance(s.workers);
    EveryReportScores(s.results);
  }

  // ----- lanes -----

  lemma DistinctLanes(s: State, v: nat, w: nat)
    requires ShapeInv(s) && IdInv(s) && JobInv(s) && LaneInv(s)
    requires v < w < |s.lanes| && s.lanes[v].Running? && s.lanes[w].Running?
    ensures s.lanes[v].id != s.lanes[w].id
  {
    assert s.jobs[s.workers[v].job] == Active(v) && s.jobs[s.workers[w].job] == Active(w);
  }

  // A lane shows the execution its own worker is on, so no two lanes show the same one.
  lemma LanesShowDistinctJobs(s: State, lanes: nat)
    requires lanes > 0 && Reachable(s, lanes)
    ensures forall v, w :: 0 <= v < w < |s.lanes| && s.lanes[v].Running? && s.lanes[w].Running? ==>
      s.lanes[v].id != s.lanes[w].id
  {
    ReachableInv(s, lanes);
    forall v, w | 0 <= v < w < |s.lanes| && s.lanes[v].Running? && s.lanes[w].Running?
      ensures s.lanes[v].id != s.lanes[w].id
    {
      DistinctLanes(s, v, w);
    }
  }

  // ----- the joined batch -----

  lemma IdleBatch(s: State, lanes: nat)
    requires lanes > 0 && Reachable(s, lanes) && Idle(s)
    ensures Inv(s) && |s.workers| == |s.lanes| == lanes
    ensures s.queued == 0 && s.running == 0 && s.completed + s.failed == s.count
    ensures s.cursor == s.count + lanes && |s.results| == s.count && |s.events| == 3 * s.count
  {
    ReachableInv(s, lanes);
    AtRestSums(s.workers);
    AllExited(s.workers);
    JobsAreConserved(s, lanes);
    SumZero(s.workers, GapW);
    SumZero(s.workers, OverlapW);
  }

  // After the join the counters, the lanes and the log are final.
  lemma JoinedCountersAreFinal(s: State, lanes: nat)
    requires lanes > 0 && Reachable(s, lanes) && Idle(s)
    ensures s.queued == 0 && s.running == 0
    ensures s.completed == Sum(s.results, SuccessW) && s.failed == Sum(s.results, FailureW)
    ensures s.completed + s.failed == s.count
    ensures s.cursor == s.count + lanes && |s.results| == s.count
    ensures |s.lanes| == lanes && forall w :: 0 <= w < lanes ==> s.lanes[w].Free?
  {
    IdleBatch(s, lanes);
    AtRestSums(s.workers);
  }

  // The three events of job `k`, when lane `w` ran it.
  function Life(s: State, k: nat, w: nat): seq<Event>
    requires k < |s.ids|
  {
    var id := s.ids[k];
    [Queued(id), Event.Started(id, w), Ending(id, w, Judge(s, s.task(id, w)).success)]
  }

  ghost predicate Lived(s: State, k: nat, lanes: nat) {
    k < |s.ids| && exists w: nat :: w < lanes && OfId(s.events, s.ids[k]) == Life(s, k, w)
  }

  // The whole log of a joined batch: three events a job, the Queued ones first and in id order;
  // each id starts once and ends once on the lane it started on, as the task decided; and on every
  // lane starts and endings alternate.
  lemma JoinedLogIsWellFormed(s: State, lanes: nat)
    requires lanes > 0 && Reachable(s, lanes) && Idle(s)
    ensures |s.events| == 3 * s.count && |s.ids| == s.count && Increasing(s.ids)
    ensures forall k :: 0 <= k < s.count ==> s.events[k] == Queued(s.ids[k])
    ensures forall k :: 0 <= k < s.count ==> Lived(s, k, lanes)
    ensures forall w :: 0 <= w < lanes ==> Paired(OfLane(s.events, w))
  {
    IdleBatch(s, lanes);
    forall k | 0 <= k < s.count ensures Lived(s, k, lanes) {
      var w := LifeOf(s, lanes, k);
    }
    forall w | 0 <= w < lanes ensures Paired(OfLane(s.events, w)) {
      assert LaneLog(OfLane(s.events, w), s.workers[w], w, s.ids);
    }
  }

  lemma LifeOf(s: State, lanes: nat, k: nat) returns (w: nat)
    requires lanes > 0 && Reachable(s, lanes) && Idle(s) && k < s.count
    ensures k < |s.ids| && w < lanes && OfId(s.events, s.ids[k]) == Life(s, k, w)
  {
    IdleBatch(s, lanes);
    var r := ReportOf(s, lanes, k);
    w := s.results[r].lane;
    assert OfId(s.events, s.ids[k]) == History(s, k);
  }

  // Reports have distinct jobs, and there are as many as jobs: every job has one.
  lemma ReportOf(s: State, lanes: nat, k: nat) returns (r: nat)
    requires lanes > 0 && Reachable(s, lanes) && Idle(s) && k < s.count
    ensures |s.ids| == |s.jobs| == s.count
    ensures r < |s.results| && s.results[r].job == k && s.results[r].id == s.ids[k]
    ensures s.results[r].lane < lanes && s.jobs[k] == Finished(s.results[r].lane, s.results[r].verdict)
    ensures s.results[r].verdict == Judge(s, s.task(s.ids[k], s.results[r].lane))
  {
    IdleBatch(s, lanes);
    hide LogInv, LaneLogInv, DepthInv, OrderInv, ClockInv, JobInv, LaneInv;
    var jobs := seq(|s.results|, i requires 0 <= i < |s.results| => s.results[i].job);
    assert forall i :: 0 <= i < |s.results| ==> Reported(s, s.results[i]);
    if k !in jobs {
      var all := jobs + [k];
      EntrantsBelow(all, s.count);
      assert false;
    }
    r :| 0 <= r < |jobs| && jobs[r] == k;
    assert Reported(s, s.results[r]);
  }

  // ----- results in submission order -----

  ghost predicate SortedById(rs: seq<Report>) {
    forall i, j :: 0 <= i < j < |rs| ==> rs[i].id <= rs[j].id
  }

  // A strictly increasing sequence of n numbers below n counts from zero.
  lemma {:induction false} IncreasingIsIdentity(xs: seq<nat>, n: nat)
    requires |xs| == n && Increasing(xs) && forall i :: 0 <= i < n ==> xs[i] < n
    ensures forall i :: 0 <= i < n ==> xs[i] == i
    decreases n
  {
    if n > 0 {
      assert forall i :: 0 <= i < n - 1 ==> xs[i] < xs[n - 1];
      IncreasingIsIdentity(xs[..n - 1], n - 1);
      assert forall i :: 0 <= i < n - 1 ==> xs[..n - 1][i] == xs[i];
      assert n > 1 ==> xs[n - 2] == n - 2 && xs[n - 2] < xs[n - 1];
    }
  }

  lemma DistinctElements(rs: seq<Report>, ps: seq<Report>, i: nat, j: nat)
    requires multiset(ps) == multiset(rs) && i < j < |ps|
    requires forall q, r :: 0 <= q < r < |rs| ==> rs[q].job != rs[r].job
    ensures ps[i].job != ps[j].job
  {
    PermutedDistinct(rs, ps);
    assert ps[i] in rs && ps[j] in rs;
  }

  lemma PermutedReports(s: State, sorted: seq<Report>)
    requires ShapeInv(s) && ResultInv(s) && VerdictInv(s) && multiset(sorted) == multiset(s.results)
    ensures |sorted| == |s.results|
    ensures forall i :: 0 <= i < |sorted| ==>
      Reported(s, sorted[i]) && sorted[i].verdict == Judge(s, s.task(sorted[i].id, sorted[i].lane))
  {
    assert |sorted| == |multiset(sorted)| == |multiset(s.results)| == |s.results|;
    forall i | 0 <= i < |sorted|
      ensures Reported(s, sorted[i]) && sorted[i].verdict == Judge(s, s.task(sorted[i].id, sorted[i].lane))
    {
      assert sorted[i] in multiset(s.results);
      var r :| 0 <= r < |s.results| && s.results[r] == sorted[i];
      assert Reported(s, s.results[r]);
    }
  }

  lemma SortedJobs(s: State, sorted: seq<Report>)
    requires ShapeInv(s) && IdInv(s) && ResultInv(s) && |s.results| == s.count
    requires multiset(sorted) == multiset(s.results) && SortedById(sorted)
    requires forall i :: 0 <= i < |sorted| ==> Reported(s, sorted[i])
    ensures |sorted| == s.count && forall k :: 0 <= k < s.count ==> sorted[k].job == k
  {
    assert |sorted| == |multiset(sorted)| == |multiset(s.results)| == |s.results|;
    var jobs := seq(|sorted|, i requires 0 <= i < |sorted| => sorted[i].job);
    forall i, j | 0 <= i < j < |sorted| ensures jobs[i] < jobs[j] {
      DistinctElements(s.results, sorted, i, j);
      assert Reported(s, sorted[i]) && Reported(s, sorted[j]);
    }
    assert forall i :: 0 <= i < |sorted| ==> Reported(s, sorted[i]) ==> jobs[i] < s.count;
    IncreasingIsIdentity(jobs, s.count);
    assert forall k :: 0 <= k < s.count ==> jobs[k] == sorted[k].job;
  }

  // The unstable sort at the end may return any ordering by id: there is only one, and it is
  // submission order, even when concurrent `run_one` calls took ids in between.
  lemma ResultsComeBackInSubmissionOrder(s: State, lanes: nat, sorted: seq<Report>)
    requires lanes > 0 && Reachable(s, lanes) && Idle(s)
    requires multiset(sorted) == multiset(s.results) && SortedById(sorted)
    ensures |sorted| == s.count == |s.ids|
    ensures forall k :: 0 <= k < s.count ==>
      && sorted[k].job == k && sorted[k].id == s.ids[k] && sorted[k].lane < lanes
      && sorted[k].verdict == Judge(s, s.task(s.ids[k], sorted[k].lane))
  {
    IdleBatch(s, lanes);
    PermutedReports(s, sorted);
    SortedJobs(s, sorted);
    forall k | 0 <= k < s.count
      ensures sorted[k].job == k && sorted[k].id == s.ids[k] && sorted[k].lane < lanes
    {
      assert Reported(s, sorted[k]);
    }
  }

  // What the log says of a job is what its result says.
  function LifeOfReport(r: Report): seq<Event> {
    [Queued(r.id), Event.Started(r.id, r.lane), Ending(r.id, r.lane, r.verdict.success)]
  }

  lemma LogMatchesResults(s: State, lanes: nat, sorted: seq<Report>)
    requires lanes > 0 && Reachable(s, lanes) && Idle(s)
    requires multiset(sorted) == multiset(s.results) && SortedById(sorted)
    ensures |sorted| == s.count == |s.ids|
    ensures forall k :: 0 <= k < s.count ==> OfId(s.events, s.ids[k]) == LifeOfReport(sorted[k])
  {
    IdleBatch(s, lanes);
    PermutedReports(s, sorted);
    SortedJobs(s, sorted);
    forall k | 0 <= k < s.count ensures OfId(s.events, s.ids[k]) == LifeOfReport(sorted[k]) {
      assert Reported(s, sorted[k]);
      assert OfId(s.events, s.ids[k]) == History(s, k);
    }
  }

  // ----- progress -----

  function Measure(s: State): nat {
    16 * (s.count - Claimed(s)) + Sum(s.workers, RankW)
  }

  lemma StepLowersOwnRank(s: State, w: nat)
    requires ShapeInv(s) && Enabled(s, Advance(w))
    ensures var t := Step(s, w);
      |t.workers| == |s.workers| && t.count == s.count &&
      RankW(t.workers[w]) + 16 * (t.count - Claimed(t)) < RankW(s.workers[w]) + 16 * (s.count - Claimed(s))
  {
    StepMovesOneWorker(s, w);
    JobMoves(s, w);
    assert !s.workers[w].Claiming? ==> RankW(Step(s, w).workers[w]) == RankW(s.workers[w]) - 1;
  }

  // Whatever the schedule, a batch is joined after a bounded number of actions of its workers, and
  // until then every worker that has not left its loop can act.
  lemma EveryActionGetsCloser(s: State, w: nat)
    requires ShapeInv(s) && w < |s.workers| && !s.workers[w].Exited?
    ensures Enabled(s, Advance(w)) && Measure(Step(s, w)) < Measure(s)
  {
    StepLowersOwnRank(s, w);
    StepMovesOneWorker(s, w);
    SumUpdate(s.workers, w, Step(s, w).workers[w], RankW);
  }

  lemma NothingMoves(s: State, a: Action, t: State)
    requires ShapeInv(s) && Enabled(s, a)
    requires a.Tick? ==> t == s.(clock := s.clock.(now := s.clock.now + a.nanos))
    requires a.Foreign? ==> t == s.(nextId := s.nextId + a.drawn)
    ensures a.Tick? || a.Foreign? ==> Apply(s, a) == t && Measure(t) == Measure(s)
  {
    hide ShapeInv, Step, Fresh, Sum;
  }

  // Time that passes, and ids that other callers draw, do not set a batch back.
  lemma QuietChange(s: State, lanes: nat, a: Action, t: State)
    requires Reachable(s, lanes) && ShapeInv(s) && (a.Tick? || a.Foreign?) && Apply(s, a) == t
    ensures Reachable(t, lanes) && Run(s, [a], t) && t.workers == s.workers
  {
    RunOne(s, a);
    ReachableExtends(s, lanes, a);
  }

  // ----- utilisation -----

  // Batches alone never bill more lane time than has passed, across any number of batches.
  lemma BatchUtilisation(s: State, lanes: nat)
    requires lanes > 0 && Reachable(s, lanes)
    ensures s.clock.busy <= lanes * s.clock.now
  {
    ReachableInv(s, lanes);
    BusyWithinCapacity(s.clock, lanes);
  }
}
