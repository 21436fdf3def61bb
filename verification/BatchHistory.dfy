// What a whole batch leaves behind, told from the states it went through: the recorded peak, the
// busy time and the results are what happened.
module BatchHistory {
  import opened Sums
  import opened GridClock
  import opened BatchProtocol
  import opened BatchSafety
  import opened BatchTheorems

  // ----- the states of a run -----

  // The run from `s` to `t` is in state `u` after its first `i` actions.
  ghost predicate Passes(s: State, acts: seq<Action>, t: State, i: nat, u: State) {
    i <= |acts| && Run(s, acts[..i], u) && Run(u, acts[i..], t)
  }

  lemma PassesNow(s: State, acts: seq<Action>, t: State)
    requires Run(s, acts, t)
    ensures Passes(s, acts, t, 0, s)
  {
    assert acts[..0] == [] && acts[0..] == acts;
  }

  lemma PassesLater(s: State, acts: seq<Action>, t: State, i: nat, u: State)
    requires acts != [] && ShapeInv(s) && Enabled(s, acts[0])
    requires Passes(Apply(s, acts[0]), acts[1..], t, i, u)
    ensures Passes(s, acts, t, i + 1, u)
  {
    hide ShapeInv, Enabled, Apply;
    var head := acts[..i + 1];
    assert head[0] == acts[0] && head[1..] == acts[1..][..i];
    assert acts[i + 1..] == acts[1..][i..];
  }

  // A run that starts no other batch.
  predicate OneBatch(acts: seq<Action>) {
    forall i :: 0 <= i < |acts| ==> !acts[i].Begin?
  }

  ghost predicate Continues(s: State, acts: seq<Action>, t: State) { Run(s, acts, t) && OneBatch(acts) }

  lemma ContinuesConcat(s: State, acts: seq<Action>, t: State, more: seq<Action>, u: State)
    requires Continues(s, acts, t) && Continues(t, more, u)
    ensures Continues(s, acts + more, u)
  {
    RunConcat(s, acts, t, more, u);
  }

  lemma BatchStaysOnce(s: State, a: Action)
    requires ShapeInv(s) && Enabled(s, a) && !a.Begin?
    ensures var t := Apply(s, a); t.ids == s.ids && t.task == s.task && t.rejects == s.rejects
  {}

  lemma {:induction false} BatchStays(s: State, acts: seq<Action>, t: State)
    requires Continues(s, acts, t)
    ensures t.ids == s.ids && t.task == s.task && t.rejects == s.rejects
    decreases |acts|
  {
    if acts != [] {
      BatchStaysOnce(s, acts[0]);
      BatchStays(Apply(s, acts[0]), acts[1..], t);
    }
  }

  // ----- the peak -----

  function Max(m: nat, n: nat): nat { if m >= n then m else n }

  function BusyWorkers(s: State): nat { Sum(s.workers, CountedW) }

  // The largest number of executions that were counted at once, in any state of the run.
  ghost function MostBusy(s: State, acts: seq<Action>, t: State): nat
    requires Run(s, acts, t)
    decreases |acts|
  {
    if acts == [] then BusyWorkers(s)
    else Max(BusyWorkers(s), MostBusy(Apply(s, acts[0]), acts[1..], t))
  }

  lemma {:induction false} MostBusyIsReached(s: State, acts: seq<Action>, t: State) returns (i: nat, u: State)
    requires Run(s, acts, t)
    ensures Passes(s, acts, t, i, u) && BusyWorkers(u) == MostBusy(s, acts, t)
    decreases |acts|
  {
    if acts == [] || BusyWorkers(s) == MostBusy(s, acts, t) {
      PassesNow(s, acts, t);
      i, u := 0, s;
    } else {
      i, u := MostBusyIsReached(Apply(s, acts[0]), acts[1..], t);
      PassesLater(s, acts, t, i, u);
      i := i + 1;
    }
  }

  lemma {:induction false} NoStateIsBusier(s: State, acts: seq<Action>, t: State, i: nat, u: State)
    requires Run(s, acts, t) && Passes(s, acts, t, i, u)
    ensures BusyWorkers(u) <= MostBusy(s, acts, t)
    decreases |acts|
  {
    if i == 0 {
      assert u == s;
    } else {
      assert acts[..i][1..] == acts[1..][..i - 1] && acts[i..] == acts[1..][i - 1..];
      NoStateIsBusier(Apply(s, acts[0]), acts[1..], t, i - 1, u);
    }
  }

  predicate Saw(s: State, w: nat, m: nat) {
    w < |s.workers| && s.workers[w].Raised? && s.workers[w].seen == m
  }

  // `m` is the largest value `running` has had in this batch.
  ghost predicate PeakTo(s: State, m: nat) {
    && s.running <= m && s.peak <= m
    && (forall w: nat :: w < |s.workers| && s.workers[w].Raised? ==> s.workers[w].seen <= m)
    && (s.peak == m || exists w :: Saw(s, w, m))
  }

  lemma PeakMoves(s: State, w: nat)
    requires ShapeInv(s) && Enabled(s, Advance(w))
    ensures var t := Step(s, w); var pc, after := s.workers[w], t.workers[w];
      && t.workers == s.workers[w := after]
      && t.peak == (if pc.Raised? then Max(s.peak, pc.seen) else s.peak)
      && (pc.Marked? ==> after.Raised? && t.running == s.running + 1 && after.seen == AsCount(t.running))
      && (!pc.Marked? ==> !after.Raised? && t.running <= s.running)
  {}

  lemma AdvanceKeepsPeakTo(s: State, w: nat, m: nat)
    requires ShapeInv(s) && Enabled(s, Advance(w)) && PeakTo(s, m) && s.running >= 0
    ensures PeakTo(Step(s, w), Max(m, AsCount(Step(s, w).running)))
  {
    var t := Step(s, w);
    PeakMoves(s, w);
    hide Step;
    if t.running > m {
      assert Saw(t, w, AsCount(t.running));
    } else if s.peak < m {
      var v :| Saw(s, v, m);
      assert v != w ==> Saw(t, v, m);
    }
  }

  lemma OtherKeepsPeakTo(s: State, a: Action, m: nat)
    requires ShapeInv(s) && Enabled(s, a) && !a.Advance? && !a.Begin? && PeakTo(s, m)
    ensures PeakTo(Apply(s, a), m) && Apply(s, a).running == s.running
  {
    var t := Apply(s, a);
    if s.peak < m {
      var v :| Saw(s, v, m);
      assert Saw(t, v, m);
    }
  }

  lemma RunningIsCounted(s: State)
    requires Inv(s)
    ensures ShapeInv(s) && s.running == BusyWorkers(s)
  {}

  lemma ActionKeepsPeakTo(s: State, a: Action, m: nat)
    requires Inv(s) && Enabled(s, a) && !a.Begin? && PeakTo(s, m)
    ensures PeakTo(Apply(s, a), Max(m, BusyWorkers(Apply(s, a))))
  {
    hide Inv, ShapeInv;
    RunningIsCounted(s);
    ApplyKeepsInv(s, a);
    RunningIsCounted(Apply(s, a));
    if a.Advance? {
      hide PeakTo;
      AdvanceKeepsPeakTo(s, a.w, m);
    } else {
      OtherKeepsPeakTo(s, a, m);
    }
  }

  lemma MostBusyFromStart(s: State, acts: seq<Action>, t: State)
    requires Run(s, acts, t)
    ensures BusyWorkers(s) <= MostBusy(s, acts, t)
  {}

  lemma {:induction false} PeakAlong(s: State, acts: seq<Action>, t: State, m: nat)
    requires Inv(s) && Run(s, acts, t) && OneBatch(acts) && PeakTo(s, m)
    ensures PeakTo(t, Max(m, MostBusy(s, acts, t)))
    decreases |acts|
  {
    hide Inv, ShapeInv, Enabled, Apply;
    RunningIsCounted(s);
    assert BusyWorkers(s) <= m;
    hide PeakTo;
    if acts != [] {
      var u := Apply(s, acts[0]);
      ApplyKeepsInv(s, acts[0]);
      ActionKeepsPeakTo(s, acts[0], m);
      PeakAlong(u, acts[1..], t, Max(m, BusyWorkers(u)));
      MostBusyFromStart(u, acts[1..], t);
    }
  }

  lemma NothingBegun(s: State, a: Action)
    requires ShapeInv(s) && a.Begin? && Enabled(s, a)
    ensures PeakTo(Apply(s, a), 0)
  {}

  // The peak a batch reports is never more than the largest number of its executions that were
  // counted at once, and exactly that when no worker is about to publish the count it saw. `s` is
  // the scheduler before the batch.
  lemma PeakIsMostBusy(s: State, lanes: nat, a: Action, acts: seq<Action>, t: State)
    requires lanes > 0 && Reachable(s, lanes) && ShapeInv(s) && a.Begin? && Enabled(s, a)
    requires Run(Apply(s, a), acts, t) && OneBatch(acts)
    ensures t.peak <= MostBusy(Apply(s, a), acts, t)
    ensures (forall w :: 0 <= w < |t.workers| ==> !t.workers[w].Raised?) ==>
      t.peak == MostBusy(Apply(s, a), acts, t)
  {
    ReachableInv(s, lanes);
    ApplyKeepsInv(s, a);
    NothingBegun(s, a);
    PeakAlong(Apply(s, a), acts, t, 0);
    if forall w :: 0 <= w < |t.workers| ==> !t.workers[w].Raised? {
      assert forall w, m :: !Saw(t, w, m);
    }
  }

  // ----- the work -----

  predicate BeforeWork(pc: Pc) {
    pc.Fetched? || pc.Taken? || pc.Marked? || pc.Raised? || pc.Peaked? || pc.Begun?
  }

  // Job `k` has not been worked on: unclaimed, or with a worker that still has to start it.
  predicate Untouched(s: State, k: nat) {
    k < |s.jobs| &&
    match s.jobs[k]
    case Unclaimed => true
    case Active(w) => w < |s.workers| && BeforeWork(s.workers[w])
    case Finished(_, _) => false
  }

  // Worker `w` is on job `k`, and its lane shows the job's id.
  predicate WorkedOn(s: State, k: nat, w: nat) {
    && w < |s.workers| && w < |s.lanes| && k < |s.ids|
    && s.workers[w].Working? && s.workers[w].job == k && s.lanes[w] == Running(s.ids[k])
  }

  predicate WorkerOf(s: State, k: nat, w: nat) {
    k < |s.jobs| && !s.jobs[k].Unclaimed? && s.jobs[k].worker == w
  }

  lemma WorkIsNext(s: State, v: nat, k: nat)
    requires Inv(s) && Enabled(s, Advance(v)) && Untouched(s, k)
    ensures var t := Step(s, v);
      Untouched(t, k) || (WorkerOf(t, k, v) && v < |t.workers| && t.workers[v].Working? && t.workers[v].job == k)
  {
    hide CursorInv, CounterInv, ResultInv, LaneInv, OrderInv, PeakInv, ClockInv;
    hide LogInv, LaneLogInv, DepthInv, VerdictInv;
    JobMoves(s, v);
  }

  lemma WorkerStaysOnce(s: State, a: Action, k: nat, w: nat)
    requires Inv(s) && Enabled(s, a) && !a.Begin? && WorkerOf(s, k, w)
    ensures WorkerOf(Apply(s, a), k, w)
  {
    if a.Advance? {
      assert s.jobs[k].Active? ==> HeldBy(s, w, k);
      JobMoves(s, a.w);
    }
  }

  lemma {:induction false} WorkerStays(s: State, acts: seq<Action>, t: State, k: nat, w: nat)
    requires Inv(s) && Run(s, acts, t) && OneBatch(acts) && WorkerOf(s, k, w)
    ensures WorkerOf(t, k, w)
    decreases |acts|
  {
    if acts != [] {
      WorkerStaysOnce(s, acts[0], k, w);
      ApplyKeepsInv(s, acts[0]);
      hide Inv, ShapeInv, Enabled, Apply, WorkerOf;
      WorkerStays(Apply(s, acts[0]), acts[1..], t, k, w);
    }
  }

  lemma WorkShows(s: State, k: nat, w: nat)
    requires Inv(s) && w < |s.workers| && s.workers[w].Working? && s.workers[w].job == k
    ensures WorkedOn(s, k, w)
  {}

  lemma WorkOrWait(s: State, a: Action, k: nat)
    requires Inv(s) && Enabled(s, a) && !a.Begin? && Untouched(s, k)
    ensures ShapeInv(s)
    ensures var t := Apply(s, a);
      Untouched(t, k) || (a.Advance? && WorkedOn(t, k, a.w) && WorkerOf(t, k, a.w))
  {
    ApplyKeepsInv(s, a);
    InvHasShape(s);
    if a.Advance? {
      WorkIsNext(s, a.w, k);
      hide Inv, ShapeInv, Untouched, WorkerOf;
      if !Untouched(Apply(s, a), k) {
        WorkShows(Apply(s, a), k, a.w);
      }
    }
  }

  // No job is reported that was not worked on, by the worker its report names and on that worker's
  // lane, in the same batch.
  lemma {:induction false} EveryJobIsWorked(s: State, acts: seq<Action>, t: State, k: nat)
    returns (i: nat, u: State)
    requires Inv(s) && Run(s, acts, t) && OneBatch(acts) && Untouched(s, k)
    requires k < |t.jobs| && t.jobs[k].Finished?
    ensures Passes(s, acts, t, i, u) && WorkedOn(u, k, t.jobs[k].worker)
    decreases |acts|
  {
    var v := Apply(s, acts[0]);
    WorkOrWait(s, acts[0], k);
    ApplyKeepsInv(s, acts[0]);
    assert ShapeInv(s) && Enabled(s, acts[0]);
    hide Inv, ShapeInv, Enabled, Apply, WorkedOn, Untouched;
    if Untouched(v, k) {
      i, u := EveryJobIsWorked(v, acts[1..], t, k);
    } else {
      PassesNow(v, acts[1..], t);
      WorkerStays(v, acts[1..], t, k, acts[0].w);
      i, u := 0, v;
    }
    PassesLater(s, acts, t, i, u);
    i := i + 1;
  }

  // ----- busy time -----

  function WorkingW(pc: Pc): nat { Unit(pc.Working?) }

  // The time tasks of batches were running: every tick counts once for each of them.
  ghost function TaskTime(s: State, acts: seq<Action>, t: State): nat
    requires Run(s, acts, t)
    decreases |acts|
  {
    if acts == [] then 0
    else TickTime(s, acts[0]) + TaskTime(Apply(s, acts[0]), acts[1..], t)
  }

  function TickTime(s: State, a: Action): nat {
    if a.Tick? then a.nanos * Sum(s.workers, WorkingW) else 0
  }

  // What a worker has run its task for and not billed yet.
  function OpenTime(pc: Pc, now: int): int {
    match pc
    case Working(_, since) => now - since
    case Worked(_, _, since, until) => until - since
    case _ => 0
  }

  function Unbilled(ws: seq<Pc>, now: int): int {
    if ws == [] then 0 else Unbilled(ws[..|ws| - 1], now) + OpenTime(ws[|ws| - 1], now)
  }

  lemma {:induction false} UnbilledUpdate(ws: seq<Pc>, w: nat, pc: Pc, now: int)
    requires w < |ws|
    ensures Unbilled(ws[w := pc], now) == Unbilled(ws, now) - OpenTime(ws[w], now) + OpenTime(pc, now)
  {
    var n := |ws| - 1;
    if w == n {
      assert ws[w := pc][..n] == ws[..n];
    } else {
      assert ws[w := pc][..n] == ws[..n][w := pc];
      UnbilledUpdate(ws[..n], w, pc, now);
    }
  }

  lemma {:induction false} UnbilledTick(ws: seq<Pc>, now: int, nanos: nat)
    ensures Unbilled(ws, now + nanos) == Unbilled(ws, now) + nanos * Sum(ws, WorkingW)
  {
    if ws != [] {
      var n := |ws| - 1;
      UnbilledTick(ws[..n], now, nanos);
      assert nanos * (Sum(ws[..n], WorkingW) + WorkingW(ws[n])) ==
        nanos * Sum(ws[..n], WorkingW) + nanos * WorkingW(ws[n]);
    }
  }

  lemma {:induction false} NothingOpen(ws: seq<Pc>, now: int)
    requires forall w :: 0 <= w < |ws| ==> !ws[w].Working? && !ws[w].Worked?
    ensures Unbilled(ws, now) == 0
  {
    if ws != [] {
      NothingOpen(ws[..|ws| - 1], now);
    }
  }

  lemma StepBills(s: State, w: nat)
    requires ShapeInv(s) && Enabled(s, Advance(w))
    ensures var t := Step(s, w);
      && t.workers == s.workers[w := t.workers[w]] && t.clock.now == s.clock.now
      && t.clock.busy + OpenTime(t.workers[w], s.clock.now) == s.clock.busy + OpenTime(s.workers[w], s.clock.now)
  {}

  lemma ActionBills(s: State, a: Action)
    requires ShapeInv(s) && Enabled(s, a)
    ensures var t := Apply(s, a);
      && t.clock.busy + Unbilled(t.workers, t.clock.now) ==
           s.clock.busy + Unbilled(s.workers, s.clock.now) + TickTime(s, a)
      && t.clock.now == s.clock.now + (if a.Tick? then a.nanos else 0)
  {
    match a
    case Begin(taken, task, rejects) => {
      NothingOpen(s.workers, s.clock.now);
      NothingOpen(Fresh(s, taken, task, rejects).workers, s.clock.now);
    }
    case Foreign(_) =>
    case Tick(nanos) => UnbilledTick(s.workers, s.clock.now, nanos);
    case Advance(w) => {
      StepBills(s, w);
      UnbilledUpdate(s.workers, w, Step(s, w).workers[w], s.clock.now);
    }
  }

  lemma {:induction false} BilledAlong(s: State, acts: seq<Action>, t: State)
    requires Run(s, acts, t)
    ensures t.clock.busy + Unbilled(t.workers, t.clock.now) ==
      s.clock.busy + Unbilled(s.workers, s.clock.now) + TaskTime(s, acts, t)
    decreases |acts|
  {
    if acts != [] {
      ActionBills(s, acts[0]);
      BilledAlong(Apply(s, acts[0]), acts[1..], t);
    }
  }

  // The busy time of all batches is the time their tasks ran, exactly, once a batch is joined.
  lemma BusyIsTaskTime(lanes: nat, acts: seq<Action>, s: State)
    requires Run(Init(lanes), acts, s)
    ensures s.clock.busy + Unbilled(s.workers, s.clock.now) == TaskTime(Init(lanes), acts, s)
    ensures Idle(s) ==> s.clock.busy == TaskTime(Init(lanes), acts, s)
  {
    BilledAlong(Init(lanes), acts, s);
    NothingOpen(Init(lanes).workers, 0);
    if Idle(s) {
      NothingOpen(s.workers, s.clock.now);
    }
  }

  // ----- ids -----

  function Gap(n: nat): nat { n }

  // The ids of a batch, in closed form: no id is skipped that nobody else drew.
  lemma {:induction false} IdsAreDense(next: nat, taken: seq<nat>)
    ensures |DrawIds(next, taken)| == |taken|
    ensures forall k :: 0 <= k < |taken| ==> DrawIds(next, taken)[k] == next + Sum(taken[..k + 1], Gap) + k
    ensures IdsAfter(next, taken) == next + Sum(taken, Gap) + |taken|
    decreases |taken|
  {
    if taken != [] {
      var n := |taken| - 1;
      var init := taken[..n];
      IdsAreDense(next, init);
      assert taken == init + [taken[n]] && taken[..n + 1] == taken;
      DrawOneMore(next, init, taken[n]);
      SumAppend(init, taken[n], Gap);
      hide DrawIds, IdsAfter, Sum;
      forall k | 0 <= k < |taken| ensures DrawIds(next, taken)[k] == next + Sum(taken[..k + 1], Gap) + k {
        assert k < n ==> init[..k + 1] == taken[..k + 1];
      }
    }
  }
}
