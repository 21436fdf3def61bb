// What a whole run of the lane pool leaves behind, told from the states it went through: the
// recorded peak, the busy time, the ids and the figures of a snapshot are not merely within bounds,
// they are what happened.
module LaneHistory {
  import opened Wrappers
  import opened Sums
  import opened GridClock
  import opened LaneProtocol
  import opened LaneSafety
  import opened LaneTheorems

  // ----- the states of a run -----

  // The run from `s` to `t` is in state `u` after its first `i` actions.
  ghost predicate Passes(s: State, acts: seq<Action>, t: State, i: nat, u: State) {
    i <= |acts| && Run(s, acts[..i], u) && Run(u, acts[i..], t)
  }

  lemma PassesNow(s: State, acts: seq<Action>, t: State)
    requires Run(s, acts, t)
    ensures Passes(s, acts, t, 0, s)
  {
    assert acts[..0] == [] && acts[0..] == acts;
  }

  lemma PassesLater(s: State, acts: seq<Action>, t: State, i: nat, u: State)
    requires acts != [] && ShapeInv(s) && Enabled(s, acts[0])
    requires Passes(Apply(s, acts[0]), acts[1..], t, i, u)
    ensures Passes(s, acts, t, i + 1, u)
  {
    hide ShapeInv, Enabled, Apply;
    var head := acts[..i + 1];
    assert head[0] == acts[0] && head[1..] == acts[1..][..i];
    assert acts[i + 1..] == acts[1..][i..];
  }

  // ----- the peak -----

  function Max(m: nat, n: nat): nat { if m >= n then m else n }

  function ActiveCallers(s: State): nat { Sum(s.callers, ActiveW) }

  // The largest number of callers that were active at once, in any state of the run.
  ghost function MostActive(s: State, acts: seq<Action>, t: State): nat
    requires Run(s, acts, t)
    decreases |acts|
  {
    if acts == [] then ActiveCallers(s)
    else Max(ActiveCallers(s), MostActive(Apply(s, acts[0]), acts[1..], t))
  }

  lemma {:induction false} MostActiveIsReached(s: State, acts: seq<Action>, t: State) returns (i: nat, u: State)
    requires Run(s, acts, t)
    ensures Passes(s, acts, t, i, u) && ActiveCallers(u) == MostActive(s, acts, t)
    decreases |acts|
  {
    if acts == [] || ActiveCallers(s) == MostActive(s, acts, t) {
      PassesNow(s, acts, t);
      i, u := 0, s;
    } else {
      i, u := MostActiveIsReached(Apply(s, acts[0]), acts[1..], t);
      PassesLater(s, acts, t, i, u);
      i := i + 1;
    }
  }

  lemma {:induction false} NoStateIsMoreActive(s: State, acts: seq<Action>, t: State, i: nat, u: State)
    requires Run(s, acts, t) && Passes(s, acts, t, i, u)
    ensures ActiveCallers(u) <= MostActive(s, acts, t)
    decreases |acts|
  {
    if i == 0 {
      assert u == s;
    } else {
      assert acts[..i][1..] == acts[1..][..i - 1] && acts[i..] == acts[1..][i - 1..];
      NoStateIsMoreActive(Apply(s, acts[0]), acts[1..], t, i - 1, u);
    }
  }

  predicate Saw(s: State, c: nat, m: nat) {
    c < |s.callers| && s.callers[c].pc.Raised? && s.callers[c].pc.seen == m
  }

  // `m` is the largest value `active` has had: nothing recorded exceeds it, and it is recorded or
  // about to be.
  ghost predicate PeakTo(s: State, m: nat) {
    && s.active <= m && s.peak <= m
    && (forall c: nat :: c < |s.callers| && s.callers[c].pc.Raised? ==> s.callers[c].pc.seen <= m)
    && (s.peak == m || exists c :: Saw(s, c, m))
  }

  lemma PeakMoves(s: State, c: nat)
    requires ShapeInv(s) && Enabled(s, Advance(c))
    ensures var t := Step(s, c); var pc, after := s.callers[c].pc, t.callers[c].pc;
      && t.callers == s.callers[c := t.callers[c]]
      && t.peak == (if pc.Raised? then Max(s.peak, pc.seen) else s.peak)
      && (pc.Assigned? ==> after.Raised? && t.active == s.active + 1 && after.seen == AsCount(t.active))
      && (!pc.Assigned? ==> !after.Raised? && t.active <= s.active)
  {}

  lemma AdvanceKeepsPeakTo(s: State, c: nat, m: nat)
    requires ShapeInv(s) && Enabled(s, Advance(c)) && PeakTo(s, m) && s.active >= 0
    ensures PeakTo(Step(s, c), Max(m, AsCount(Step(s, c).active)))
  {
    var t := Step(s, c);
    PeakMoves(s, c);
    hide Step;
    if t.active > m {
      assert Saw(t, c, AsCount(t.active));
    } else if s.peak < m {
      var d :| Saw(s, d, m);
      assert d != c ==> Saw(t, d, m);
    }
  }

  lemma OtherKeepsPeakTo(s: State, a: Action, m: nat)
    requires ShapeInv(s) && Enabled(s, a) && !a.Advance? && PeakTo(s, m)
    ensures PeakTo(Apply(s, a), m) && Apply(s, a).active == s.active
  {
    var t := Apply(s, a);
    if s.peak < m {
      var d :| Saw(s, d, m);
      assert Saw(t, d, m);
    }
  }

  lemma ActiveIsCounted(s: State)
    requires Inv(s)
    ensures ShapeInv(s) && s.active == ActiveCallers(s)
  {}

  lemma ActionKeepsPeakTo(s: State, a: Action, m: nat)
    requires Inv(s) && Enabled(s, a) && PeakTo(s, m)
    ensures PeakTo(Apply(s, a), Max(m, ActiveCallers(Apply(s, a))))
  {
    hide Inv, ShapeInv;
    ActiveIsCounted(s);
    ApplyKeepsInv(s, a);
    ActiveIsCounted(Apply(s, a));
    if a.Advance? {
      hide PeakTo;
      AdvanceKeepsPeakTo(s, a.c, m);
    } else {
      OtherKeepsPeakTo(s, a, m);
    }
  }

  lemma MostActiveFromStart(s: State, acts: seq<Action>, t: State)
    requires Run(s, acts, t)
    ensures ActiveCallers(s) <= MostActive(s, acts, t)
  {}

  lemma {:induction false} PeakAlong(s: State, acts: seq<Action>, t: State, m: nat)
    requires Inv(s) && Run(s, acts, t) && PeakTo(s, m)
    ensures PeakTo(t, Max(m, MostActive(s, acts, t)))
    decreases |acts|
  {
    hide Inv, ShapeInv, Enabled, Apply;
    ActiveIsCounted(s);
    assert ActiveCallers(s) <= m;
    hide PeakTo;
    if acts != [] {
      var u := Apply(s, acts[0]);
      ApplyKeepsInv(s, acts[0]);
      ActionKeepsPeakTo(s, acts[0], m);
      PeakAlong(u, acts[1..], t, Max(m, ActiveCallers(u)));
      MostActiveFromStart(u, acts[1..], t);
    }
  }

  // `shared_peak` is never more than the largest number of callers that were active at once, and
  // exactly that when no caller is about to publish the count its own increment returned.
  lemma PeakIsMostActive(lanes: nat, spurious: nat, acts: seq<Action>, s: State)
    requires lanes > 0 && Run(Init(lanes, spurious), acts, s)
    ensures s.peak <= MostActive(Init(lanes, spurious), acts, s)
    ensures (forall c :: 0 <= c < |s.callers| ==> !s.callers[c].pc.Raised?) ==>
      s.peak == MostActive(Init(lanes, spurious), acts, s)
  {
    InitInv(lanes, spurious);
    PeakAlong(Init(lanes, spurious), acts, s, 0);
    if forall c :: 0 <= c < |s.callers| ==> !s.callers[c].pc.Raised? {
      assert forall c, m :: !Saw(s, c, m);
    }
  }

  // ----- the task -----

  // Before the task of a caller starts: its program counter still has to pass Running.
  predicate BeforeTask(pc: Pc) {
    pc.Arrived? || pc.Numbered? || Waiting(pc) || pc.Dequeued? || pc.Assigned? || pc.Raised? || pc.Ready?
  }

  lemma TaskIsNext(s: State, a: Action, c: nat)
    requires ShapeInv(s) && Enabled(s, a)
    requires c < |s.callers| ==> BeforeTask(s.callers[c].pc)
    requires c < |Apply(s, a).callers|
    ensures var pc := Apply(s, a).callers[c].pc; BeforeTask(pc) || pc.Running?
  {}

  // No call returns without its task having run, on the lane the call then owned and under its id.
  lemma {:induction false} EveryTaskRuns(s: State, acts: seq<Action>, t: State, c: nat) returns (i: nat, u: State)
    requires Inv(s) && Run(s, acts, t)
    requires c < |s.callers| ==> BeforeTask(s.callers[c].pc)
    requires c < |t.callers| && !BeforeTask(t.callers[c].pc)
    ensures Passes(s, acts, t, i, u)
    ensures c < |u.callers| && u.callers[c].pc.Running? && u.callers[c].id == t.callers[c].id
    ensures u.callers[c].pc.lane < |u.slots| && u.slots[u.callers[c].pc.lane] == Some(t.callers[c].id)
    decreases |acts|
  {
    var u' := Apply(s, acts[0]);
    ApplyKeepsInv(s, acts[0]);
    if c < |u'.callers| && !BeforeTask(u'.callers[c].pc) {
      TaskIsNext(s, acts[0], c);
      PassesNow(u', acts[1..], t);
      IdStays(u', acts[1..], t, c);
      i, u := 0, u';
    } else {
      i, u := EveryTaskRuns(u', acts[1..], t, c);
    }
    PassesLater(s, acts, t, i, u);
    i := i + 1;
  }

  lemma IdStaysOnce(s: State, a: Action, c: nat)
    requires ShapeInv(s) && Enabled(s, a) && c < |s.callers| && !s.callers[c].pc.Arrived?
    ensures var t := Apply(s, a);
      c < |t.callers| && t.callers[c].id == s.callers[c].id && !t.callers[c].pc.Arrived?
  {}

  lemma {:induction false} IdStays(s: State, acts: seq<Action>, t: State, c: nat)
    requires Run(s, acts, t) && c < |s.callers| && !s.callers[c].pc.Arrived?
    ensures c < |t.callers| && t.callers[c].id == s.callers[c].id
    decreases |acts|
  {
    if acts != [] {
      IdStaysOnce(s, acts[0], c);
      IdStays(Apply(s, acts[0]), acts[1..], t, c);
    }
  }

  // ----- busy time -----

  function RunningW(c: Caller): nat { Unit(c.pc.Running?) }

  // The time tasks were running, all callers together: every tick counts once for each of them.
  ghost function TaskTime(s: State, acts: seq<Action>, t: State): nat
    requires Run(s, acts, t)
    decreases |acts|
  {
    if acts == [] then 0
    else TickTime(s, acts[0]) + TaskTime(Apply(s, acts[0]), acts[1..], t)
  }

  function TickTime(s: State, a: Action): nat {
    if a.Tick? then a.nanos * Sum(s.callers, RunningW) else 0
  }

  // What a caller has run for and not been billed yet.
  function Open(c: Caller, now: int): int {
    match c.pc
    case Running(_, since) => now - since
    case Finished(_, since, until) => until - since
    case _ => 0
  }

  function Unbilled(cs: seq<Caller>, now: int): int {
    if cs == [] then 0 else Unbilled(cs[..|cs| - 1], now) + Open(cs[|cs| - 1], now)
  }

  lemma {:induction false} UnbilledUpdate(cs: seq<Caller>, c: nat, v: Caller, now: int)
    requires c < |cs|
    ensures Unbilled(cs[c := v], now) == Unbilled(cs, now) - Open(cs[c], now) + Open(v, now)
  {
    var n := |cs| - 1;
    if c == n {
      assert cs[c := v][..n] == cs[..n];
    } else {
      assert cs[c := v][..n] == cs[..n][c := v];
      UnbilledUpdate(cs[..n], c, v, now);
    }
  }

  lemma {:induction false} UnbilledTick(cs: seq<Caller>, now: int, nanos: nat)
    ensures Unbilled(cs, now + nanos) == Unbilled(cs, now) + nanos * Sum(cs, RunningW)
  {
    if cs != [] {
      var n := |cs| - 1;
      UnbilledTick(cs[..n], now, nanos);
      assert nanos * (Sum(cs[..n], RunningW) + RunningW(cs[n])) ==
        nanos * Sum(cs[..n], RunningW) + nanos * RunningW(cs[n]);
    }
  }

  lemma StepBills(s: State, c: nat)
    requires ShapeInv(s) && Enabled(s, Advance(c))
    ensures var t := Step(s, c);
      && t.callers == s.callers[c := t.callers[c]] && t.clock.now == s.clock.now
      && t.clock.busy + Open(t.callers[c], s.clock.now) == s.clock.busy + Open(s.callers[c], s.clock.now)
  {}

  lemma ActionBills(s: State, a: Action)
    requires ShapeInv(s) && Enabled(s, a)
    ensures var t := Apply(s, a);
      && t.clock.busy + Unbilled(t.callers, t.clock.now) ==
           s.clock.busy + Unbilled(s.callers, s.clock.now) + TickTime(s, a)
      && t.clock.now == s.clock.now + (if a.Tick? then a.nanos else 0)
  {
    var now := s.clock.now;
    match a
    case Arrive => assert (s.callers + [Caller(0, Arrived)])[..|s.callers|] == s.callers;
    case Tick(nanos) => UnbilledTick(s.callers, now, nanos);
    case Advance(c) => {
      StepBills(s, c);
      UnbilledUpdate(s.callers, c, Step(s, c).callers[c], now);
    }
    case Notify(c, waiter) => {
      var v := At(s, c, Notified);
      UnbilledUpdate(s.callers, c, v.callers[c], now);
      if waiter.Some? {
        UnbilledUpdate(v.callers, waiter.value, v.callers[waiter.value].(pc := Contending(true)), now);
      }
    }
    case Spurious(c) => UnbilledUpdate(s.callers, c, s.callers[c].(pc := Contending(true)), now);
    case _ =>
  }

  lemma {:induction false} BilledAlong(s: State, acts: seq<Action>, t: State)
    requires Run(s, acts, t)
    ensures t.clock.busy + Unbilled(t.callers, t.clock.now) ==
      s.clock.busy + Unbilled(s.callers, s.clock.now) + TaskTime(s, acts, t)
    decreases |acts|
  {
    if acts != [] {
      ActionBills(s, acts[0]);
      BilledAlong(Apply(s, acts[0]), acts[1..], t);
    }
  }

  // The busy time of the pool is the time its tasks ran, exactly, up to what the tasks that have not
  // been billed yet have run for.
  lemma BusyIsTaskTime(lanes: nat, spurious: nat, acts: seq<Action>, s: State)
    requires Run(Init(lanes, spurious), acts, s)
    ensures s.clock.busy + Unbilled(s.callers, s.clock.now) == TaskTime(Init(lanes, spurious), acts, s)
    ensures (forall c :: 0 <= c < |s.callers| ==> !s.callers[c].pc.Running? && !s.callers[c].pc.Finished?) ==>
      s.clock.busy == TaskTime(Init(lanes, spurious), acts, s)
  {
    BilledAlong(Init(lanes, spurious), acts, s);
    if forall c :: 0 <= c < |s.callers| ==> !s.callers[c].pc.Running? && !s.callers[c].pc.Finished? {
      NothingOpen(s.callers, s.clock.now);
    }
  }

  lemma {:induction false} NothingOpen(cs: seq<Caller>, now: int)
    requires forall c :: 0 <= c < |cs| ==> !cs[c].pc.Running? && !cs[c].pc.Finished?
    ensures Unbilled(cs, now) == 0
  {
    if cs != [] {
      NothingOpen(cs[..|cs| - 1], now);
    }
  }

  // ----- ids -----

  function NumberedW(c: Caller): nat { Unit(!c.pc.Arrived?) }

  function ForeignDraws(acts: seq<Action>): nat {
    if acts == [] then 0
    else ForeignDraws(acts[1..]) + if acts[0].Foreign? then acts[0].drawn else 0
  }

  lemma StepNumbers(s: State, c: nat)
    requires ShapeInv(s) && Enabled(s, Advance(c))
    ensures var t := Step(s, c);
      && t.callers == s.callers[c := t.callers[c]]
      && t.nextId + NumberedW(s.callers[c]) == s.nextId + NumberedW(t.callers[c])
  {}

  lemma ActionNumbers(s: State, a: Action)
    requires ShapeInv(s) && Enabled(s, a)
    ensures var t := Apply(s, a);
      t.nextId + Sum(s.callers, NumberedW) ==
        s.nextId + Sum(t.callers, NumberedW) + if a.Foreign? then a.drawn else 0
  {
    match a
    case Arrive => SumAppend(s.callers, Caller(0, Arrived), NumberedW);
    case Advance(c) => {
      StepNumbers(s, c);
      hide Step;
      SumUpdate(s.callers, c, Step(s, c).callers[c], NumberedW);
    }
    case Notify(c, waiter) => {
      var v := At(s, c, Notified);
      SumUpdate(s.callers, c, v.callers[c], NumberedW);
      if waiter.Some? {
        SumUpdate(v.callers, waiter.value, v.callers[waiter.value].(pc := Contending(true)), NumberedW);
      }
    }
    case Spurious(c) => SumUpdate(s.callers, c, s.callers[c].(pc := Contending(true)), NumberedW);
    case _ =>
  }

  lemma {:induction false} NumbersAlong(s: State, acts: seq<Action>, t: State)
    requires Run(s, acts, t)
    ensures t.nextId + Sum(s.callers, NumberedW) ==
      s.nextId + Sum(t.callers, NumberedW) + ForeignDraws(acts)
    decreases |acts|
  {
    if acts != [] {
      ActionNumbers(s, acts[0]);
      NumbersAlong(Apply(s, acts[0]), acts[1..], t);
    }
  }

  // Ids are drawn one a call and none is skipped: the next id is the number of ids drawn so far.
  // The ids of calls are below it and pairwise different.
  lemma IdsAreDense(lanes: nat, spurious: nat, acts: seq<Action>, s: State)
    requires lanes > 0 && Run(Init(lanes, spurious), acts, s)
    ensures s.nextId == Sum(s.callers, NumberedW) + ForeignDraws(acts)
    ensures forall c :: 0 <= c < |s.callers| && !s.callers[c].pc.Arrived? ==> s.callers[c].id < s.nextId
    ensures forall c, d :: 0 <= c < d < |s.callers| && !s.callers[c].pc.Arrived? && !s.callers[d].pc.Arrived? ==>
      s.callers[c].id != s.callers[d].id
  {
    InitInv(lanes, spurious);
    RunKeepsInv(Init(lanes, spurious), acts, s);
    NumbersAlong(Init(lanes, spurious), acts, s);
  }

  // ----- the first free lane -----

  // A caller at the scan claims the lowest free lane, and parks only when there is none.
  lemma LowestFreeLane(s: State, c: nat)
    requires Inv(s) && Enabled(s, Advance(c)) && s.callers[c].pc.Scanning?
    ensures var t := Apply(s, Advance(c)); var pc := t.callers[c].pc;
      if pc.Parked? then t.slots == s.slots && forall l :: 0 <= l < |s.slots| ==> s.slots[l].Some?
      else
        && pc.Claimed? && pc.lane < |s.slots| && s.slots[pc.lane].None?
        && (forall l :: 0 <= l < pc.lane ==> s.slots[l].Some?)
        && t.slots == s.slots[pc.lane := Some(s.callers[c].id)]
  {}

  // ----- what an observer reads -----

  function Stage(o: Observer): nat {
    match o
    case Asking => 0
    case Locked => 1
    case SawActive(_) => 2
    case SawWaiting(_, _) => 3
    case SawPeak(_, _, _) => 4
    case Reported(_) => 5
  }

  // What is known after so many stages.
  function View(o: Observer): Snapshot {
    match o
    case SawActive(r) => Snapshot(r, 0, 0, [])
    case SawWaiting(r, q) => Snapshot(r, q, 0, [])
    case SawPeak(r, q, p) => Snapshot(r, q, p, [])
    case Reported(v) => v
    case _ => Snapshot(0, 0, 0, [])
  }

  // The figure of a snapshot that an observer reads at stage `k` is the true one in state `u`.
  predicate True(u: State, k: nat, v: Snapshot) {
    && (k == 1 ==> v.running == Sum(u.callers, ActiveW))
    && (k == 2 ==> v.queued == Sum(u.callers, WaitingW))
    && (k == 3 ==> v.peak == u.peak)
    && (k == 4 ==> v.lanes == u.slots)
  }

  predicate SameSoFar(v: Snapshot, w: Snapshot, k: nat) {
    && (k >= 2 ==> v.running == w.running)
    && (k >= 3 ==> v.queued == w.queued)
    && (k >= 4 ==> v.peak == w.peak)
    && (k >= 5 ==> v.lanes == w.lanes)
  }

  lemma ObserverMoves(s: State, a: Action, o: nat)
    requires ShapeInv(s) && Enabled(s, a) && o < |s.observers|
    ensures var t := Apply(s, a); var k := Stage(s.observers[o]);
      && o < |t.observers| && k <= Stage(t.observers[o]) <= k + 1
      && SameSoFar(View(s.observers[o]), View(t.observers[o]), k)
  {}

  lemma ObserverReads(s: State, a: Action, o: nat)
    requires ShapeInv(s) && LockInv(s) && CountInv(s) && Enabled(s, a) && o < |s.observers|
    ensures var t := Apply(s, a); var k := Stage(s.observers[o]);
      o < |t.observers| && Stage(t.observers[o]) > k >= 1 ==>
        True(s, k, View(t.observers[o])) && s.lock == ByObserver(o)
  {}

  lemma NewObserver(s: State, a: Action, o: nat)
    requires ShapeInv(s) && Enabled(s, a) && |s.observers| <= o < |Apply(s, a).observers|
    ensures Apply(s, a).observers[o].Asking?
  {}

  lemma {:induction false} ViewStays(s: State, acts: seq<Action>, t: State, o: nat)
    requires Run(s, acts, t) && o < |s.observers|
    ensures o < |t.observers| && Stage(s.observers[o]) <= Stage(t.observers[o])
    ensures SameSoFar(View(s.observers[o]), View(t.observers[o]), Stage(s.observers[o]))
    decreases |acts|
  {
    if acts != [] {
      ObserverMoves(s, acts[0], o);
      ViewStays(Apply(s, acts[0]), acts[1..], t, o);
    }
  }

  lemma ObserverStarts(s: State, a: Action, o: nat, k: nat)
    requires ShapeInv(s) && LockInv(s) && CountInv(s) && Enabled(s, a) && k >= 1
    requires o < |s.observers| ==> Stage(s.observers[o]) <= k
    ensures o < |s.observers| ==> o < |Apply(s, a).observers|
    ensures o < |Apply(s, a).observers| && Stage(Apply(s, a).observers[o]) > k ==>
      && o < |s.observers| && Stage(s.observers[o]) == k && s.lock == ByObserver(o)
      && True(s, k, View(Apply(s, a).observers[o]))
  {
    if o < |s.observers| {
      ObserverMoves(s, a, o);
      ObserverReads(s, a, o);
    } else if o < |Apply(s, a).observers| {
      NewObserver(s, a, o);
    }
  }

  // Each of the four figures of a snapshot is the true one at a moment of the run: the callers that
  // were active, the callers that were waiting, the peak and the lanes. The observer was at that
  // stage then, so the four moments come in this order, and all of them under the mutex.
  lemma {:induction false} SnapshotIsRead(s: State, acts: seq<Action>, t: State, o: nat, k: nat)
    returns (i: nat, u: State)
    requires Inv(s) && Run(s, acts, t) && 1 <= k <= 4
    requires o < |s.observers| ==> Stage(s.observers[o]) <= k
    requires o < |t.observers| && t.observers[o].Reported?
    ensures Passes(s, acts, t, i, u) && o < |u.observers| && Stage(u.observers[o]) == k
    ensures u.lock == ByObserver(o) && True(u, k, t.observers[o].snapshot)
    decreases |acts|
  {
    assert acts != [] && ShapeInv(s) && LockInv(s) && CountInv(s) && Enabled(s, acts[0]);
    hide Inv, ShapeInv, LockInv, CountInv, Enabled, Apply;
    var v := Apply(s, acts[0]);
    ApplyKeepsInv(s, acts[0]);
    ObserverStarts(s, acts[0], o, k);
    if o < |v.observers| && Stage(v.observers[o]) > k {
      ViewStays(v, acts[1..], t, o);
      PassesNow(s, acts, t);
      i, u := 0, s;
    } else {
      i, u := SnapshotIsRead(v, acts[1..], t, o, k);
      PassesLater(s, acts, t, i, u);
      i := i + 1;
    }
  }
}
