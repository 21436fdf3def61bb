// The batch scheduler, `run_many_classified`: one worker per lane, a shared atomic cursor, per-run
// counters and an event log, each written by its own atomic action. Batches on one scheduler are
// serialised by the run lock; concurrent `run_one` calls draw ids from the same counter meanwhile.
module BatchProtocol {
  import opened Wrappers
  import opened Sums
  import opened GridClock
  import opened EntryOrder
  import opened Sequences
  import opened Executions

  datatype LaneState = Free | Running(id: nat)

  datatype Event =
    | Queued(id: nat)
    | Started(id: nat, lane: nat)
    | Completed(id: nat, lane: nat)
    | Failed(id: nat, lane: nat)

  // What the task returned (None for an error) and whether it counts as a success.
  datatype Verdict = Verdict(success: bool, value: Option<ExecutionStatus>)

  // `job` is the work index; the source keeps only the execution id.
  datatype Report = Report(job: nat, id: nat, lane: nat, verdict: Verdict)

  // Where a worker stands in its loop: each constructor names what happened last.
  datatype Pc =
    | Claiming
    | Fetched(job: nat)                                   // cursor advanced
    | Taken(job: nat)                                     // queued lowered
    | Marked(job: nat)                                    // lane set running
    | Raised(job: nat, seen: nat)                         // running raised
    | Peaked(job: nat)                                    // peak updated
    | Begun(job: nat)                                     // Started logged
    | Working(job: nat, since: nat)
    | Worked(job: nat, verdict: Verdict, since: nat, until: nat)
    | Billed(job: nat, verdict: Verdict)                  // busy time added
    | Tallied(job: nat, verdict: Verdict)                 // completed or failed raised
    | Logged(job: nat, verdict: Verdict)                  // Completed or Failed logged
    | Lowered(job: nat, verdict: Verdict)                 // running lowered
    | Freed(job: nat, verdict: Verdict)                   // lane set free
    | Exited

  // History of a work index.
  datatype Job = Unclaimed | Active(worker: nat) | Finished(worker: nat, verdict: Verdict)

  datatype State = State(
    count: nat,
    ids: seq<nat>,
    task: (nat, nat) -> Option<ExecutionStatus>,   // what the task returns for an id on a lane
    rejects: ExecutionStatus -> bool,              // the classifier of the batch
    cursor: nat,
    queued: int,
    running: int,
    completed: int,
    failed: int,
    peak: nat,
    lanes: seq<LaneState>,
    events: seq<Event>,
    results: seq<Report>,
    workers: seq<Pc>,
    jobs: seq<Job>,                       // history
    order: seq<nat>,                      // history: workers counted in `running`, oldest first
    nextId: nat,
    clock: Clock)

  datatype Action =
    | Begin(taken: seq<nat>, task: (nat, nat) -> Option<ExecutionStatus>, rejects: ExecutionStatus -> bool)
    | Foreign(drawn: nat)
    | Tick(nanos: nat)
    | Advance(w: nat)

  // ----- program counters -----

  predicate Holds(pc: Pc) { !pc.Claiming? && !pc.Exited? }

  predicate Counted(pc: Pc) {
    pc.Raised? || pc.Peaked? || pc.Begun? || pc.Working? || pc.Worked? || pc.Billed? || pc.Tallied? || pc.Logged?
  }

  // Between the Started event and the event that ends the execution.
  predicate Open(pc: Pc) {
    pc.Begun? || pc.Working? || pc.Worked? || pc.Billed? || pc.Tallied?
  }

  predicate Closed(pc: Pc) { pc.Logged? || pc.Lowered? || pc.Freed? }

  predicate Scored(pc: Pc) { pc.Tallied? || pc.Logged? || pc.Lowered? || pc.Freed? }

  // From `set_lane(Running)` up to `set_lane(Free)`.
  predicate OnLane(pc: Pc) { pc.Marked? || Counted(pc) || pc.Lowered? }

  function Unit(b: bool): nat { if b then 1 else 0 }

  function HoldsW(pc: Pc): nat { Unit(Holds(pc)) }
  function FetchedW(pc: Pc): nat { Unit(pc.Fetched?) }
  function CountedW(pc: Pc): nat { Unit(Counted(pc)) }
  function OpenW(pc: Pc): nat { Unit(Open(pc)) }
  function ExitedW(pc: Pc): nat { Unit(pc.Exited?) }
  function WonW(pc: Pc): nat { Unit(Scored(pc) && pc.verdict.success) }
  function LostW(pc: Pc): nat { Unit(Scored(pc) && !pc.verdict.success) }
  function WrittenW(pc: Pc): nat { if Open(pc) then 1 else if Closed(pc) then 2 else 0 }
  function SuccessW(r: Report): nat { Unit(r.verdict.success) }
  function FailureW(r: Report): nat { Unit(!r.verdict.success) }

  function RankW(pc: Pc): nat {
    match pc
    case Claiming => 1
    case Fetched(_) => 14
    case Taken(_) => 13
    case Marked(_) => 12
    case Raised(_, _) => 11
    case Peaked(_) => 10
    case Begun(_) => 9
    case Working(_, _) => 8
    case Worked(_, _, _, _) => 7
    case Billed(_, _) => 6
    case Tallied(_, _) => 5
    case Logged(_, _) => 4
    case Lowered(_, _) => 3
    case Freed(_, _) => 2
    case Exited => 0
  }

  // ----- steps -----

  // Execution ids of a batch: before its k-th draw, other callers take `taken[k]` ids.
  function DrawIds(next: nat, taken: seq<nat>): seq<nat>
    decreases taken
  {
    if taken == [] then [] else [next + taken[0]] + DrawIds(next + taken[0] + 1, taken[1..])
  }

  function IdsAfter(next: nat, taken: seq<nat>): nat
    decreases taken
  {
    if taken == [] then next else IdsAfter(next + taken[0] + 1, taken[1..])
  }

  function QueuedEvents(ids: seq<nat>): seq<Event> {
    seq(|ids|, k requires 0 <= k < |ids| => Queued(ids[k]))
  }

  function Init(lanes: nat): State {
    State(0, [], (id, lane) => None, v => false, lanes, 0, 0, 0, 0, 0, seq(lanes, i => Free), [], [],
          seq(lanes, i => Exited), [], [], 0, GridClock.Started(lanes))
  }

  predicate Idle(s: State) {
    forall w :: 0 <= w < |s.workers| ==> s.workers[w].Exited?
  }

  predicate Enabled(s: State, a: Action) {
    match a
    case Begin(taken, _, _) => taken != [] && Idle(s)
    case Foreign(_) => true
    case Tick(_) => true
    case Advance(w) => w < |s.workers| && !s.workers[w].Exited?
  }

  function Ending(id: nat, lane: nat, success: bool): Event {
    if success then Event.Completed(id, lane) else Event.Failed(id, lane)
  }

  function AsCount(i: int): nat { if i < 0 then 0 else i }

  // Where worker `w` stands after its next atomic action.
  function Next(s: State, w: nat): Pc
    requires ShapeInv(s) && Enabled(s, Advance(w))
  {
    match s.workers[w]
    case Claiming => if s.cursor < s.count then Fetched(s.cursor) else Exited
    case Fetched(k) => Taken(k)
    case Taken(k) => Marked(k)
    case Marked(k) => Raised(k, AsCount(s.running + 1))
    case Raised(k, _) => Peaked(k)
    case Peaked(k) => Begun(k)
    case Begun(k) => Working(k, s.clock.now)
    case Working(k, since) => Worked(k, Judge(s, s.task(s.ids[k], w)), since, s.clock.now)
    case Worked(k, verdict, _, _) => Billed(k, verdict)
    case Billed(k, verdict) => Tallied(k, verdict)
    case Tallied(k, verdict) => Logged(k, verdict)
    case Logged(k, verdict) => Lowered(k, verdict)
    case Lowered(k, verdict) => Freed(k, verdict)
    case Freed(_, _) => Claiming
  }

  // What the action writes to the fields of the run.
  function Effect(s: State, w: nat): State
    requires ShapeInv(s) && Enabled(s, Advance(w))
  {
    match s.workers[w]
    case Claiming =>
      if s.cursor < s.count then s.(cursor := s.cursor + 1, jobs := s.jobs[s.cursor := Active(w)])
      else s.(cursor := s.cursor + 1)
    case Fetched(_) => s.(queued := s.queued - 1)
    case Taken(k) => s.(lanes := s.lanes[w := Running(s.ids[k])])
    case Marked(_) => s.(running := s.running + 1, order := s.order + [w])
    case Raised(_, seen) => if seen > s.peak then s.(peak := seen) else s
    case Peaked(k) => s.(events := s.events + [Event.Started(s.ids[k], w)])
    case Worked(_, _, since, until) => s.(clock := Bill(s.clock, w, since, until))
    case Billed(_, verdict) =>
      if verdict.success then s.(completed := s.completed + 1) else s.(failed := s.failed + 1)
    case Tallied(k, verdict) => s.(events := s.events + [Ending(s.ids[k], w, verdict.success)])
    case Logged(_, _) => s.(running := s.running - 1, order := Without(s.order, w))
    case Lowered(_, _) => s.(lanes := s.lanes[w := LaneState.Free])
    case Freed(k, verdict) =>
      s.(results := s.results + [Report(k, s.ids[k], w, verdict)], jobs := s.jobs[k := Finished(w, verdict)])
    case _ => s
  }

  // The next atomic action of worker `w`.
  function Step(s: State, w: nat): State
    requires ShapeInv(s) && Enabled(s, Advance(w))
  {
    Effect(s, w).(workers := s.workers[w := Next(s, w)])
  }

  function Judge(s: State, value: Option<ExecutionStatus>): Verdict {
    Verdict(value.Some? && !s.rejects(value.value), value)
  }

  function FreeLanes(n: nat): seq<LaneState> { seq(n, i => LaneState.Free) }
  function NewWorkers(n: nat): seq<Pc> { seq(n, i => Claiming) }
  function NewJobs(n: nat): seq<Job> { seq(n, i => Unclaimed) }

  // A new batch on an idle scheduler: ids drawn, everything queued, all workers started.
  function Fresh(
    s: State, taken: seq<nat>, task: (nat, nat) -> Option<ExecutionStatus>, rejects: ExecutionStatus -> bool): State
  {
    var ids := DrawIds(s.nextId, taken);
    State(|taken|, ids, task, rejects, 0, |taken|, 0, 0, 0, 0, FreeLanes(|s.lanes|),
          QueuedEvents(ids), [], NewWorkers(|s.lanes|), NewJobs(|taken|), [],
          IdsAfter(s.nextId, taken), s.clock)
  }

  function Apply(s: State, a: Action): State
    requires ShapeInv(s) && Enabled(s, a)
  {
    match a
    case Begin(taken, task, rejects) => Fresh(s, taken, task, rejects)
    case Foreign(drawn) => s.(nextId := s.nextId + drawn)
    case Tick(nanos) => s.(clock := s.clock.(now := s.clock.now + nanos))
    case Advance(w) => Step(s, w)
  }

  // ----- invariants -----

  ghost predicate Increasing(ids: seq<nat>) {
    forall i, j :: 0 <= i < j < |ids| ==> ids[i] < ids[j]
  }

  ghost predicate ShapeInv(s: State) {
    && |s.lanes| == |s.workers| == |s.clock.billed| == |s.clock.idleSince|
    && |s.ids| == |s.jobs| == s.count
    && (forall w :: 0 <= w < |s.workers| ==> JobInRange(s.workers[w], s.count))
    && (forall w :: 0 <= w < |s.workers| && s.workers[w].Working? ==> s.workers[w].since <= s.clock.now)
  }

  predicate JobInRange(pc: Pc, count: nat) {
    && (Holds(pc) ==> pc.job < count)
    && (pc.Worked? ==> pc.since <= pc.until)
  }

  ghost predicate IdInv(s: State) {
    && Increasing(s.ids)
    && (forall k :: 0 <= k < |s.ids| ==> s.ids[k] < s.nextId)
  }

  function Claimed(s: State): nat { if s.cursor < s.count then s.cursor else s.count }

  // Every index below the cursor is with exactly one worker, or done; the others are untouched.
  ghost predicate JobInv(s: State)
    requires ShapeInv(s)
  {
    && (forall w :: 0 <= w < |s.workers| && Holds(s.workers[w]) ==> s.jobs[s.workers[w].job] == Active(w))
    && (forall k :: 0 <= k < s.count && s.jobs[k].Active? ==> HeldBy(s, s.jobs[k].worker, k))
    && (forall k :: 0 <= k < s.count ==> (s.jobs[k].Unclaimed? <==> k >= s.cursor))
  }

  predicate HeldBy(s: State, w: nat, k: nat) {
    w < |s.workers| && Holds(s.workers[w]) && s.workers[w].job == k
  }

  ghost predicate CursorInv(s: State) {
    && Claimed(s) == Sum(s.workers, HoldsW) + |s.results|
    && s.cursor == Claimed(s) + Sum(s.workers, ExitedW)
  }

  // The counters, exactly: each lags or leads by the workers between two of its neighbours.
  ghost predicate CounterInv(s: State) {
    && s.queued == s.count - Claimed(s) + Sum(s.workers, FetchedW)
    && s.running == Sum(s.workers, CountedW)
    && s.completed == Sum(s.results, SuccessW) + Sum(s.workers, WonW)
    && s.failed == Sum(s.results, FailureW) + Sum(s.workers, LostW)
  }

  // One report per finished index, with that index's id, lane and verdict.
  ghost predicate ResultInv(s: State)
    requires ShapeInv(s)
  {
    && (forall r :: 0 <= r < |s.results| ==> Reported(s, s.results[r]))
    && (forall q, r :: 0 <= q < r < |s.results| ==> s.results[q].job != s.results[r].job)
  }

  predicate Reported(s: State, r: Report)
    requires ShapeInv(s)
  {
    && r.job < s.count && r.lane < |s.workers|
    && r.id == s.ids[r.job] && s.jobs[r.job] == Finished(r.lane, r.verdict)
  }

  ghost predicate LaneInv(s: State)
    requires ShapeInv(s)
  {
    forall w :: 0 <= w < |s.workers| ==>
      s.lanes[w] == if OnLane(s.workers[w]) then Running(s.ids[s.workers[w].job]) else LaneState.Free
  }

  ghost predicate OrderInv(s: State) {
    && Distinct(s.order) && |s.order| == s.running
    && (forall w: nat :: w in s.order <==> w < |s.workers| && Counted(s.workers[w]))
    && (forall i :: 0 <= i < |s.order| ==> Published(s, i))
  }

  predicate Published(s: State, i: nat)
    requires i < |s.order|
  {
    var w := s.order[i];
    w < |s.workers| && i + 1 <= (if s.workers[w].Raised? then s.workers[w].seen else s.peak)
  }

  ghost predicate PeakInv(s: State) {
    && s.peak <= |s.workers| && s.peak <= s.count
    && (forall w :: 0 <= w < |s.workers| && s.workers[w].Raised? ==>
          s.workers[w].seen <= |s.workers| && s.workers[w].seen <= s.count)
  }

  ghost predicate ClockInv(s: State)
    requires ShapeInv(s)
  {
    && Fair(s.clock, |s.workers|)
    && (forall w :: 0 <= w < |s.workers| ==>
          && (s.workers[w].Working? ==> s.clock.idleSince[w] <= s.workers[w].since)
          && (s.workers[w].Worked? ==> s.clock.idleSince[w] <= s.workers[w].since && s.workers[w].until <= s.clock.now))
  }

  // ----- the event log -----

  // Executions begun and not ended, according to the log alone.
  function Depth(events: seq<Event>): int {
    if events == [] then 0
    else
      Depth(events[..|events| - 1]) +
      match events[|events| - 1] {
        case Queued(_) => 0
        case Started(_, _) => 1
        case Completed(_, _) => -1
        case Failed(_, _) => -1
      }
  }

  function OfId(events: seq<Event>, id: nat): seq<Event> {
    if events == [] then []
    else
      var last := events[|events| - 1];
      OfId(events[..|events| - 1], id) + if last.id == id then [last] else []
  }

  function OfLane(events: seq<Event>, lane: nat): seq<Event> {
    if events == [] then []
    else
      var last := events[|events| - 1];
      OfLane(events[..|events| - 1], lane) + if !last.Queued? && last.lane == lane then [last] else []
  }

  // The life of one execution in the log so far.
  function History(s: State, k: nat): seq<Event>
    requires ShapeInv(s) && k < s.count
  {
    var id := s.ids[k];
    match s.jobs[k]
    case Unclaimed => [Queued(id)]
    case Finished(w, verdict) => [Queued(id), Event.Started(id, w), Ending(id, w, verdict.success)]
    case Active(w) =>
      if w >= |s.workers| then []
      else if Open(s.workers[w]) then [Queued(id), Event.Started(id, w)]
      else if Closed(s.workers[w]) then
        [Queued(id), Event.Started(id, w), Ending(id, w, s.workers[w].verdict.success)]
      else [Queued(id)]
  }

  // Starts and endings take turns, and each ending is the ending of what was started.
  ghost predicate Paired(log: seq<Event>) {
    log == [] ||
    (|log| >= 2 &&
     var start, end := log[|log| - 2], log[|log| - 1];
     start.Started? && (end.Completed? || end.Failed?) && start.id == end.id && Paired(log[..|log| - 2]))
  }

  ghost predicate LogInv(s: State)
    requires ShapeInv(s)
  {
    && |s.events| == s.count + Sum(s.workers, WrittenW) + 2 * |s.results|
    && (forall k :: 0 <= k < s.count ==> s.events[k] == Queued(s.ids[k]))
    && (forall k :: s.count <= k < |s.events| ==> !s.events[k].Queued?)
    && (forall k :: 0 <= k < s.count ==> OfId(s.events, s.ids[k]) == History(s, k))
  }

  ghost predicate LaneLogInv(s: State)
    requires ShapeInv(s)
  {
    forall w :: 0 <= w < |s.workers| ==> LaneLog(OfLane(s.events, w), s.workers[w], w, s.ids)
  }

  ghost predicate LaneLog(log: seq<Event>, pc: Pc, w: nat, ids: seq<nat>)
    requires JobInRange(pc, |ids|)
  {
    if Open(pc) then
      |log| > 0 && log[|log| - 1] == Event.Started(ids[pc.job], w) && Paired(log[..|log| - 1])
    else Paired(log)
  }

  ghost predicate DepthInv(s: State) {
    && Depth(s.events) == Sum(s.workers, OpenW)
    && (forall n :: 0 <= n <= |s.events| ==> Depth(s.events[..n]) <= s.peak)
  }

  predicate Judged(pc: Pc) { pc.Worked? || pc.Billed? || Scored(pc) }

  // Each verdict is the classifier's verdict on what the task returned for that id on that lane.
  ghost predicate VerdictInv(s: State)
    requires ShapeInv(s)
  {
    && (forall w :: 0 <= w < |s.workers| && Judged(s.workers[w]) ==>
          s.workers[w].verdict == Judge(s, s.task(s.ids[s.workers[w].job], w)))
    && (forall r :: 0 <= r < |s.results| ==>
          s.results[r].verdict == Judge(s, s.task(s.results[r].id, s.results[r].lane)))
  }

  ghost predicate Inv(s: State) {
    && ShapeInv(s)
    && IdInv(s)
    && JobInv(s)
    && CursorInv(s)
    && CounterInv(s)
    && ResultInv(s)
    && LaneInv(s)
    && OrderInv(s)
    && PeakInv(s)
    && ClockInv(s)
    && LogInv(s)
    && LaneLogInv(s)
    && DepthInv(s)
    && VerdictInv(s)
  }
}
