// One scheduler with both of its APIs in use: `run_one` callers and batches, on one clock, drawing
// ids from one counter and adding their busy time to another. They share nothing else; in
// particular each has lanes of its own. A batch draws its ids one at a time under the run lock, and
// callers of `run_one` draw theirs in between.
module GridProtocol {
  import opened Wrappers
  import opened Executions
  import L = LaneProtocol
  import B = BatchProtocol

  // A batch that is drawing its ids. `gaps` says how many ids others drew before each of them, and
  // `since` how many since the last.
  datatype Draft = Draft(
    count: nat, task: (nat, nat) -> Option<ExecutionStatus>, rejects: ExecutionStatus -> bool,
    ids: seq<nat>, gaps: seq<nat>, since: nat)

  datatype Grid = Grid(
    one: L.State,
    many: B.State,
    draft: Option<Draft>,
    nextId: nat,           // `next_execution_id`
    busy: nat,             // `busy_nanos`
    batchIds: set<nat>)    // history: every id a batch has drawn

  datatype Action =
    | One(a: L.Action)
    | Open(count: nat, task: (nat, nat) -> Option<ExecutionStatus>, rejects: ExecutionStatus -> bool)
    | Draw
    | Launch
    | Many(w: nat)
    | Tick(nanos: nat)

  function Init(lanes: nat, spurious: nat): Grid {
    Grid(L.Init(lanes, spurious), B.Init(lanes), None, 0, 0, {})
  }

  // The run lock is held from opening a batch until its workers have left.
  ghost predicate Enabled(g: Grid, a: Action) {
    match a
    case One(b) => !b.Tick? && !b.Foreign? && L.Enabled(g.one, b)
    case Open(count, _, _) => count > 0 && g.draft.None? && B.Idle(g.many)
    case Draw => g.draft.Some? && |g.draft.value.ids| < g.draft.value.count
    case Launch => g.draft.Some? && |g.draft.value.ids| == g.draft.value.count
    case Many(w) => g.draft.None? && B.Enabled(g.many, B.Advance(w))
    case Tick(_) => true
  }

  // Whether a `run_one` caller draws its id.
  predicate Draws(s: L.State, a: L.Action) {
    a.Advance? && a.c < |s.callers| && s.callers[a.c].pc.Arrived?
  }

  // Nanoseconds a `run_one` caller adds to the busy time.
  function Charged(s: L.State, a: L.Action): nat {
    if a.Advance? && a.c < |s.callers| && s.callers[a.c].pc.Finished? then
      Interval(s.callers[a.c].pc.since, s.callers[a.c].pc.until)
    else 0
  }

  function ChargedBy(s: B.State, w: nat): nat {
    if w < |s.workers| && s.workers[w].Worked? then Interval(s.workers[w].since, s.workers[w].until) else 0
  }

  function Interval(since: nat, until: nat): nat { if since <= until then until - since else 0 }

  // What drawing an id outside the batch means to it.
  function DrawnElsewhere(g: Grid): Grid {
    match g.draft
    case None => g.(many := g.many.(nextId := g.many.nextId + 1))
    case Some(d) => g.(draft := Some(d.(since := d.since + 1)))
  }

  ghost predicate Shape(g: Grid) {
    && L.ShapeInv(g.one) && B.ShapeInv(g.many)
    && (g.draft.Some? ==> B.Idle(g.many) && |g.draft.value.gaps| == |g.draft.value.ids| && g.draft.value.count > 0)
  }

  ghost function Apply(g: Grid, a: Action): Grid
    requires Shape(g) && Enabled(g, a)
  {
    match a
    case One(b) =>
      var t := (if Draws(g.one, b) then DrawnElsewhere(g).(nextId := g.nextId + 1) else g);
      t.(one := L.Apply(g.one, b), busy := g.busy + Charged(g.one, b))
    case Open(count, task, rejects) => g.(draft := Some(Draft(count, task, rejects, [], [], 0)))
    case Draw =>
      var d := g.draft.value;
      g.(draft := Some(d.(ids := d.ids + [g.nextId], gaps := d.gaps + [d.since], since := 0)),
         one := L.Apply(g.one, L.Foreign(1)),
         nextId := g.nextId + 1,
         batchIds := g.batchIds + {g.nextId})
    case Launch =>
      var d := g.draft.value;
      var many := B.Apply(g.many, B.Begin(d.gaps, d.task, d.rejects));
      g.(draft := None, many := many.(nextId := many.nextId + d.since))
    case Many(w) => g.(many := B.Apply(g.many, B.Advance(w)), busy := g.busy + ChargedBy(g.many, w))
    case Tick(nanos) =>
      g.(one := L.Apply(g.one, L.Tick(nanos)), many := B.Apply(g.many, B.Tick(nanos)))
  }

  // ----- invariants -----

  // The two counters are what both APIs together made of them.
  ghost predicate Tied(g: Grid) {
    && |g.one.slots| == |g.many.workers|
    && g.one.clock.now == g.many.clock.now
    && g.busy == g.one.clock.busy + g.many.clock.busy
    && g.nextId == g.one.nextId
    && (match g.draft
        case None => g.many.nextId == g.nextId
        case Some(d) =>
          && d.ids == B.DrawIds(g.many.nextId, d.gaps)
          && B.IdsAfter(g.many.nextId, d.gaps) + d.since == g.nextId)
  }

  predicate Numbered(g: Grid, c: nat) { c < |g.one.callers| && !g.one.callers[c].pc.Arrived? }

  // The ids of both APIs are disjoint, over all batches so far.
  ghost predicate Apart(g: Grid) {
    && (forall x :: x in g.batchIds ==> x < g.nextId)
    && (forall c: nat :: Numbered(g, c) ==> g.one.callers[c].id !in g.batchIds)
    && (forall k :: 0 <= k < |g.many.ids| ==> g.many.ids[k] in g.batchIds)
    && (g.draft.Some? ==> forall k :: 0 <= k < |g.draft.value.ids| ==> g.draft.value.ids[k] in g.batchIds)
  }

  ghost predicate Inv(g: Grid) {
    Shape(g) && L.Inv(g.one) && B.Inv(g.many) && Tied(g) && Apart(g)
  }
}
