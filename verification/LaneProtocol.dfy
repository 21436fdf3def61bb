// The shared lane pool behind `run_one`: a slot vector under a mutex with a condition variable,
// and counters that are raised and lowered next to, but not always inside, the critical sections.
// Any number of callers run the same sequence of atomic actions in any order; one action of one
// caller is one step. Observers are concurrent calls of `shared_snapshot`.
module LaneProtocol {
  import opened Wrappers
  import opened Sums
  import opened GridClock
  import opened EntryOrder
  import opened Sequences

  // Where a call of `run_one_observed` stands: each constructor names what happened last.
  datatype Pc =
    | Arrived
    | Numbered                                        // execution id drawn
    | Contending(woken: bool)                         // counted as waiting; wants the mutex
    | Scanning(woken: bool)                           // holds the mutex, looks for a free slot
    | Parked                                          // inside the condition variable
    | Claimed(lane: nat)                              // slot written, mutex held
    | Dequeued(lane: nat)                             // no longer waiting, mutex held
    | Assigned(lane: nat)                             // mutex released
    | Raised(lane: nat, seen: nat)                    // active raised, `seen` returned
    | Ready(lane: nat)                                // peak updated
    | Running(lane: nat, since: nat)                  // task in progress
    | Finished(lane: nat, since: nat, until: nat)     // duration measured
    | Returning(lane: nat)                            // busy time added; wants the mutex
    | Clearing(lane: nat)                             // mutex held again
    | Cleared(lane: nat)                              // slot emptied
    | Lowered                                         // active lowered
    | Notified                                        // one waiter notified, mutex still held
    | Done

  datatype Caller = Caller(id: nat, pc: Pc)

  datatype Snapshot = Snapshot(running: nat, queued: nat, peak: nat, lanes: seq<Option<nat>>)

  datatype Observer =
    | Asking
    | Locked
    | SawActive(running: nat)
    | SawWaiting(running: nat, queued: nat)
    | SawPeak(running: nat, queued: nat, peak: nat)
    | Reported(snapshot: Snapshot)

  datatype Lock = Free | ByCaller(caller: nat) | ByObserver(observer: nat)

  datatype State = State(
    slots: seq<Option<nat>>,
    lock: Lock,
    callers: seq<Caller>,
    observers: seq<Observer>,
    nextId: nat,
    active: int,
    waiting: int,
    peak: nat,
    order: seq<nat>,   // history: callers counted in `active`, in the order they raised it
    clock: Clock,
    spurious: nat)     // wake-ups without a notification that may still happen

  datatype Action =
    | Arrive
    | Ask
    | Tick(nanos: nat)
    | Foreign(drawn: nat)   // ids drawn by a batch
    | Advance(c: nat)
    | Notify(c: nat, waiter: Option<nat>)
    | Spurious(c: nat)
    | Observe(o: nat)

  // ----- program counters -----

  predicate HoldsLock(pc: Pc) {
    pc.Scanning? || pc.Claimed? || pc.Dequeued? || pc.Clearing? || pc.Cleared? || pc.Lowered? || pc.Notified?
  }

  predicate Owns(pc: Pc) {
    pc.Claimed? || pc.Dequeued? || pc.Assigned? || pc.Raised? || pc.Ready? || pc.Running? || pc.Finished?
    || pc.Returning? || pc.Clearing?
  }

  predicate Active(pc: Pc) {
    pc.Raised? || pc.Ready? || pc.Running? || pc.Finished? || pc.Returning? || pc.Clearing? || pc.Cleared?
  }

  predicate Waiting(pc: Pc) {
    pc.Contending? || pc.Scanning? || pc.Parked? || pc.Claimed?
  }

  // Under the mutex, a slot may be free without a wake-up under way for it.
  predicate OwesWakeup(pc: Pc) {
    pc == Scanning(true) || pc.Cleared? || pc.Lowered?
  }

  predicate ObserverHoldsLock(o: Observer) { !o.Asking? && !o.Reported? }

  function Unit(b: bool): nat { if b then 1 else 0 }

  function ParkedW(c: Caller): nat { Unit(c.pc.Parked?) }
  function WokenW(c: Caller): nat { Unit(c.pc == Contending(true)) }
  function OwnsW(c: Caller): nat { Unit(Owns(c.pc)) }
  function ActiveW(c: Caller): nat { Unit(Active(c.pc)) }
  function WaitingW(c: Caller): nat { Unit(Waiting(c.pc)) }
  function ClearedW(c: Caller): nat { Unit(c.pc.Cleared?) }
  function TakenW(slot: Option<nat>): nat { Unit(slot.Some?) }

  // Upper bound on the steps a caller still takes, a wake-up aside.
  function RankW(c: Caller): nat {
    match c.pc
    case Arrived => 20
    case Numbered => 19
    case Contending(_) => 18
    case Scanning(_) => 17
    case Parked => 16
    case Claimed(_) => 15
    case Dequeued(_) => 14
    case Assigned(_) => 13
    case Raised(_, _) => 12
    case Ready(_) => 11
    case Running(_, _) => 10
    case Finished(_, _, _) => 9
    case Returning(_) => 8
    case Clearing(_) => 7
    case Cleared(_) => 6
    case Lowered => 5
    case Notified => 1
    case Done => 0
  }

  function ObserverRankW(o: Observer): nat {
    match o
    case Asking => 5
    case Locked => 4
    case SawActive(_) => 3
    case SawWaiting(_, _) => 2
    case SawPeak(_, _, _) => 1
    case Reported(_) => 0
  }

  // ----- steps -----

  function Init(lanes: nat, spurious: nat): State {
    State(seq(lanes, i => None), Free, [], [], 0, 0, 0, 0, [], Started(lanes), spurious)
  }

  // Index of the first free slot at or after `from`; the length when there is none.
  function FirstFree(slots: seq<Option<nat>>, from: nat := 0): (r: nat)
    requires from <= |slots|
    ensures from <= r <= |slots|
    ensures r < |slots| ==> slots[r].None?
    ensures forall l :: from <= l < r ==> slots[l].Some?
    decreases |slots| - from
  {
    if from == |slots| || slots[from].None? then from else FirstFree(slots, from + 1)
  }

  predicate Blocked(s: State, pc: Pc) {
    pc.Parked? || pc.Done? || ((pc.Contending? || pc.Returning?) && s.lock != Free)
  }

  predicate Enabled(s: State, a: Action) {
    match a
    case Arrive => true
    case Ask => true
    case Tick(_) => true
    case Foreign(_) => true
    case Advance(c) => c < |s.callers| && !Blocked(s, s.callers[c].pc) && !s.callers[c].pc.Lowered?
    case Notify(c, waiter) =>
      && c < |s.callers| && s.callers[c].pc.Lowered?
      && (match waiter
          case Some(w) => w < |s.callers| && s.callers[w].pc.Parked?
          case None => forall w :: 0 <= w < |s.callers| ==> !s.callers[w].pc.Parked?)
    case Spurious(c) => c < |s.callers| && s.callers[c].pc.Parked? && s.spurious > 0
    case Observe(o) =>
      o < |s.observers| && !s.observers[o].Reported? && (s.observers[o].Asking? ==> s.lock == Free)
  }

  function At(s: State, c: nat, pc: Pc): State
    requires c < |s.callers|
  {
    s.(callers := s.callers[c := s.callers[c].(pc := pc)])
  }

  // Where caller `c` stands after its next atomic action.
  function Next(s: State, c: nat): Pc
    requires Enabled(s, Advance(c)) && ShapeInv(s)
  {
    match s.callers[c].pc
    case Arrived => Numbered
    case Numbered => Contending(false)
    case Contending(woken) => Scanning(woken)
    case Scanning(_) => if FirstFree(s.slots) < |s.slots| then Claimed(FirstFree(s.slots)) else Parked
    case Claimed(lane) => Dequeued(lane)
    case Dequeued(lane) => Assigned(lane)
    case Assigned(lane) => Raised(lane, AsCount(s.active + 1))
    case Raised(lane, _) => Ready(lane)
    case Ready(lane) => Running(lane, s.clock.now)
    case Running(lane, since) => Finished(lane, since, s.clock.now)
    case Finished(lane, _, _) => Returning(lane)
    case Returning(lane) => Clearing(lane)
    case Clearing(lane) => Cleared(lane)
    case Cleared(_) => Lowered
    case Notified => Done
    case pc => pc
  }

  // What the action writes to the shared fields.
  function Effect(s: State, c: nat): State
    requires Enabled(s, Advance(c)) && ShapeInv(s)
  {
    match s.callers[c].pc
    case Arrived => s.(nextId := s.nextId + 1)
    case Numbered => s.(waiting := s.waiting + 1)
    case Contending(_) => s.(lock := ByCaller(c))
    case Scanning(_) =>
      var lane := FirstFree(s.slots);
      if lane < |s.slots| then s.(slots := s.slots[lane := Some(s.callers[c].id)]) else s.(lock := Free)
    case Claimed(_) => s.(waiting := s.waiting - 1)
    case Dequeued(_) => s.(lock := Free)
    case Assigned(_) => s.(active := s.active + 1, order := s.order + [c])
    case Raised(_, seen) => if seen > s.peak then s.(peak := seen) else s
    case Finished(lane, since, until) => s.(clock := Bill(s.clock, lane, since, until))
    case Returning(_) => s.(lock := ByCaller(c))
    case Clearing(lane) => s.(slots := s.slots[lane := None])
    case Cleared(_) => s.(active := s.active - 1, order := Without(s.order, c))
    case Notified => s.(lock := Free)
    case _ => s
  }

  // The id a caller has from then on: the one it draws with its first action.
  function IdAfter(s: State, c: nat): nat
    requires c < |s.callers|
  {
    if s.callers[c].pc.Arrived? then s.nextId else s.callers[c].id
  }

  // The next atomic action of caller `c`.
  function Step(s: State, c: nat): State
    requires Enabled(s, Advance(c)) && ShapeInv(s)
  {
    Effect(s, c).(callers := s.callers[c := Caller(IdAfter(s, c), Next(s, c))])
  }

  function AsCount(i: int): nat { if i < 0 then 0 else i }

  function StepObserver(s: State, o: nat): State
    requires Enabled(s, Observe(o))
  {
    match s.observers[o]
    case Asking => s.(observers := s.observers[o := Locked], lock := ByObserver(o))
    case Locked => s.(observers := s.observers[o := SawActive(AsCount(s.active))])
    case SawActive(r) => s.(observers := s.observers[o := SawWaiting(r, AsCount(s.waiting))])
    case SawWaiting(r, q) => s.(observers := s.observers[o := SawPeak(r, q, s.peak)])
    case SawPeak(r, q, p) =>
      s.(observers := s.observers[o := Reported(Snapshot(r, q, p, s.slots))], lock := Free)
    case Reported(_) => s
  }

  function Apply(s: State, a: Action): State
    requires Enabled(s, a) && ShapeInv(s)
  {
    match a
    case Arrive => s.(callers := s.callers + [Caller(0, Arrived)])
    case Ask => s.(observers := s.observers + [Asking])
    case Foreign(drawn) => s.(nextId := s.nextId + drawn)
    case Tick(nanos) => s.(clock := s.clock.(now := s.clock.now + nanos))
    case Advance(c) => Step(s, c)
    case Notify(c, waiter) =>
      var t := At(s, c, Notified);
      if waiter.Some? then At(t, waiter.value, Contending(true)) else t
    case Spurious(c) => At(s, c, Contending(true)).(spurious := s.spurious - 1)
    case Observe(o) => StepObserver(s, o)
  }

  // ----- invariants -----

  // What the step function needs to be defined: lanes are in range, clocks have one entry a lane.
  ghost predicate ShapeInv(s: State) {
    && |s.slots| > 0
    && |s.clock.billed| == |s.clock.idleSince| == |s.slots|
    && (forall c :: 0 <= c < |s.callers| ==> LaneInRange(s.callers[c].pc, |s.slots|))
  }

  predicate LaneInRange(pc: Pc, lanes: nat) {
    && (Owns(pc) || pc.Cleared? ==> pc.lane < lanes)
    && (pc.Finished? ==> pc.since <= pc.until)
  }

  ghost predicate LockInv(s: State) {
    && (forall c :: 0 <= c < |s.callers| ==> (HoldsLock(s.callers[c].pc) <==> s.lock == ByCaller(c)))
    && (forall o :: 0 <= o < |s.observers| ==> (ObserverHoldsLock(s.observers[o]) <==> s.lock == ByObserver(o)))
    && (s.lock.ByCaller? ==> s.lock.caller < |s.callers|)
    && (s.lock.ByObserver? ==> s.lock.observer < |s.observers|)
  }

  ghost predicate IdInv(s: State) {
    && (forall c :: 0 <= c < |s.callers| && !s.callers[c].pc.Arrived? ==> s.callers[c].id < s.nextId)
    && (forall c, d :: 0 <= c < d < |s.callers| && !s.callers[c].pc.Arrived? && !s.callers[d].pc.Arrived? ==>
          s.callers[c].id != s.callers[d].id)
  }

  // A caller that owns a lane finds its own id in that lane's slot, so no two callers own one lane.
  ghost predicate SlotInv(s: State)
    requires ShapeInv(s)
  {
    forall c :: 0 <= c < |s.callers| ==>
      && (Owns(s.callers[c].pc) ==> s.slots[s.callers[c].pc.lane] == Some(s.callers[c].id))
      && (s.callers[c].pc.Cleared? ==> s.slots[s.callers[c].pc.lane] == None)
  }

  // The atomics are exact head counts, each over its own stretch of the program.
  ghost predicate CountInv(s: State) {
    && s.active == Sum(s.callers, ActiveW)
    && s.waiting == Sum(s.callers, WaitingW)
    && Sum(s.slots, TakenW) == Sum(s.callers, OwnsW)
  }

  function Credit(s: State): nat {
    Unit(s.lock.ByCaller? && s.lock.caller < |s.callers| && OwesWakeup(s.callers[s.lock.caller].pc))
  }

  // No lost wake-up: while somebody is parked, every free slot has a woken caller on its way to it,
  // except for the one slot the mutex holder is still dealing with.
  ghost predicate WakeInv(s: State) {
    Sum(s.callers, ParkedW) > 0 ==>
      |s.slots| <= Sum(s.slots, TakenW) + Sum(s.callers, WokenW) + Credit(s)
  }

  ghost predicate PeakInv(s: State) {
    && s.peak <= |s.slots|
    && (forall c :: 0 <= c < |s.callers| && s.callers[c].pc.Raised? ==> s.callers[c].pc.seen <= |s.slots|)
  }

  // Everyone counted in `active` has either recorded, or is about to record, a peak at least as
  // large as its place in the order of entry.
  ghost predicate OrderInv(s: State) {
    && Distinct(s.order) && |s.order| == s.active
    && (forall c: nat :: c in s.order <==> c < |s.callers| && Active(s.callers[c].pc))
    && (forall i :: 0 <= i < |s.order| ==> Published(s, i))
  }

  predicate Published(s: State, i: nat)
    requires i < |s.order|
  {
    var c := s.order[i];
    c < |s.callers| && i + 1 <= (if s.callers[c].pc.Raised? then s.callers[c].pc.seen else s.peak)
  }

  ghost predicate ClockInv(s: State)
    requires ShapeInv(s)
  {
    && Fair(s.clock, |s.slots|)
    && (forall c :: 0 <= c < |s.callers| ==> Timed(s.clock, s.callers[c].pc))
  }

  predicate Timed(clock: Clock, pc: Pc)
    requires LaneInRange(pc, |clock.idleSince|)
  {
    && (pc.Running? ==> clock.idleSince[pc.lane] <= pc.since <= clock.now)
    && (pc.Finished? ==> clock.idleSince[pc.lane] <= pc.since && pc.until <= clock.now)
  }

  // A snapshot never counts more running callers than it shows occupied lanes.
  ghost predicate SnapshotInv(s: State) {
    forall o :: 0 <= o < |s.observers| ==>
      match s.observers[o]
      case Asking => true
      case Locked => true
      case SawActive(r) => r <= Sum(s.slots, TakenW)
      case SawWaiting(r, _) => r <= Sum(s.slots, TakenW)
      case SawPeak(r, _, p) => r <= Sum(s.slots, TakenW) && p <= |s.slots|
      case Reported(v) => v.running <= Sum(v.lanes, TakenW) && v.peak <= |v.lanes| == |s.slots|
  }

  ghost predicate Inv(s: State) {
    && ShapeInv(s)
    && LockInv(s)
    && IdInv(s)
    && SlotInv(s)
    && CountInv(s)
    && WakeInv(s)
    && PeakInv(s)
    && OrderInv(s)
    && ClockInv(s)
    && SnapshotInv(s)
  }
}
