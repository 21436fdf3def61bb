// The scheduler object behind `run_one`: its shared fields, changed in place by the atomic actions
// of its callers. Each method is one action of one caller, on the fields the source writes there,
// proved equal to the corresponding step of the protocol. Lines are those of
// crates/pit-scheduler/src/lib.rs.
module LaneScheduler {
  import opened Wrappers
  import opened GridClock
  import opened EntryOrder
  import opened LaneProtocol
  import opened LaneSafety
  import opened LaneTheorems

  class PitScheduler {
    const slots: array<Option<nat>>
    var lock: Lock
    var callers: seq<Caller>
    var observers: seq<Observer>
    var nextId: nat
    var active: int
    var waiting: int
    var peak: nat
    var now: nat
    var busyNanos: nat
    ghost var billed: seq<nat>
    ghost var idleSince: seq<nat>
    ghost var order: seq<nat>
    var spurious: nat   // wake-ups without a notification that the condition variable may still give

    ghost function Model(): State
      reads this, slots
    {
      State(slots[..], lock, callers, observers, nextId, active, waiting, peak, order, Times(), spurious)
    }

    ghost function Times(): Clock
      reads this
    {
      Clock(now, busyNanos, billed, idleSince)
    }

    // Rejecting zero lanes is the constructor's caller in `New`.
    constructor (lanes: nat, spurious: nat)
      requires lanes > 0
      ensures Model() == Init(lanes, spurious) && fresh(slots)
    {
      slots := new Option<nat>[lanes](i => None);
      lock := Free;
      callers, observers := [], [];
      nextId, active, waiting, peak, now, busyNanos := 0, 0, 0, 0, 0, 0;
      billed, idleSince := seq(lanes, i => 0), seq(lanes, i => 0);
      order := [];
      this.spurious := spurious;
      new;
      assert slots[..] == Init(lanes, spurious).slots;
    }

    static method New(lanes: nat, spurious: nat) returns (r: Result<PitScheduler, string>)
      ensures r.Err? <==> lanes == 0
      ensures r.Ok? ==> fresh(r.value) && r.value.Model() == Init(lanes, spurious) && Inv(r.value.Model())
    {
      if lanes == 0 {
        return Err("execution lane count must be greater than zero");
      }
      var scheduler := new PitScheduler(lanes, spurious);
      InitInv(lanes, spurious);
      return Ok(scheduler);
    }

    ghost predicate At(c: nat)
      reads this, slots
    {
      Inv(Model()) && Enabled(Model(), Advance(c))
    }

    method Arrive() returns (c: nat)
      requires Inv(Model())
      modifies this`callers
      ensures c == old(|callers|) && Model() == Apply(old(Model()), Action.Arrive) && Inv(Model())
    {
      ApplyKeepsInv(Model(), Action.Arrive);
      c := |callers|;
      callers := callers + [Caller(0, Arrived)];
    }

    // Line 329: `next_execution_id.fetch_add`.
    method DrawId(c: nat)
      requires At(c) && callers[c].pc.Arrived?
      modifies this`callers, this`nextId
      ensures Model() == Step(old(Model()), c) && Inv(Model())
    {
      hide Inv;
      InvHasShape(Model());
      StepKeepsInv(Model(), c);
      callers := callers[c := Caller(nextId, Numbered)];
      nextId := nextId + 1;
    }

    method JoinQueue(c: nat)
      requires At(c) && callers[c].pc.Numbered?
      modifies this`callers, this`waiting
      ensures Model() == Step(old(Model()), c) && Inv(Model())
    {
      hide Inv;
      InvHasShape(Model());
      StepKeepsInv(Model(), c);
      Move(c, Contending(false));
      waiting := waiting + 1;
    }

    // Both acquisitions of the mutex, lines 333 and 377, and the one inside `wait`.
    method Acquire(c: nat)
      requires At(c) && (callers[c].pc.Contending? || callers[c].pc.Returning?)
      modifies this`callers, this`lock
      ensures Model() == Step(old(Model()), c) && Inv(Model())
    {
      hide Inv;
      InvHasShape(Model());
      StepKeepsInv(Model(), c);
      var pc := callers[c].pc;
      Move(c, if pc.Contending? then Scanning(pc.woken) else Clearing(pc.lane));
      lock := ByCaller(c);
    }

    // The scan of lines 335-338.
    method FindFree() returns (lane: nat)
      ensures lane == FirstFree(slots[..])
    {
      lane := 0;
      while lane < slots.Length && slots[lane].Some?
        invariant lane <= slots.Length
        invariant FirstFree(slots[..]) == FirstFree(slots[..], lane)
      {
        lane := lane + 1;
      }
    }

    // Lines 334-346: claim the first free slot, or park and release the mutex.
    method ScanOrPark(c: nat)
      requires At(c) && callers[c].pc.Scanning?
      modifies this`callers, this`lock, slots
      ensures Model() == Step(old(Model()), c) && Inv(Model())
    {
      hide Inv;
      InvHasShape(Model());
      StepKeepsInv(Model(), c);
      var lane := FindFree();
      if lane < slots.Length {
        slots[lane] := Some(callers[c].id);
        Move(c, Claimed(lane));
        assert slots[..] == old(slots[..])[lane := Some(callers[c].id)];
      } else {
        lock := Free;
        Move(c, Parked);
      }
    }

    method LeaveQueue(c: nat)
      requires At(c) && callers[c].pc.Claimed?
      modifies this`callers, this`waiting
      ensures Model() == Step(old(Model()), c) && Inv(Model())
    {
      hide Inv;
      InvHasShape(Model());
      StepKeepsInv(Model(), c);
      waiting := waiting - 1;
      Move(c, Dequeued(callers[c].pc.lane));
    }

    // Line 349, and the guard dropped when the call returns.
    method Release(c: nat)
      requires At(c) && (callers[c].pc.Dequeued? || callers[c].pc.Notified?)
      modifies this`callers, this`lock
      ensures Model() == Step(old(Model()), c) && Inv(Model())
    {
      hide Inv;
      InvHasShape(Model());
      StepKeepsInv(Model(), c);
      lock := Free;
      Move(c, if callers[c].pc.Dequeued? then Assigned(callers[c].pc.lane) else Done);
    }

    method RaiseActive(c: nat)
      requires At(c) && callers[c].pc.Assigned?
      modifies this`callers, this`active, this`order
      ensures Model() == Step(old(Model()), c) && Inv(Model())
    {
      hide Inv;
      InvHasShape(Model());
      StepKeepsInv(Model(), c);
      active := active + 1;
      order := order + [c];
      Move(c, Raised(callers[c].pc.lane, AsCount(active)));
    }

    method RaisePeak(c: nat)
      requires At(c) && callers[c].pc.Raised?
      modifies this`callers, this`peak
      ensures Model() == Step(old(Model()), c) && Inv(Model())
    {
      hide Inv;
      InvHasShape(Model());
      StepKeepsInv(Model(), c);
      if callers[c].pc.seen > peak {
        peak := callers[c].pc.seen;
      }
      Move(c, Ready(callers[c].pc.lane));
    }

    method StartTask(c: nat)
      requires At(c) && callers[c].pc.Ready?
      modifies this`callers
      ensures Model() == Step(old(Model()), c) && Inv(Model())
    {
      hide Inv;
      InvHasShape(Model());
      StepKeepsInv(Model(), c);
      Move(c, Running(callers[c].pc.lane, now));
    }

    method FinishTask(c: nat)
      requires At(c) && callers[c].pc.Running?
      modifies this`callers
      ensures Model() == Step(old(Model()), c) && Inv(Model())
    {
      hide Inv;
      InvHasShape(Model());
      StepKeepsInv(Model(), c);
      Move(c, Finished(callers[c].pc.lane, callers[c].pc.since, now));
    }

    method AddBusyTime(c: nat)
      requires At(c) && callers[c].pc.Finished?
      modifies this`callers, this`busyNanos, this`billed, this`idleSince
      ensures Model() == Step(old(Model()), c) && Inv(Model())
    {
      hide Inv;
      InvHasShape(Model());
      StepKeepsInv(Model(), c);
      var Finished(lane, since, until) := callers[c].pc;
      Charge(lane, since, until);
      Move(c, Returning(lane));
    }

    // `busy_nanos.fetch_add`, with the lane's history.
    method Charge(lane: nat, since: nat, until: nat)
      requires lane < |billed| == |idleSince| && since <= until
      modifies this`busyNanos, this`billed, this`idleSince
      ensures Times() == Bill(old(Times()), lane, since, until)
    {
      busyNanos := busyNanos + (until - since);
      billed := billed[lane := billed[lane] + (until - since)];
      idleSince := idleSince[lane := until];
    }

    method ClearSlot(c: nat)
      requires At(c) && callers[c].pc.Clearing?
      modifies this`callers, slots
      ensures Model() == Step(old(Model()), c) && Inv(Model())
    {
      hide Inv;
      InvHasShape(Model());
      StepKeepsInv(Model(), c);
      var lane := callers[c].pc.lane;
      slots[lane] := None;
      Move(c, Cleared(lane));
      assert slots[..] == old(slots[..])[lane := None];
    }

    method LowerActive(c: nat)
      requires At(c) && callers[c].pc.Cleared?
      modifies this`callers, this`active, this`order
      ensures Model() == Step(old(Model()), c) && Inv(Model())
    {
      hide Inv;
      InvHasShape(Model());
      StepKeepsInv(Model(), c);
      active := active - 1;
      order := Without(order, c);
      Move(c, Lowered);
    }

    // Line 380: any one parked caller is woken, and none when nobody is parked.
    method NotifyOne(c: nat) returns (waiter: Option<nat>)
      requires Inv(Model()) && c < |callers| && callers[c].pc.Lowered?
      modifies this`callers
      ensures Enabled(old(Model()), Notify(c, waiter))
      ensures Model() == Apply(old(Model()), Notify(c, waiter)) && Inv(Model())
    {
      hide Inv;
      InvHasShape(Model());
      if w :| 0 <= w < |callers| && callers[w].pc.Parked? {
        waiter := Some(w);
      } else {
        waiter := None;
      }
      NotifyKeepsInv(Model(), c, waiter);
      Move(c, Notified);
      if waiter.Some? {
        Move(waiter.value, Contending(true));
      }
    }

    // `shared_snapshot`, one read at a time.
    method Snapshot(o: nat)
      requires Inv(Model()) && Enabled(Model(), Observe(o))
      modifies this`observers, this`lock
      ensures Model() == Apply(old(Model()), Observe(o)) && Inv(Model())
    {
      ObserveKeepsInv(Model(), o);
      match observers[o]
      case Asking =>
        observers := observers[o := Locked];
        lock := ByObserver(o);
      case Locked =>
        observers := observers[o := SawActive(AsCount(active))];
      case SawActive(r) =>
        observers := observers[o := SawWaiting(r, AsCount(waiting))];
      case SawWaiting(r, q) =>
        observers := observers[o := SawPeak(r, q, peak)];
      case SawPeak(r, q, p) =>
        observers := observers[o := Reported(LaneProtocol.Snapshot.Snapshot(r, q, p, slots[..]))];
        lock := Free;
    }

    method Ask() returns (o: nat)
      requires Inv(Model())
      modifies this`observers
      ensures o == old(|observers|) && Model() == Apply(old(Model()), Action.Ask) && Inv(Model())
    {
      ApplyKeepsInv(Model(), Action.Ask);
      o := |observers|;
      observers := observers + [Asking];
    }

    method Elapse(nanos: nat)
      requires Inv(Model())
      modifies this`now
      ensures Model() == Apply(old(Model()), Tick(nanos)) && Inv(Model())
    {
      ApplyKeepsInv(Model(), Tick(nanos));
      now := now + nanos;
    }

    // `wait` may return without a notification.
    method WakeSpuriously(c: nat)
      requires Inv(Model()) && Enabled(Model(), Action.Spurious(c))
      modifies this`callers, this`spurious
      ensures Model() == Apply(old(Model()), Action.Spurious(c)) && Inv(Model())
    {
      ApplyKeepsInv(Model(), Action.Spurious(c));
      spurious := spurious - 1;
      Move(c, Contending(true));
    }

    // One atomic action of one caller, whichever comes next.
    method CallerStep(c: nat)
      requires At(c)
      modifies this, slots
      ensures Model() == Step(old(Model()), c) && Inv(Model())
    {
      match callers[c].pc
      case Arrived => DrawId(c);
      case Numbered => JoinQueue(c);
      case Contending(_) => Acquire(c);
      case Scanning(_) => ScanOrPark(c);
      case Claimed(_) => LeaveQueue(c);
      case Dequeued(_) => Release(c);
      case Assigned(_) => RaiseActive(c);
      case Raised(_, _) => RaisePeak(c);
      case Ready(_) => StartTask(c);
      case Running(_, _) => FinishTask(c);
      case Finished(_, _, _) => AddBusyTime(c);
      case Returning(_) => Acquire(c);
      case Clearing(_) => ClearSlot(c);
      case Cleared(_) => LowerActive(c);
      case Notified => Release(c);
    }

    predicate CanAct(c: nat)
      reads this`callers, this`lock
    {
      c < |callers| && !callers[c].pc.Parked? && !callers[c].pc.Done? &&
      (callers[c].pc.Contending? || callers[c].pc.Returning? ==> lock.Free?)
    }

    predicate CanRead(o: nat)
      reads this`observers, this`lock
    {
      o < |observers| && !observers[o].Reported? && (observers[o].Asking? ==> lock.Free?)
    }

    // Somebody moves, or nobody can.
    method Turn(ghost lanes: nat, ghost budget: nat) returns (moved: bool)
      requires lanes > 0 && Reachable(Model(), lanes, budget) && Inv(Model())
      modifies this, slots
      ensures Reachable(Model(), lanes, budget) && Inv(Model())
      ensures |callers| == old(|callers|) && |observers| == old(|observers|)
      ensures moved ==> Measure(Model()) < old(Measure(Model()))
      ensures !moved ==> Model() == old(Model()) && !CanMove(Model())
    {
      moved := true;
      if c: nat :| c < |callers| && CanAct(c) {
        Act(lanes, budget, c);
      } else if o: nat :| o < |observers| && CanRead(o) {
        EveryMoveCosts(Model(), Observe(o));
        ReachableExtends(Model(), lanes, budget, Observe(o));
        Snapshot(o);
      } else {
        moved := false;
        NobodyCanMove();
      }
    }

    lemma NobodyCanMove()
      requires forall c: nat :: c < |callers| ==> !CanAct(c)
      requires forall o: nat :: o < |observers| ==> !CanRead(o)
      ensures !CanMove(Model())
    {
      assert forall c: nat :: Enabled(Model(), Advance(c)) ==> CanAct(c);
      assert forall c: nat, w :: Enabled(Model(), Notify(c, w)) ==> CanAct(c);
      assert forall o: nat :: Enabled(Model(), Observe(o)) ==> CanRead(o);
    }

    method Act(ghost lanes: nat, ghost budget: nat, c: nat)
      requires lanes > 0 && Reachable(Model(), lanes, budget) && Inv(Model()) && CanAct(c)
      modifies this, slots
      ensures Reachable(Model(), lanes, budget) && Inv(Model())
      ensures |callers| == old(|callers|) && |observers| == old(|observers|)
      ensures Measure(Model()) < old(Measure(Model()))
    {
      if callers[c].pc.Lowered? {
        ghost var before := Model();
        var waiter := NotifyOne(c);
        NotifyCost(before, c, waiter);
        ReachableExtends(before, lanes, budget, Notify(c, waiter));
      } else {
        MoveCost(Model(), c);
        StepMovesOneCaller(Model(), c);
        ReachableExtends(Model(), lanes, budget, Advance(c));
        CallerStep(c);
      }
    }

    // Ids drawn by a batch meanwhile.
    method OthersDraw(drawn: nat)
      requires Inv(Model())
      modifies this`nextId
      ensures Model() == Apply(old(Model()), Foreign(drawn)) && Inv(Model())
    {
      ApplyKeepsInv(Model(), Foreign(drawn));
      nextId := nextId + drawn;
    }

    // Time passes, and a batch draws ids.
    method Meanwhile(ghost lanes: nat, ghost budget: nat)
      requires lanes > 0 && Reachable(Model(), lanes, budget) && Inv(Model())
      modifies this`now, this`nextId
      ensures Reachable(Model(), lanes, budget) && Inv(Model()) && Measure(Model()) == old(Measure(Model()))
      ensures CanMove(Model()) ==> old(CanMove(Model()))
    {
      var nanos: nat :| nanos >= 0;
      var drawn: nat :| drawn >= 0;
      QuietChange(Model(), lanes, budget, Tick(nanos));
      Elapse(nanos);
      QuietChange(Model(), lanes, budget, Foreign(drawn));
      OthersDraw(drawn);
    }

    method WakeOne(ghost lanes: nat, ghost budget: nat, c: nat)
      requires lanes > 0 && Reachable(Model(), lanes, budget) && Inv(Model())
      requires c < |callers| && callers[c].pc.Parked? && spurious > 0
      modifies this`callers, this`spurious
      ensures Reachable(Model(), lanes, budget) && Inv(Model()) && |callers| == old(|callers|)
      ensures Measure(Model()) < old(Measure(Model()))
    {
      EveryMoveCosts(Model(), Action.Spurious(c));
      ReachableExtends(Model(), lanes, budget, Action.Spurious(c));
      WakeSpuriously(c);
    }

    // One more call comes in.
    method Call(ghost lanes: nat, ghost budget: nat)
      requires lanes > 0 && Reachable(Model(), lanes, budget) && Inv(Model())
      modifies this`callers
      ensures Reachable(Model(), lanes, budget) && Inv(Model()) && |callers| == old(|callers|) + 1
      ensures Measure(Model()) <= old(Measure(Model())) + 20
    {
      EveryMoveCosts(Model(), Action.Arrive);
      ReachableExtends(Model(), lanes, budget, Action.Arrive);
      var _ := Arrive();
    }

    // A snapshot is asked for.
    method Watch(ghost lanes: nat, ghost budget: nat)
      requires lanes > 0 && Reachable(Model(), lanes, budget) && Inv(Model())
      modifies this`observers
      ensures Reachable(Model(), lanes, budget) && Inv(Model()) && |observers| == old(|observers|) + 1
      ensures Measure(Model()) <= old(Measure(Model())) + 5
    {
      EveryMoveCosts(Model(), Action.Ask);
      ReachableExtends(Model(), lanes, budget, Action.Ask);
      var _ := Ask();
    }

    // The calls made so far and `calls` more, coming in at any time, in any interleaving, with
    // snapshots, spurious wake-ups, a batch drawing ids and time passing in between: all of them
    // return, and leave the pool as it was created.
    method ServeAll(ghost lanes: nat, ghost budget: nat, calls: nat, snapshots: nat)
      requires lanes > 0 && Reachable(Model(), lanes, budget)
      modifies this, slots
      ensures |callers| == old(|callers|) + calls && forall c :: 0 <= c < |callers| ==> callers[c].pc.Done?
      ensures slots.Length == lanes && forall l :: 0 <= l < lanes ==> slots[l].None?
      ensures lock.Free? && active == 0 && waiting == 0
      ensures Reachable(Model(), lanes, budget)
    {
      hide Inv, Reachable, Measure, CanMove;
      ReachableInv(Model(), lanes, budget);
      var coming, asking, moved := calls, snapshots, true;
      while moved || coming > 0
        invariant Reachable(Model(), lanes, budget) && Inv(Model())
        invariant |callers| + coming == old(|callers|) + calls
        invariant !moved ==> !CanMove(Model())
        decreases Measure(Model()) + 21 * coming + 6 * asking, moved
      {
        Meanwhile(lanes, budget);
        var event := *;
        if coming > 0 && (event || !moved) {
          Call(lanes, budget);
          coming, moved := coming - 1, true;
        } else if event && asking > 0 {
          Watch(lanes, budget);
          asking, moved := asking - 1, true;
        } else if c: nat :| event && c < |callers| && callers[c].pc.Parked? && spurious > 0 {
          WakeOne(lanes, budget, c);
          moved := true;
        } else {
          moved := Turn(lanes, budget);
        }
      }
      QuietPoolIsClean(Model(), lanes, budget);
      ReachableInv(Model(), lanes, budget);
      assert forall l :: 0 <= l < lanes ==> Model().slots[l] == slots[l];
    }

    method Move(c: nat, pc: Pc)
      requires c < |callers|
      modifies this`callers
      ensures callers == old(callers)[c := old(callers[c]).(pc := pc)]
    {
      callers := callers[c := callers[c].(pc := pc)];
    }
  }
}
