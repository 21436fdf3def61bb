// Every step of the lane pool keeps its invariants, whatever the schedule.
module LaneSafety {
  import opened Wrappers
  import opened Sums
  import opened GridClock
  import opened EntryOrder
  import opened LaneProtocol

  lemma InvHasShape(s: State)
    requires Inv(s)
    ensures ShapeInv(s)
  {}

  // Effect of replacing caller `c` on every head count.
  lemma CallerSums(cs: seq<Caller>, c: nat, v: Caller)
    requires c < |cs|
    ensures Sum(cs[c := v], ParkedW) + ParkedW(cs[c]) == Sum(cs, ParkedW) + ParkedW(v)
    ensures Sum(cs[c := v], WokenW) + WokenW(cs[c]) == Sum(cs, WokenW) + WokenW(v)
    ensures Sum(cs[c := v], OwnsW) + OwnsW(cs[c]) == Sum(cs, OwnsW) + OwnsW(v)
    ensures Sum(cs[c := v], ActiveW) + ActiveW(cs[c]) == Sum(cs, ActiveW) + ActiveW(v)
    ensures Sum(cs[c := v], WaitingW) + WaitingW(cs[c]) == Sum(cs, WaitingW) + WaitingW(v)
  {
    SumUpdate(cs, c, v, ParkedW);
    SumUpdate(cs, c, v, WokenW);
    SumUpdate(cs, c, v, OwnsW);
    SumUpdate(cs, c, v, ActiveW);
    SumUpdate(cs, c, v, WaitingW);
  }

  lemma ArrivalSums(cs: seq<Caller>)
    ensures var v := Caller(0, Arrived);
      && Sum(cs + [v], ParkedW) == Sum(cs, ParkedW) && Sum(cs + [v], WokenW) == Sum(cs, WokenW)
      && Sum(cs + [v], OwnsW) == Sum(cs, OwnsW) && Sum(cs + [v], ActiveW) == Sum(cs, ActiveW)
      && Sum(cs + [v], WaitingW) == Sum(cs, WaitingW)
  {
    var v := Caller(0, Arrived);
    SumAppend(cs, v, ParkedW);
    SumAppend(cs, v, WokenW);
    SumAppend(cs, v, OwnsW);
    SumAppend(cs, v, ActiveW);
    SumAppend(cs, v, WaitingW);
  }

  lemma InitInv(lanes: nat, spurious: nat)
    requires lanes > 0
    ensures Inv(Init(lanes, spurious))
  {
    StartedFair(lanes);
    SumZero(Init(lanes, spurious).slots, TakenW);
  }

  lemma StepMovesOneCaller(s: State, c: nat)
    requires ShapeInv(s) && Enabled(s, Advance(c))
    ensures |Step(s, c).callers| == |s.callers|
    ensures Step(s, c).callers == s.callers[c := Step(s, c).callers[c]]
    ensures Step(s, c).observers == s.observers && Step(s, c).spurious == s.spurious
  {
    hide Next, IdAfter;
  }

  lemma StepKeepsOwnId(s: State, c: nat)
    requires ShapeInv(s) && Enabled(s, Advance(c)) && !s.callers[c].pc.Arrived?
    ensures |Step(s, c).callers| == |s.callers|
    ensures Step(s, c).callers[c].id == s.callers[c].id && !Step(s, c).callers[c].pc.Arrived?
  {}

  lemma StepKeepsLock(s: State, c: nat)
    requires ShapeInv(s) && LockInv(s) && Enabled(s, Advance(c))
    ensures LockInv(Step(s, c))
  {
    var t := Step(s, c);
    assert HoldsLock(t.callers[c].pc) <==> t.lock == ByCaller(c);
    assert t.lock != s.lock ==> t.lock == ByCaller(c) || s.lock == ByCaller(c);
  }

  lemma StepKeepsIds(s: State, c: nat)
    requires ShapeInv(s) && IdInv(s) && Enabled(s, Advance(c))
    ensures IdInv(Step(s, c))
  {
    var t := Step(s, c);
    assert |t.callers| == |s.callers|;
    assert forall d :: 0 <= d < |s.callers| && d != c ==> t.callers[d] == s.callers[d];
  }

  lemma StepKeepsSlots(s: State, c: nat)
    requires ShapeInv(s) && LockInv(s) && IdInv(s) && SlotInv(s) && Enabled(s, Advance(c))
    requires ShapeInv(Step(s, c))
    ensures SlotInv(Step(s, c))
  {
    assert HoldsLock(s.callers[c].pc) ==>
      forall d :: 0 <= d < |s.callers| && d != c ==> !s.callers[d].pc.Cleared?;
    var t := Step(s, c);
    assert |t.callers| == |s.callers|;
    assert forall d :: 0 <= d < |s.callers| && d != c ==> t.callers[d] == s.callers[d];
  }

  lemma TakenUpdate(slots: seq<Option<nat>>, lane: nat, v: Option<nat>)
    requires lane < |slots|
    ensures Sum(slots[lane := v], TakenW) + TakenW(slots[lane]) == Sum(slots, TakenW) + TakenW(v)
  {
    SumUpdate(slots, lane, v, TakenW);
  }

  lemma TakenBound(slots: seq<Option<nat>>)
    ensures Sum(slots, TakenW) <= |slots|
    ensures forall l :: 0 <= l < |slots| && slots[l].None? ==> Sum(slots, TakenW) < |slots|
  {
    SumBound(slots, TakenW, 1);
    forall l | 0 <= l < |slots| && slots[l].None? ensures Sum(slots, TakenW) < |slots| {
      TakenUpdate(slots, l, Some(0));
      SumBound(slots[l := Some(0)], TakenW, 1);
    }
  }

  lemma AllTaken(slots: seq<Option<nat>>)
    requires forall l :: 0 <= l < |slots| ==> slots[l].Some?
    ensures Sum(slots, TakenW) == |slots|
  {
    if slots != [] {
      AllTaken(slots[..|slots| - 1]);
    }
  }

  lemma StepKeepsCounts(s: State, c: nat)
    requires ShapeInv(s) && SlotInv(s) && CountInv(s) && Enabled(s, Advance(c))
    ensures CountInv(Step(s, c))
  {
    StepKeepsHeadCounts(s, c);
    StepKeepsTaken(s, c);
  }

  // Each counter moves when its caller joins or leaves the stretch it counts.
  lemma CountersMove(s: State, c: nat)
    requires ShapeInv(s) && Enabled(s, Advance(c))
    ensures |Step(s, c).callers| == |s.callers|
    ensures var t := Step(s, c);
      && t.active == s.active + ActiveW(t.callers[c]) - ActiveW(s.callers[c])
      && t.waiting == s.waiting + WaitingW(t.callers[c]) - WaitingW(s.callers[c])
  {}

  lemma StepKeepsHeadCounts(s: State, c: nat)
    requires ShapeInv(s) && Enabled(s, Advance(c))
    requires s.active == Sum(s.callers, ActiveW) && s.waiting == Sum(s.callers, WaitingW)
    ensures Step(s, c).active == Sum(Step(s, c).callers, ActiveW)
    ensures Step(s, c).waiting == Sum(Step(s, c).callers, WaitingW)
  {
    var t := Step(s, c);
    StepMovesOneCaller(s, c);
    CountersMove(s, c);
    hide Step;
    SumUpdate(s.callers, c, t.callers[c], ActiveW);
    SumUpdate(s.callers, c, t.callers[c], WaitingW);
  }

  // Slots change hands together with their owners.
  lemma SlotChange(s: State, c: nat)
    requires ShapeInv(s) && Enabled(s, Advance(c))
    ensures var t := Step(s, c); var pc, after := s.callers[c].pc, Step(s, c).callers[c].pc;
      && t.callers == s.callers[c := t.callers[c]]
      && if pc.Scanning? && FirstFree(s.slots) < |s.slots| then
           t.slots == s.slots[FirstFree(s.slots) := Some(s.callers[c].id)] && !Owns(pc) && Owns(after)
         else if pc.Clearing? then t.slots == s.slots[pc.lane := None] && Owns(pc) && !Owns(after)
         else t.slots == s.slots && (Owns(pc) <==> Owns(after))
  {}

  lemma StepKeepsTaken(s: State, c: nat)
    requires ShapeInv(s) && SlotInv(s) && Enabled(s, Advance(c))
    requires Sum(s.slots, TakenW) == Sum(s.callers, OwnsW)
    ensures Sum(Step(s, c).slots, TakenW) == Sum(Step(s, c).callers, OwnsW)
  {
    var t := Step(s, c);
    SlotChange(s, c);
    hide Step;
    SumUpdate(s.callers, c, t.callers[c], OwnsW);
    var pc := s.callers[c].pc;
    if pc.Scanning? && FirstFree(s.slots) < |s.slots| {
      TakenUpdate(s.slots, FirstFree(s.slots), Some(s.callers[c].id));
    } else if pc.Clearing? {
      TakenUpdate(s.slots, pc.lane, None);
    }
  }

  // A caller that finds every slot taken parks: nothing is owed to it.
  lemma ScanKeepsWake(s: State, c: nat)
    requires ShapeInv(s) && LockInv(s) && SlotInv(s) && WakeInv(s) && Enabled(s, Advance(c))
    requires s.callers[c].pc.Scanning?
    ensures WakeInv(Step(s, c))
  {
    CallerSums(s.callers, c, Step(s, c).callers[c]);
    if FirstFree(s.slots) < |s.slots| {
      TakenUpdate(s.slots, FirstFree(s.slots), Some(s.callers[c].id));
    } else {
      AllTaken(s.slots);
    }
  }

  // A caller that empties a slot owes a wake-up while it holds the mutex.
  lemma ClearKeepsWake(s: State, c: nat)
    requires ShapeInv(s) && LockInv(s) && SlotInv(s) && WakeInv(s) && Enabled(s, Advance(c))
    requires s.callers[c].pc.Clearing?
    ensures WakeInv(Step(s, c))
  {
    CallerSums(s.callers, c, Step(s, c).callers[c]);
    TakenUpdate(s.slots, s.callers[c].pc.lane, None);
  }

  // No other action parks anybody. A woken caller that gets the mutex brings its wake-up along.
  lemma OtherStepKeepsDebt(s: State, c: nat)
    requires ShapeInv(s) && LockInv(s) && Enabled(s, Advance(c))
    requires !s.callers[c].pc.Scanning? && !s.callers[c].pc.Clearing?
    ensures |Step(s, c).callers| == |s.callers| && Step(s, c).slots == s.slots
    ensures ParkedW(Step(s, c).callers[c]) == ParkedW(s.callers[c])
    ensures WokenW(Step(s, c).callers[c]) + Credit(Step(s, c)) >= WokenW(s.callers[c]) + Credit(s)
  {}

  lemma OtherStepKeepsWake(s: State, c: nat)
    requires ShapeInv(s) && LockInv(s) && WakeInv(s) && Enabled(s, Advance(c))
    requires !s.callers[c].pc.Scanning? && !s.callers[c].pc.Clearing?
    ensures WakeInv(Step(s, c))
  {
    StepMovesOneCaller(s, c);
    OtherStepKeepsDebt(s, c);
    hide Step;
    CallerSums(s.callers, c, Step(s, c).callers[c]);
  }

  lemma StepKeepsWake(s: State, c: nat)
    requires ShapeInv(s) && LockInv(s) && SlotInv(s) && WakeInv(s) && Enabled(s, Advance(c))
    ensures WakeInv(Step(s, c))
  {
    if s.callers[c].pc.Scanning? {
      ScanKeepsWake(s, c);
    } else if s.callers[c].pc.Clearing? {
      ClearKeepsWake(s, c);
    } else {
      OtherStepKeepsWake(s, c);
    }
  }

  function OwnsOrClearedW(c: Caller): nat { OwnsW(c) + ClearedW(c) }

  // `shared_active` is raised outside the mutex and lowered after the slot is emptied, and still:
  // it counts at most the occupied slots, plus one while a caller is between those two writes.
  lemma ActiveBounds(s: State)
    requires ShapeInv(s) && LockInv(s) && SlotInv(s) && CountInv(s)
    ensures 0 <= s.active <= |s.slots|
    ensures !s.lock.ByCaller? ==> s.active <= Sum(s.slots, TakenW)
    ensures s.waiting >= 0
  {
    SumSplit(s.callers, OwnsW, ClearedW, OwnsOrClearedW);
    SumLe(s.callers, ActiveW, OwnsOrClearedW);
    TakenBound(s.slots);
    if s.lock.ByCaller? {
      SumSingle(s.callers, s.lock.caller, ClearedW);
    } else {
      SumZero(s.callers, ClearedW);
    }
  }

  lemma StepKeepsPeak(s: State, c: nat)
    requires ShapeInv(s) && PeakInv(s) && Enabled(s, Advance(c))
    requires Step(s, c).active <= |s.slots|
    ensures PeakInv(Step(s, c))
  {
    var t := Step(s, c);
    assert |t.slots| == |s.slots|;
    assert t.callers[c].pc.Raised? ==> t.callers[c].pc.seen == AsCount(t.active);
  }

  lemma RaiseKeepsOrder(s: State, c: nat)
    requires ShapeInv(s) && OrderInv(s) && Enabled(s, Advance(c)) && s.callers[c].pc.Assigned?
    ensures OrderInv(Step(s, c))
  {
    var t := Step(s, c);
    assert c !in s.order;
    forall i | 0 <= i < |t.order| ensures Published(t, i) {
      assert i < |s.order| ==> Published(s, i) && s.order[i] in s.order;
    }
  }

  lemma LowerKeepsOrder(s: State, c: nat)
    requires ShapeInv(s) && OrderInv(s) && Enabled(s, Advance(c)) && s.callers[c].pc.Cleared?
    ensures OrderInv(Step(s, c))
  {
    var t := Step(s, c);
    assert c in s.order;
    WithoutMembers(s.order, c);
    forall i | 0 <= i < |t.order| ensures Published(t, i) {
      assert t.order[i] in t.order;
      assert Published(s, i) && Published(s, i + 1);
    }
  }

  lemma StepKeepsOrder(s: State, c: nat)
    requires ShapeInv(s) && OrderInv(s) && Enabled(s, Advance(c))
    ensures OrderInv(Step(s, c))
  {
    var t := Step(s, c);
    var pc := s.callers[c].pc;
    if pc.Assigned? {
      RaiseKeepsOrder(s, c);
    } else if pc.Cleared? {
      LowerKeepsOrder(s, c);
    } else {
      assert t.order == s.order && t.active == s.active;
      assert Active(t.callers[c].pc) <==> Active(pc);
      forall i | 0 <= i < |t.order| ensures Published(t, i) {
        assert Published(s, i);
      }
    }
  }

  // The clock moves when a task is billed; its interval is kept by the caller until then.
  lemma TimeMoves(s: State, c: nat)
    requires ShapeInv(s) && Enabled(s, Advance(c)) && Timed(s.clock, s.callers[c].pc)
    ensures var t := Step(s, c); var pc, after := s.callers[c].pc, t.callers[c].pc;
      && t.callers == s.callers[c := t.callers[c]] && |t.slots| == |s.slots|
      && t.clock == (if pc.Finished? then Bill(s.clock, pc.lane, pc.since, pc.until) else s.clock)
      && LaneInRange(after, |s.slots|)
      && (after.Running? ==> pc.Ready? && after.lane == pc.lane && after.since == s.clock.now)
      && (after.Finished? ==>
            pc.Running? && after.lane == pc.lane && after.since == pc.since && after.until == s.clock.now)
  {}

  lemma StepKeepsClock(s: State, c: nat)
    requires ShapeInv(s) && IdInv(s) && SlotInv(s) && ClockInv(s) && Enabled(s, Advance(c))
    ensures ShapeInv(Step(s, c)) && ClockInv(Step(s, c))
  {
    var t := Step(s, c);
    var pc := s.callers[c].pc;
    assert Timed(s.clock, pc);
    TimeMoves(s, c);
    hide Step;
    if pc.Finished? {
      BillFair(s.clock, |s.slots|, pc.lane, pc.since, pc.until);
      assert forall d :: 0 <= d < |s.callers| && d != c && Owns(s.callers[d].pc) ==> s.callers[d].pc.lane != pc.lane;
    }
  }

  lemma StepKeepsSnapshots(s: State, c: nat)
    requires ShapeInv(s) && LockInv(s) && SnapshotInv(s) && Enabled(s, Advance(c))
    ensures SnapshotInv(Step(s, c))
  {
    var t := Step(s, c);
    assert t.observers == s.observers && |t.slots| == |s.slots|;
    assert t.slots != s.slots ==> s.lock == ByCaller(c);
  }

  lemma StepKeepsInv(s: State, c: nat)
    requires Inv(s) && Enabled(s, Advance(c))
    ensures Inv(Step(s, c))
  {
    InvHasShape(s);
    SlotChange(s, c);
    hide Step, ShapeInv, LockInv, IdInv, SlotInv, CountInv, WakeInv, PeakInv, OrderInv, ClockInv, SnapshotInv;
    StepKeepsClock(s, c);
    StepKeepsLock(s, c);
    StepKeepsIds(s, c);
    StepKeepsSlots(s, c);
    StepKeepsCounts(s, c);
    StepKeepsWake(s, c);
    ActiveBounds(Step(s, c));
    StepKeepsPeak(s, c);
    StepKeepsOrder(s, c);
    StepKeepsSnapshots(s, c);
  }

  // Between two such program points a caller touches nothing the invariants speak of,
  // wake-ups aside.
  predicate Quiet(pc: Pc) {
    pc.Parked? || pc.Contending? || pc.Lowered? || pc.Notified?
  }

  ghost predicate InvButWake(s: State) {
    && ShapeInv(s) && LockInv(s) && IdInv(s) && SlotInv(s) && CountInv(s) && PeakInv(s) && OrderInv(s)
    && ClockInv(s) && SnapshotInv(s)
  }

  lemma QuietMoveIds(s: State, c: nat, pc: Pc)
    requires ShapeInv(s) && LockInv(s) && IdInv(s) && CountInv(s)
    requires c < |s.callers| && Quiet(pc) && Quiet(s.callers[c].pc)
    requires HoldsLock(pc) == HoldsLock(s.callers[c].pc) && Waiting(pc) == Waiting(s.callers[c].pc)
    ensures ShapeInv(At(s, c, pc)) && LockInv(At(s, c, pc)) && IdInv(At(s, c, pc)) && CountInv(At(s, c, pc))
  {
    CallerSums(s.callers, c, At(s, c, pc).callers[c]);
  }

  lemma QuietMoveSlots(s: State, c: nat, pc: Pc)
    requires ShapeInv(s) && SlotInv(s) && PeakInv(s) && ClockInv(s) && SnapshotInv(s)
    requires c < |s.callers| && Quiet(pc)
    ensures ShapeInv(At(s, c, pc)) && SlotInv(At(s, c, pc)) && PeakInv(At(s, c, pc))
    ensures ClockInv(At(s, c, pc)) && SnapshotInv(At(s, c, pc))
  {
    var t := At(s, c, pc);
    assert forall d :: 0 <= d < |s.callers| && d != c ==> t.callers[d] == s.callers[d];
  }

  lemma QuietMoveOrder(s: State, c: nat, pc: Pc)
    requires OrderInv(s) && c < |s.callers| && Quiet(pc) && Quiet(s.callers[c].pc)
    ensures OrderInv(At(s, c, pc))
  {
    forall i | 0 <= i < |s.order| ensures Published(At(s, c, pc), i) {
      assert Published(s, i);
    }
  }

  lemma QuietMove(s: State, c: nat, pc: Pc)
    requires InvButWake(s) && c < |s.callers| && Quiet(pc) && Quiet(s.callers[c].pc)
    requires HoldsLock(pc) == HoldsLock(s.callers[c].pc) && Waiting(pc) == Waiting(s.callers[c].pc)
    ensures InvButWake(At(s, c, pc))
  {
    QuietMoveIds(s, c, pc);
    QuietMoveSlots(s, c, pc);
    QuietMoveOrder(s, c, pc);
  }

  // A notification sends a parked caller after the slot just emptied, when there is one.
  lemma NotifyKeepsWake(s: State, c: nat, waiter: Option<nat>)
    requires ShapeInv(s) && LockInv(s) && WakeInv(s) && Enabled(s, Notify(c, waiter))
    ensures WakeInv(Apply(s, Notify(c, waiter)))
  {
    var t := At(s, c, Notified);
    CallerSums(s.callers, c, t.callers[c]);
    match waiter
    case Some(w) =>
      CallerSums(t.callers, w, t.callers[w].(pc := Contending(true)));
    case None =>
      SumZero(s.callers, ParkedW);
  }

  lemma NotifyKeepsInv(s: State, c: nat, waiter: Option<nat>)
    requires Inv(s) && Enabled(s, Notify(c, waiter))
    ensures Inv(Apply(s, Notify(c, waiter)))
  {
    NotifyKeepsWake(s, c, waiter);
    QuietMove(s, c, Notified);
    if waiter.Some? {
      QuietMove(At(s, c, Notified), waiter.value, Contending(true));
    }
  }

  lemma SpuriousKeepsInv(s: State, c: nat)
    requires Inv(s) && Enabled(s, Spurious(c))
    ensures Inv(Apply(s, Spurious(c)))
  {
    hide ShapeInv, LockInv, IdInv, SlotInv, CountInv, WakeInv, PeakInv, OrderInv, ClockInv, SnapshotInv;
    SpuriousKeepsWake(s, c);
    QuietMove(s, c, Contending(true));
    hide InvButWake, Inv;
    SpuriousBudgetIrrelevant(At(s, c, Contending(true)), s.spurious - 1);
  }

  lemma SpuriousKeepsWake(s: State, c: nat)
    requires ShapeInv(s) && LockInv(s) && WakeInv(s) && Enabled(s, Spurious(c))
    ensures WakeInv(At(s, c, Contending(true)))
  {
    CallerSums(s.callers, c, s.callers[c].(pc := Contending(true)));
  }

  lemma SpuriousBudgetIrrelevant(s: State, budget: nat)
    requires InvButWake(s) && WakeInv(s)
    ensures Inv(s.(spurious := budget))
  {
    SameOrder(s, s.(spurious := budget));
  }

  lemma SameOrder(s: State, t: State)
    requires OrderInv(s) && t.callers == s.callers && t.order == s.order && t.active == s.active && t.peak == s.peak
    ensures OrderInv(t)
  {
    forall i | 0 <= i < |t.order| ensures Published(t, i) {
      assert Published(s, i);
    }
  }

  lemma ObserveKeepsSnapshots(s: State, o: nat)
    requires ShapeInv(s) && LockInv(s) && PeakInv(s) && SnapshotInv(s) && Enabled(s, Observe(o))
    requires s.active <= |s.slots| && (!s.lock.ByCaller? ==> s.active <= Sum(s.slots, TakenW))
    ensures SnapshotInv(Apply(s, Observe(o)))
  {}

  lemma ObserveKeepsLock(s: State, o: nat)
    requires ShapeInv(s) && LockInv(s) && IdInv(s) && CountInv(s) && WakeInv(s) && Enabled(s, Observe(o))
    ensures var t := Apply(s, Observe(o)); LockInv(t) && IdInv(t) && CountInv(t) && WakeInv(t)
  {}

  lemma ObserveKeepsSlots(s: State, o: nat)
    requires ShapeInv(s) && SlotInv(s) && PeakInv(s) && ClockInv(s) && OrderInv(s) && Enabled(s, Observe(o))
    ensures var t := Apply(s, Observe(o)); ShapeInv(t) && SlotInv(t) && PeakInv(t) && ClockInv(t) && OrderInv(t)
  {
    SameOrder(s, Apply(s, Observe(o)));
  }

  lemma ObserveKeepsInv(s: State, o: nat)
    requires Inv(s) && Enabled(s, Observe(o))
    ensures Inv(Apply(s, Observe(o)))
  {
    hide ShapeInv, LockInv, IdInv, SlotInv, CountInv, WakeInv, PeakInv, OrderInv, ClockInv, SnapshotInv;
    ActiveBounds(s);
    ObserveKeepsSnapshots(s, o);
    ObserveKeepsLock(s, o);
    ObserveKeepsSlots(s, o);
  }

  lemma ArriveKeepsIds(s: State)
    requires ShapeInv(s) && LockInv(s) && IdInv(s)
    ensures ShapeInv(Apply(s, Arrive)) && LockInv(Apply(s, Arrive)) && IdInv(Apply(s, Arrive))
  {}

  lemma ArriveKeepsCounts(s: State)
    requires ShapeInv(s) && LockInv(s) && CountInv(s) && WakeInv(s)
    ensures CountInv(Apply(s, Arrive)) && WakeInv(Apply(s, Arrive))
  {
    ArrivalSums(s.callers);
  }

  lemma ArriveKeepsOrder(s: State)
    requires OrderInv(s) && ShapeInv(s)
    ensures OrderInv(Apply(s, Arrive))
  {
    forall i | 0 <= i < |s.order| ensures Published(Apply(s, Arrive), i) {
      assert Published(s, i);
    }
  }

  lemma ArriveKeepsSlots(s: State)
    requires ShapeInv(s) && SlotInv(s) && PeakInv(s) && ClockInv(s) && SnapshotInv(s)
    ensures ShapeInv(Apply(s, Arrive)) && SlotInv(Apply(s, Arrive)) && PeakInv(Apply(s, Arrive))
    ensures ClockInv(Apply(s, Arrive)) && SnapshotInv(Apply(s, Arrive))
  {
    assert forall d :: 0 <= d < |s.callers| ==> Apply(s, Arrive).callers[d] == s.callers[d];
  }

  lemma ArriveKeepsInv(s: State)
    requires Inv(s)
    ensures Inv(Apply(s, Arrive))
  {
    hide ShapeInv, LockInv, IdInv, SlotInv, CountInv, WakeInv, PeakInv, OrderInv, ClockInv, SnapshotInv;
    ArriveKeepsIds(s);
    ArriveKeepsCounts(s);
    ArriveKeepsOrder(s);
    ArriveKeepsSlots(s);
  }

  lemma OtherKeepsCounts(s: State, a: Action)
    requires ShapeInv(s) && LockInv(s) && IdInv(s) && CountInv(s) && WakeInv(s)
    requires a.Ask? || a.Tick? || a.Foreign?
    ensures var t := Apply(s, a); LockInv(t) && IdInv(t) && CountInv(t) && WakeInv(t)
  {}

  lemma OtherKeepsSlots(s: State, a: Action)
    requires ShapeInv(s) && SlotInv(s) && PeakInv(s) && ClockInv(s) && SnapshotInv(s) && OrderInv(s)
    requires a.Ask? || a.Tick? || a.Foreign?
    ensures var t := Apply(s, a);
      ShapeInv(t) && SlotInv(t) && PeakInv(t) && ClockInv(t) && SnapshotInv(t) && OrderInv(t)
  {
    SameOrder(s, Apply(s, a));
  }

  lemma OtherKeepsInv(s: State, a: Action)
    requires Inv(s) && (a.Ask? || a.Tick? || a.Foreign?)
    ensures Inv(Apply(s, a))
  {
    hide ShapeInv, LockInv, IdInv, SlotInv, CountInv, WakeInv, PeakInv, OrderInv, ClockInv, SnapshotInv;
    OtherKeepsCounts(s, a);
    OtherKeepsSlots(s, a);
  }

  lemma ApplyKeepsInv(s: State, a: Action)
    requires Inv(s) && Enabled(s, a)
    ensures Inv(Apply(s, a))
  {
    match a
    case Advance(c) => StepKeepsInv(s, c);
    case Notify(c, waiter) => NotifyKeepsInv(s, c, waiter);
    case Spurious(c) => SpuriousKeepsInv(s, c);
    case Observe(o) => ObserveKeepsInv(s, o);
    case Arrive => ArriveKeepsInv(s);
    case _ => OtherKeepsInv(s, a);
  }
}
