// How requests end, and what it takes: a refusal needs a bad answer or a full house, and with good
// answers and room every request is executed. The counters are those of the actions of the run.
module WarmupOutcomes {
  import opened Sums
  import opened WarmupProtocol
  import opened WarmupSafety
  import opened WarmupTheorems

  // ----- bad answers -----

  // The store cannot provide the artifact of a request for `d`, or the runtime cannot prepare it.
  predicate GoesWrong(s: State, a: Action, d: Digest) {
    && a.Advance? && !a.good && a.c < |s.callers| && s.callers[a.c].key == d
    && (s.callers[a.c].pc.Opening? || s.callers[a.c].pc.Registering?)
  }

  function Trouble(d: Digest): (State, Action) -> bool { (s: State, a: Action) => GoesWrong(s, a, d) }

  // A request that has met with an error, and one whose own warm-up failed and is not yet known.
  predicate Spoilt(pc: Pc) {
    ((pc.Releasing? || pc.Settling? || pc.Resolved?) && !pc.ok) || Ends(pc, Unavailable)
  }

  function FailingW(d: Digest): Caller -> nat {
    (c: Caller) => Unit(c.key == d && (c.pc.Releasing? || c.pc.Settling?) && !c.pc.ok)
  }

  function FailedCellW(d: Digest): Cell -> nat { (c: Cell) => Unit(c.key == d && c.state == Filled(false)) }

  lemma FailureMoves(s: State, c: nat, good: bool, warm: bool, d: Digest)
    requires ShapeInv(s) && CellInv(s) && Enabled(s, Advance(c, good, warm))
    ensures var t := Step(s, c, good, warm); var was, now := s.callers[c], t.callers[c];
      && FailingW(d)(now) + Unit(was.key == d && was.pc.Settling? && !was.pc.ok) ==
           FailingW(d)(was) + Unit(GoesWrong(s, Advance(c, good, warm), d))
      && (Uses(was.pc) ==>
            FailedCellW(d)(t.cells[was.pc.cell]) ==
            FailedCellW(d)(s.cells[was.pc.cell]) + Unit(was.key == d && was.pc.Settling? && !was.pc.ok))
  {}

  lemma FailuresMove(s: State, c: nat, good: bool, warm: bool, d: Digest)
    requires ShapeInv(s) && CellInv(s) && Enabled(s, Advance(c, good, warm))
    ensures var t := Step(s, c, good, warm);
      Sum(t.cells, FailedCellW(d)) + Sum(t.callers, FailingW(d)) ==
        Sum(s.cells, FailedCellW(d)) + Sum(s.callers, FailingW(d)) + Unit(Trouble(d)(s, Advance(c, good, warm)))
  {
    var t := Step(s, c, good, warm);
    var pc := s.callers[c].pc;
    StepMovesOneCaller(s, c, good, warm);
    CellChange(s, c, good, warm);
    FailureMoves(s, c, good, warm, d);
    hide Step, CellInv;
    SumUpdate(s.callers, c, t.callers[c], FailingW(d));
    if Uses(pc) {
      SumUpdate(s.cells, pc.cell, t.cells[pc.cell], FailedCellW(d));
    } else if t.cells != s.cells {
      SumAppend(s.cells, Cell(s.callers[c].key, Empty), FailedCellW(d));
    }
  }

  lemma InvHasCells(s: State, maxPending: nat, maxPreparations: nat)
    requires Inv(s, maxPending, maxPreparations)
    ensures ShapeInv(s) && CellInv(s)
  {}

  function Failures(s: State, d: Digest): nat {
    Sum(s.cells, FailedCellW(d)) + Sum(s.callers, FailingW(d))
  }

  lemma ActionFails(s: State, a: Action, d: Digest)
    requires ShapeInv(s) && CellInv(s) && Enabled(s, a)
    ensures Failures(Apply(s, a), d) == Failures(s, d) + Unit(Trouble(d)(s, a))
  {
    hide CellInv;
    match a {
      case Arrive(key) => SumAppend(s.callers, Caller(key, Arrived), FailingW(d));
      case Advance(c, good, warm) => FailuresMove(s, c, good, warm, d);
    }
  }

  // Every bad answer makes one warm-up fail, and no warm-up fails without one.
  lemma {:induction false} TroublesAreFailures(
      s: State, acts: seq<Action>, maxPending: nat, maxPreparations: nat, d: Digest)
    requires Inv(s, maxPending, maxPreparations) && Runs(s, acts)
    ensures Failures(After(s, acts), d) == Failures(s, d) + Count(s, acts, Trouble(d))
    decreases |acts|
  {
    InvHasCells(s, maxPending, maxPreparations);
    hide Inv, CellInv, ShapeInv, Apply, Enabled, Failures;
    if acts != [] {
      ApplyKeepsInv(s, maxPending, maxPreparations, acts[0], Apply(s, acts[0]));
      ActionFails(s, acts[0], d);
      TroublesAreFailures(Apply(s, acts[0]), acts[1..], maxPending, maxPreparations, d);
    }
  }

  // ----- refusals -----

  lemma FailedCellsStay(s: State, c: nat, good: bool, warm: bool, d: Digest)
    requires ShapeInv(s) && CellInv(s) && Enabled(s, Advance(c, good, warm))
    ensures Sum(s.cells, FailedCellW(d)) <= Sum(Step(s, c, good, warm).cells, FailedCellW(d))
  {
    var t := Step(s, c, good, warm);
    var pc := s.callers[c].pc;
    CellChange(s, c, good, warm);
    FailureMoves(s, c, good, warm, d);
    hide Step, CellInv;
    if Uses(pc) {
      SumUpdate(s.cells, pc.cell, t.cells[pc.cell], FailedCellW(d));
    } else if t.cells != s.cells {
      SumAppend(s.cells, Cell(s.callers[c].key, Empty), FailedCellW(d));
    }
  }

  // Whoever is refused has read the error from a cell that holds it.
  ghost predicate RefusalsAreReal(s: State, d: Digest) {
    (exists c: nat :: RefusedFor(s, c, d)) ==> Sum(s.cells, FailedCellW(d)) > 0
  }

  predicate RefusedFor(s: State, c: nat, d: Digest) {
    c < |s.callers| && s.callers[c].key == d && Ends(s.callers[c].pc, Unavailable)
  }

  lemma RefusedFromCell(s: State, c: nat, good: bool, warm: bool, d: Digest)
    requires ShapeInv(s) && CellInv(s) && Enabled(s, Advance(c, good, warm))
    requires RefusedFor(Step(s, c, good, warm), c, d) && !RefusedFor(s, c, d)
    ensures Sum(s.cells, FailedCellW(d)) > 0
  {
    var pc := s.callers[c].pc;
    StepMovesOneCaller(s, c, good, warm);
    assert pc == Resolved(pc.cell, false);
    SumElement(s.cells, pc.cell, FailedCellW(d));
  }

  lemma StepKeepsRefusalsReal(s: State, c: nat, good: bool, warm: bool, d: Digest)
    requires ShapeInv(s) && CellInv(s) && Enabled(s, Advance(c, good, warm)) && RefusalsAreReal(s, d)
    ensures RefusalsAreReal(Step(s, c, good, warm), d)
  {
    var t := Step(s, c, good, warm);
    StepMovesOneCaller(s, c, good, warm);
    FailedCellsStay(s, c, good, warm, d);
    if r: nat :| RefusedFor(t, r, d) {
      if r == c && !RefusedFor(s, c, d) {
        RefusedFromCell(s, c, good, warm, d);
      } else {
        hide Step;
        assert RefusedFor(s, r, d);
      }
    }
  }

  lemma {:induction false} RefusalsStayReal(
      s: State, acts: seq<Action>, maxPending: nat, maxPreparations: nat, d: Digest)
    requires Inv(s, maxPending, maxPreparations) && Runs(s, acts) && RefusalsAreReal(s, d)
    ensures RefusalsAreReal(After(s, acts), d)
    decreases |acts|
  {
    if acts != [] {
      ApplyKeepsInv(s, maxPending, maxPreparations, acts[0], Apply(s, acts[0]));
      match acts[0] {
        case Arrive(key) => ArriveKeepsRefusalsReal(s, key, d);
        case Advance(c, good, warm) => StepKeepsRefusalsReal(s, c, good, warm, d);
      }
      RefusalsStayReal(Apply(s, acts[0]), acts[1..], maxPending, maxPreparations, d);
    }
  }

  lemma ArriveKeepsRefusalsReal(s: State, key: Digest, d: Digest)
    requires ShapeInv(s) && RefusalsAreReal(s, d)
    ensures RefusalsAreReal(Apply(s, Arrive(key)), d)
  {
    var t := Apply(s, Arrive(key));
    if r: nat :| RefusedFor(t, r, d) {
      assert RefusedFor(s, r, d);
    }
  }

  // No request is refused without a bad answer that a request for the same digest got before.
  lemma RefusalNeedsTrouble(acts: seq<Action>, maxPending: nat, maxPreparations: nat, d: Digest)
    requires Runs(Init(maxPending, maxPreparations), acts)
    requires Count(Init(maxPending, maxPreparations), acts, Trouble(d)) == 0
    ensures var s := After(Init(maxPending, maxPreparations), acts);
      forall c: nat :: !RefusedFor(s, c, d)
  {
    var init := Init(maxPending, maxPreparations);
    InitInv(maxPending, maxPreparations);
    RefusalsStayReal(init, acts, maxPending, maxPreparations, d);
    TroublesAreFailures(init, acts, maxPending, maxPreparations, d);
  }

  // ----- the admission limit -----

  predicate TurnedAway(pc: Pc) { Ends(pc, Overloaded) }

  function TurnedAwayW(c: Caller): nat { Unit(TurnedAway(c.pc)) }

  // A request arrives while every admission permit is held.
  predicate FindsItFull(s: State, a: Action, maxPending: nat) {
    && a.Advance? && a.c < |s.callers| && s.callers[a.c].pc.Arrived?
    && Sum(s.callers, PendingW) >= maxPending
  }

  function FullHouse(maxPending: nat): (State, Action) -> bool {
    (s: State, a: Action) => FindsItFull(s, a, maxPending)
  }

  lemma TurningAway(s: State, c: nat, good: bool, warm: bool)
    requires ShapeInv(s) && Enabled(s, Advance(c, good, warm))
    ensures var t := Step(s, c, good, warm);
      TurnedAwayW(t.callers[c]) == TurnedAwayW(s.callers[c]) + Unit(s.callers[c].pc.Arrived? && s.pending == 0)
  {}

  lemma TurnedAwayMove(s: State, maxPending: nat, maxPreparations: nat, c: nat, good: bool, warm: bool)
    requires Inv(s, maxPending, maxPreparations) && Enabled(s, Advance(c, good, warm))
    ensures ShapeInv(s)
    ensures Sum(Step(s, c, good, warm).callers, TurnedAwayW) ==
      Sum(s.callers, TurnedAwayW) + Unit(FindsItFull(s, Advance(c, good, warm), maxPending))
  {
    InvHasShape(s, maxPending, maxPreparations);
    assert PermitInv(s, maxPending, maxPreparations);
    hide Inv, ShapeInv, Step, Enabled;
    StepMovesOneCaller(s, c, good, warm);
    TurningAway(s, c, good, warm);
    SumUpdate(s.callers, c, Step(s, c, good, warm).callers[c], TurnedAwayW);
  }

  // Requests are turned away exactly when they find as many others admitted as the limit allows.
  lemma {:induction false} TurnedAwayWhenFull(s: State, acts: seq<Action>, maxPending: nat, maxPreparations: nat)
    requires Inv(s, maxPending, maxPreparations) && Runs(s, acts)
    ensures Sum(After(s, acts).callers, TurnedAwayW) ==
      Sum(s.callers, TurnedAwayW) + Count(s, acts, FullHouse(maxPending))
    decreases |acts|
  {
    if acts != [] {
      ApplyKeepsInv(s, maxPending, maxPreparations, acts[0], Apply(s, acts[0]));
      match acts[0] {
        case Arrive(key) => SumAppend(s.callers, Caller(key, Arrived), TurnedAwayW);
        case Advance(c, good, warm) => TurnedAwayMove(s, maxPending, maxPreparations, c, good, warm);
      }
      TurnedAwayWhenFull(Apply(s, acts[0]), acts[1..], maxPending, maxPreparations);
    }
  }

  lemma FullMeansMore(s: State, maxPending: nat, maxPreparations: nat, a: Action)
    requires Inv(s, maxPending, maxPreparations) && FindsItFull(s, a, maxPending)
    ensures |s.callers| > maxPending
  {
    var admitted := s.callers[a.c].(pc := Admitted);
    SumUpdate(s.callers, a.c, admitted, PendingW);
    SumBound(s.callers[a.c := admitted], PendingW, 1);
  }

  lemma {:induction false} CallersStay(s: State, acts: seq<Action>)
    requires ShapeInv(s) && Runs(s, acts)
    ensures |s.callers| <= |After(s, acts).callers|
    decreases |acts|
  {
    if acts != [] {
      ApplyKeepsShape(s, acts[0]);
      if acts[0].Advance? {
        StepMovesOneCaller(s, acts[0].c, acts[0].good, acts[0].warm);
      }
      CallersStay(Apply(s, acts[0]), acts[1..]);
    }
  }

  // With at most as many requests as admission permits, nobody finds the house full.
  lemma {:induction false} RoomForAll(s: State, acts: seq<Action>, maxPending: nat, maxPreparations: nat)
    requires Inv(s, maxPending, maxPreparations) && Runs(s, acts) && |After(s, acts).callers| <= maxPending
    ensures Count(s, acts, FullHouse(maxPending)) == 0
    decreases |acts|
  {
    if acts != [] {
      ApplyKeepsInv(s, maxPending, maxPreparations, acts[0], Apply(s, acts[0]));
      CallersStay(s, acts);
      if FindsItFull(s, acts[0], maxPending) {
        FullMeansMore(s, maxPending, maxPreparations, acts[0]);
      }
      RoomForAll(Apply(s, acts[0]), acts[1..], maxPending, maxPreparations);
    }
  }

  // A request that wants to prepare waits exactly while as many others hold a permit as
  // `max_preparations` allows, and at least one may always prepare.
  lemma PermitsAreUsed(s: State, maxPending: nat, maxPreparations: nat, c: nat, good: bool, warm: bool)
    requires Reachable(s, maxPending, maxPreparations)
    requires c < |s.callers| && s.callers[c].pc.Budgeting?
    ensures Enabled(s, Advance(c, good, warm)) <==>
      Sum(s.callers, PermitW) == 0 || Sum(s.callers, PermitW) < maxPreparations
  {
    ReachableInv(s, maxPending, maxPreparations);
  }

  // ----- good answers -----

  ghost predicate AllGood(acts: seq<Action>) {
    forall i :: 0 <= i < |acts| && acts[i].Advance? ==> acts[i].good
  }

  lemma {:induction false} GoodAnswersAreNoTrouble(s: State, acts: seq<Action>, d: Digest)
    requires ShapeInv(s) && Runs(s, acts) && AllGood(acts)
    ensures Count(s, acts, Trouble(d)) == 0
    decreases |acts|
  {
    if acts != [] {
      ApplyKeepsShape(s, acts[0]);
      GoodAnswersAreNoTrouble(Apply(s, acts[0]), acts[1..], d);
    }
  }

  predicate Served(c: Caller) { c.pc == Finished(Executed) || c.pc == Finished(Overloaded) }

  lemma AnswersAtRest(s: State, maxPending: nat, maxPreparations: nat, c: nat)
    requires Reachable(s, maxPending, maxPreparations) && !CanMove(s) && c < |s.callers|
    requires !RefusedFor(s, c, s.callers[c].key)
    ensures Served(s.callers[c])
    ensures s.callers[c].pc == Finished(Executed) ==> s.callers[c].key in s.artifacts
  {
    ReachableInv(s, maxPending, maxPreparations);
    QuietGarage(s, maxPending, maxPreparations);
    ExecutedIsReady(s, maxPending, maxPreparations);
    LanesGoToReadyArtifacts(s, maxPending, maxPreparations);
    hide Inv, CanMove, Reachable;
    FourOutcomes(s.callers[c].pc);
  }

  lemma FourOutcomes(pc: Pc)
    requires pc.Finished?
    ensures Ends(pc, LookupFailed) || Ends(pc, Unavailable) || pc == Finished(Executed) || pc == Finished(Overloaded)
  {
    match pc.outcome
    case Overloaded =>
    case Unavailable =>
    case Executed =>
    case LookupFailed =>
  }

  // If no request for a digest gets a bad answer, every request for it is executed, or was turned
  // away because the house was full; one warm-up at most was started for all of them; and the artifact
  // is ready as soon as one request is executed.
  lemma GoodAnswersServe(acts: seq<Action>, maxPending: nat, maxPreparations: nat, d: Digest)
    requires Runs(Init(maxPending, maxPreparations), acts)
    requires Count(Init(maxPending, maxPreparations), acts, Trouble(d)) == 0
    ensures var init := Init(maxPending, maxPreparations); var s := After(init, acts);
      && Count(init, acts, Attempt(d)) <= 1
      && (forall c :: 0 <= c < |s.callers| && s.callers[c].key == d && Ends(s.callers[c].pc, Executed) ==>
            d in s.artifacts && Count(init, acts, Attempt(d)) == 1)
      && (!CanMove(s) ==> forall c :: 0 <= c < |s.callers| && s.callers[c].key == d ==> Served(s.callers[c]))
  {
    var init := Init(maxPending, maxPreparations);
    var s := After(init, acts);
    RefusalNeedsTrouble(acts, maxPending, maxPreparations, d);
    assert Reaches(acts, s, maxPending, maxPreparations);
    SingleFlight(acts, maxPending, maxPreparations, d);
    NobodyRefused(s, d);
    ReachableInv(s, maxPending, maxPreparations);
    ExecutedIsReady(s, maxPending, maxPreparations);
    hide Inv, Runs, Reachable, Reaches, Count, After;
    if !CanMove(s) {
      forall c | 0 <= c < |s.callers| && s.callers[c].key == d ensures Served(s.callers[c]) {
        assert !RefusedFor(s, c, d);
        AnswersAtRest(s, maxPending, maxPreparations, c);
      }
    }
  }

  lemma ExecutedIsReady(s: State, maxPending: nat, maxPreparations: nat)
    requires Inv(s, maxPending, maxPreparations)
    ensures forall c :: 0 <= c < |s.callers| && Ends(s.callers[c].pc, Executed) ==> s.callers[c].key in s.artifacts
  {}

  lemma NobodyRefused(s: State, d: Digest)
    requires forall c: nat :: !RefusedFor(s, c, d)
    ensures Sum(s.callers, FailedW(d)) == 0
  {
    forall c | 0 <= c < |s.callers| ensures FailedW(d)(s.callers[c]) == 0 {
      assert !RefusedFor(s, c, d);
    }
    SumZero(s.callers, FailedW(d));
  }

  // With good answers for every digest and room for all, every request is executed.
  lemma GoodAnswersAndRoom(acts: seq<Action>, maxPending: nat, maxPreparations: nat)
    requires Runs(Init(maxPending, maxPreparations), acts) && AllGood(acts)
    requires |After(Init(maxPending, maxPreparations), acts).callers| <= maxPending
    requires !CanMove(After(Init(maxPending, maxPreparations), acts))
    ensures var s := After(Init(maxPending, maxPreparations), acts);
      forall c :: 0 <= c < |s.callers| ==> s.callers[c].pc == Finished(Executed)
  {
    var init := Init(maxPending, maxPreparations);
    var s := After(init, acts);
    InitInv(maxPending, maxPreparations);
    RoomForAll(init, acts, maxPending, maxPreparations);
    TurnedAwayWhenFull(init, acts, maxPending, maxPreparations);
    hide Inv, Runs, Count, After;
    forall c | 0 <= c < |s.callers| ensures s.callers[c].pc == Finished(Executed) {
      GoodAnswersAreNoTrouble(init, acts, s.callers[c].key);
      GoodAnswersServe(acts, maxPending, maxPreparations, s.callers[c].key);
      SumElement(s.callers, c, TurnedAwayW);
    }
  }

  lemma ReachesKeepsInv(acts: seq<Action>, s: State, maxPending: nat, maxPreparations: nat)
    requires Reaches(acts, s, maxPending, maxPreparations)
    ensures Inv(s, maxPending, maxPreparations) && Reachable(s, maxPending, maxPreparations)
  {
    ReachableInv(s, maxPending, maxPreparations);
  }

  // All of it, for a run that has come to rest.
  lemma AtRest(acts: seq<Action>, s: State, maxPending: nat, maxPreparations: nat)
    requires Reaches(acts, s, maxPending, maxPreparations) && !CanMove(s)
    ensures forall c :: 0 <= c < |s.callers| ==> s.callers[c].pc.Finished?
    ensures s.pending == maxPending && s.budget == Budget(maxPreparations)
    ensures s.warmups.Keys <= s.artifacts
    ensures AllGood(acts) ==> forall c :: 0 <= c < |s.callers| ==> Served(s.callers[c])
    ensures AllGood(acts) && |s.callers| <= maxPending ==>
      forall c :: 0 <= c < |s.callers| ==> s.callers[c].pc == Finished(Executed)
  {
    ReachesKeepsInv(acts, s, maxPending, maxPreparations);
    QuietGarage(s, maxPending, maxPreparations);
    hide CanMove, Inv;
    if AllGood(acts) {
      forall c | 0 <= c < |s.callers| ensures Served(s.callers[c]) {
        GoodAnswersAreNoTrouble(Init(maxPending, maxPreparations), acts, s.callers[c].key);
        GoodAnswersServe(acts, maxPending, maxPreparations, s.callers[c].key);
      }
      if |s.callers| <= maxPending {
        GoodAnswersAndRoom(acts, maxPending, maxPreparations);
      }
    }
  }

  // ----- what is executed, and what is ready -----

  function AnsweredW(c: Caller): nat { Unit(Ends(c.pc, Executed)) }

  function Execution(): (State, Action) -> bool {
    (s: State, a: Action) => a.Advance? && a.c < |s.callers| && s.callers[a.c].pc.Executing?
  }

  lemma ExecutionEnds(s: State, c: nat, good: bool, warm: bool)
    requires ShapeInv(s) && Enabled(s, Advance(c, good, warm))
    ensures AnsweredW(Step(s, c, good, warm).callers[c]) == AnsweredW(s.callers[c]) + Unit(s.callers[c].pc.Executing?)
  {}

  lemma AnswersMove(s: State, c: nat, good: bool, warm: bool)
    requires ShapeInv(s) && Enabled(s, Advance(c, good, warm))
    ensures Sum(Step(s, c, good, warm).callers, AnsweredW) ==
      Sum(s.callers, AnsweredW) + Unit(Execution()(s, Advance(c, good, warm)))
  {
    hide ShapeInv, Step;
    StepMovesOneCaller(s, c, good, warm);
    ExecutionEnds(s, c, good, warm);
    SumUpdate(s.callers, c, Step(s, c, good, warm).callers[c], AnsweredW);
  }

  // The requests answered as executed are those that had a lane: nobody is told so in vain.
  lemma {:induction false} AnswersAreExecutions(s: State, acts: seq<Action>)
    requires ShapeInv(s) && Runs(s, acts)
    ensures Sum(After(s, acts).callers, AnsweredW) == Sum(s.callers, AnsweredW) + Count(s, acts, Execution())
    decreases |acts|
  {
    if acts != [] {
      ApplyKeepsShape(s, acts[0]);
      match acts[0] {
        case Arrive(key) => SumAppend(s.callers, Caller(key, Arrived), AnsweredW);
        case Advance(c, good, warm) => AnswersMove(s, c, good, warm);
      }
      AnswersAreExecutions(Apply(s, acts[0]), acts[1..]);
    }
  }

  // The runtime prepares the artifact of digest `d`.
  function Prepared(d: Digest): (State, Action) -> bool {
    (s: State, a: Action) =>
      a.Advance? && a.good && a.c < |s.callers| && s.callers[a.c].key == d && s.callers[a.c].pc.Registering?
  }

  lemma ReadyGrows(s: State, c: nat, good: bool, warm: bool, d: Digest)
    requires ShapeInv(s) && Enabled(s, Advance(c, good, warm))
    ensures d in Step(s, c, good, warm).artifacts <==> d in s.artifacts || Prepared(d)(s, Advance(c, good, warm))
  {
    hide Next;
  }

  // The dispatcher's map holds exactly the digests the runtime has prepared.
  lemma {:induction false} ReadyIsPrepared(s: State, acts: seq<Action>, d: Digest)
    requires ShapeInv(s) && Runs(s, acts)
    ensures d in After(s, acts).artifacts <==> d in s.artifacts || Count(s, acts, Prepared(d)) >= 1
    decreases |acts|
  {
    if acts != [] {
      ApplyKeepsShape(s, acts[0]);
      if acts[0].Advance? {
        ReadyGrows(s, acts[0].c, acts[0].good, acts[0].warm, d);
      }
      ReadyIsPrepared(Apply(s, acts[0]), acts[1..], d);
    }
  }

  // ----- the sources -----

  function CountingW(warm: bool): Caller -> nat { (c: Caller) => Unit(c.pc.Counting? && c.pc.warm == warm) }

  // The runtime prepares an artifact, restoring it from its cache or compiling it.
  predicate ComesFrom(s: State, a: Action, warm: bool) {
    a.Advance? && a.good && a.warm == warm && a.c < |s.callers| && s.callers[a.c].pc.Registering?
  }

  function From(warm: bool): (State, Action) -> bool { (s: State, a: Action) => ComesFrom(s, a, warm) }

  lemma SourceMoves(s: State, c: nat, good: bool, warm: bool)
    requires ShapeInv(s) && Enabled(s, Advance(c, good, warm))
    ensures var t := Step(s, c, good, warm); var a := Advance(c, good, warm);
      && t.restores + CountingW(true)(t.callers[c]) ==
           s.restores + CountingW(true)(s.callers[c]) + Unit(ComesFrom(s, a, true))
      && t.compilations + CountingW(false)(t.callers[c]) ==
           s.compilations + CountingW(false)(s.callers[c]) + Unit(ComesFrom(s, a, false))
  {}

  // `warm_restores` counts the artifacts the runtime restored and `compilations` those it compiled, up
  // to the requests that have yet to count theirs.
  lemma {:induction false} SourcesAreCounted(s: State, acts: seq<Action>)
    requires ShapeInv(s) && Runs(s, acts)
    ensures var t := After(s, acts);
      && t.restores + Sum(t.callers, CountingW(true)) ==
           s.restores + Sum(s.callers, CountingW(true)) + Count(s, acts, From(true))
      && t.compilations + Sum(t.callers, CountingW(false)) ==
           s.compilations + Sum(s.callers, CountingW(false)) + Count(s, acts, From(false))
    decreases |acts|
  {
    if acts != [] {
      ApplyKeepsShape(s, acts[0]);
      match acts[0] {
        case Arrive(key) =>
          SumAppend(s.callers, Caller(key, Arrived), CountingW(true));
          SumAppend(s.callers, Caller(key, Arrived), CountingW(false));
        case Advance(c, good, warm) =>
          StepMovesOneCaller(s, c, good, warm);
          SourceMoves(s, c, good, warm);
          SumUpdate(s.callers, c, Step(s, c, good, warm).callers[c], CountingW(true));
          SumUpdate(s.callers, c, Step(s, c, good, warm).callers[c], CountingW(false));
      }
      SourcesAreCounted(Apply(s, acts[0]), acts[1..]);
    }
  }
}
