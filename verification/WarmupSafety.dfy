// Every action of every request keeps the warm-up invariants, whatever the schedule and whatever
// the artifact store and the runtime answer.
module WarmupSafety {
  import opened Sums
  import opened WarmupProtocol

  lemma InitInv(maxPending: nat, maxPreparations: nat)
    ensures Inv(Init(maxPending, maxPreparations), maxPending, maxPreparations)
  {}

  lemma InvHasShape(s: State, maxPending: nat, maxPreparations: nat)
    requires Inv(s, maxPending, maxPreparations)
    ensures ShapeInv(s)
  {}

  lemma ResolvedIsReady(s: State, maxPending: nat, maxPreparations: nat, c: nat)
    requires Inv(s, maxPending, maxPreparations) && c < |s.callers| && s.callers[c].pc.Resolved?
    ensures s.callers[c].pc.ok ==> s.callers[c].key in s.artifacts
  {}

  lemma WarmedUpIsReady(s: State, maxPending: nat, maxPreparations: nat, c: nat)
    requires Inv(s, maxPending, maxPreparations) && c < |s.callers| && WarmedUp(s.callers[c].pc)
    ensures s.callers[c].key in s.artifacts
  {}

  lemma StepMovesOneCaller(s: State, c: nat, good: bool, warm: bool)
    requires ShapeInv(s) && Enabled(s, Advance(c, good, warm))
    ensures var t := Step(s, c, good, warm);
      && |t.callers| == |s.callers| && t.callers == s.callers[c := t.callers[c]]
      && t.callers[c].key == s.callers[c].key
  {
    hide Effect, Next;
  }

  lemma StepOnlyAdds(s: State, c: nat, good: bool, warm: bool)
    requires ShapeInv(s) && Enabled(s, Advance(c, good, warm))
    ensures |s.cells| <= |Step(s, c, good, warm).cells| && s.artifacts <= Step(s, c, good, warm).artifacts
  {
    hide Next;
  }

  // What a step does to the cells: nothing, one more, or one in a new state.
  lemma CellChange(s: State, c: nat, good: bool, warm: bool)
    requires ShapeInv(s) && Enabled(s, Advance(c, good, warm))
    ensures var t := Step(s, c, good, warm); var pc := s.callers[c].pc;
      || t.cells == s.cells
      || (pc.Admitted? && s.callers[c].key !in s.warmups && t.cells == s.cells + [Cell(s.callers[c].key, Empty)])
      || (Uses(pc) && t.cells == s.cells[pc.cell := Cell(s.callers[c].key, t.cells[pc.cell].state)])
  {}

  lemma RemovalChange(s: State, c: nat, good: bool, warm: bool)
    requires ShapeInv(s) && Enabled(s, Advance(c, good, warm))
    ensures var t := Step(s, c, good, warm); var caller := s.callers[c];
      if caller.pc.Resolved? && !caller.pc.ok then
        && t.removals == s.removals + [t.removals[|s.removals|]] && t.removals[|s.removals|].key == caller.key
        && t.warmups == s.warmups - {caller.key} && t.cells == s.cells && t.callers[c].pc == Replying(Unavailable)
      else t.removals == s.removals && (Ends(t.callers[c].pc, Unavailable) <==> Ends(caller.pc, Unavailable))
  {}

  lemma WarmupChange(s: State, c: nat, good: bool, warm: bool)
    requires ShapeInv(s) && Enabled(s, Advance(c, good, warm))
    ensures var t := Step(s, c, good, warm); var caller := s.callers[c];
      if caller.pc.Admitted? && caller.key !in s.warmups then
        t.warmups == s.warmups[caller.key := |s.cells|] && t.cells == s.cells + [Cell(caller.key, Empty)]
      else if caller.pc.Resolved? && !caller.pc.ok then t.warmups == s.warmups - {caller.key}
      else t.warmups == s.warmups && |t.cells| == |s.cells|
  {}

  // A request keeps the cell it was given.
  lemma CellKept(s: State, c: nat, good: bool, warm: bool)
    requires ShapeInv(s) && Enabled(s, Advance(c, good, warm))
    ensures var t := Step(s, c, good, warm); var pc := s.callers[c].pc;
      Uses(t.callers[c].pc) ==>
        if pc.Admitted? then t.callers[c].pc == Attached(t.warmups[s.callers[c].key]) && s.callers[c].key in t.warmups
        else Uses(pc) && t.callers[c].pc.cell == pc.cell
  {}

  // What a step makes of the cell of a request that fills it, or has just read it.
  lemma CellState(s: State, c: nat, good: bool, warm: bool)
    requires ShapeInv(s) && CellInv(s) && Enabled(s, Advance(c, good, warm))
    ensures var t := Step(s, c, good, warm); var pc := s.callers[c].pc;
      && (Filling(t.callers[c].pc) ==> t.cells[pc.cell].state == Busy(c))
      && (t.callers[c].pc.Resolved? ==> t.cells[pc.cell].state == Filled(t.callers[c].pc.ok))
      && (Uses(pc) && t.cells[pc.cell] != s.cells[pc.cell] ==> !s.cells[pc.cell].state.Filled?)
      && (Uses(pc) && t.cells[pc.cell] != s.cells[pc.cell] && s.cells[pc.cell].state.Busy? ==>
            s.cells[pc.cell].state == Busy(c))
      && (Uses(pc) && t.cells[pc.cell].state.Busy? && !Filling(t.callers[c].pc) ==>
            t.cells[pc.cell] == s.cells[pc.cell] && s.cells[pc.cell].state.caller != c)
  {}

  lemma StepKeepsShape(s: State, c: nat, good: bool, warm: bool)
    requires ShapeInv(s) && Enabled(s, Advance(c, good, warm))
    ensures ShapeInv(Step(s, c, good, warm))
  {
    var t := Step(s, c, good, warm);
    StepMovesOneCaller(s, c, good, warm);
    CellChange(s, c, good, warm);
    WarmupChange(s, c, good, warm);
    CellKept(s, c, good, warm);
    hide Step;
    assert forall i :: 0 <= i < |s.cells| ==> t.cells[i].key == s.cells[i].key;
  }

  lemma StepKeepsCells(s: State, c: nat, good: bool, warm: bool)
    requires ShapeInv(s) && CellInv(s) && Enabled(s, Advance(c, good, warm))
    ensures ShapeInv(Step(s, c, good, warm)) && CellInv(Step(s, c, good, warm))
  {
    StepKeepsShape(s, c, good, warm);
    StepMovesOneCaller(s, c, good, warm);
    CellChange(s, c, good, warm);
    CellKept(s, c, good, warm);
    CellState(s, c, good, warm);
    var t := Step(s, c, good, warm);
    hide Step;
    forall i | 0 <= i < |t.cells| && t.cells[i].state.Busy? ensures FilledBy(t, t.cells[i].state.caller, i) {
      assert i < |s.cells|;
      assert s.cells[i].state.Busy? ==> FilledBy(s, s.cells[i].state.caller, i);
    }
  }

  // A request that goes on to rely on its artifact has just stored it, found it, or been told by a cell.
  lemma NextIsReady(s: State, c: nat, good: bool, warm: bool)
    requires ShapeInv(s) && ReadyInv(s) && Enabled(s, Advance(c, good, warm))
    ensures var t := Step(s, c, good, warm);
      AssumesReady(t.callers[c].pc) ==> s.callers[c].key in t.artifacts
  {}

  lemma FilledByTheReady(s: State, c: nat, good: bool, warm: bool)
    requires ShapeInv(s) && Enabled(s, Advance(c, good, warm)) && Uses(s.callers[c].pc)
    ensures var i := s.callers[c].pc.cell; var t := Step(s, c, good, warm);
      t.cells[i].state == Filled(true) && t.cells[i] != s.cells[i] ==> AssumesReady(s.callers[c].pc)
  {}

  lemma StepKeepsReady(s: State, c: nat, good: bool, warm: bool)
    requires ShapeInv(s) && CellInv(s) && ReadyInv(s) && Enabled(s, Advance(c, good, warm))
    ensures ReadyInv(Step(s, c, good, warm))
  {
    StepMovesOneCaller(s, c, good, warm);
    StepOnlyAdds(s, c, good, warm);
    CellChange(s, c, good, warm);
    NextIsReady(s, c, good, warm);
    if Uses(s.callers[c].pc) {
      FilledByTheReady(s, c, good, warm);
    }
    hide Step, Enabled;
  }

  lemma StepKeepsLookups(s: State, c: nat, good: bool, warm: bool)
    requires ShapeInv(s) && ReadyInv(s) && NoLookupFails(s) && Enabled(s, Advance(c, good, warm))
    ensures NoLookupFails(Step(s, c, good, warm))
  {
    StepMovesOneCaller(s, c, good, warm);
  }

  // A permit taken is a permit held, and one given back no longer is.
  lemma PermitMoves(s: State, c: nat, good: bool, warm: bool)
    requires ShapeInv(s) && Enabled(s, Advance(c, good, warm))
    ensures var t := Step(s, c, good, warm);
      t.budget + PermitW(t.callers[c]) == s.budget + PermitW(s.callers[c])
  {
    if s.callers[c].pc.Budgeting? || s.callers[c].pc.Releasing? {
    } else {
      assert Step(s, c, good, warm).budget == s.budget;
    }
  }

  lemma PendingMoves(s: State, c: nat, good: bool, warm: bool)
    requires ShapeInv(s) && Enabled(s, Advance(c, good, warm))
    ensures var t := Step(s, c, good, warm);
      t.pending + PendingW(t.callers[c]) == s.pending + PendingW(s.callers[c])
  {
    if s.callers[c].pc.Arrived? || s.callers[c].pc.Replying? {
    } else {
      assert Step(s, c, good, warm).pending == s.pending;
    }
  }

  lemma StepKeepsBudget(s: State, c: nat, good: bool, warm: bool, total: nat)
    requires ShapeInv(s) && Enabled(s, Advance(c, good, warm))
    requires s.budget + Sum(s.callers, PermitW) == total
    ensures Step(s, c, good, warm).budget + Sum(Step(s, c, good, warm).callers, PermitW) == total
  {
    StepMovesOneCaller(s, c, good, warm);
    PermitMoves(s, c, good, warm);
    hide Step;
    SumUpdate(s.callers, c, Step(s, c, good, warm).callers[c], PermitW);
  }

  lemma StepKeepsPending(s: State, c: nat, good: bool, warm: bool, total: nat)
    requires ShapeInv(s) && Enabled(s, Advance(c, good, warm))
    requires s.pending + Sum(s.callers, PendingW) == total
    ensures Step(s, c, good, warm).pending + Sum(Step(s, c, good, warm).callers, PendingW) == total
  {
    StepMovesOneCaller(s, c, good, warm);
    PendingMoves(s, c, good, warm);
    hide Step;
    SumUpdate(s.callers, c, Step(s, c, good, warm).callers[c], PendingW);
  }

  // A preparation is counted when it starts, and once more by what came of it.
  lemma PreparationMoves(s: State, c: nat, good: bool, warm: bool)
    requires ShapeInv(s) && Enabled(s, Advance(c, good, warm))
    ensures var t := Step(s, c, good, warm);
      t.preparations - t.compilations - t.restores - t.failures ==
        s.preparations - s.compilations - s.restores - s.failures + InFlightW(t.callers[c]) - InFlightW(s.callers[c])
  {
    var t := Step(s, c, good, warm);
    var pc := s.callers[c].pc;
    if pc.Preparing? || pc.Registering? || pc.Counting? {
      assert t.callers[c].pc.Registering? || t.callers[c].pc.Counting? || t.callers[c].pc.Releasing?;
    } else {
      assert t.preparations == s.preparations && t.failures == s.failures;
      assert t.compilations == s.compilations && t.restores == s.restores;
    }
  }

  lemma ExecutionMoves(s: State, c: nat, good: bool, warm: bool)
    requires ShapeInv(s) && Enabled(s, Advance(c, good, warm))
    ensures var t := Step(s, c, good, warm);
      t.executions == s.executions + ExecutedW(t.callers[c]) - ExecutedW(s.callers[c])
  {
    var t := Step(s, c, good, warm);
    if s.callers[c].pc.Dispatching? {
      assert t.callers[c].pc.LookingUp?;
    } else {
      assert t.executions == s.executions;
      if s.callers[c].pc.LookingUp? || s.callers[c].pc.Executing? || s.callers[c].pc.Replying? {
        assert ExecutedW(t.callers[c]) == ExecutedW(s.callers[c]);
      }
    }
  }

  lemma StepKeepsPreparations(s: State, c: nat, good: bool, warm: bool)
    requires ShapeInv(s) && Enabled(s, Advance(c, good, warm))
    requires s.preparations == s.compilations + s.restores + s.failures + Sum(s.callers, InFlightW)
    ensures var t := Step(s, c, good, warm);
      t.preparations == t.compilations + t.restores + t.failures + Sum(t.callers, InFlightW)
  {
    StepMovesOneCaller(s, c, good, warm);
    PreparationMoves(s, c, good, warm);
    hide Step;
    SumUpdate(s.callers, c, Step(s, c, good, warm).callers[c], InFlightW);
  }

  lemma StepKeepsExecutions(s: State, c: nat, good: bool, warm: bool)
    requires ShapeInv(s) && Enabled(s, Advance(c, good, warm))
    requires s.executions == Sum(s.callers, ExecutedW)
    ensures Step(s, c, good, warm).executions == Sum(Step(s, c, good, warm).callers, ExecutedW)
  {
    StepMovesOneCaller(s, c, good, warm);
    ExecutionMoves(s, c, good, warm);
    hide Step;
    SumUpdate(s.callers, c, Step(s, c, good, warm).callers[c], ExecutedW);
  }

  lemma StepKeepsCounts(s: State, c: nat, good: bool, warm: bool)
    requires ShapeInv(s) && CountInv(s) && Enabled(s, Advance(c, good, warm))
    ensures CountInv(Step(s, c, good, warm))
  {
    StepKeepsPreparations(s, c, good, warm);
    StepKeepsExecutions(s, c, good, warm);
  }

  lemma StepKeepsCreations(s: State, c: nat, good: bool, warm: bool)
    requires ShapeInv(s) && CreationInv(s) && Enabled(s, Advance(c, good, warm))
    ensures CreationInv(Step(s, c, good, warm))
  {
    StepMovesOneCaller(s, c, good, warm);
    forall d: Digest
      ensures CreationOk(Step(s, c, good, warm), d)
    {
      assert CreationOk(s, d);
      CreationsOf(s, c, good, warm, d);
      FailuresOf(s, c, good, warm, d);
    }
  }

  lemma CreationsAfterCreation(s: State, c: nat, good: bool, warm: bool, d: Digest)
    requires ShapeInv(s) && Enabled(s, Advance(c, good, warm))
    requires s.callers[c].pc.Admitted? && s.callers[c].key !in s.warmups
    requires Created(s, d)
    ensures Created(Step(s, c, good, warm), d)
  {
    RemovalChange(s, c, good, warm);
    WarmupChange(s, c, good, warm);
    hide Step;
    SumAppend(s.cells, Cell(s.callers[c].key, Empty), CellW(d));
  }

  lemma CreationsAfterRemoval(s: State, c: nat, good: bool, warm: bool, d: Digest)
    requires ShapeInv(s) && Enabled(s, Advance(c, good, warm))
    requires s.callers[c].pc.Resolved? && !s.callers[c].pc.ok
    requires Created(s, d)
    ensures Created(Step(s, c, good, warm), d)
  {
    RemovalChange(s, c, good, warm);
    var t := Step(s, c, good, warm);
    hide Step;
    SumAppend(s.removals, t.removals[|s.removals|], RemovalW(d));
  }

  lemma CreationsAfterOther(s: State, c: nat, good: bool, warm: bool, d: Digest)
    requires ShapeInv(s) && Enabled(s, Advance(c, good, warm))
    requires !(s.callers[c].pc.Admitted? && s.callers[c].key !in s.warmups)
    requires !(s.callers[c].pc.Resolved? && !s.callers[c].pc.ok)
    requires Created(s, d)
    ensures Created(Step(s, c, good, warm), d)
  {
    var t := Step(s, c, good, warm);
    var pc := s.callers[c].pc;
    CellChange(s, c, good, warm);
    RemovalChange(s, c, good, warm);
    WarmupChange(s, c, good, warm);
    hide Step;
    if t.cells != s.cells {
      SumUpdate(s.cells, pc.cell, t.cells[pc.cell], CellW(d));
    }
  }

  lemma CreationsOf(s: State, c: nat, good: bool, warm: bool, d: Digest)
    requires ShapeInv(s) && Enabled(s, Advance(c, good, warm))
    requires Created(s, d)
    ensures Created(Step(s, c, good, warm), d)
  {
    hide Created, Step, ShapeInv;
    var pc := s.callers[c].pc;
    if pc.Admitted? && s.callers[c].key !in s.warmups {
      CreationsAfterCreation(s, c, good, warm, d);
    } else if pc.Resolved? && !pc.ok {
      CreationsAfterRemoval(s, c, good, warm, d);
    } else {
      CreationsAfterOther(s, c, good, warm, d);
    }
  }

  lemma FailuresAfterRemoval(s: State, c: nat, good: bool, warm: bool, d: Digest)
    requires ShapeInv(s) && Enabled(s, Advance(c, good, warm))
    requires s.callers[c].pc.Resolved? && !s.callers[c].pc.ok
    requires Refused(s, d)
    ensures Refused(Step(s, c, good, warm), d)
  {
    var t := Step(s, c, good, warm);
    RemovalChange(s, c, good, warm);
    StepMovesOneCaller(s, c, good, warm);
    hide Step, ShapeInv, Enabled;
    SumUpdate(s.callers, c, t.callers[c], FailedW(d));
    SumAppend(s.removals, t.removals[|s.removals|], RemovalW(d));
  }

  lemma FailuresAfterOther(s: State, c: nat, good: bool, warm: bool, d: Digest)
    requires ShapeInv(s) && Enabled(s, Advance(c, good, warm))
    requires !(s.callers[c].pc.Resolved? && !s.callers[c].pc.ok)
    requires Refused(s, d)
    ensures Refused(Step(s, c, good, warm), d)
  {
    var t := Step(s, c, good, warm);
    RemovalChange(s, c, good, warm);
    StepMovesOneCaller(s, c, good, warm);
    assert FailedW(d)(t.callers[c]) == FailedW(d)(s.callers[c]);
    hide Step, ShapeInv, Enabled;
    SumUpdate(s.callers, c, t.callers[c], FailedW(d));
  }

  lemma FailuresOf(s: State, c: nat, good: bool, warm: bool, d: Digest)
    requires ShapeInv(s) && Enabled(s, Advance(c, good, warm))
    requires Refused(s, d)
    ensures Refused(Step(s, c, good, warm), d)
  {
    hide Refused, Step, ShapeInv;
    if s.callers[c].pc.Resolved? && !s.callers[c].pc.ok {
      FailuresAfterRemoval(s, c, good, warm, d);
    } else {
      FailuresAfterOther(s, c, good, warm, d);
    }
  }

  // Creating a cell.
  lemma OpenAfterCreation(s: State, c: nat, good: bool, warm: bool, d: Digest)
    requires ShapeInv(s) && Enabled(s, Advance(c, good, warm))
    requires s.callers[c].pc.Admitted? && s.callers[c].key !in s.warmups
    requires OpenOk(s, d)
    ensures OpenOk(Step(s, c, good, warm), d)
  {
    WarmupChange(s, c, good, warm);
    SumAppend(s.cells, Cell(s.callers[c].key, Empty), OpenW(d));
  }

  // Removing the map's cell: the caller's own is filled, so only a stale removal orphans an open one.
  lemma OpenAfterRemoval(s: State, c: nat, good: bool, warm: bool, d: Digest)
    requires ShapeInv(s) && CellInv(s) && Enabled(s, Advance(c, good, warm))
    requires s.callers[c].pc.Resolved? && !s.callers[c].pc.ok
    requires OpenOk(s, d)
    ensures OpenOk(Step(s, c, good, warm), d)
  {
    var t := Step(s, c, good, warm);
    RemovalChange(s, c, good, warm);
    SumAppend(s.removals, t.removals[|s.removals|], StaleW(d));
  }

  // Everything else moves a cell from empty to busy to filled, or leaves the cells alone.
  lemma OpenAfterOther(s: State, c: nat, good: bool, warm: bool, d: Digest)
    requires ShapeInv(s) && CellInv(s) && Enabled(s, Advance(c, good, warm))
    requires !(s.callers[c].pc.Admitted? && s.callers[c].key !in s.warmups)
    requires !(s.callers[c].pc.Resolved? && !s.callers[c].pc.ok)
    requires OpenOk(s, d)
    ensures OpenOk(Step(s, c, good, warm), d)
  {
    var t := Step(s, c, good, warm);
    var pc := s.callers[c].pc;
    CellChange(s, c, good, warm);
    RemovalChange(s, c, good, warm);
    WarmupChange(s, c, good, warm);
    if t.cells != s.cells {
      SumUpdate(s.cells, pc.cell, t.cells[pc.cell], OpenW(d));
      OneCellChanges(s, t, c, d);
    }
  }

  lemma OneCellChanges(s: State, t: State, c: nat, d: Digest)
    requires ShapeInv(s) && c < |s.callers| && Uses(s.callers[c].pc) && t.warmups == s.warmups
    requires |t.cells| == |s.cells|
    requires t.cells == s.cells[s.callers[c].pc.cell := Cell(s.callers[c].key, t.cells[s.callers[c].pc.cell].state)]
    ensures MapCellOpen(t, d) <==>
      if d in s.warmups && s.warmups[d] == s.callers[c].pc.cell then !t.cells[s.warmups[d]].state.Filled?
      else MapCellOpen(s, d)
  {}

  lemma StepKeepsOpen(s: State, c: nat, good: bool, warm: bool)
    requires ShapeInv(s) && CellInv(s) && OpenInv(s) && Enabled(s, Advance(c, good, warm))
    ensures OpenInv(Step(s, c, good, warm))
  {
    forall d: Digest
      ensures OpenOk(Step(s, c, good, warm), d)
    {
      assert OpenOk(s, d);
      var pc := s.callers[c].pc;
      if pc.Admitted? && s.callers[c].key !in s.warmups {
        OpenAfterCreation(s, c, good, warm, d);
      } else if pc.Resolved? && !pc.ok {
        OpenAfterRemoval(s, c, good, warm, d);
      } else {
        OpenAfterOther(s, c, good, warm, d);
      }
    }
  }

  // Filling a cell starts and ends together with its being busy.
  lemma FillChange(s: State, c: nat, good: bool, warm: bool)
    requires ShapeInv(s) && CellInv(s) && Enabled(s, Advance(c, good, warm))
    ensures var t := Step(s, c, good, warm); var pc := s.callers[c].pc;
      if Uses(pc) then
        && (t.cells[pc.cell] == s.cells[pc.cell] ==> (Filling(t.callers[c].pc) <==> Filling(pc)))
        && (t.cells[pc.cell] != s.cells[pc.cell] ==> (Filling(pc) <==> s.cells[pc.cell].state.Busy?))
        && (t.cells[pc.cell] != s.cells[pc.cell] ==> (Filling(t.callers[c].pc) <==> t.cells[pc.cell].state.Busy?))
      else !Filling(t.callers[c].pc)
  {}

  lemma FlightsOf(s: State, c: nat, good: bool, warm: bool, d: Digest)
    requires ShapeInv(s) && CellInv(s) && FlightOk(s, d) && Enabled(s, Advance(c, good, warm))
    ensures FlightOk(Step(s, c, good, warm), d)
  {
    var t := Step(s, c, good, warm);
    var pc := s.callers[c].pc;
    StepMovesOneCaller(s, c, good, warm);
    CellChange(s, c, good, warm);
    FillChange(s, c, good, warm);
    hide Step;
    SumUpdate(s.callers, c, t.callers[c], FillingW(d));
    if pc.Admitted? && s.callers[c].key !in s.warmups {
      SumAppend(s.cells, Cell(s.callers[c].key, Empty), BusyW(d));
    } else if t.cells != s.cells {
      SumUpdate(s.cells, pc.cell, t.cells[pc.cell], BusyW(d));
    }
  }

  lemma StepKeepsFlights(s: State, c: nat, good: bool, warm: bool)
    requires ShapeInv(s) && CellInv(s) && FlightInv(s) && Enabled(s, Advance(c, good, warm))
    ensures FlightInv(Step(s, c, good, warm))
  {
    forall d: Digest ensures FlightOk(Step(s, c, good, warm), d) {
      assert FlightOk(s, d);
      FlightsOf(s, c, good, warm, d);
    }
  }

  // A request that leaves its cell leaves a success behind, or takes the map's cell with it.
  lemma LeavingACell(s: State, c: nat, good: bool, warm: bool)
    requires ShapeInv(s) && CellInv(s) && Enabled(s, Advance(c, good, warm))
    requires Uses(s.callers[c].pc) && !Uses(Step(s, c, good, warm).callers[c].pc)
    ensures var t := Step(s, c, good, warm); var i := s.callers[c].pc.cell;
      t.cells == s.cells && (s.cells[i].state == Filled(true) || s.callers[c].key !in t.warmups)
  {}

  lemma StepKeepsMap(s: State, c: nat, good: bool, warm: bool)
    requires ShapeInv(s) && CellInv(s) && MapInv(s) && Enabled(s, Advance(c, good, warm))
    ensures MapInv(Step(s, c, good, warm))
  {
    var t := Step(s, c, good, warm);
    var pc := s.callers[c].pc;
    StepMovesOneCaller(s, c, good, warm);
    CellChange(s, c, good, warm);
    CellState(s, c, good, warm);
    CellKept(s, c, good, warm);
    WarmupChange(s, c, good, warm);
    if Uses(pc) && !Uses(t.callers[c].pc) {
      LeavingACell(s, c, good, warm);
    }
    forall d | d in t.warmups ensures Tended(t, t.warmups[d]) {
      var i := t.warmups[d];
      if d in s.warmups && s.warmups[d] == i {
        assert Tended(s, i);
        if s.cells[i].state != Filled(true) {
          var u: nat :| UsesCell(s, u, i);
          KeptOrGone(s, c, good, warm, u, d);
        }
      } else {
        CreatedByCaller(s, c, good, warm);
        assert UsesCell(t, c, i);
      }
    }
  }

  lemma CreatedByCaller(s: State, c: nat, good: bool, warm: bool)
    requires ShapeInv(s) && Enabled(s, Advance(c, good, warm))
    requires s.callers[c].pc.Admitted?
    ensures s.callers[c].key in Step(s, c, good, warm).warmups
    ensures Step(s, c, good, warm).callers[c].pc == Attached(Step(s, c, good, warm).warmups[s.callers[c].key])
  {}

  lemma KeptOrGone(s: State, c: nat, good: bool, warm: bool, u: nat, d: Digest)
    requires ShapeInv(s) && CellInv(s) && Enabled(s, Advance(c, good, warm))
    requires d in s.warmups && UsesCell(s, u, s.warmups[d]) && s.cells[s.warmups[d]].state != Filled(true)
    ensures var t := Step(s, c, good, warm);
      d in t.warmups && t.warmups[d] == s.warmups[d] ==> UsesCell(t, u, t.warmups[d])
  {
    var t := Step(s, c, good, warm);
    StepMovesOneCaller(s, c, good, warm);
    if u == c {
      CellKept(s, c, good, warm);
      if !Uses(t.callers[c].pc) {
        LeavingACell(s, c, good, warm);
      }
    }
  }

  lemma AttemptAdvances(s: State, c: nat, good: bool, warm: bool, d: Digest)
    requires ShapeInv(s) && CellInv(s) && Enabled(s, Advance(c, good, warm))
    ensures Sum(Step(s, c, good, warm).cells, AttemptW(d)) ==
      Sum(s.cells, AttemptW(d)) + Unit(Attempt(d)(s, Advance(c, good, warm)))
  {
    var t := Step(s, c, good, warm);
    var pc := s.callers[c].pc;
    CellChange(s, c, good, warm);
    if pc.Admitted? && s.callers[c].key !in s.warmups {
      SumAppend(s.cells, Cell(s.callers[c].key, Empty), AttemptW(d));
    } else if Uses(pc) {
      CellStarts(s, c, good, warm);
      hide Step;
      SumUpdate(s.cells, pc.cell, t.cells[pc.cell], AttemptW(d));
    }
  }

  lemma CellStarts(s: State, c: nat, good: bool, warm: bool)
    requires ShapeInv(s) && CellInv(s) && Enabled(s, Advance(c, good, warm)) && Uses(s.callers[c].pc)
    ensures var i := s.callers[c].pc.cell; var t := Step(s, c, good, warm);
      if s.callers[c].pc.Attached? then !t.cells[i].state.Empty?
      else t.cells[i].state.Empty? == s.cells[i].state.Empty?
  {}

  lemma StepKeepsAttempted(s: State, c: nat, good: bool, warm: bool)
    requires ShapeInv(s) && CellInv(s) && AttemptedInv(s) && Enabled(s, Advance(c, good, warm))
    ensures AttemptedInv(Step(s, c, good, warm))
  {
    var t := Step(s, c, good, warm);
    forall d: Digest | d in t.artifacts ensures Sum(t.cells, AttemptW(d)) >= 1 {
      AttemptAdvances(s, c, good, warm, d);
      if d !in s.artifacts {
        SumElement(s.cells, s.callers[c].pc.cell, AttemptW(d));
      }
    }
  }

  lemma StepKeepsInv(s: State, maxPending: nat, maxPreparations: nat, c: nat, good: bool, warm: bool)
    requires Inv(s, maxPending, maxPreparations) && Enabled(s, Advance(c, good, warm))
    ensures Inv(Step(s, c, good, warm), maxPending, maxPreparations)
  {
    StepKeepsCells(s, c, good, warm);
    StepKeepsReady(s, c, good, warm);
    StepKeepsBudget(s, c, good, warm, Budget(maxPreparations));
    StepKeepsPending(s, c, good, warm, maxPending);
    StepKeepsCounts(s, c, good, warm);
    StepKeepsCreations(s, c, good, warm);
    StepKeepsOpen(s, c, good, warm);
    StepKeepsFlights(s, c, good, warm);
    StepKeepsMap(s, c, good, warm);
    StepKeepsAttempted(s, c, good, warm);
    StepKeepsLookups(s, c, good, warm);
  }

  // A request that has just arrived weighs nothing.
  lemma ArriveKeepsSums(s: State, key: Digest)
    ensures var t := s.callers + [Caller(key, Arrived)];
      && Sum(t, PermitW) == Sum(s.callers, PermitW) && Sum(t, PendingW) == Sum(s.callers, PendingW)
      && Sum(t, InFlightW) == Sum(s.callers, InFlightW) && Sum(t, ExecutedW) == Sum(s.callers, ExecutedW)
  {
    var v := Caller(key, Arrived);
    SumAppend(s.callers, v, PermitW);
    SumAppend(s.callers, v, PendingW);
    SumAppend(s.callers, v, InFlightW);
    SumAppend(s.callers, v, ExecutedW);
  }

  lemma ArriveKeepsShape(s: State, key: Digest)
    requires ShapeInv(s) && CellInv(s) && ReadyInv(s) && NoLookupFails(s)
    ensures var t := Apply(s, Arrive(key)); ShapeInv(t) && CellInv(t) && ReadyInv(t) && NoLookupFails(t)
  {
    var t := Apply(s, Arrive(key));
    forall i | 0 <= i < |t.cells| && t.cells[i].state.Busy? ensures FilledBy(t, t.cells[i].state.caller, i) {
      assert FilledBy(s, s.cells[i].state.caller, i);
    }
  }

  lemma ArriveKeepsFlights(s: State, key: Digest)
    requires ShapeInv(s) && CreationInv(s) && OpenInv(s) && FlightInv(s)
    ensures var t := Apply(s, Arrive(key)); CreationInv(t) && OpenInv(t) && FlightInv(t)
  {
    var v := Caller(key, Arrived);
    var t := Apply(s, Arrive(key));
    forall d: Digest ensures CreationOk(t, d) && OpenOk(t, d) && FlightOk(t, d) {
      assert CreationOk(s, d) && OpenOk(s, d) && FlightOk(s, d);
      assert MapCellOpen(t, d) == MapCellOpen(s, d);
      SumAppend(s.callers, v, FailedW(d));
      SumAppend(s.callers, v, FillingW(d));
    }
  }

  lemma ArriveKeepsMap(s: State, key: Digest)
    requires ShapeInv(s) && MapInv(s)
    ensures MapInv(Apply(s, Arrive(key)))
  {
    var t := Apply(s, Arrive(key));
    forall d | d in t.warmups ensures Tended(t, t.warmups[d]) {
      assert Tended(s, s.warmups[d]);
      if c: nat :| UsesCell(s, c, s.warmups[d]) {
        assert UsesCell(t, c, s.warmups[d]);
      }
    }
  }

  lemma ArriveKeepsInv(s: State, maxPending: nat, maxPreparations: nat, key: Digest)
    requires Inv(s, maxPending, maxPreparations)
    ensures Inv(Apply(s, Arrive(key)), maxPending, maxPreparations)
  {
    hide CellInv, ReadyInv, CreationInv, OpenInv, FlightInv, MapInv, NoLookupFails;
    ArriveKeepsSums(s, key);
    ArriveKeepsShape(s, key);
    ArriveKeepsFlights(s, key);
    ArriveKeepsMap(s, key);
  }

  lemma ApplyKeepsInv(s: State, maxPending: nat, maxPreparations: nat, a: Action, t: State)
    requires Inv(s, maxPending, maxPreparations) && Enabled(s, a) && t == Apply(s, a)
    ensures Inv(t, maxPending, maxPreparations)
  {
    match a
    case Arrive(key) => ArriveKeepsInv(s, maxPending, maxPreparations, key);
    case Advance(c, good, warm) => StepKeepsInv(s, maxPending, maxPreparations, c, good, warm);
  }
}
