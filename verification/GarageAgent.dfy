// The Garage object: its shared fields, changed in place by the atomic actions of its requests, and
// the dispatcher it shares its artifacts with. Each method is one action of one request, on the
// fields the source writes there, proved equal to the corresponding step of the protocol. Lines are
// those of apps/pit-garage/src/main.rs.
module GarageAgent {
  import opened WarmupProtocol
  import opened Sums
  import opened WarmupSafety
  import opened WarmupTheorems
  import opened WarmupOutcomes

  // The part of the dispatcher that warm-up uses: a map that only grows.
  class PitHttpDispatcher {
    var artifacts: set<Digest>

    constructor ()
      ensures artifacts == {}
    {
      artifacts := {};
    }

    method HasPrepared(key: Digest) returns (prepared: bool)
      ensures prepared <==> key in artifacts
    {
      prepared := key in artifacts;
    }

    // `prepared` is whether the runtime could prepare the artifact; nothing is stored when not.
    method RegisterWithReport(key: Digest, prepared: bool) returns (ok: bool)
      modifies this
      ensures ok == prepared
      ensures artifacts == if prepared then old(artifacts) + {key} else old(artifacts)
    {
      if !prepared {
        return false;
      }
      artifacts := artifacts + {key};
      return true;
    }
  }

  class GarageAgent {
    const maxPending: nat
    const maxPreparations: nat
    const dispatcher: PitHttpDispatcher
    var warmups: map<Digest, nat>
    var cells: seq<Cell>
    var pending: nat
    var preparationBudget: nat
    var preparations: nat
    var compilations: nat
    var warmRestores: nat
    var executions: nat
    var callers: seq<Caller>
    ghost var removals: seq<Removal>
    ghost var failures: nat

    ghost function Model(): State
      reads this, dispatcher
    {
      State(warmups, cells, dispatcher.artifacts, pending, preparationBudget, preparations, compilations,
            warmRestores, executions, callers, removals, failures)
    }

    ghost predicate Valid()
      reads this, dispatcher
    {
      Inv(Model(), maxPending, maxPreparations)
    }

    constructor (maxPending: nat, maxPreparations: nat)
      ensures this.maxPending == maxPending && this.maxPreparations == maxPreparations
      ensures Model() == Init(maxPending, maxPreparations) && Valid() && fresh(dispatcher)
    {
      this.maxPending, this.maxPreparations := maxPending, maxPreparations;
      dispatcher := new PitHttpDispatcher();
      warmups, cells, callers := map[], [], [];
      pending := maxPending;
      preparationBudget := if maxPreparations > 1 then maxPreparations else 1;
      preparations, compilations, warmRestores, executions := 0, 0, 0, 0;
      removals, failures := [], 0;
      new;
      InitInv(maxPending, maxPreparations);
    }

    ghost predicate At(c: nat)
      reads this, dispatcher
    {
      Valid() && Enabled(Model(), Advance(c, true, true))
    }

    method Move(c: nat, pc: Pc)
      requires c < |callers|
      modifies this`callers
      ensures callers == old(callers)[c := old(callers)[c].(pc := pc)]
    {
      callers := callers[c := callers[c].(pc := pc)];
    }

    method Receive(key: Digest) returns (c: nat)
      requires Valid()
      modifies this`callers
      ensures c == old(|callers|) && Model() == Apply(old(Model()), Arrive(key)) && Valid()
    {
      ArriveKeepsInv(Model(), maxPending, maxPreparations, key);
      c := |callers|;
      callers := callers + [Caller(key, Arrived)];
    }

    // Line 453: `try_acquire_owned`.
    method Admit(c: nat) returns (admitted: bool)
      requires At(c) && callers[c].pc.Arrived?
      modifies this`callers, this`pending
      ensures Model() == Step(old(Model()), c, true, true) && Valid()
      ensures admitted <==> old(pending) > 0
    {
      hide Inv;
      InvHasShape(Model(), maxPending, maxPreparations);
      StepKeepsInv(Model(), maxPending, maxPreparations, c, true, true);
      admitted := pending > 0;
      if admitted {
        pending := pending - 1;
        Move(c, Admitted);
      } else {
        Move(c, Finished(Overloaded));
      }
    }

    // Lines 319-325: the digest's cell, created when there is none.
    method Attach(c: nat)
      requires At(c) && callers[c].pc.Admitted?
      modifies this`callers, this`cells, this`warmups
      ensures Model() == Step(old(Model()), c, true, true) && Valid()
    {
      hide Inv;
      InvHasShape(Model(), maxPending, maxPreparations);
      StepKeepsInv(Model(), maxPending, maxPreparations, c, true, true);
      var key := callers[c].key;
      if key !in warmups {
        warmups := warmups[key := |cells|];
        cells := cells + [Cell(key, Empty)];
      }
      Move(c, Attached(warmups[key]));
    }

    // Lines 326-331: `get_or_init`, up to becoming its initialiser or reading a value set by another.
    method GetOrInit(c: nat) returns (initialiser: bool)
      requires At(c) && callers[c].pc.Attached?
      modifies this`callers, this`cells
      ensures Model() == Step(old(Model()), c, true, true) && Valid()
      ensures initialiser <==> Filling(callers[c].pc)
    {
      hide Inv;
      InvHasShape(Model(), maxPending, maxPreparations);
      StepKeepsInv(Model(), maxPending, maxPreparations, c, true, true);
      var i := callers[c].pc.cell;
      initialiser := cells[i].state.Empty?;
      if initialiser {
        cells := cells[i := cells[i].(state := Busy(c))];
        Move(c, Checking(i));
      } else {
        Move(c, Resolved(i, cells[i].state.ok));
      }
    }

    // Lines 347-356.
    method CheckPrepared(c: nat)
      requires At(c) && callers[c].pc.Checking?
      modifies this`callers
      ensures Model() == Step(old(Model()), c, true, true) && Valid()
    {
      hide Inv;
      InvHasShape(Model(), maxPending, maxPreparations);
      StepKeepsInv(Model(), maxPending, maxPreparations, c, true, true);
      var i := callers[c].pc.cell;
      var prepared := dispatcher.HasPrepared(callers[c].key);
      Move(c, if prepared then Settling(i, true) else Budgeting(i));
    }

    // Lines 357-362. A request waits here until a permit is free.
    method AcquirePermit(c: nat)
      requires At(c) && callers[c].pc.Budgeting?
      modifies this`callers, this`preparationBudget
      ensures Model() == Step(old(Model()), c, true, true) && Valid()
    {
      hide Inv;
      InvHasShape(Model(), maxPending, maxPreparations);
      StepKeepsInv(Model(), maxPending, maxPreparations, c, true, true);
      preparationBudget := preparationBudget - 1;
      Move(c, Opening(callers[c].pc.cell));
    }

    // Lines 363-380: the artifact is found locally or acquired, or the warm-up is over.
    method OpenArtifact(c: nat, found: bool)
      requires At(c) && callers[c].pc.Opening?
      modifies this`callers
      ensures Model() == Step(old(Model()), c, found, true) && Valid()
    {
      hide Inv;
      InvHasShape(Model(), maxPending, maxPreparations);
      StepKeepsInv(Model(), maxPending, maxPreparations, c, found, true);
      var i := callers[c].pc.cell;
      Move(c, if found then Preparing(i) else Releasing(i, false));
    }

    method CountPreparation(c: nat)
      requires At(c) && callers[c].pc.Preparing?
      modifies this`callers, this`preparations
      ensures Model() == Step(old(Model()), c, true, true) && Valid()
    {
      hide Inv;
      InvHasShape(Model(), maxPending, maxPreparations);
      StepKeepsInv(Model(), maxPending, maxPreparations, c, true, true);
      preparations := preparations + 1;
      Move(c, Registering(callers[c].pc.cell));
    }

    // Lines 382-391: the dispatcher prepares the artifact and stores it.
    method Register(c: nat, prepared: bool, warm: bool)
      requires At(c) && callers[c].pc.Registering?
      modifies this`callers, this`failures, dispatcher
      ensures Model() == Step(old(Model()), c, prepared, warm) && Valid()
    {
      hide Inv;
      InvHasShape(Model(), maxPending, maxPreparations);
      StepKeepsInv(Model(), maxPending, maxPreparations, c, prepared, warm);
      var i := callers[c].pc.cell;
      var ok := dispatcher.RegisterWithReport(callers[c].key, prepared);
      if ok {
        Move(c, Counting(i, warm));
      } else {
        failures := failures + 1;
        Move(c, Releasing(i, false));
      }
    }

    method CountReport(warm: bool)
      modifies this`compilations, this`warmRestores
      ensures warmRestores == old(warmRestores) + (if warm then 1 else 0)
      ensures compilations == old(compilations) + (if warm then 0 else 1)
    {
      if warm {
        warmRestores := warmRestores + 1;
      } else {
        compilations := compilations + 1;
      }
    }

    // Lines 392-402.
    method CountSource(c: nat)
      requires At(c) && callers[c].pc.Counting?
      modifies this`callers, this`compilations, this`warmRestores
      ensures Model() == Step(old(Model()), c, true, true) && Valid()
    {
      hide Inv;
      InvHasShape(Model(), maxPending, maxPreparations);
      StepKeepsInv(Model(), maxPending, maxPreparations, c, true, true);
      CountReport(callers[c].pc.warm);
      Move(c, Releasing(callers[c].pc.cell, true));
    }

    // The permit dropped at the end of `warmup_once`, on every way out of it.
    method ReleasePermit(c: nat)
      requires At(c) && callers[c].pc.Releasing?
      modifies this`callers, this`preparationBudget
      ensures Model() == Step(old(Model()), c, true, true) && Valid()
    {
      hide Inv;
      InvHasShape(Model(), maxPending, maxPreparations);
      StepKeepsInv(Model(), maxPending, maxPreparations, c, true, true);
      preparationBudget := preparationBudget + 1;
      Move(c, Settling(callers[c].pc.cell, callers[c].pc.ok));
    }

    method Fill(c: nat)
      requires At(c) && callers[c].pc.Settling?
      modifies this`callers, this`cells
      ensures Model() == Step(old(Model()), c, true, true) && Valid()
    {
      hide Inv;
      InvHasShape(Model(), maxPending, maxPreparations);
      StepKeepsInv(Model(), maxPending, maxPreparations, c, true, true);
      var i, ok := callers[c].pc.cell, callers[c].pc.ok;
      cells := cells[i := cells[i].(state := Filled(ok))];
      Move(c, Resolved(i, ok));
    }

    // Lines 332-338: an error removes whatever cell the digest has now.
    method Conclude(c: nat) returns (ready: bool)
      requires At(c) && callers[c].pc.Resolved?
      modifies this`callers, this`warmups, this`removals
      ensures Model() == Step(old(Model()), c, true, true) && Valid()
      ensures ready ==> callers[c].key in dispatcher.artifacts
      ensures !ready ==> callers[c].key !in warmups
    {
      ResolvedIsReady(Model(), maxPending, maxPreparations, c);
      hide Inv;
      InvHasShape(Model(), maxPending, maxPreparations);
      StepKeepsInv(Model(), maxPending, maxPreparations, c, true, true);
      ready := callers[c].pc.ok;
      if ready {
        Move(c, Dispatching);
      } else {
        RemoveCell(callers[c].key, callers[c].pc.cell);
        Move(c, Replying(Unavailable));
      }
    }

    // Line 335, with the history of removals.
    method RemoveCell(key: Digest, own: nat)
      modifies this`warmups, this`removals
      ensures warmups == old(warmups) - {key}
      ensures removals == old(removals) + [Removal(key, key in old(warmups) && old(warmups)[key] != own)]
    {
      removals := removals + [Removal(key, key in warmups && warmups[key] != own)];
      warmups := warmups - {key};
    }

    // Line 490.
    method CountExecution(c: nat)
      requires At(c) && callers[c].pc.Dispatching?
      modifies this`callers, this`executions
      ensures Model() == Step(old(Model()), c, true, true) && Valid()
    {
      hide Inv;
      InvHasShape(Model(), maxPending, maxPreparations);
      StepKeepsInv(Model(), maxPending, maxPreparations, c, true, true);
      executions := executions + 1;
      Move(c, LookingUp);
    }

    // Lines 499-508, with the dispatcher's lookup, which `Valid` proves successful.
    method Dispatch(c: nat)
      requires At(c) && callers[c].pc.LookingUp?
      modifies this`callers
      ensures Model() == Step(old(Model()), c, true, true) && Valid()
      ensures callers[c].pc == Executing
    {
      WarmedUpIsReady(Model(), maxPending, maxPreparations, c);
      hide Inv;
      InvHasShape(Model(), maxPending, maxPreparations);
      StepKeepsInv(Model(), maxPending, maxPreparations, c, true, true);
      var found := dispatcher.HasPrepared(callers[c].key);
      assert found;
      Move(c, Executing);
    }

    method Return(c: nat)
      requires At(c) && callers[c].pc.Executing?
      modifies this`callers
      ensures Model() == Step(old(Model()), c, true, true) && Valid()
    {
      hide Inv;
      InvHasShape(Model(), maxPending, maxPreparations);
      StepKeepsInv(Model(), maxPending, maxPreparations, c, true, true);
      Move(c, Replying(Executed));
    }

    // The admission permit dropped at the end of `execute`, on every way out of it.
    method Reply(c: nat)
      requires At(c) && callers[c].pc.Replying?
      modifies this`callers, this`pending
      ensures Model() == Step(old(Model()), c, true, true) && Valid()
    {
      hide Inv;
      InvHasShape(Model(), maxPending, maxPreparations);
      StepKeepsInv(Model(), maxPending, maxPreparations, c, true, true);
      pending := pending + 1;
      Move(c, Finished(callers[c].pc.outcome));
    }

    // One action of one request, whichever comes next, with whatever the artifact store and the
    // runtime answer.
    method RequestStep(c: nat, good: bool, warm: bool)
      requires At(c)
      modifies this, dispatcher
      ensures Model() == Step(old(Model()), c, good, warm) && Valid()
    {
      match callers[c].pc
      case Arrived => var _ := Admit(c);
      case Admitted => Attach(c);
      case Attached(_) => var _ := GetOrInit(c);
      case Checking(_) => CheckPrepared(c);
      case Budgeting(_) => AcquirePermit(c);
      case Opening(_) => OpenArtifact(c, good);
      case Preparing(_) => CountPreparation(c);
      case Registering(_) => Register(c, good, warm);
      case Counting(_, _) => CountSource(c);
      case Releasing(_, _) => ReleasePermit(c);
      case Settling(_, _) => Fill(c);
      case Resolved(_, _) => var _ := Conclude(c);
      case Dispatching => CountExecution(c);
      case LookingUp => Dispatch(c);
      case Executing => Return(c);
      case Replying(_) => Reply(c);
    }

    predicate CanAct(c: nat)
      reads this`callers, this`cells, this`preparationBudget
    {
      c < |callers| && !callers[c].pc.Finished? &&
      !(callers[c].pc.Attached? && callers[c].pc.cell < |cells| && cells[callers[c].pc.cell].state.Busy?) &&
      !(callers[c].pc.Budgeting? && preparationBudget == 0)
    }

    method Act(ghost past: seq<Action>, c: nat, good: bool, warm: bool)
      requires Reaches(past, Model(), maxPending, maxPreparations) && Valid() && CanAct(c)
      modifies this, dispatcher
      ensures Reaches(past + [Advance(c, good, warm)], Model(), maxPending, maxPreparations) && Valid()
      ensures |callers| == old(|callers|) && old(dispatcher.artifacts) <= dispatcher.artifacts
      ensures Sum(callers, RankW) < old(Sum(callers, RankW))
    {
      hide Inv, ShapeInv, Step, Reaches;
      InvHasShape(Model(), maxPending, maxPreparations);
      ReachesExtends(past, Model(), Advance(c, good, warm), maxPending, maxPreparations);
      MoveLowersRank(Model(), c, good, warm);
      StepMovesOneCaller(Model(), c, good, warm);
      StepOnlyAdds(Model(), c, good, warm);
      RequestStep(c, good, warm);
    }

    // One more request comes in, for any digest.
    method Take(ghost past: seq<Action>, key: Digest)
      requires Reaches(past, Model(), maxPending, maxPreparations) && Valid()
      modifies this`callers
      ensures Reaches(past + [Arrive(key)], Model(), maxPending, maxPreparations) && Valid()
      ensures |callers| == old(|callers|) + 1 && Sum(callers, RankW) == old(Sum(callers, RankW)) + 16
    {
      hide Inv, Reaches;
      InvHasShape(Model(), maxPending, maxPreparations);
      ReachesExtends(past, Model(), Arrive(key), maxPending, maxPreparations);
      SumAppend(callers, Caller(key, Arrived), RankW);
      var _ := Receive(key);
    }

    // The requests received so far and `more` others, coming in at any time, in any interleaving and
    // with any answers, or only good ones when the store and the runtime are `trusty`: all of them
    // are answered, every permit is returned, and no failure stays behind to be met by a later
    // request. While all answers are good, requests are executed, or turned away when the house is
    // full, and none is turned away when there are no more than it holds. `past` and `acts` are the
    // run before and after.
    method ServeAll(more: nat, trusty: bool, ghost past: seq<Action>) returns (ghost acts: seq<Action>)
      requires Reaches(past, Model(), maxPending, maxPreparations)
      modifies this, dispatcher
      ensures |callers| == old(|callers|) + more && forall c :: 0 <= c < |callers| ==> callers[c].pc.Finished?
      ensures pending == maxPending && preparationBudget == Budget(maxPreparations)
      ensures warmups.Keys <= dispatcher.artifacts && old(dispatcher.artifacts) <= dispatcher.artifacts
      ensures Reaches(acts, Model(), maxPending, maxPreparations) && past <= acts
      ensures trusty && AllGood(past) ==> forall c :: 0 <= c < |callers| ==> Served(callers[c])
      ensures trusty && AllGood(past) && |callers| <= maxPending ==>
        forall c :: 0 <= c < |callers| ==> callers[c].pc == Finished(Executed)
    {
      hide Inv, Reaches;
      acts := past;
      ReachesKeepsInv(acts, Model(), maxPending, maxPreparations);
      var coming := more;
      while coming > 0 || exists c: nat :: c < |callers| && CanAct(c)
        invariant Reaches(acts, Model(), maxPending, maxPreparations) && Valid()
        invariant past <= acts && (trusty && AllGood(past) ==> AllGood(acts))
        invariant |callers| + coming == old(|callers|) + more
        invariant old(dispatcher.artifacts) <= dispatcher.artifacts
        decreases Sum(callers, RankW) + 17 * coming
      {
        var event, good, warm := *, *, *;
        good := good || trusty;
        if c: nat :| c < |callers| && CanAct(c) && (event || coming == 0) {
          Act(acts, c, good, warm);
          acts := acts + [Advance(c, good, warm)];
        } else {
          var key: Digest :| key >= 0;
          Take(acts, key);
          acts := acts + [Arrive(key)];
          coming := coming - 1;
        }
      }
      assert forall c: nat :: Moves(Model(), c) ==> CanAct(c);
      AtRest(acts, Model(), maxPending, maxPreparations);
    }
  }
}
