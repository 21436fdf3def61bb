// What holds over whole runs of a scheduler with both of its APIs in use.
module GridTheorems {
  import opened GridProtocol
  import opened GridSafety
  import L = LaneProtocol
  import LaneSafety
  import LaneTheorems
  import B = BatchProtocol
  import BatchSafety
  import BatchTheorems

  // ----- runs -----

  ghost predicate Run(g: Grid, acts: seq<Action>, t: Grid)
    decreases |acts|
  {
    if acts == [] then t == g
    else Shape(g) && Enabled(g, acts[0]) && Run(Apply(g, acts[0]), acts[1..], t)
  }

  ghost predicate Reachable(g: Grid, lanes: nat, spurious: nat) {
    exists acts :: Run(Init(lanes, spurious), acts, g)
  }

  // How a run uses the scheduler: anyhow, without running jobs of a batch, without calls of
  // `run_one`, or with calls and nothing else.
  datatype Use = Mixed | NoBatchWork | NoCalls | CallsOnly

  predicate Suits(use: Use, a: Action) {
    match use
    case Mixed => true
    case NoBatchWork => !a.Many?
    case NoCalls => !a.One?
    case CallsOnly => a.One? || a.Tick?
  }

  ghost predicate All(acts: seq<Action>, use: Use) { forall i :: 0 <= i < |acts| ==> Suits(use, acts[i]) }

  ghost predicate ReachableBy(g: Grid, lanes: nat, spurious: nat, use: Use) {
    exists acts :: Run(Init(lanes, spurious), acts, g) && All(acts, use)
  }

  // The action of the lane machine that an action of the scheduler contains.
  function OnLanes(a: Action): L.Action {
    match a
    case One(b) => b
    case Tick(nanos) => L.Tick(nanos)
    case _ => L.Foreign(1)
  }

  lemma AlwaysEnabled(s: L.State, a: L.Action)
    ensures a.Tick? || a.Foreign? ==> L.Enabled(s, a)
  {}

  lemma SameLanes(g: Grid, a: Action)
    requires Shape(g) && Enabled(g, a)
    ensures |Apply(g, a).one.slots| == |g.one.slots|
  {
    hide L.ShapeInv, B.ShapeInv, L.Apply, B.Apply, L.Enabled, B.Enabled;
    if a.One? || a.Draw? || a.Tick? {
      assert L.Enabled(g.one, OnLanes(a)) by {
        AlwaysEnabled(g.one, OnLanes(a));
      }
      LaneTheorems.SameLanes(g.one, OnLanes(a));
    }
  }

  lemma {:induction false} RunKeepsInv(g: Grid, acts: seq<Action>, t: Grid)
    requires Inv(g) && Run(g, acts, t)
    ensures Inv(t) && |t.one.slots| == |g.one.slots|
    decreases |acts|
  {
    hide Inv, Enabled, Shape;
    InvHasShape(g);
    if acts != [] {
      ApplyKeepsInv(g, acts[0]);
      SameLanes(g, acts[0]);
      RunKeepsInv(Apply(g, acts[0]), acts[1..], t);
    }
  }

  lemma ReachableInv(g: Grid, lanes: nat, spurious: nat)
    requires lanes > 0 && Reachable(g, lanes, spurious)
    ensures Inv(g) && |g.one.slots| == lanes
  {
    InitInv(lanes, spurious);
    var acts :| Run(Init(lanes, spurious), acts, g);
    RunKeepsInv(Init(lanes, spurious), acts, g);
  }

  lemma RunOne(g: Grid, a: Action)
    requires Shape(g) && Enabled(g, a)
    ensures Run(g, [a], Apply(g, a))
  {
    hide Shape, Enabled, Apply;
    assert [a][1..] == [];
    assert Run(Apply(g, a), [], Apply(g, a));
  }

  lemma RunExtends(g: Grid, acts: seq<Action>, t: Grid, a: Action)
    requires Run(g, acts, t) && Shape(t) && Enabled(t, a)
    ensures Run(g, acts + [a], Apply(t, a))
  {
    hide Shape, Enabled, Apply, Run;
    RunOne(t, a);
    RunConcat(g, acts, t, [a], Apply(t, a));
  }

  lemma {:induction false} RunConcat(g: Grid, acts: seq<Action>, t: Grid, more: seq<Action>, u: Grid)
    requires Run(g, acts, t) && Run(t, more, u)
    ensures Run(g, acts + more, u)
    decreases |acts|
  {
    hide Enabled, Apply, Shape;
    if acts == [] {
      assert acts + more == more;
    } else {
      RunConcat(Apply(g, acts[0]), acts[1..], t, more, u);
      assert (acts + more)[0] == acts[0];
      assert (acts + more)[1..] == acts[1..] + more;
    }
  }

  // ----- ids -----

  lemma NumberStays(s: L.State, a: L.Action, c: nat)
    requires L.ShapeInv(s) && L.Enabled(s, a)
    requires c < |s.callers| && !s.callers[c].pc.Arrived?
    ensures c < |L.Apply(s, a).callers| && !L.Apply(s, a).callers[c].pc.Arrived?
    ensures L.Apply(s, a).callers[c].id == s.callers[c].id
  {
    if a.Advance? {
      LaneSafety.StepMovesOneCaller(s, a.c);
      if a.c == c {
        LaneSafety.StepKeepsOwnId(s, c);
      }
    }
    hide L.Step;
  }

  lemma IdsStay(g: Grid, a: Action)
    requires Shape(g) && Enabled(g, a)
    ensures g.batchIds <= Apply(g, a).batchIds
    ensures forall c: nat :: Numbered(g, c) ==>
      Numbered(Apply(g, a), c) && Apply(g, a).one.callers[c].id == g.one.callers[c].id
  {
    hide L.Apply, B.ShapeInv, B.Apply;
    var t := Apply(g, a);
    forall c: nat | Numbered(g, c) ensures Numbered(t, c) && t.one.callers[c].id == g.one.callers[c].id {
      NumberStays(g.one, OnLanes(a), c);
    }
  }

  lemma {:induction false} RunKeepsIds(g: Grid, acts: seq<Action>, t: Grid)
    requires Run(g, acts, t)
    ensures g.batchIds <= t.batchIds
    ensures forall c: nat :: Numbered(g, c) ==> Numbered(t, c) && t.one.callers[c].id == g.one.callers[c].id
    decreases |acts|
  {
    hide Enabled, Shape, Apply;
    if acts != [] {
      IdsStay(g, acts[0]);
      RunKeepsIds(Apply(g, acts[0]), acts[1..], t);
    }
  }

  // No id drawn by `run_one` is ever an id of a batch: neither of the batch at hand, nor of one
  // before it, nor of one still to come.
  lemma IdsAreNeverShared(g: Grid, acts: seq<Action>, t: Grid, lanes: nat, spurious: nat)
    requires lanes > 0 && Reachable(g, lanes, spurious) && Run(g, acts, t)
    ensures forall c: nat, k: nat :: Numbered(t, c) && k < |g.many.ids| ==> t.one.callers[c].id != g.many.ids[k]
    ensures forall c: nat, k: nat :: Numbered(g, c) && k < |t.many.ids| ==> g.one.callers[c].id != t.many.ids[k]
  {
    ReachableInv(g, lanes, spurious);
    RunKeepsInv(g, acts, t);
    RunKeepsIds(g, acts, t);
  }

  // ----- either API on its own -----

  ghost predicate Projected(g: Grid, lanes: nat, spurious: nat) {
    LaneTheorems.Reachable(g.one, lanes, spurious) && BatchTheorems.Reachable(g.many, lanes)
  }

  lemma OthersDrawn(s: B.State, lanes: nat, n: nat)
    requires lanes > 0 && BatchTheorems.Reachable(s, lanes)
    ensures BatchTheorems.Reachable(s.(nextId := s.nextId + n), lanes)
  {
    hide B.Inv, B.ShapeInv, B.Apply, BatchTheorems.Reachable;
    BatchTheorems.ReachableInv(s, lanes);
    BatchSafety.InvHasShape(s);
    ForeignIsDrawn(s, n);
    BatchTheorems.ReachableExtends(s, lanes, B.Foreign(n));
  }

  lemma StepProjects(g: Grid, a: Action, lanes: nat, spurious: nat)
    requires lanes > 0 && Shape(g) && Projected(g, lanes, spurious) && Enabled(g, a)
    ensures Projected(Apply(g, a), lanes, spurious)
  {
    hide LaneTheorems.Reachable, BatchTheorems.Reachable, L.ShapeInv, B.ShapeInv;
    match a
    case One(b) =>
      LaneTheorems.ReachableExtends(g.one, lanes, spurious, b);
      OthersDrawn(g.many, lanes, 1);
    case Open(_, _, _) =>
    case Draw => LaneTheorems.ReachableExtends(g.one, lanes, spurious, L.Foreign(1));
    case Launch =>
      var d := g.draft.value;
      var begin := B.Begin(d.gaps, d.task, d.rejects);
      BatchTheorems.ReachableExtends(g.many, lanes, begin);
      OthersDrawn(B.Apply(g.many, begin), lanes, d.since);
    case Many(w) => BatchTheorems.ReachableExtends(g.many, lanes, B.Advance(w));
    case Tick(nanos) =>
      LaneTheorems.ReachableExtends(g.one, lanes, spurious, L.Tick(nanos));
      BatchTheorems.ReachableExtends(g.many, lanes, B.Tick(nanos));
  }

  lemma {:induction false} RunProjects(g: Grid, acts: seq<Action>, t: Grid, lanes: nat, spurious: nat)
    requires lanes > 0 && Projected(g, lanes, spurious) && Run(g, acts, t)
    ensures Projected(t, lanes, spurious)
    decreases |acts|
  {
    hide Enabled, Shape, Projected, Apply;
    if acts != [] {
      StepProjects(g, acts[0], lanes, spurious);
      RunProjects(Apply(g, acts[0]), acts[1..], t, lanes, spurious);
    }
  }

  // Using both APIs takes nothing from either: each of them is in a state that it can reach on its
  // own, so everything proved of `run_one` and of batches holds of them side by side.
  lemma EachApiIsItself(g: Grid, lanes: nat, spurious: nat)
    requires lanes > 0 && Reachable(g, lanes, spurious)
    ensures LaneTheorems.Reachable(g.one, lanes, spurious) && BatchTheorems.Reachable(g.many, lanes)
  {
    var acts :| Run(Init(lanes, spurious), acts, g);
    InitProjects(lanes, spurious);
    RunProjects(Init(lanes, spurious), acts, g, lanes, spurious);
  }

  lemma InitProjects(lanes: nat, spurious: nat)
    ensures Projected(Init(lanes, spurious), lanes, spurious)
  {
    assert LaneTheorems.Run(L.Init(lanes, spurious), [], L.Init(lanes, spurious));
    assert BatchTheorems.Run(B.Init(lanes), [], B.Init(lanes));
  }
}
