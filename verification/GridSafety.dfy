// Every action of either API keeps the invariants of the shared scheduler.
module GridSafety {
  import opened GridProtocol
  import L = LaneProtocol
  import LaneSafety
  import B = BatchProtocol
  import BatchSafety

  lemma InitInv(lanes: nat, spurious: nat)
    requires lanes > 0
    ensures Inv(Init(lanes, spurious))
  {
    LaneSafety.InitInv(lanes, spurious);
    BatchSafety.InitInv(lanes);
    BatchSafety.InvHasShape(B.Init(lanes));
    LaneSafety.InvHasShape(L.Init(lanes, spurious));
  }

  lemma InvHasShape(g: Grid)
    requires Inv(g)
    ensures Shape(g)
  {}

  // What an action of `run_one` does to the parts that both APIs see.
  lemma OneMoves(s: L.State, a: L.Action)
    requires L.ShapeInv(s) && L.Enabled(s, a) && !a.Tick? && !a.Foreign?
    ensures var t := L.Apply(s, a);
      && |t.slots| == |s.slots| && t.clock.now == s.clock.now
      && t.clock.busy == s.clock.busy + Charged(s, a)
      && t.nextId == (if Draws(s, a) then s.nextId + 1 else s.nextId)
  {}

  // The callers keep their ids, and a new one takes the next.
  lemma OneKeepsIds(s: L.State, a: L.Action, c: nat)
    requires L.ShapeInv(s) && L.Enabled(s, a)
    requires c < |L.Apply(s, a).callers| && !L.Apply(s, a).callers[c].pc.Arrived?
    ensures c < |s.callers|
    ensures L.Apply(s, a).callers[c].id ==
      if Draws(s, a) && a.c == c then s.nextId else s.callers[c].id
    ensures s.callers[c].pc.Arrived? ==> Draws(s, a) && a.c == c
  {}

  lemma ManyMoves(s: B.State, w: nat)
    requires B.ShapeInv(s) && B.Enabled(s, B.Advance(w))
    ensures var t := B.Apply(s, B.Advance(w));
      && |t.workers| == |s.workers| && t.clock.now == s.clock.now
      && t.clock.busy == s.clock.busy + ChargedBy(s, w)
      && t.nextId == s.nextId && t.ids == s.ids
  {}

  lemma ForeignIsDrawn(s: B.State, n: nat)
    requires B.ShapeInv(s)
    ensures B.Apply(s, B.Foreign(n)) == s.(nextId := s.nextId + n)
  {}

  // The batch machine after somebody else drew `n` ids.
  lemma ForeignDraws(s: B.State, n: nat)
    requires B.Inv(s)
    ensures B.Inv(s.(nextId := s.nextId + n)) && B.ShapeInv(s.(nextId := s.nextId + n))
  {
    hide B.Inv, B.ShapeInv, B.Apply;
    BatchSafety.InvHasShape(s);
    ForeignIsDrawn(s, n);
    BatchSafety.OtherKeepsInv(s, B.Foreign(n));
    BatchSafety.InvHasShape(s.(nextId := s.nextId + n));
  }

  lemma OneKeepsInv(g: Grid, a: L.Action)
    requires Inv(g) && Enabled(g, One(a))
    ensures Inv(Apply(g, One(a)))
  {
    hide L.Inv, B.Inv, L.ShapeInv, B.ShapeInv, L.Enabled, L.Apply;
    var t := Apply(g, One(a));
    LaneSafety.ApplyKeepsInv(g.one, a);
    LaneSafety.InvHasShape(t.one);
    OneMoves(g.one, a);
    if Draws(g.one, a) {
      ForeignDraws(g.many, 1);
    }
    assert Shape(t) && Tied(t);
    forall c: nat | Numbered(t, c) ensures t.one.callers[c].id !in t.batchIds {
      OneKeepsIds(g.one, a, c);
      assert Numbered(g, c) || t.one.callers[c].id == g.nextId;
    }
  }

  lemma DrawKeepsInv(g: Grid)
    requires Inv(g) && Enabled(g, Draw)
    ensures Inv(Apply(g, Draw))
  {
    hide L.Inv, B.Inv, L.ShapeInv, B.ShapeInv;
    var t := Apply(g, Draw);
    var d := g.draft.value;
    LaneSafety.ApplyKeepsInv(g.one, L.Foreign(1));
    LaneSafety.InvHasShape(t.one);
    BatchSafety.DrawOneMore(g.many.nextId, d.gaps, d.since);
    assert forall c: nat :: Numbered(t, c) ==> Numbered(g, c);
    IdsBelow(g.one);
  }

  lemma IdsBelow(s: L.State)
    requires L.Inv(s)
    ensures forall c :: 0 <= c < |s.callers| && !s.callers[c].pc.Arrived? ==> s.callers[c].id < s.nextId
  {}

  lemma BatchKeepsLanes(s: B.State, a: B.Action)
    requires B.ShapeInv(s) && B.Enabled(s, a) && a.Begin?
    ensures |B.Apply(s, a).workers| == |s.workers|
  {}

  lemma LaunchKeepsInv(g: Grid)
    requires Inv(g) && Enabled(g, Launch)
    ensures Inv(Apply(g, Launch))
  {
    hide L.Inv, B.Inv, L.ShapeInv, B.ShapeInv;
    var t := Apply(g, Launch);
    var d := g.draft.value;
    var begin := B.Begin(d.gaps, d.task, d.rejects);
    BatchSafety.ApplyKeepsInv(g.many, begin);
    ForeignDraws(B.Apply(g.many, begin), d.since);
    BatchKeepsLanes(g.many, begin);
    assert t.many.ids == d.ids;
  }

  lemma ManyKeepsInv(g: Grid, a: Action)
    requires Inv(g) && Enabled(g, a) && a.Many?
    ensures Inv(Apply(g, a))
  {
    hide L.Inv, B.Inv, L.ShapeInv, B.ShapeInv, B.Enabled, B.Apply;
    BatchSafety.ApplyKeepsInv(g.many, B.Advance(a.w));
    BatchSafety.InvHasShape(Apply(g, a).many);
    ManyMoves(g.many, a.w);
  }

  lemma TickKeepsInv(g: Grid, a: Action)
    requires Inv(g) && Enabled(g, a) && a.Tick?
    ensures Inv(Apply(g, a))
  {
    hide L.Inv, B.Inv, L.ShapeInv, B.ShapeInv;
    var t := Apply(g, a);
    LaneSafety.ApplyKeepsInv(g.one, L.Tick(a.nanos));
    LaneSafety.InvHasShape(t.one);
    BatchSafety.ApplyKeepsInv(g.many, B.Tick(a.nanos));
    BatchSafety.InvHasShape(t.many);
    assert forall c: nat :: Numbered(t, c) ==> Numbered(g, c);
  }

  lemma ApplyKeepsInv(g: Grid, a: Action)
    requires Inv(g) && Enabled(g, a)
    ensures Inv(Apply(g, a))
  {
    match a
    case One(b) => OneKeepsInv(g, b);
    case Open(_, _, _) =>
    case Draw => DrawKeepsInv(g);
    case Launch => LaunchKeepsInv(g);
    case Many(_) => ManyKeepsInv(g, a);
    case Tick(_) => TickKeepsInv(g, a);
  }
}
