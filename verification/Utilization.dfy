// Grid utilisation: the busy time of both APIs, added to one counter, over the lane time that has
// passed. `run_one` and batches each keep to the lanes they have, but not to each other's. A reading
// of the quotient takes the elapsed time first and the busy time later, and tasks may end in between.
module Utilization {
  import opened GridClock
  import opened GridProtocol
  import opened GridSafety
  import opened GridTheorems

  function Ratio(busy: nat, lanes: nat, elapsed: nat): real
    requires lanes > 0 && elapsed > 0
  {
    busy as real / (lanes * elapsed) as real
  }

  function GridUtilization(busy: nat, lanes: nat, elapsed: nat): (r: real)
    ensures 0.0 <= r <= 1.0
  {
    if elapsed == 0 || lanes == 0 then 0.0
    else
      assert lanes * elapsed > 0;
      if Ratio(busy, lanes, elapsed) < 1.0 then Ratio(busy, lanes, elapsed) else 1.0
  }

  // ----- at one instant -----

  // Each API fills at most the lanes it has.
  lemma EachApiFits(g: Grid, lanes: nat, spurious: nat)
    requires lanes > 0 && Reachable(g, lanes, spurious)
    ensures g.busy == g.one.clock.busy + g.many.clock.busy && g.one.clock.now == g.many.clock.now
    ensures g.one.clock.busy <= lanes * g.one.clock.now && g.many.clock.busy <= lanes * g.one.clock.now
  {
    ReachableInv(g, lanes, spurious);
    BusyWithinCapacity(g.one.clock, lanes);
    BusyWithinCapacity(g.many.clock, lanes);
  }

  // With both APIs in use, twice the lane time is the limit of the shared counter.
  lemma MixedUseIsAtMostTwice(g: Grid, lanes: nat, spurious: nat)
    requires lanes > 0 && Reachable(g, lanes, spurious)
    ensures g.busy <= 2 * (lanes * g.one.clock.now)
  {
    EachApiFits(g, lanes, spurious);
  }

  lemma {:induction false} UnusedBillsNothing(g: Grid, acts: seq<Action>, t: Grid)
    requires Run(g, acts, t)
    ensures All(acts, NoBatchWork) ==> t.many.clock.busy == g.many.clock.busy
    ensures All(acts, NoCalls) ==> t.one.clock.busy == g.one.clock.busy
    decreases |acts|
  {
    hide Enabled, Shape;
    if acts != [] {
      UnusedBillsNothing(Apply(g, acts[0]), acts[1..], t);
      assert All(acts, NoBatchWork) ==> Suits(NoBatchWork, acts[0]) && All(acts[1..], NoBatchWork);
      assert All(acts, NoCalls) ==> Suits(NoCalls, acts[0]) && All(acts[1..], NoCalls);
    }
  }

  // Only one of the two APIs has run tasks so far.
  ghost predicate OneApi(g: Grid, lanes: nat, spurious: nat) {
    ReachableBy(g, lanes, spurious, NoBatchWork) || ReachableBy(g, lanes, spurious, NoCalls)
  }

  // With only one API in use, the busy time fits into the lane time at every moment.
  lemma OneApiFits(g: Grid, lanes: nat, spurious: nat)
    requires lanes > 0 && OneApi(g, lanes, spurious)
    ensures g.busy <= lanes * g.one.clock.now
  {
    var init := Init(lanes, spurious);
    var acts :| Run(init, acts, g) && (All(acts, NoBatchWork) || All(acts, NoCalls));
    UnusedBillsNothing(init, acts, g);
    EachApiFits(g, lanes, spurious);
  }

  // ----- a reading -----

  // Nanoseconds that an action adds to the busy time.
  function BilledBy(g: Grid, a: Action): nat {
    match a
    case One(b) => Charged(g.one, b)
    case Many(w) => ChargedBy(g.many, w)
    case _ => 0
  }

  ghost function Billed(g: Grid, acts: seq<Action>, t: Grid): nat
    requires Run(g, acts, t)
    decreases |acts|
  {
    if acts == [] then 0 else BilledBy(g, acts[0]) + Billed(Apply(g, acts[0]), acts[1..], t)
  }

  lemma {:induction false} BilledIsAdded(g: Grid, acts: seq<Action>, t: Grid)
    requires Run(g, acts, t)
    ensures t.busy == g.busy + Billed(g, acts, t)
    decreases |acts|
  {
    hide Enabled, Shape;
    if acts != [] {
      BilledIsAdded(Apply(g, acts[0]), acts[1..], t);
    }
  }

  // The elapsed time is read in `g`. After `acts`, the busy time is loaded in `t`.
  ghost predicate Reading(g: Grid, acts: seq<Action>, t: Grid, lanes: nat, spurious: nat) {
    Reachable(g, lanes, spurious) && Run(g, acts, t)
  }

  lemma ClampIsIdleExactly(busy: nat, lanes: nat, elapsed: nat)
    requires lanes > 0 && elapsed > 0
    ensures GridUtilization(busy, lanes, elapsed) == Ratio(busy, lanes, elapsed) <==> busy <= lanes * elapsed
  {
    var capacity := (lanes * elapsed) as real;
    assert capacity > 0.0;
    assert busy as real <= capacity <==> busy as real / capacity <= 1.0;
  }

  // The two ends of the scale: a full grid and more reads as one, and only an idle grid, or one no time
  // has passed for, as zero.
  lemma EndsOfTheScale(busy: nat, lanes: nat, elapsed: nat)
    ensures GridUtilization(busy, lanes, elapsed) == 1.0 <==> lanes > 0 && elapsed > 0 && busy >= lanes * elapsed
    ensures GridUtilization(busy, lanes, elapsed) == 0.0 <==> lanes == 0 || elapsed == 0 || busy == 0
  {
    if lanes > 0 && elapsed > 0 {
      assert lanes * elapsed > 0;
      QuotientEnds(busy as real, (lanes * elapsed) as real);
    }
  }

  lemma ProductKeepsSign(x: real, y: real)
    requires y > 0.0
    ensures x > 0.0 ==> x * y > 0.0
    ensures x == 0.0 ==> x * y == 0.0
  {}

  lemma QuotientEnds(x: real, y: real)
    requires x >= 0.0 && y > 0.0
    ensures x / y < 1.0 <==> x < y
    ensures x / y == 0.0 <==> x == 0.0
  {
    var q := x / y;
    assert q * y == x;
    ProductKeepsSign(1.0 - q, y);
    ProductKeepsSign(q - 1.0, y);
    assert (1.0 - q) * y == y - x;
    assert (q - 1.0) * y == x - y;
  }

  // The clamp changes nothing exactly when the busy time at the first read, and what tasks that end
  // between the reads are billed, fit into the lane time at the first read together.
  lemma ReadingNeedsNoClamp(g: Grid, acts: seq<Action>, t: Grid, lanes: nat, spurious: nat)
    requires lanes > 0 && Reading(g, acts, t, lanes, spurious) && g.one.clock.now > 0
    ensures var elapsed := g.one.clock.now;
      GridUtilization(t.busy, lanes, elapsed) == Ratio(t.busy, lanes, elapsed) <==>
      g.busy + Billed(g, acts, t) <= lanes * elapsed
  {
    BilledIsAdded(g, acts, t);
    ClampIsIdleExactly(t.busy, lanes, g.one.clock.now);
  }

  lemma OneApiContinues(g: Grid, acts: seq<Action>, t: Grid, lanes: nat, spurious: nat, use: Use)
    requires ReachableBy(g, lanes, spurious, use) && All(acts, use) && Run(g, acts, t)
    ensures ReachableBy(t, lanes, spurious, use)
  {
    hide Init, Run;
    var init := Init(lanes, spurious);
    var before :| Run(init, before, g) && All(before, use);
    RunConcat(init, before, g, acts, t);
    assert All(before + acts, use);
  }

  // A reading while only one API is in use, before it and during it.
  ghost predicate OneApiReading(g: Grid, acts: seq<Action>, t: Grid, lanes: nat, spurious: nat) {
    && Reading(g, acts, t, lanes, spurious)
    && ((ReachableBy(g, lanes, spurious, NoBatchWork) && All(acts, NoBatchWork)) ||
        (ReachableBy(g, lanes, spurious, NoCalls) && All(acts, NoCalls)))
  }

  // With one API the clamp is idle when no task is billed between the reads, or no time passes.
  lemma OneApiReadingNeedsNoClamp(g: Grid, acts: seq<Action>, t: Grid, lanes: nat, spurious: nat)
    requires lanes > 0 && OneApiReading(g, acts, t, lanes, spurious) && g.one.clock.now > 0
    ensures Billed(g, acts, t) == 0 || t.one.clock.now == g.one.clock.now ==>
      GridUtilization(t.busy, lanes, g.one.clock.now) == Ratio(t.busy, lanes, g.one.clock.now)
  {
    ReadingNeedsNoClamp(g, acts, t, lanes, spurious);
    BilledIsAdded(g, acts, t);
    OneApiFits(g, lanes, spurious);
    OneApiFitsAfter(g, acts, t, lanes, spurious);
  }

  lemma OneApiFitsAfter(g: Grid, acts: seq<Action>, t: Grid, lanes: nat, spurious: nat)
    requires lanes > 0 && OneApiReading(g, acts, t, lanes, spurious)
    ensures t.busy <= lanes * t.one.clock.now
  {
    if ReachableBy(g, lanes, spurious, NoBatchWork) && All(acts, NoBatchWork) {
      OneApiContinues(g, acts, t, lanes, spurious, NoBatchWork);
    } else {
      OneApiContinues(g, acts, t, lanes, spurious, NoCalls);
    }
    OneApiFits(t, lanes, spurious);
  }

  // A bound on the busy time as a bound on the quotient.
  lemma RatioBound(busy: nat, lanes: nat, elapsed: nat, later: nat, apis: nat)
    requires lanes > 0 && elapsed > 0
    ensures busy <= apis * (lanes * later) ==>
      Ratio(busy, lanes, elapsed) <= apis as real * (later as real / elapsed as real)
  {}

  // However late the busy time is loaded, the quotient exceeds one by no more than the time that
  // passed since the first read.
  lemma OneApiReadingIsBounded(g: Grid, acts: seq<Action>, t: Grid, lanes: nat, spurious: nat)
    requires lanes > 0 && OneApiReading(g, acts, t, lanes, spurious) && g.one.clock.now > 0
    ensures Ratio(t.busy, lanes, g.one.clock.now) <= t.one.clock.now as real / g.one.clock.now as real
  {
    OneApiFitsAfter(g, acts, t, lanes, spurious);
    RatioBound(t.busy, lanes, g.one.clock.now, t.one.clock.now, 1);
  }

  // ... and by no more than twice that with both APIs in use.
  lemma MixedReadingIsBounded(g: Grid, acts: seq<Action>, t: Grid, lanes: nat, spurious: nat)
    requires lanes > 0 && Reading(g, acts, t, lanes, spurious) && g.one.clock.now > 0
    ensures Ratio(t.busy, lanes, g.one.clock.now) <= 2.0 * (t.one.clock.now as real / g.one.clock.now as real)
  {
    hide Run;
    var before :| Run(Init(lanes, spurious), before, g);
    RunConcat(Init(lanes, spurious), before, g, acts, t);
    MixedUseIsAtMostTwice(t, lanes, spurious);
    RatioBound(t.busy, lanes, g.one.clock.now, t.one.clock.now, 2);
  }
}
