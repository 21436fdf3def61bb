// Lane busy time against elapsed time: what `busy_nanos` and `created_at` of the scheduler
// measure. `billed` and `idleSince` are history: the nanoseconds added on behalf of each lane and
// the moment that lane's last billed task ended. The scheduler itself keeps only `busy`.
module GridClock {
  import opened Sums

  datatype Clock = Clock(now: nat, busy: nat, billed: seq<nat>, idleSince: seq<nat>)

  function Started(lanes: nat): Clock {
    Clock(0, 0, seq(lanes, i => 0), seq(lanes, i => 0))
  }

  function Nanos(n: nat): nat { n }

  // No lane has been billed for more time than had passed when its last task ended.
  ghost predicate Fair(c: Clock, lanes: nat) {
    && |c.billed| == |c.idleSince| == lanes
    && c.busy == Sum<nat>(c.billed, Nanos)
    && forall l :: 0 <= l < lanes ==> c.billed[l] <= c.idleSince[l] <= c.now
  }

  // The interval of one finished task is added to the shared counter.
  function Bill(c: Clock, lane: nat, since: nat, until: nat): Clock
    requires lane < |c.billed| == |c.idleSince| && since <= until
  {
    c.(busy := c.busy + (until - since),
       billed := c.billed[lane := c.billed[lane] + (until - since)],
       idleSince := c.idleSince[lane := until])
  }

  lemma StartedFair(lanes: nat)
    ensures Fair(Started(lanes), lanes)
  {
    SumZero<nat>(Started(lanes).billed, Nanos);
  }

  lemma BillFair(c: Clock, lanes: nat, lane: nat, since: nat, until: nat)
    requires Fair(c, lanes) && lane < lanes
    requires c.idleSince[lane] <= since <= until <= c.now
    ensures Fair(Bill(c, lane, since, until), lanes)
  {
    SumUpdate<nat>(c.billed, lane, c.billed[lane] + (until - since), Nanos);
  }

  // At any one moment busy time is within lane time.
  lemma BusyWithinCapacity(c: Clock, lanes: nat)
    requires Fair(c, lanes)
    ensures c.busy <= lanes * c.now
  {
    SumBound<nat>(c.billed, Nanos, c.now);
  }
}
