// Nested service calls: a guest on one Garage calls a service, PitLane places the call on another
// Garage, and so on. Each Garage refuses a call whose path it already lies on, or that is too deep.
// The lane service in between is assumed to forward the depth and the path as it got them.
module Invocation {
  import opened Wrappers
  import opened Sequences

  type GarageId = nat

  const MAX_DEPTH: nat := 16
  const U16_MAX: nat := 65535

  datatype Garage = Garage(id: GarageId, maxInvocationDepth: nat)

  // What a nested call carries: on the wire, and in the context of the guest that makes it.
  datatype Call = Call(depth: nat, visited: seq<GarageId>)

  // Both guards of a Garage answer with the error code `InvocationCycle`; the message tells them
  // apart.
  datatype Refusal = AlreadyInPath | TooDeep

  // The two guards of `execute`, and the context it hands to the guest.
  function Execute(garage: Garage, call: Call): Result<Call, Refusal> {
    if garage.id in call.visited then Err(AlreadyInPath)
    else if call.depth > MAX_DEPTH then Err(TooDeep)
    else Ok(call.(visited := call.visited + [garage.id]))
  }

  // The runtime's side of an outgoing call: a saturating increment of a `u16`.
  function Nest(context: Call): Call {
    context.(depth := if context.depth < U16_MAX then context.depth + 1 else U16_MAX)
  }

  // The invoker's own limit, checked before PitLane is asked.
  function Invoke(garage: Garage, call: Call): Result<Call, Refusal> {
    if call.depth > garage.maxInvocationDepth then Err(TooDeep) else Ok(call)
  }

  // What reaches the next Garage when the guest run for `call` on `garage` calls a service.
  function Forward(garage: Garage, call: Call): Result<Call, Refusal> {
    var context :- Execute(garage, call);
    Invoke(garage, Nest(context))
  }

  // Each Garage runs the guest and passes a nested call on to the next; the last one runs it.
  predicate Runs(chain: seq<Garage>, call: Call)
    decreases |chain|
  {
    chain == [] ||
    (Execute(chain[0], call).Ok? &&
     (|chain| == 1 || (Forward(chain[0], call).Ok? && Runs(chain[1..], Forward(chain[0], call).value))))
  }

  function Ids(chain: seq<Garage>): (ids: seq<GarageId>)
    ensures |ids| == |chain| && forall i :: 0 <= i < |chain| ==> ids[i] == chain[i].id
  {
    if chain == [] then [] else [chain[0].id] + Ids(chain[1..])
  }

  // No Garage twice, and none that was visited before.
  ghost predicate Fresh(chain: seq<Garage>, visited: seq<GarageId>) {
    Distinct(Ids(chain)) && forall i :: 0 <= i < |chain| ==> Ids(chain)[i] !in visited
  }

  // Within both limits at every hop.
  ghost predicate Shallow(chain: seq<Garage>, depth: nat) {
    && (|chain| > 0 ==> depth + |chain| <= MAX_DEPTH + 1)
    && (forall i :: 0 <= i < |chain| - 1 ==> depth + i + 1 <= chain[i].maxInvocationDepth)
  }

  lemma FreshSteps(chain: seq<Garage>, visited: seq<GarageId>)
    requires chain != []
    ensures Fresh(chain, visited) <==>
      chain[0].id !in visited && Fresh(chain[1..], visited + [chain[0].id])
  {
    var ids, rest := Ids(chain), Ids(chain[1..]);
    assert ids == [chain[0].id] + rest;
    if chain[0].id !in visited && Fresh(chain[1..], visited + [chain[0].id]) {
      forall i | 0 <= i < |ids| ensures ids[i] !in visited {
        assert i > 0 ==> ids[i] == rest[i - 1];
      }
      forall i, j | 0 <= i < j < |ids| ensures ids[i] != ids[j] {
        assert ids[j] == rest[j - 1] && chain[0].id in visited + [chain[0].id];
      }
    }
    if Fresh(chain, visited) {
      assert ids[0] !in visited;
      forall i | 0 <= i < |rest| ensures rest[i] !in visited + [chain[0].id] {
        assert rest[i] == ids[i + 1] && ids[i + 1] !in visited;
      }
      forall i, j | 0 <= i < j < |rest| ensures rest[i] != rest[j] {
        assert rest[i] == ids[i + 1] && rest[j] == ids[j + 1];
      }
    }
  }

  // The chains that run are exactly those that visit nobody twice, nobody visited before, and stay
  // within the limits. The saturation of the depth is never reached.
  lemma {:induction false} ChainsThatRun(chain: seq<Garage>, call: Call)
    ensures Runs(chain, call) <==> Fresh(chain, call.visited) && Shallow(chain, call.depth)
    decreases |chain|
  {
    if chain != [] {
      FreshSteps(chain, call.visited);
      var g := chain[0];
      if |chain| > 1 && Forward(g, call).Ok? {
        ChainsThatRun(chain[1..], Forward(g, call).value);
      }
      if |chain| > 1 {
        ShallowSteps(chain, call.depth);
      }
    }
  }

  lemma ShallowSteps(chain: seq<Garage>, depth: nat)
    requires |chain| > 1
    ensures Shallow(chain, depth) <==> depth + 1 <= chain[0].maxInvocationDepth && Shallow(chain[1..], depth + 1)
  {
    var rest := chain[1..];
    if depth + 1 <= chain[0].maxInvocationDepth && Shallow(rest, depth + 1) {
      forall i | 0 <= i < |chain| - 1 ensures depth + i + 1 <= chain[i].maxInvocationDepth {
        if i > 0 {
          assert depth + 1 + (i - 1) + 1 <= rest[i - 1].maxInvocationDepth;
        }
      }
    }
    if Shallow(chain, depth) {
      forall i | 0 <= i < |rest| - 1 ensures depth + 1 + i + 1 <= rest[i].maxInvocationDepth {
        assert depth + (i + 1) + 1 <= chain[i + 1].maxInvocationDepth;
      }
    }
  }

  lemma {:induction false} DistinctWithin(ids: seq<GarageId>, fleet: set<GarageId>)
    requires Distinct(ids) && forall i :: 0 <= i < |ids| ==> ids[i] in fleet
    ensures |ids| <= |fleet|
  {
    if ids != [] {
      var n := |ids| - 1;
      DistinctWithin(ids[..n], fleet - {ids[n]});
    }
  }

  // Every chain that starts with a request from outside ends: it runs on different Garages, so on no
  // more of them than there are, and never on more than 17.
  lemma ChainsAreFinite(chain: seq<Garage>, fleet: set<GarageId>)
    requires Runs(chain, Call(0, []))
    requires forall i :: 0 <= i < |chain| ==> chain[i].id in fleet
    ensures Distinct(Ids(chain))
    ensures |chain| <= |fleet| && |chain| <= 17
  {
    ChainsThatRun(chain, Call(0, []));
    DistinctWithin(Ids(chain), fleet);
  }

  // ----- how a chain ends -----

  // How many Garages of the chain run their guest, and what refuses the next one.
  function Walk(chain: seq<Garage>, call: Call): (nat, Option<Refusal>)
    decreases |chain|
  {
    if chain == [] then (0, None)
    else
      match Execute(chain[0], call)
      case Err(e) => (0, Some(e))
      case Ok(_) =>
        if |chain| == 1 then (1, None)
        else
          match Forward(chain[0], call)
          case Err(e) => (1, Some(e))
          case Ok(next) => var (ran, refusal) := Walk(chain[1..], next); (ran + 1, refusal)
  }

  // Whether the nested call that would reach Garage `n` is too deep to be sent.
  predicate Unsent(chain: seq<Garage>, depth: nat, n: nat)
    requires n < |chain|
  {
    n > 0 && depth + n > chain[n - 1].maxInvocationDepth
  }

  lemma IdsOfPrefix(chain: seq<Garage>, n: nat)
    requires 0 < n <= |chain|
    ensures Ids(chain[..n]) == [chain[0].id] + Ids(chain[1..][..n - 1])
  {
    assert chain[..n][1..] == chain[1..][..n - 1];
  }

  // What refuses the call that would reach Garage `n`, when those before it have run.
  ghost predicate RefusedAt(chain: seq<Garage>, call: Call, n: nat, refusal: Refusal)
    requires n < |chain|
  {
    if Unsent(chain, call.depth, n) then refusal == TooDeep
    else if chain[n].id in call.visited + Ids(chain[..n]) then refusal == AlreadyInPath
    else refusal == TooDeep && call.depth + n > 16
  }

  lemma RefusedLater(chain: seq<Garage>, call: Call, n: nat, refusal: Refusal)
    requires 0 < n < |chain| && Forward(chain[0], call).Ok?
    requires RefusedAt(chain[1..], Forward(chain[0], call).value, n - 1, refusal)
    ensures RefusedAt(chain, call, n, refusal)
  {
    var next := Forward(chain[0], call).value;
    IdsOfPrefix(chain, n);
    assert next.visited + Ids(chain[1..][..n - 1]) == call.visited + Ids(chain[..n]);
  }

  // A chain that is refused ends at the first Garage that is on it already, or was visited before, or
  // that the call would reach too deep; and it is refused for that reason. A call that is too deep
  // to be sent is never checked for a cycle; one that is sent is checked for a cycle first.
  lemma {:induction false} ChainsEnd(chain: seq<Garage>, call: Call)
    ensures var (n, refusal) := Walk(chain, call);
      && n <= |chain| && (refusal.None? <==> n == |chain|) && (refusal.None? <==> Runs(chain, call))
      && (n < |chain| ==> RefusedAt(chain, call, n, refusal.value))
    decreases |chain|
  {
    if |chain| > 1 && Execute(chain[0], call).Ok? && Forward(chain[0], call).Ok? {
      var next := Forward(chain[0], call).value;
      var (n, refusal) := Walk(chain[1..], next);
      ChainsEnd(chain[1..], next);
      if n + 1 < |chain| {
        RefusedLater(chain, call, n + 1, refusal.value);
      }
    } else if chain != [] {
      RefusedAtOnce(chain, call);
    }
  }

  lemma RefusedAtOnce(chain: seq<Garage>, call: Call)
    requires chain != []
    ensures Execute(chain[0], call).Err? ==> RefusedAt(chain, call, 0, Execute(chain[0], call).error)
    ensures |chain| > 1 && Execute(chain[0], call).Ok? && Forward(chain[0], call).Err? ==>
      RefusedAt(chain, call, 1, Forward(chain[0], call).error)
  {
    assert Ids(chain[..0]) == [];
    assert call.visited + Ids(chain[..0]) == call.visited;
  }

  // The call that leaves the last Garage of a chain.
  function Leaving(chain: seq<Garage>, call: Call): Result<Call, Refusal>
    decreases |chain|
  {
    if chain == [] then Ok(call)
    else
      match Forward(chain[0], call)
      case Err(e) => Err(e)
      case Ok(next) => Leaving(chain[1..], next)
  }

  lemma ForwardsOneDeeper(garage: Garage, call: Call)
    requires Execute(garage, call).Ok?
    ensures Forward(garage, call) ==
      if call.depth + 1 <= garage.maxInvocationDepth then Ok(Call(call.depth + 1, call.visited + [garage.id]))
      else Err(TooDeep)
  {}

  lemma IdsContinue(chain: seq<Garage>, visited: seq<GarageId>)
    requires chain != []
    ensures (visited + [chain[0].id]) + Ids(chain[1..]) == visited + Ids(chain)
    ensures |chain| == 1 ==> visited + Ids(chain) == visited + [chain[0].id]
  {
    var rest := Ids(chain[1..]);
    assert Ids(chain) == [chain[0].id] + rest;
    assert |chain| == 1 ==> rest == [];
    hide Ids;
    Regroup(visited, chain[0].id, rest);
  }

  lemma Regroup(ids: seq<GarageId>, id: GarageId, rest: seq<GarageId>)
    ensures (ids + [id]) + rest == ids + ([id] + rest)
    ensures rest == [] ==> ids + ([id] + rest) == ids + [id]
  {}

  // It is one deeper for every Garage, and lists them all in order, unless the last one's own limit
  // keeps it back.
  lemma {:induction false} CallThatLeaves(chain: seq<Garage>, call: Call)
    requires chain != [] && Runs(chain, call)
    ensures Leaving(chain, call) ==
      if call.depth + |chain| <= chain[|chain| - 1].maxInvocationDepth
      then Ok(Call(call.depth + |chain|, call.visited + Ids(chain)))
      else Err(TooDeep)
    decreases |chain|
  {
    var rest := chain[1..];
    ForwardsOneDeeper(chain[0], call);
    IdsContinue(chain, call.visited);
    hide Forward, Execute, Ids;
    if |chain| == 1 {
      assert rest == [];
    } else {
      assert rest[|rest| - 1] == chain[|chain| - 1];
      CallThatLeaves(rest, Forward(chain[0], call).value);
    }
  }

  ghost predicate Roomy(chain: seq<Garage>) {
    |chain| <= 17 && forall i :: 0 <= i < |chain| ==> chain[i].maxInvocationDepth >= |chain| - 1
  }

  // Both bounds are reached: any different Garages whose own limits allow it form a chain that runs,
  // as long as there are at most 17.
  lemma ChainsCanBeFull(chain: seq<Garage>)
    requires Distinct(Ids(chain)) && Roomy(chain)
    ensures Runs(chain, Call(0, []))
  {
    assert Shallow(chain, 0);
    hide Roomy, Shallow;
    ChainsThatRun(chain, Call(0, []));
  }
}
