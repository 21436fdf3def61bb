// Admission and warm-up of a Garage: bounded admission, one once-cell per artifact digest that
// concurrent requests share, a bounded budget of preparations, and the dispatcher's map of prepared
// artifacts. One action of one request is one step; requests are never cancelled.
module WarmupProtocol {
  import opened Sums

  type Digest = nat

  // A once-cell. It is filled once, with success or with an error, by the request that got there
  // first; everybody else with the same cell waits for it.
  datatype CellState = Empty | Busy(caller: nat) | Filled(ok: bool)

  datatype Cell = Cell(key: Digest, state: CellState)

  datatype Outcome = Overloaded | Unavailable | Executed | LookupFailed

  datatype Pc =
    | Arrived
    | Admitted                          // pending permit held
    | Attached(cell: nat)               // cell for the digest fetched or created
    | Checking(cell: nat)               // this request fills the cell
    | Budgeting(cell: nat)              // not prepared yet; wants a preparation permit
    | Opening(cell: nat)                // permit held
    | Preparing(cell: nat)              // artifact at hand
    | Registering(cell: nat)            // counted as a preparation
    | Counting(cell: nat, warm: bool)   // in the dispatcher's map
    | Releasing(cell: nat, ok: bool)    // warm-up over, permit still held
    | Settling(cell: nat, ok: bool)     // cell about to be filled
    | Resolved(cell: nat, ok: bool)     // the cell's value read
    | Dispatching                       // warm-up done
    | LookingUp                         // counted as an execution
    | Executing                         // artifact found, lane requested
    | Replying(outcome: Outcome)        // pending permit still held
    | Finished(outcome: Outcome)

  datatype Caller = Caller(key: Digest, pc: Pc)

  // History: an error seen by a request made it remove the map's cell for its digest, which was its
  // own, none, or a younger one.
  datatype Removal = Removal(key: Digest, stale: bool)

  datatype State = State(
    warmups: map<Digest, nat>,
    cells: seq<Cell>,
    artifacts: set<Digest>,
    pending: nat,                // free admission permits
    budget: nat,                 // free preparation permits
    preparations: nat,
    compilations: nat,
    restores: nat,
    executions: nat,
    callers: seq<Caller>,
    removals: seq<Removal>,      // history
    failures: nat)               // history: preparations that failed

  // `good` and `warm` are what the artifact store or the runtime answers, where it is asked.
  datatype Action =
    | Arrive(key: Digest)
    | Advance(c: nat, good: bool, warm: bool)

  // ----- program counters -----

  predicate Filling(pc: Pc) {
    pc.Checking? || pc.Budgeting? || pc.Opening? || pc.Preparing? || pc.Registering? || pc.Counting?
    || pc.Releasing? || pc.Settling?
  }

  predicate HoldsPermit(pc: Pc) {
    pc.Opening? || pc.Preparing? || pc.Registering? || pc.Counting? || pc.Releasing?
  }

  predicate Uses(pc: Pc) { pc.Attached? || Filling(pc) || pc.Resolved? }

  predicate InFlight(pc: Pc) { pc.Registering? || pc.Counting? }

  // On the way to a preparation that the check did not spare.
  predicate WillPrepare(pc: Pc) { pc.Budgeting? || pc.Opening? || pc.Preparing? }

  predicate HoldsPending(pc: Pc) { !pc.Arrived? && !pc.Finished? }

  // Told that the artifact is warm, and not answered yet.
  predicate WarmedUp(pc: Pc) { pc.Dispatching? || pc.LookingUp? || pc.Executing? }

  predicate Ends(pc: Pc, outcome: Outcome) { pc == Replying(outcome) || pc == Finished(outcome) }

  function Unit(b: bool): nat { if b then 1 else 0 }

  function PermitW(c: Caller): nat { Unit(HoldsPermit(c.pc)) }
  function PendingW(c: Caller): nat { Unit(HoldsPending(c.pc)) }
  function ExecutedW(c: Caller): nat {
    Unit(c.pc.LookingUp? || c.pc.Executing? || Ends(c.pc, Executed) || Ends(c.pc, LookupFailed))
  }
  function InFlightW(c: Caller): nat { Unit(InFlight(c.pc)) }

  function PreparerW(d: Digest): Caller -> nat { (c: Caller) => Unit(c.key == d && WillPrepare(c.pc)) }
  function FailedW(d: Digest): Caller -> nat {
    (c: Caller) => Unit(c.key == d && Ends(c.pc, Unavailable))
  }
  function CellW(d: Digest): Cell -> nat { (c: Cell) => Unit(c.key == d) }
  // An attempt has been made on the cell.
  function AttemptW(d: Digest): Cell -> nat { (c: Cell) => Unit(c.key == d && !c.state.Empty?) }
  function OpenW(d: Digest): Cell -> nat { (c: Cell) => Unit(c.key == d && !c.state.Filled?) }
  function BusyW(d: Digest): Cell -> nat { (c: Cell) => Unit(c.key == d && c.state.Busy?) }
  function FillingW(d: Digest): Caller -> nat { (c: Caller) => Unit(c.key == d && Filling(c.pc)) }
  function RemovalW(d: Digest): Removal -> nat { (r: Removal) => Unit(r.key == d) }
  function StaleW(d: Digest): Removal -> nat { (r: Removal) => Unit(r.key == d && r.stale) }

  function RankW(c: Caller): nat {
    match c.pc
    case Arrived => 16
    case Admitted => 15
    case Attached(_) => 14
    case Checking(_) => 13
    case Budgeting(_) => 12
    case Opening(_) => 11
    case Preparing(_) => 10
    case Registering(_) => 9
    case Counting(_, _) => 8
    case Releasing(_, _) => 7
    case Settling(_, _) => 6
    case Resolved(_, _) => 5
    case Dispatching => 4
    case LookingUp => 3
    case Executing => 2
    case Replying(_) => 1
    case Finished(_) => 0
  }

  // ----- steps -----

  // `max_preparations` permits, but at least one.
  function Budget(maxPreparations: nat): nat { if maxPreparations > 1 then maxPreparations else 1 }

  function Init(maxPending: nat, maxPreparations: nat): State {
    State(map[], [], {}, maxPending, Budget(maxPreparations), 0, 0, 0, 0, [], [], 0)
  }

  predicate Waits(s: State, pc: Pc) {
    || (pc.Attached? && pc.cell < |s.cells| && s.cells[pc.cell].state.Busy?)
    || (pc.Budgeting? && s.budget == 0)
  }

  predicate Enabled(s: State, a: Action) {
    match a
    case Arrive(_) => true
    case Advance(c, _, _) =>
      c < |s.callers| && !s.callers[c].pc.Finished? && !Waits(s, s.callers[c].pc)
  }

  function SetCell(s: State, i: nat, state: CellState): State
    requires i < |s.cells|
  {
    s.(cells := s.cells[i := s.cells[i].(state := state)])
  }

  // Where request `c` stands after its next atomic action.
  function Next(s: State, c: nat, good: bool, warm: bool): Pc
    requires ShapeInv(s) && Enabled(s, Advance(c, good, warm))
  {
    var key := s.callers[c].key;
    match s.callers[c].pc
    case Arrived => if s.pending > 0 then Admitted else Finished(Overloaded)
    case Admitted => Attached(if key in s.warmups then s.warmups[key] else |s.cells|)
    case Attached(i) =>
      (match s.cells[i].state
       case Empty => Checking(i)
       case Filled(ok) => Resolved(i, ok)
       case Busy(_) => Attached(i))
    case Checking(i) => if key in s.artifacts then Settling(i, true) else Budgeting(i)
    case Budgeting(i) => Opening(i)
    case Opening(i) => if good then Preparing(i) else Releasing(i, false)
    case Preparing(i) => Registering(i)
    case Registering(i) => if good then Counting(i, warm) else Releasing(i, false)
    case Counting(i, _) => Releasing(i, true)
    case Releasing(i, ok) => Settling(i, ok)
    case Settling(i, ok) => Resolved(i, ok)
    case Resolved(_, ok) => if ok then Dispatching else Replying(Unavailable)
    case Dispatching => LookingUp
    case LookingUp => if key in s.artifacts then Executing else Replying(LookupFailed)
    case Executing => Replying(Executed)
    case Replying(outcome) => Finished(outcome)
    case Finished(outcome) => Finished(outcome)
  }

  // What the action writes to the shared fields.
  function Effect(s: State, c: nat, good: bool, warm: bool): State
    requires ShapeInv(s) && Enabled(s, Advance(c, good, warm))
  {
    var key := s.callers[c].key;
    match s.callers[c].pc
    case Arrived => if s.pending > 0 then s.(pending := s.pending - 1) else s
    case Admitted =>
      if key in s.warmups then s
      else s.(cells := s.cells + [Cell(key, Empty)], warmups := s.warmups[key := |s.cells|])
    case Attached(i) => if s.cells[i].state.Empty? then SetCell(s, i, Busy(c)) else s
    case Budgeting(_) => s.(budget := s.budget - 1)
    case Preparing(_) => s.(preparations := s.preparations + 1)
    case Registering(_) =>
      if good then s.(artifacts := s.artifacts + {key}) else s.(failures := s.failures + 1)
    case Counting(_, wasWarm) =>
      if wasWarm then s.(restores := s.restores + 1) else s.(compilations := s.compilations + 1)
    case Releasing(_, _) => s.(budget := s.budget + 1)
    case Settling(i, ok) => SetCell(s, i, Filled(ok))
    case Resolved(i, ok) =>
      if ok then s
      else
        s.(warmups := s.warmups - {key},
           removals := s.removals + [Removal(key, key in s.warmups && s.warmups[key] != i)])
    case Dispatching => s.(executions := s.executions + 1)
    case Replying(_) => s.(pending := s.pending + 1)
    case _ => s
  }

  // The next atomic action of request `c`.
  function Step(s: State, c: nat, good: bool, warm: bool): State
    requires ShapeInv(s) && Enabled(s, Advance(c, good, warm))
  {
    Effect(s, c, good, warm).(callers := s.callers[c := s.callers[c].(pc := Next(s, c, good, warm))])
  }

  function Apply(s: State, a: Action): State
    requires ShapeInv(s) && Enabled(s, a)
  {
    match a
    case Arrive(key) => s.(callers := s.callers + [Caller(key, Arrived)])
    case Advance(c, good, warm) => Step(s, c, good, warm)
  }

  // A request finds the cell of its digest empty and starts to fill it.
  predicate StartsAttempt(s: State, a: Action, d: Digest) {
    && a.Advance? && a.c < |s.callers| && s.callers[a.c].key == d && s.callers[a.c].pc.Attached?
    && s.callers[a.c].pc.cell < |s.cells| && s.cells[s.callers[a.c].pc.cell].state.Empty?
  }

  function Attempt(d: Digest): (State, Action) -> bool { (s: State, a: Action) => StartsAttempt(s, a, d) }

  // ----- invariants -----

  ghost predicate ShapeInv(s: State) {
    && (forall c :: 0 <= c < |s.callers| && Uses(s.callers[c].pc) ==>
          s.callers[c].pc.cell < |s.cells| && s.cells[s.callers[c].pc.cell].key == s.callers[c].key)
    && (forall d :: d in s.warmups ==> s.warmups[d] < |s.cells| && s.cells[s.warmups[d]].key == d)
  }

  // A busy cell is being filled by exactly the request it names.
  ghost predicate CellInv(s: State)
    requires ShapeInv(s)
  {
    && (forall c :: 0 <= c < |s.callers| && Filling(s.callers[c].pc) ==>
          s.cells[s.callers[c].pc.cell].state == Busy(c))
    && (forall i :: 0 <= i < |s.cells| && s.cells[i].state.Busy? ==> FilledBy(s, s.cells[i].state.caller, i))
    && (forall c :: 0 <= c < |s.callers| && s.callers[c].pc.Resolved? ==>
          s.cells[s.callers[c].pc.cell].state == Filled(s.callers[c].pc.ok))
  }

  predicate FilledBy(s: State, c: nat, i: nat) {
    c < |s.callers| && Filling(s.callers[c].pc) && s.callers[c].pc.cell == i
  }

  // Success means the artifact is in the dispatcher's map, and nothing ever leaves that map.
  ghost predicate ReadyInv(s: State) {
    && (forall i :: 0 <= i < |s.cells| && s.cells[i].state == Filled(true) ==> s.cells[i].key in s.artifacts)
    && (forall c :: 0 <= c < |s.callers| && AssumesReady(s.callers[c].pc) ==> s.callers[c].key in s.artifacts)
  }

  predicate AssumesReady(pc: Pc) {
    pc.Counting? || WarmedUp(pc) || Ends(pc, Executed) || ((pc.Releasing? || pc.Settling? || pc.Resolved?) && pc.ok)
  }

  ghost predicate PermitInv(s: State, maxPending: nat, maxPreparations: nat) {
    && s.budget + Sum(s.callers, PermitW) == Budget(maxPreparations)
    && s.pending + Sum(s.callers, PendingW) == maxPending
  }

  ghost predicate CountInv(s: State) {
    && s.preparations == s.compilations + s.restores + s.failures + Sum(s.callers, InFlightW)
    && s.executions == Sum(s.callers, ExecutedW)
  }

  // A new cell for a digest needs a removal of the one before; every removal is by a request that
  // saw an error.
  ghost predicate Created(s: State, d: Digest) {
    Sum(s.cells, CellW(d)) + Unit(d !in s.warmups) <= 1 + Sum(s.removals, RemovalW(d))
  }

  ghost predicate Refused(s: State, d: Digest) {
    Sum(s.removals, RemovalW(d)) == Sum(s.callers, FailedW(d))
  }

  ghost predicate CreationOk(s: State, d: Digest) { Created(s, d) && Refused(s, d) }

  ghost predicate CreationInv(s: State) { forall d: Digest :: CreationOk(s, d) }

  predicate MapCellOpen(s: State, d: Digest) {
    d in s.warmups && s.warmups[d] < |s.cells| && !s.cells[s.warmups[d]].state.Filled?
  }

  // Unfilled cells of a digest: the one in the map, and those a late removal took out of it.
  ghost predicate OpenOk(s: State, d: Digest) {
    Sum(s.cells, OpenW(d)) <= Unit(MapCellOpen(s, d)) + Sum(s.removals, StaleW(d))
  }

  ghost predicate OpenInv(s: State) { forall d: Digest :: OpenOk(s, d) }

  // As many warm-ups of a digest run as it has busy cells.
  ghost predicate FlightOk(s: State, d: Digest) {
    Sum(s.callers, FillingW(d)) == Sum(s.cells, BusyW(d))
  }

  ghost predicate FlightInv(s: State) { forall d: Digest :: FlightOk(s, d) }

  predicate UsesCell(s: State, c: nat, i: nat) {
    c < |s.callers| && Uses(s.callers[c].pc) && s.callers[c].pc.cell == i
  }

  // A cell in the map holds a success, or some request is still about to settle its fate.
  ghost predicate Tended(s: State, i: nat) {
    i < |s.cells| && (s.cells[i].state == Filled(true) || exists c: nat :: UsesCell(s, c, i))
  }

  ghost predicate MapInv(s: State) { forall d :: d in s.warmups ==> Tended(s, s.warmups[d]) }

  // Nothing is ready without having been attempted.
  ghost predicate AttemptedInv(s: State) {
    forall d: Digest :: d in s.artifacts ==> Sum(s.cells, AttemptW(d)) >= 1
  }

  ghost predicate NoLookupFails(s: State) {
    forall c :: 0 <= c < |s.callers| ==> !Ends(s.callers[c].pc, LookupFailed)
  }

  ghost predicate Inv(s: State, maxPending: nat, maxPreparations: nat) {
    && ShapeInv(s)
    && CellInv(s)
    && ReadyInv(s)
    && PermitInv(s, maxPending, maxPreparations)
    && CountInv(s)
    && CreationInv(s)
    && OpenInv(s)
    && FlightInv(s)
    && MapInv(s)
    && AttemptedInv(s)
    && NoLookupFails(s)
  }
}
