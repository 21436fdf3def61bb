// The node's report on a batch: what `execute_many_with_cancellation` counts from the results,
// against the counters the scheduler kept while the batch ran.
module NodeReport {
  import opened Wrappers
  import opened Sums
  import opened Executions
  import opened BatchProtocol
  import opened BatchSafety
  import opened BatchTheorems

  datatype NodeRunReport = NodeRunReport(
    requested: nat, completed: nat, failed: nat, timedOut: nat, cancelled: nat, memoryLimitExceeded: nat)

  // The classifier the node hands to the scheduler.
  predicate Unsuccessful(status: ExecutionStatus) { status != ExecutionStatus.Completed }

  // A task that returned an error is reported as a runtime error.
  function StatusOf(r: Report): ExecutionStatus {
    match r.verdict.value
    case Some(status) => status
    case None => RuntimeError
  }

  function Statuses(results: seq<Report>): seq<ExecutionStatus> {
    seq(|results|, i requires 0 <= i < |results| => StatusOf(results[i]))
  }

  function CompletedW(e: ExecutionStatus): nat { Unit(e.Completed?) }
  function FailedW(e: ExecutionStatus): nat {
    Unit(e.GuestExitNonZero? || e.GuestTrap? || e.MemoryLimitExceeded? || e.RuntimeError?)
  }
  function TimedOutW(e: ExecutionStatus): nat { Unit(e.TimedOut?) }
  function CancelledW(e: ExecutionStatus): nat { Unit(e.Cancelled?) }
  function MemoryW(e: ExecutionStatus): nat { Unit(e.MemoryLimitExceeded?) }

  function Aggregate(requested: nat, statuses: seq<ExecutionStatus>): NodeRunReport {
    NodeRunReport(requested, Sum(statuses, CompletedW), Sum(statuses, FailedW), Sum(statuses, TimedOutW),
                  Sum(statuses, CancelledW), Sum(statuses, MemoryW))
  }

  // Each figure is the number of results with its status, or with one of its four.
  lemma {:induction false} FiguresAreCounts(requested: nat, statuses: seq<ExecutionStatus>)
    ensures var report := Aggregate(requested, statuses); var each := multiset(statuses);
      && report.requested == requested
      && report.completed == each[ExecutionStatus.Completed]
      && report.timedOut == each[TimedOut]
      && report.cancelled == each[Cancelled]
      && report.memoryLimitExceeded == each[MemoryLimitExceeded]
      && report.failed == each[GuestExitNonZero] + each[GuestTrap] + each[MemoryLimitExceeded] + each[RuntimeError]
  {
    if statuses != [] {
      var n := |statuses| - 1;
      FiguresAreCounts(requested, statuses[..n]);
      assert statuses == statuses[..n] + [statuses[n]];
    }
  }

  lemma {:induction false} EveryStatusIsCountedOnce(statuses: seq<ExecutionStatus>)
    ensures Sum(statuses, CompletedW) + Sum(statuses, FailedW) + Sum(statuses, TimedOutW)
      + Sum(statuses, CancelledW) == |statuses|
    ensures Sum(statuses, MemoryW) <= Sum(statuses, FailedW)
  {
    if statuses != [] {
      EveryStatusIsCountedOnce(statuses[..|statuses| - 1]);
    }
  }

  lemma {:induction false} SuccessesAreCompletions(results: seq<Report>)
    requires forall r :: 0 <= r < |results| ==>
      (results[r].verdict.success <==> results[r].verdict.value == Some(ExecutionStatus.Completed))
    ensures Sum(Statuses(results), CompletedW) == Sum(results, SuccessW)
  {
    if results != [] {
      var n := |results| - 1;
      SuccessesAreCompletions(results[..n]);
      assert Statuses(results)[..n] == Statuses(results[..n]);
    }
  }

  // The report of every joined batch adds up, and agrees with the scheduler's own counters.
  lemma ReportAgreesWithScheduler(s: State, lanes: nat, sorted: seq<Report>)
    requires lanes > 0 && Reachable(s, lanes) && Idle(s)
    requires forall status :: s.rejects(status) == Unsuccessful(status)
    requires multiset(sorted) == multiset(s.results) && SortedById(sorted)
    ensures var report := Aggregate(s.count, Statuses(sorted));
      && report.completed + report.failed + report.timedOut + report.cancelled == report.requested == |sorted|
      && report.completed == s.completed
      && report.failed + report.timedOut + report.cancelled == s.failed
      && report.memoryLimitExceeded <= report.failed
  {
    IdleBatch(s, lanes);
    ResultsComeBackInSubmissionOrder(s, lanes, sorted);
    EveryStatusIsCountedOnce(Statuses(sorted));
    SuccessesAreCompletions(sorted);
    SumPermutation(sorted, s.results, SuccessW);
    AtRestSums(s.workers);
  }
}
