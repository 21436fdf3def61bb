// Outcome of one guest execution, as the runtime classifies it.
module Executions {
  datatype ExecutionStatus =
    | Completed
    | GuestExitNonZero
    | GuestTrap
    | TimedOut
    | Cancelled
    | MemoryLimitExceeded
    | RuntimeError
}
