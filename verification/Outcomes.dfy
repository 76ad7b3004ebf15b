/** How a finished job becomes a terminal outcome, its events and a counter (src/runtime_tokio.rs, src/executor.rs). */
module Outcomes {
  import opened TaskEvents

  datatype FailureKind = KindCancelled | KindPanicked | KindFailed | KindInvalidInput | KindSinkFailed

  datatype TaskFailure = TaskFailure(kind: FailureKind, message: string)

  datatype RunnableOutcome =
    | ReturnedOk
    | ReturnedErr(failure: TaskFailure)
    | Panicked(message: string)
    | JoinFailed(message: string)

  datatype Terminal =
    | TaskCompleted
    | TaskFailed(message: string)
    | TaskCancelled
    | TaskFailedToCancel(message: string)
    | TaskFinishedAfterCancel

  function MapTerminal(policy: TaskPolicy, cancellationRequested: bool, outcome: RunnableOutcome): Terminal {
    match outcome
    case ReturnedOk =>
      if cancellationRequested && policy.blocking == NonAbortableReportCancelling then TaskFinishedAfterCancel
      else TaskCompleted
    case ReturnedErr(failure) =>
      if failure.kind == KindCancelled then TaskCancelled
      else if cancellationRequested then TaskFailedToCancel(failure.message)
      else TaskFailed(failure.message)
    case Panicked(message) =>
      if cancellationRequested then TaskFailedToCancel(message) else TaskFailed(message)
    case JoinFailed(message) =>
      if cancellationRequested then TaskFailedToCancel(message) else TaskFailed(message)
  }

  /** The job ended badly, other than by saying itself that it was cancelled. */
  ghost predicate Failing(outcome: RunnableOutcome) {
    outcome.Panicked? || outcome.JoinFailed? || (outcome.ReturnedErr? && outcome.failure.kind != KindCancelled)
  }

  ghost function MessageOf(outcome: RunnableOutcome): (m: string)
    requires Failing(outcome)
    ensures || outcome == Panicked(m) || outcome == JoinFailed(m)
            || (outcome.ReturnedErr? && outcome == ReturnedErr(TaskFailure(outcome.failure.kind, m)))
  {
    if outcome.ReturnedErr? then outcome.failure.message else outcome.message
  }

  /** The lifecycle event of a terminal outcome. */
  function EventOf(terminal: Terminal): LifecycleEvent {
    match terminal
    case TaskCompleted => Completed
    case TaskFailed(_) => Failed
    case TaskCancelled => Cancelled
    case TaskFailedToCancel(_) => FailedToCancel
    case TaskFinishedAfterCancel => FinishedAfterCancel
  }

  predicate NeedsDiagnostic(terminal: Terminal) {
    terminal.TaskFailed? || terminal.TaskFailedToCancel?
  }

  function DiagnosticEvent(handle: TaskHandle, terminal: Terminal): TaskEvent
    requires NeedsDiagnostic(terminal)
  {
    FromJobEvent(handle, JobDiagnostic(Error, terminal.message))
  }

  function TerminalEvent(handle: TaskHandle, terminal: Terminal): TaskEvent {
    LifecycleOf(handle, EventOf(terminal))
  }

  /** The one error diagnostic of a failed task, if any. */
  function Diagnostics(handle: TaskHandle, terminal: Terminal): seq<TaskEvent> {
    if NeedsDiagnostic(terminal) then [DiagnosticEvent(handle, terminal)] else []
  }

  /** The counters of one drain. */
  datatype Report = Report(completed: nat, failed: nat, cancelled: nat, finishedAfterCancel: nat, failedToCancel: nat)

  const EMPTY_REPORT := Report(0, 0, 0, 0, 0)

  function One(terminal: Terminal): Report {
    match terminal
    case TaskCompleted => Report(1, 0, 0, 0, 0)
    case TaskFailed(_) => Report(0, 1, 0, 0, 0)
    case TaskCancelled => Report(0, 0, 1, 0, 0)
    case TaskFinishedAfterCancel => Report(0, 0, 0, 1, 0)
    case TaskFailedToCancel(_) => Report(0, 0, 0, 0, 1)
  }

  function Plus(a: Report, b: Report): Report {
    Report(a.completed + b.completed, a.failed + b.failed, a.cancelled + b.cancelled,
           a.finishedAfterCancel + b.finishedAfterCancel, a.failedToCancel + b.failedToCancel)
  }

  function Total(r: Report): nat {
    r.completed + r.failed + r.cancelled + r.finishedAfterCancel + r.failedToCancel
  }

  /** The counter that a lifecycle event belongs to. */
  function Counter(r: Report, event: LifecycleEvent): nat {
    match event
    case Completed => r.completed
    case Failed => r.failed
    case Cancelled => r.cancelled
    case FinishedAfterCancel => r.finishedAfterCancel
    case FailedToCancel => r.failedToCancel
    case Started => 0
  }

  ghost function Sum(reports: seq<Report>): Report {
    if reports == [] then EMPTY_REPORT else Plus(Sum(reports[..|reports| - 1]), reports[|reports| - 1])
  }
}
