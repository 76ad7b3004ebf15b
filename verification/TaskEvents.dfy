/** Task identity, policy and the event vocabulary (src/id.rs, src/policy.rs, src/event.rs). */
module TaskEvents {
  import opened Prelude

  type TaskId = U64
  type AttemptId = U64
  type TaskKey = string
  type CoalescingKey = string
  type Output = string

  /** A spawned attempt is addressed by its task and attempt id. */
  datatype TaskHandle = TaskHandle(taskId: TaskId, attemptId: AttemptId)

  datatype UnobservedPolicy = Continue | LowerPriority | Pause | Cancel

  datatype BlockingPolicy = Abortable | Blocking | NonAbortableReportCancelling

  datatype TaskPolicy = TaskPolicy(unobserved: UnobservedPolicy, blocking: BlockingPolicy)

  datatype LifecycleEvent = Started | Completed | Failed | Cancelled | FailedToCancel | FinishedAfterCancel

  datatype DiagnosticLevel = Info | Warning | Error

  datatype ProgressValue =
    | Units(completed: U64, total: Option<U64>)
    | Percent(basisPoints: nat)
    | Message(message: string)

  /** What a running job may report. There is no lifecycle constructor. */
  datatype JobEvent =
    | JobProgress(key: CoalescingKey, value: ProgressValue)
    | JobOutput(output: Output)
    | JobDiagnostic(level: DiagnosticLevel, message: string)

  datatype EventKind =
    | Lifecycle(lifecycle: LifecycleEvent)
    | Progress(key: CoalescingKey, value: ProgressValue)
    | OutputProduced(output: Output)
    | Diagnostic(level: DiagnosticLevel, message: string)

  datatype Provenance = Provenance(
    taskId: TaskId,
    attemptId: AttemptId,
    correlationId: Option<U64>,
    parentCorrelationId: Option<U64>,
    sequence: Option<U64>)

  datatype TaskEvent = TaskEvent(provenance: Provenance, kind: EventKind)

  function PlainProvenance(handle: TaskHandle): Provenance {
    Provenance(handle.taskId, handle.attemptId, None, None, None)
  }

  function FromJobEvent(handle: TaskHandle, event: JobEvent): (r: TaskEvent)
    ensures !r.kind.Lifecycle?
  {
    TaskEvent(
      PlainProvenance(handle),
      match event
      case JobProgress(key, value) => Progress(key, value)
      case JobOutput(output) => OutputProduced(output)
      case JobDiagnostic(level, message) => Diagnostic(level, message))
  }

  function LifecycleOf(handle: TaskHandle, event: LifecycleEvent): TaskEvent {
    TaskEvent(PlainProvenance(handle), Lifecycle(event))
  }

  /** An event of one task attempt, without further provenance. */
  function EventFor(handle: TaskHandle, kind: EventKind): TaskEvent {
    TaskEvent(Provenance(handle.taskId, handle.attemptId, None, None, None), kind)
  }

  /** Progress coalesces by task, attempt and key. */
  datatype ProgressSlot = ProgressSlot(taskId: TaskId, attemptId: AttemptId, key: CoalescingKey)

  function SlotOf(event: TaskEvent): Option<ProgressSlot> {
    match event.kind
    case Progress(key, _) => Some(ProgressSlot(event.provenance.taskId, event.provenance.attemptId, key))
    case _ => None
  }

  /** Two events are updates of the same progress: same task, same attempt, same key. */
  predicate SameProgress(a: TaskEvent, b: TaskEvent) {
    && a.kind.Progress? && b.kind.Progress? && a.kind.key == b.kind.key
    && a.provenance.taskId == b.provenance.taskId && a.provenance.attemptId == b.provenance.attemptId
  }

  /** Events share a slot exactly if they are updates of the same progress; nothing else has a slot. */
  lemma SlotsTellProgressApart(a: TaskEvent, b: TaskEvent)
    ensures SlotOf(a).Some? && SlotOf(a) == SlotOf(b) <==> SameProgress(a, b)
    ensures SlotOf(a) == None <==> !a.kind.Progress?
  {
  }

  // ----- Job events and events -----

  /** The job event that an event carries, if it is one that a job can report. */
  function JobEventOf(event: TaskEvent): Option<JobEvent> {
    match event.kind
    case Progress(key, value) => Some(JobProgress(key, value))
    case OutputProduced(output) => Some(JobOutput(output))
    case Diagnostic(level, message) => Some(JobDiagnostic(level, message))
    case Lifecycle(_) => None
  }

  /** Nothing that a job reports is lost or changed, and no lifecycle event can come from a job. */
  lemma JobEventsRoundTrip(handle: TaskHandle, event: JobEvent)
    ensures JobEventOf(FromJobEvent(handle, event)) == Some(event)
    ensures FromJobEvent(handle, event).provenance == Provenance(handle.taskId, handle.attemptId, None, None, None)
  {
  }

  lemma JobEventsAreToldApart(handle: TaskHandle, event: JobEvent, handle': TaskHandle, event': JobEvent)
    ensures FromJobEvent(handle, event) == FromJobEvent(handle', event') <==> handle == handle' && event == event'
  {
    JobEventsRoundTrip(handle, event);
    JobEventsRoundTrip(handle', event');
    hide FromJobEvent, JobEventOf;
  }

  /** Exactly the events without a lifecycle, and with nothing but their task and attempt as origin, come from jobs. */
  lemma JobEventsAreAllButLifecycles(event: TaskEvent)
    ensures (exists handle, job :: FromJobEvent(handle, job) == event)
            <==> && !event.kind.Lifecycle? && event.provenance.correlationId == None
                 && event.provenance.parentCorrelationId == None && event.provenance.sequence == None
  {
    var handle := TaskHandle(event.provenance.taskId, event.provenance.attemptId);
    if JobEventOf(event).Some? && event.provenance == PlainProvenance(handle) {
      assert FromJobEvent(handle, JobEventOf(event).value) == event;
    }
  }
}
