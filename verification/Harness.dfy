/**
 The prototype harness (src/testing.rs): a task record, observer coordination and an event queue working together.
 A harness panics when one of its `expect`s fails, so those are what its methods demand of their callers. Every
 harness is where the calls made on it, as a run of `HarnessModel`, lead.
 */
module Harness {
  import opened Prelude
  import opened TaskEvents
  import opened StringIds
  import opened Cancellation
  import Lifecycle
  import opened Coordination
  import opened QueueModel
  import Queue = QueueRuns
  import opened TaskQueue
  import Model = HarnessModel

  /** A record made to carry one output: started, run and completed at once. */
  method CompletedRecord(id: TaskId, key: TaskKey, policy: TaskPolicy, a: AttemptId)
    returns (next: Lifecycle.TaskRecord)
    ensures fresh(next) && fresh(next.cancellation)
    ensures next.id == id && next.key == key && next.policy == policy
    ensures next.State() == Lifecycle.QUEUED.(status := Lifecycle.Completed, attempt := Some(a))
  {
    next := new Lifecycle.TaskRecord(id, key, policy);
    var refusal := next.StartAttempt(a);
    assert refusal == None;
    refusal := next.MarkRunning(a);
    assert refusal == None;
    refusal := next.Complete(a);
    assert refusal == None;
  }

  class TaskPrototypeHarness {
    var record: Lifecycle.TaskRecord
    const coordination: TaskCoordination
    const queue: TaskEventQueue
    var staleEvents: nat
    /** Where the harness began, and every call made since. */
    ghost const origin: Model.State
    ghost var calls: seq<Model.Op>

    ghost function Repr(): set<object>
      reads this
    {
      {this, record, record.cancellation, coordination, queue}
    }

    ghost function State(): Model.State
      requires queue.SlotsAgree()
      reads this, record, record.cancellation, coordination, queue
    {
      Model.State(record.key, record.State(), coordination.Attached(), queue.Model(), staleEvents)
    }

    ghost predicate Ready()
      reads Repr()
    {
      queue.Valid() && queue.capacity == Model.QUEUE_CAPACITY && coordination.Valid() && record.id == Model.TASK_ID
    }

    ghost predicate Valid()
      reads Repr()
    {
      Ready() && Model.IsNew(origin) && Model.Run(origin, calls) == Some(State())
    }

    constructor (key: TaskKey, policy: TaskPolicy)
      ensures Valid() && fresh(Repr()) && |calls| == 0 && origin.key == key
      ensures record.id == 1 && record.key == key && record.policy == policy && queue.capacity == 256
    {
      hide Model.Run, Queue.Sound, SlotsMatch, InOrder, Size;
      record := new Lifecycle.TaskRecord(Model.TASK_ID, key, policy);
      var observers := new TaskCoordination();
      var events := new TaskEventQueue(Model.QUEUE_CAPACITY);
      coordination, queue := observers, events;
      staleEvents := 0;
      calls := [];
      origin := Model.State(key, Lifecycle.QUEUED, observers.Attached(), events.Model(), 0);
      new;
      Model.NothingCalled(origin, calls);
    }

    /** The attempt must be acceptable; a started attempt can always be marked running. */
    method StartAttempt(a: AttemptId)
      requires Valid() && Model.Allowed(State(), Model.Op.StartAttempt(a))
      modifies record, this`calls
      ensures Valid() && calls == old(calls) + [Model.Op.StartAttempt(a)]
      ensures State() == Model.Step(old(State()), Model.Op.StartAttempt(a)) && record.status == Lifecycle.Running
    {
      hide Model.Run, Queue.Sound, Queue.PushStep, Queue.DrainStep, SlotsMatch, InOrder, ObserversOf, TryNew,
        Model.PushBoth;
      Model.CallMade(origin, calls, State(), Model.Op.StartAttempt(a));
      var refusal := record.StartAttempt(a);
      assert refusal == None;
      refusal := record.MarkRunning(a);
      assert refusal == None;
      calls := calls + [Model.Op.StartAttempt(a)];
    }

    /** Latest wins: a completion counts only for the attempt the record is at, and only once. */
    method CompleteAttempt(a: AttemptId, output: string)
      requires Valid() && Model.Allowed(State(), Model.CompleteAttempt(a, output))
      modifies this, queue
      ensures Valid() && fresh(Repr() - old(Repr())) && calls == old(calls) + [Model.CompleteAttempt(a, output)]
      ensures State() == Model.Step(old(State()), Model.CompleteAttempt(a, output))
      ensures staleEvents == old(staleEvents) + (if old(record.AcceptsAttempt(a)) then 0 else 1)
    {
      hide Model.Run, Queue.Sound, SlotsMatch, InOrder, ObserversOf, TryNew, Model.PushBoth;
      var op := Model.CompleteAttempt(a, output);
      Model.CallMade(origin, calls, State(), op);
      calls := calls + [op];
      if !record.AcceptsAttempt(a) {
        staleEvents := staleEvents + 1;
        return;
      }
      var key := TryNew(Model.OUTPUT_PREFIX + output);
      record := CompletedRecord(record.id, key.value, record.policy, a);
      PushCompletion(a, output);
    }

    /** Both pushes find room. */
    method PushCompletion(a: AttemptId, output: string)
      requires Ready() && Size(queue.Contents()) + 2 <= Model.QUEUE_CAPACITY
      modifies queue
      ensures Ready()
      ensures queue.Model() == Model.PushBoth(old(queue.Model()), Model.OutputEvent(a, output), Model.CompletedEvent(a))
    {
      hide Queue.Sound, SlotsMatch, InOrder;
      var handle := TaskHandle(record.id, a);
      var first := queue.Push(FromJobEvent(handle, JobOutput(output)));
      var second := queue.Push(LifecycleOf(handle, Completed));
      assert first.Ok? && second.Ok?;
    }

    method Cancel(reason: CancelReason)
      requires Valid()
      modifies record, record.cancellation, this`calls
      ensures Valid() && calls == old(calls) + [Model.Cancel(reason)]
      ensures State() == Model.Step(old(State()), Model.Cancel(reason))
      ensures old(record.status).IsTerminal() ==> State() == old(State())
      ensures !old(record.status).IsTerminal() ==>
                && record.status == Lifecycle.Cancelling && record.cancelReason == Some(reason)
                && record.cancellation.cancelled
    {
      hide Model.Run, Queue.Sound, Queue.PushStep, Queue.DrainStep, SlotsMatch, InOrder, ObserversOf, TryNew,
        Model.PushBoth;
      Model.CallMade(origin, calls, State(), Model.Cancel(reason));
      record.RequestCancel(reason);
      calls := calls + [Model.Cancel(reason)];
    }

    method FinishAfterCancel()
      requires Valid() && Model.Allowed(State(), Model.Op.FinishAfterCancel)
      modifies record, this`calls
      ensures Valid() && calls == old(calls) + [Model.Op.FinishAfterCancel]
      ensures State() == Model.Step(old(State()), Model.Op.FinishAfterCancel)
              && record.status == Lifecycle.FinishedAfterCancel
    {
      hide Model.Run, Queue.Sound, Queue.PushStep, Queue.DrainStep, SlotsMatch, InOrder, ObserversOf, TryNew,
        Model.PushBoth;
      Model.CallMade(origin, calls, State(), Model.Op.FinishAfterCancel);
      var refusal := record.FinishAfterCancel(record.attemptId.value);
      assert refusal == None;
      calls := calls + [Model.Op.FinishAfterCancel];
    }

    method Observe(key: TaskKey, observer: ObserverId)
      requires Valid()
      modifies coordination, record, this`calls
      ensures Valid() && calls == old(calls) + [Model.Op.Observe(key, observer)]
      ensures State() == Model.Step(old(State()), Model.Op.Observe(key, observer))
    {
      hide Model.Run, Queue.Sound, Queue.PushStep, Queue.DrainStep, SlotsMatch, InOrder, ObserversOf, TryNew,
        Model.PushBoth;
      Model.CallMade(origin, calls, State(), Model.Op.Observe(key, observer));
      coordination.Observe(key, observer);
      record.SyncObserverCount(key, coordination.ObserverCount(key));
      calls := calls + [Model.Op.Observe(key, observer)];
    }

    method Unobserve(key: TaskKey, observer: ObserverId, policy: TaskPolicy) returns (change: ObservationChange)
      requires Valid()
      modifies coordination, record, this`calls
      ensures Valid() && calls == old(calls) + [Model.Op.Unobserve(key, observer, policy.unobserved)]
      ensures State() == Model.Step(old(State()), Model.Op.Unobserve(key, observer, policy.unobserved))
      ensures change == Change(old(coordination.Attached()), key, observer, policy.unobserved)
    {
      hide Model.Run, Queue.Sound, Queue.PushStep, Queue.DrainStep, SlotsMatch, InOrder, ObserversOf, TryNew,
        Model.PushBoth;
      Model.CallMade(origin, calls, State(), Model.Op.Unobserve(key, observer, policy.unobserved));
      change := coordination.Unobserve(key, observer, policy);
      record.SyncObserverCount(key, coordination.ObserverCount(key));
      calls := calls + [Model.Op.Unobserve(key, observer, policy.unobserved)];
    }

    /** Fails exactly when the queue is full and no progress is pending under the same key. */
    method EnqueueProgress(key: CoalescingKey, message: string) returns (r: Result<(), QueueError>)
      requires Valid() && record.attemptId.Some?
      modifies queue, this`calls
      ensures Valid() && calls == old(calls) + [Model.EnqueueProgress(key, message)]
      ensures State() == Model.Step(old(State()), Model.EnqueueProgress(key, message))
      // the event pushed is of this task, this attempt and this key, and carries the message
      ensures var event := EventFor(TaskHandle(1, record.attemptId.value), Progress(key, Message(message)));
              && queue.Model() == Queue.PushStep(256, old(queue.Model()), event)
              && (r.Err? <==> Size(old(queue.Contents())) == 256 && !Updates(old(queue.Contents()), event))
      ensures r.Err? ==> r.error == Overflow(256)
    {
      hide Model.Run, Queue.Sound, Queue.PushStep, Queue.DrainStep, SlotsMatch, InOrder, ObserversOf, TryNew,
        Model.PushBoth;
      Model.CallMade(origin, calls, State(), Model.EnqueueProgress(key, message));
      r := queue.Push(FromJobEvent(TaskHandle(record.id, record.attemptId.value), JobProgress(key, Message(message))));
      calls := calls + [Model.EnqueueProgress(key, message)];
    }

    method Drain(budget: nat) returns (report: DrainReport)
      requires Valid()
      modifies queue, this`calls
      ensures Valid() && calls == old(calls) + [Model.Op.Drain(budget)]
      ensures State() == Model.Step(old(State()), Model.Op.Drain(budget))
      ensures report == DrainReport(Drained(old(queue.Contents()), budget), queue.Report(), old(queue.coalescedEvents))
      ensures queue.Model() == Queue.DrainStep(old(queue.Model()), budget)
    {
      hide Model.Run, Queue.Sound, Queue.PushStep, Queue.DrainStep, SlotsMatch, InOrder, ObserversOf, TryNew,
        Model.PushBoth;
      Model.CallMade(origin, calls, State(), Model.Op.Drain(budget));
      report := queue.Drain(budget);
      calls := calls + [Model.Op.Drain(budget)];
    }

    function LatestOutput(): Option<string>
      reads this, record
    {
      StripPrefix(record.key, Model.OUTPUT_PREFIX)
    }

    /** Once a completion has won, and whatever was called since, its trimmed output is the latest one. */
    lemma LatestOutputIsTheWinners()
      requires Valid()
      ensures Model.Winner(calls).Some? ==>
                Model.Winner(calls).value.CompleteAttempt?
                  && LatestOutput() == Some(TrimEnd(Model.Winner(calls).value.output))
      ensures Model.Winner(calls).None? ==> LatestOutput() == StripPrefix(origin.key, Model.OUTPUT_PREFIX)
      ensures Model.Completions(calls) == staleEvents + (if Model.Winner(calls).Some? then 1 else 0)
    {
      Model.LatestWins(origin, calls);
      Model.RunAgrees(origin, calls);
    }
  }
}
