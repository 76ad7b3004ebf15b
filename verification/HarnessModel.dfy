/**
 Runs of the prototype harness (src/testing.rs): what each call does to the record, the observers and the queue, and
 what holds after any sequence of calls in which none of the harness's `expect`s fails.
 */
module HarnessModel {
  import opened Prelude
  import opened TaskEvents
  import opened StringIds
  import opened Cancellation
  import Lifecycle
  import Coordination
  import opened QueueModel
  import opened QueueHistory
  import Queue = QueueRuns

  const OUTPUT_PREFIX := "latest-output:"
  const QUEUE_CAPACITY := 256
  const TASK_ID: TaskId := 1

  datatype State = State(
    key: TaskKey,
    record: Lifecycle.RecordState,
    attached: Coordination.Pairs,
    queue: Queue.Machine,
    staleEvents: nat)

  datatype Op =
    | StartAttempt(attempt: AttemptId)
    | CompleteAttempt(attempt: AttemptId, output: string)
    | Cancel(reason: CancelReason)
    | FinishAfterCancel
    | Observe(taskKey: TaskKey, observer: Coordination.ObserverId)
    | Unobserve(taskKey: TaskKey, observer: Coordination.ObserverId, policy: UnobservedPolicy)
    | EnqueueProgress(key: CoalescingKey, message: string)
    | Drain(budget: nat)

  /** A harness before its first call: a queued record, no observers, an empty queue. */
  ghost predicate IsNew(s: State) {
    && s.record == Lifecycle.QUEUED && |s.attached| == s.staleEvents == 0
    && Size(s.queue.queue) == |s.queue.history| == s.queue.coalesced == s.queue.dropped == 0
  }

  ghost predicate IsCurrent(s: State, a: AttemptId) {
    !s.record.status.IsTerminal() && s.record.attempt == Some(a)
  }

  /** None of the `expect`s of the call fails. */
  ghost predicate Allowed(s: State, op: Op) {
    match op
    case StartAttempt(a) => Lifecycle.Refusal(s.record, Lifecycle.Call.StartAttempt(a)) == None
    case CompleteAttempt(a, output) =>
      IsCurrent(s, a) ==> TryNew(OUTPUT_PREFIX + output).Ok? && Size(s.queue.queue) + 2 <= QUEUE_CAPACITY
    case FinishAfterCancel => s.record.attempt.Some? && s.record.status == Lifecycle.Cancelling
    case EnqueueProgress(_, _) => s.record.attempt.Some?
    case _ => true
  }

  ghost function OutputEvent(a: AttemptId, output: string): TaskEvent {
    FromJobEvent(TaskHandle(TASK_ID, a), JobOutput(output))
  }

  ghost function CompletedEvent(a: AttemptId): TaskEvent {
    LifecycleOf(TaskHandle(TASK_ID, a), Completed)
  }

  ghost function ProgressEvent(a: AttemptId, key: CoalescingKey, message: string): TaskEvent {
    FromJobEvent(TaskHandle(TASK_ID, a), JobProgress(key, Message(message)))
  }

  ghost function PushBoth(m: Queue.Machine, first: TaskEvent, second: TaskEvent): Queue.Machine {
    Queue.PushStep(QUEUE_CAPACITY, Queue.PushStep(QUEUE_CAPACITY, m, first), second)
  }

  /** The record takes over the count of `key`, if that is its own key. */
  ghost function Synced(s: State, key: TaskKey, attached: Coordination.Pairs): State {
    var sync := Lifecycle.SyncObserverCount(key, |Coordination.ObserversOf(attached, key)|);
    s.(attached := attached, record := Lifecycle.Step(s.key, s.record, sync))
  }

  ghost function Step(s: State, op: Op): State
    requires Allowed(s, op)
  {
    match op
    case StartAttempt(a) =>
      var started := Lifecycle.Step(s.key, s.record, Lifecycle.Call.StartAttempt(a));
      s.(record := Lifecycle.Step(s.key, started, Lifecycle.MarkRunning(a)))
    case CompleteAttempt(a, output) =>
      if !IsCurrent(s, a) then s.(staleEvents := s.staleEvents + 1)
      else
        s.(key := TryNew(OUTPUT_PREFIX + output).value,
           record := Lifecycle.QUEUED.(status := Lifecycle.Completed, attempt := Some(a)),
           queue := PushBoth(s.queue, OutputEvent(a, output), CompletedEvent(a)))
    case Cancel(reason) => s.(record := Lifecycle.Step(s.key, s.record, Lifecycle.RequestCancel(reason)))
    case FinishAfterCancel =>
      s.(record := Lifecycle.Step(s.key, s.record, Lifecycle.Call.FinishAfterCancel(s.record.attempt.value)))
    case Observe(k, o) => Synced(s, k, s.attached + {(k, o)})
    case Unobserve(k, o, _) => Synced(s, k, s.attached - {(k, o)})
    case EnqueueProgress(k, message) =>
      s.(queue := Queue.PushStep(QUEUE_CAPACITY, s.queue, ProgressEvent(s.record.attempt.value, k, message)))
    case Drain(budget) => s.(queue := Queue.DrainStep(s.queue, budget))
  }

  /** The state after a run, or None when some `expect` failed on the way. */
  ghost function Run(s: State, ops: seq<Op>): Option<State> {
    if ops == [] then Some(s)
    else
      var before, last := Run(s, ops[..|ops| - 1]), ops[|ops| - 1];
      if before.Some? && Allowed(before.value, last) then Some(Step(before.value, last)) else None
  }

  // ----- What the calls alone say -----

  /** The attempts started, in order. */
  ghost function Starts(ops: seq<Op>): seq<AttemptId> {
    if ops == [] then []
    else
      var before, last := Starts(ops[..|ops| - 1]), ops[|ops| - 1];
      if last.StartAttempt? then before + [last.attempt] else before
  }

  ghost function Completions(ops: seq<Op>): nat {
    if ops == [] then 0
    else Completions(ops[..|ops| - 1]) + (if ops[|ops| - 1].CompleteAttempt? then 1 else 0)
  }

  ghost predicate Finished(ops: seq<Op>) {
    ops != [] && (ops[|ops| - 1].FinishAfterCancel? || Finished(ops[..|ops| - 1]))
  }

  /** The completion that counts: the first one that names the latest started attempt, unless that was finished. */
  ghost function Winner(ops: seq<Op>): Option<Op> {
    if ops == [] then None
    else
      var init, last := ops[..|ops| - 1], ops[|ops| - 1];
      if Winner(init).Some? then Winner(init)
      else if last.CompleteAttempt? && !Finished(init) && Starts(init) != []
        && last.attempt == Starts(init)[|Starts(init)| - 1]
      then Some(last)
      else None
  }

  lemma {:induction false} WinnerCompletes(ops: seq<Op>)
    ensures Winner(ops).Some? ==> Winner(ops).value.CompleteAttempt? && Winner(ops).value in ops
  {
    if ops != [] {
      WinnerCompletes(ops[..|ops| - 1]);
    }
  }

  /** The observer calls, as calls of the coordination. */
  ghost function ObserverOps(ops: seq<Op>): seq<Coordination.Op> {
    if ops == [] then []
    else
      var before := ObserverOps(ops[..|ops| - 1]);
      match ops[|ops| - 1]
      case Observe(k, o) => before + [Coordination.Op.Observe(k, o)]
      case Unobserve(k, o, policy) => before + [Coordination.Op.Unobserve(k, o, policy)]
      case _ => before
  }

  // ----- What every call keeps -----

  ghost predicate AttemptsAgree(ops: seq<Op>, s: State) {
    var starts := Starts(ops);
    && Increasing(starts)
    && (s.record.attempt.Some? <==> starts != [])
    && (starts != [] ==> s.record.attempt.value == starts[|starts| - 1])
    && (s.record.status.IsTerminal() <==> Winner(ops).Some? || Finished(ops))
  }

  ghost predicate WinnerAgrees(key: TaskKey, ops: seq<Op>, s: State) {
    match Winner(ops)
    case None => s.key == key && s.staleEvents == Completions(ops)
    case Some(w) =>
      && w.CompleteAttempt? && s.staleEvents + 1 == Completions(ops)
      && s.record.status == Lifecycle.Completed && s.record.attempt == Some(w.attempt)
      && s.key == OUTPUT_PREFIX + TrimEnd(w.output)
  }

  ghost predicate QueueAgrees(ops: seq<Op>, s: State) {
    && Queue.Sound(QUEUE_CAPACITY, s.queue)
    && Accepts(s.queue.history, None)
       == match Winner(ops)
          case Some(CompleteAttempt(a, output)) => [OutputEvent(a, output), CompletedEvent(a)]
          case _ => []
  }

  ghost predicate ObserversAgree(ops: seq<Op>, s: State) {
    && s.attached == Coordination.Run(ObserverOps(ops))
    && (Winner(ops).None? ==> s.record.observers == |Coordination.ObserversOf(s.attached, s.key)|)
  }

  /** One more call, as far as the calls alone say. */
  lemma OneMore(ops: seq<Op>, op: Op)
    ensures Starts(ops + [op]) == Starts(ops) + (if op.StartAttempt? then [op.attempt] else [])
    ensures Completions(ops + [op]) == Completions(ops) + (if op.CompleteAttempt? then 1 else 0)
    ensures Finished(ops + [op]) <==> Finished(ops) || op.FinishAfterCancel?
    ensures ObserverOps(ops + [op])
            == ObserverOps(ops)
               + match op
                 case Observe(k, o) => [Coordination.Op.Observe(k, o)]
                 case Unobserve(k, o, policy) => [Coordination.Op.Unobserve(k, o, policy)]
                 case _ => []
  {
    assert (ops + [op])[..|ops|] == ops;
  }

  /** What one call does to the record, and when it leaves its key and observers alone. */
  lemma StepOfRecord(s: State, op: Op)
    requires Allowed(s, op)
    ensures var t, wins := Step(s, op), op.CompleteAttempt? && IsCurrent(s, op.attempt);
            && t.record.attempt == (if op.StartAttempt? then Some(op.attempt) else s.record.attempt)
            && (t.record.status.IsTerminal() <==> s.record.status.IsTerminal() || op.FinishAfterCancel? || wins)
            && (s.record.status.IsTerminal() ==> t.record.status == s.record.status)
            && (!wins ==> t.key == s.key)
            && (wins || op.Observe? || op.Unobserve?
                || (t.attached == s.attached && t.record.observers == s.record.observers))
    ensures op.CompleteAttempt? && IsCurrent(s, op.attempt) ==>
              var key := TryNew(OUTPUT_PREFIX + op.output);
              key.Ok? && Step(s, op).key == key.value && Step(s, op).record.status == Lifecycle.Completed
    ensures Step(s, op).staleEvents
            == s.staleEvents + (if op.CompleteAttempt? && !IsCurrent(s, op.attempt) then 1 else 0)
    ensures op.StartAttempt? ==>
              !s.record.status.IsTerminal() && (s.record.attempt.Some? ==> s.record.attempt.value < op.attempt)
  {
    hide TryNew, PushBoth, Coordination.ObserversOf;
  }

  lemma IncreasingOneMore(xs: seq<int>, x: int)
    requires Increasing(xs) && (xs == [] || xs[|xs| - 1] < x)
    ensures Increasing(xs + [x])
  {
  }

  lemma LastIsGreatest(xs: seq<int>)
    requires Increasing(xs) && xs != []
    ensures xs[|xs| - 1] in xs && forall x :: x in xs ==> x <= xs[|xs| - 1]
  {
  }

  lemma StepKeepsAttempts(ops: seq<Op>, s: State, op: Op)
    requires AttemptsAgree(ops, s) && Allowed(s, op)
    ensures AttemptsAgree(ops + [op], Step(s, op))
  {
    OneMore(ops, op);
    StepOfRecord(s, op);
    WinnerOfOneMore(ops, s, op);
    hide Starts, Completions, Finished, Winner, Step, Allowed, Increasing;
    if op.StartAttempt? {
      IncreasingOneMore(Starts(ops), op.attempt);
    }
  }

  lemma StepKeepsWinner(key: TaskKey, ops: seq<Op>, s: State, op: Op)
    requires AttemptsAgree(ops, s) && WinnerAgrees(key, ops, s) && Allowed(s, op)
    ensures WinnerAgrees(key, ops + [op], Step(s, op))
  {
    OneMore(ops, op);
    StepOfRecord(s, op);
    WinnerOfOneMore(ops, s, op);
    if op.CompleteAttempt? {
      PrefixedKey(OUTPUT_PREFIX, op.output);
    }
    hide TryNew, TrimEnd, StripPrefix, Starts, Completions, Finished, Winner, Increasing, Step, Allowed;
  }

  lemma WinnerOfOneMore(ops: seq<Op>, s: State, op: Op)
    requires AttemptsAgree(ops, s)
    ensures Winner(ops + [op]) == if op.CompleteAttempt? && IsCurrent(s, op.attempt) then Some(op) else Winner(ops)
  {
    assert (ops + [op])[..|ops|] == ops;
    hide Increasing;
  }

  /** A push that finds room is accepted; what it adds to the ordinary events is itself, if it is one. */
  lemma PushAdds(m: Queue.Machine, e: TaskEvent)
    requires Queue.Sound(QUEUE_CAPACITY, m)
    ensures Queue.Sound(QUEUE_CAPACITY, Queue.PushStep(QUEUE_CAPACITY, m, e))
    ensures var next := Queue.PushStep(QUEUE_CAPACITY, m, e);
            && (SlotOf(e).Some? ==> Accepts(next.history, None) == Accepts(m.history, None))
            && (SlotOf(e).None? && Size(m.queue) < QUEUE_CAPACITY ==>
                  Accepts(next.history, None) == Accepts(m.history, None) + [e]
                    && Size(next.queue) == Size(m.queue) + 1)
  {
    Queue.PushIsSound(QUEUE_CAPACITY, m, e);
    assert Queue.PushStep(QUEUE_CAPACITY, m, e).history[..|m.history|] == m.history;
    hide Queue.Sound;
  }

  lemma PushBothAdds(m: Queue.Machine, first: TaskEvent, second: TaskEvent)
    requires Queue.Sound(QUEUE_CAPACITY, m) && Size(m.queue) + 2 <= QUEUE_CAPACITY
    requires SlotOf(first).None? && SlotOf(second).None? && |Accepts(m.history, None)| == 0
    ensures Queue.Sound(QUEUE_CAPACITY, PushBoth(m, first, second))
    ensures Accepts(PushBoth(m, first, second).history, None) == [first, second]
  {
    hide Queue.Sound, Accepts, Queue.PushStep, Size, SlotOf;
    PushAdds(m, first);
    PushAdds(Queue.PushStep(QUEUE_CAPACITY, m, first), second);
  }

  lemma NotProgress(a: AttemptId, output: string)
    ensures SlotOf(OutputEvent(a, output)).None? && SlotOf(CompletedEvent(a)).None?
  {
  }

  /** Only a winning completion adds ordinary events, and it finds room for both. */
  lemma StepOfQueue(s: State, op: Op)
    requires Allowed(s, op) && Queue.Sound(QUEUE_CAPACITY, s.queue)
    requires op.CompleteAttempt? && IsCurrent(s, op.attempt) ==> |Accepts(s.queue.history, None)| == 0
    ensures var t := Step(s, op);
            && Queue.Sound(QUEUE_CAPACITY, t.queue)
            && Accepts(t.queue.history, None)
               == if op.CompleteAttempt? && IsCurrent(s, op.attempt)
                  then [OutputEvent(op.attempt, op.output), CompletedEvent(op.attempt)]
                  else Accepts(s.queue.history, None)
  {
    hide Queue.Sound, Accepts, TryNew, Queue.PushStep, Queue.DrainStep, PushBoth, Lifecycle.Step, Size,
      OutputEvent, CompletedEvent, Coordination.ObserversOf;
    match op {
      case CompleteAttempt(a, output) =>
        if IsCurrent(s, a) {
          NotProgress(a, output);
          PushBothAdds(s.queue, OutputEvent(a, output), CompletedEvent(a));
        }
      case EnqueueProgress(k, message) =>
        PushAdds(s.queue, ProgressEvent(s.record.attempt.value, k, message));
      case Drain(budget) =>
        DrainAdds(s.queue, budget);
      case _ =>
    }
  }

  lemma StepKeepsQueue(ops: seq<Op>, s: State, op: Op)
    requires QueueAgrees(ops, s) && AttemptsAgree(ops, s) && Allowed(s, op)
    requires Winner(ops).Some? ==> s.record.status.IsTerminal()
    ensures QueueAgrees(ops + [op], Step(s, op))
  {
    WinnerOfOneMore(ops, s, op);
    hide Queue.Sound, Accepts, Winner, AttemptsAgree, Step, Allowed, OutputEvent, CompletedEvent;
    StepOfQueue(s, op);
  }

  lemma DrainAdds(m: Queue.Machine, budget: nat)
    requires Queue.Sound(QUEUE_CAPACITY, m)
    ensures Queue.Sound(QUEUE_CAPACITY, Queue.DrainStep(m, budget))
    ensures Accepts(Queue.DrainStep(m, budget).history, None) == Accepts(m.history, None)
  {
    hide Queue.Sound, Accepts;
    Queue.DrainIsSound(QUEUE_CAPACITY, m, budget);
    Queue.ReturnsOfDrain(m.history, Drained(m.queue, budget), None);
  }

  /** Attaching or detaching an observer of one key leaves the observers of every other key alone. */
  lemma OtherKeysKept(pairs: Coordination.Pairs, key: TaskKey, observer: Coordination.ObserverId, other: TaskKey)
    ensures other != key ==>
              && Coordination.ObserversOf(pairs + {(key, observer)}, other) == Coordination.ObserversOf(pairs, other)
              && Coordination.ObserversOf(pairs - {(key, observer)}, other) == Coordination.ObserversOf(pairs, other)
  {
  }

  lemma SyncFollows(s: State, k: TaskKey, o: Coordination.ObserverId, attached: Coordination.Pairs)
    requires attached == s.attached + {(k, o)} || attached == s.attached - {(k, o)}
    requires s.record.observers == |Coordination.ObserversOf(s.attached, s.key)|
    ensures Synced(s, k, attached).record.observers == |Coordination.ObserversOf(attached, s.key)|
  {
    OtherKeysKept(s.attached, k, o, s.key);
    hide Coordination.ObserversOf;
  }

  lemma StepKeepsObservers(ops: seq<Op>, s: State, op: Op)
    requires ObserversAgree(ops, s) && AttemptsAgree(ops, s) && Allowed(s, op)
    ensures ObserversAgree(ops + [op], Step(s, op))
  {
    OneMore(ops, op);
    WinnerOfOneMore(ops, s, op);
    StepOfRecord(s, op);
    hide Winner, ObserverOps, AttemptsAgree, Coordination.ObserversOf, Synced;
    if op.Observe? || op.Unobserve? {
      var calls := ObserverOps(ops + [op]);
      assert calls[..|calls| - 1] == ObserverOps(ops);
      var attached := if op.Observe? then s.attached + {(op.taskKey, op.observer)}
        else s.attached - {(op.taskKey, op.observer)};
      assert Step(s, op) == Synced(s, op.taskKey, attached) && Coordination.Run(calls) == attached;
      SyncedKeeps(s, op.taskKey, attached);
      if Winner(ops).None? {
        SyncFollows(s, op.taskKey, op.observer, attached);
      }
    } else {
      hide Step, Allowed;
    }
  }

  lemma SyncedKeeps(s: State, k: TaskKey, attached: Coordination.Pairs)
    ensures Synced(s, k, attached).attached == attached && Synced(s, k, attached).key == s.key
  {
  }

  ghost predicate Agrees(key: TaskKey, ops: seq<Op>, s: State) {
    AttemptsAgree(ops, s) && WinnerAgrees(key, ops, s) && QueueAgrees(ops, s) && ObserversAgree(ops, s)
  }

  lemma NewAgrees(s: State, ops: seq<Op>)
    requires IsNew(s) && |ops| == 0
    ensures Agrees(s.key, ops, s)
  {
    hide Queue.Sound;
    Queue.NothingIsSound(QUEUE_CAPACITY, s.queue);
    assert Coordination.ObserversOf(s.attached, s.key) == {};
  }

  lemma StepAgrees(key: TaskKey, ops: seq<Op>, s: State, op: Op)
    requires Agrees(key, ops, s) && Allowed(s, op)
    ensures Agrees(key, ops + [op], Step(s, op))
  {
    assert Winner(ops).Some? ==> s.record.status.IsTerminal();
    hide AttemptsAgree, WinnerAgrees, QueueAgrees, ObserversAgree, Step, Allowed, Winner;
    StepKeepsAttempts(ops, s, op);
    StepKeepsWinner(key, ops, s, op);
    StepKeepsQueue(ops, s, op);
    StepKeepsObservers(ops, s, op);
  }

  lemma {:induction false} RunAgrees(s: State, ops: seq<Op>)
    requires IsNew(s) && Run(s, ops).Some?
    ensures Agrees(s.key, ops, Run(s, ops).value)
  {
    hide Agrees, Allowed, Step, IsNew;
    if ops == [] {
      NewAgrees(s, ops);
    } else {
      var init, op := ops[..|ops| - 1], ops[|ops| - 1];
      RunAgrees(s, init);
      assert ops == init + [op];
      StepAgrees(s.key, init, Run(s, init).value, op);
    }
  }

  lemma NothingCalled(s: State, ops: seq<Op>)
    requires |ops| == 0
    ensures Run(s, ops) == Some(s)
  {
  }

  /** One more call of a run. */
  lemma CallMade(s: State, ops: seq<Op>, t: State, op: Op)
    requires Run(s, ops) == Some(t) && Allowed(t, op)
    ensures Run(s, ops + [op]) == Some(Step(t, op))
  {
    assert (ops + [op])[..|ops|] == ops;
  }

  // ----- The main results -----

  /**
   Latest wins, over every run: all completions but the winner were stale; the winner names the greatest attempt
   ever started; the only ordinary events ever queued are its output and then one completed event; and its output,
   without trailing white space, is what the key of the record carries.
   */
  lemma LatestWins(s: State, ops: seq<Op>)
    requires IsNew(s) && Run(s, ops).Some?
    ensures var t := Run(s, ops).value;
            Completions(ops) == t.staleEvents + (if Winner(ops).Some? then 1 else 0)
    ensures Winner(ops).None? ==> Accepts(Run(s, ops).value.queue.history, None) == []
    ensures Winner(ops).Some? ==>
              var t, w := Run(s, ops).value, Winner(ops).value;
              && w.CompleteAttempt? && w in ops
              && w.attempt in Starts(ops) && (forall a :: a in Starts(ops) ==> a <= w.attempt)
              && Accepts(t.queue.history, None)
                 == [EventFor(TaskHandle(1, w.attempt), OutputProduced(w.output)),
                     EventFor(TaskHandle(1, w.attempt), EventKind.Lifecycle(LifecycleEvent.Completed))]
              && t.key == "latest-output:" + TrimEnd(w.output)
              && StripPrefix(t.key, OUTPUT_PREFIX) == Some(TrimEnd(w.output))
  {
    hide Run, Winner, Starts, Completions, Finished, Queue.Sound, Accepts, OutputEvent, CompletedEvent, IsNew,
      ObserversAgree, TrimEnd, Increasing, StripPrefix, EventFor;
    RunAgrees(s, ops);
    WinnerCompletes(ops);
    if Winner(ops).Some? {
      EventsOfWinner(Winner(ops).value.attempt, Winner(ops).value.output);
      LastIsGreatest(Starts(ops));
      PrefixStripped(OUTPUT_PREFIX, TrimEnd(Winner(ops).value.output));
    }
  }

  lemma EventsOfWinner(a: AttemptId, output: string)
    ensures OutputEvent(a, output) == EventFor(TaskHandle(1, a), OutputProduced(output))
    ensures CompletedEvent(a) == EventFor(TaskHandle(1, a), EventKind.Lifecycle(LifecycleEvent.Completed))
  {
  }

  lemma PrefixStripped(prefix: string, text: string)
    ensures StripPrefix(prefix + text, prefix) == Some(text)
  {
  }

  /** Over every run the observers are those of the observer calls, and until a winner the record counts its own. */
  lemma ObserversFollow(s: State, ops: seq<Op>)
    requires IsNew(s) && Run(s, ops).Some?
    ensures var t := Run(s, ops).value;
            && t.attached == Coordination.Run(ObserverOps(ops))
            && (Winner(ops).None? ==> t.record.observers == |Coordination.ObserversOf(t.attached, s.key)|)
  {
    RunAgrees(s, ops);
  }
}
