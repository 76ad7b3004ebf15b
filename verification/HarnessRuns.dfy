/**
 A harness (src/testing.rs) in terms of the calls made on it: its status, its cancel reasons, its queue and whether
 the next call would fail an `expect` are all computed from the calls alone.
 */
module HarnessRuns {
  import opened Prelude
  import opened TaskEvents
  import opened StringIds
  import opened Cancellation
  import Lifecycle
  import opened QueueModel
  import Queue = QueueRuns
  import opened HarnessModel

  // ----- What the calls say -----

  /** Where the last start or cancel would leave a record that is not over. */
  ghost function LastMove(ops: seq<Op>): Lifecycle.Status {
    if ops == [] then Lifecycle.Queued
    else
      match ops[|ops| - 1]
      case StartAttempt(_) => Lifecycle.Running
      case Cancel(_) => Lifecycle.Cancelling
      case _ => LastMove(ops[..|ops| - 1])
  }

  ghost function StatusAfter(ops: seq<Op>): Lifecycle.Status {
    if Winner(ops).Some? then Lifecycle.Completed
    else if Finished(ops) then Lifecycle.FinishedAfterCancel
    else LastMove(ops)
  }

  /** The reasons of the cancels made before the task was over. */
  ghost function CancelsOf(ops: seq<Op>): seq<CancelReason> {
    if ops == [] then []
    else
      var init, last := ops[..|ops| - 1], ops[|ops| - 1];
      if last.Cancel? && Winner(init).None? && !Finished(init) then CancelsOf(init) + [last.reason]
      else CancelsOf(init)
  }

  /** The latest started attempt, unless the task is over. */
  ghost predicate IsLatest(ops: seq<Op>, a: AttemptId) {
    Winner(ops).None? && !Finished(ops) && Starts(ops) != [] && a == Starts(ops)[|Starts(ops)| - 1]
  }

  /** What the calls do to the queue. */
  ghost function QueueOps(ops: seq<Op>): seq<Queue.Op> {
    if ops == [] then [] else QueueOps(ops[..|ops| - 1]) + QueueOpsOf(ops[..|ops| - 1], ops[|ops| - 1])
  }

  ghost function QueueOpsOf(init: seq<Op>, op: Op): seq<Queue.Op> {
    match op
    case CompleteAttempt(a, output) =>
      if IsLatest(init, a) then
        [Queue.PushOp(EventFor(TaskHandle(1, a), OutputProduced(output))),
         Queue.PushOp(EventFor(TaskHandle(1, a), EventKind.Lifecycle(LifecycleEvent.Completed)))]
      else []
    case EnqueueProgress(k, message) =>
      if Starts(init) == [] then []
      else [Queue.PushOp(EventFor(TaskHandle(1, Starts(init)[|Starts(init)| - 1]), Progress(k, Message(message))))]
    case Drain(budget) => [Queue.DrainOp(budget)]
    case _ => []
  }

  /** Free of control characters. */
  ghost predicate IsPlain(s: string) {
    forall i :: 0 <= i < |s| ==> !IsControl(s[i])
  }

  /** None of the `expect`s of the next call fails, when `pending` events are in the queue. */
  ghost predicate ExpectsHold(ops: seq<Op>, op: Op, pending: nat) {
    match op
    case StartAttempt(a) => Winner(ops).None? && !Finished(ops) && forall b :: b in Starts(ops) ==> b < a
    case CompleteAttempt(a, output) =>
      IsLatest(ops, a) ==> pending + 2 <= 256 && IsPlain(TrimEnd(output))
    case FinishAfterCancel =>
      Winner(ops).None? && !Finished(ops) && Starts(ops) != [] && LastMove(ops) == Lifecycle.Cancelling
    case EnqueueProgress(_, _) => Starts(ops) != []
    case _ => true
  }

  lemma SaysOneMore(ops: seq<Op>, op: Op)
    ensures LastMove(ops + [op])
            == if op.StartAttempt? then Lifecycle.Running
               else if op.Cancel? then Lifecycle.Cancelling
               else LastMove(ops)
    ensures CancelsOf(ops + [op])
            == CancelsOf(ops)
               + (if op.Cancel? && Winner(ops).None? && !Finished(ops) then [op.reason] else [])
    ensures QueueOps(ops + [op]) == QueueOps(ops) + QueueOpsOf(ops, op)
  {
    assert (ops + [op])[..|ops|] == ops;
    hide Winner, Finished, QueueOpsOf;
  }

  // ----- Status -----

  lemma StepOfStatus(s: State, op: Op)
    requires Allowed(s, op)
    ensures Step(s, op).record.status
            == match op
               case StartAttempt(_) => Lifecycle.Running
               case CompleteAttempt(a, _) => if IsCurrent(s, a) then Lifecycle.Completed else s.record.status
               case Cancel(_) => if s.record.status.IsTerminal() then s.record.status else Lifecycle.Cancelling
               case FinishAfterCancel => Lifecycle.FinishedAfterCancel
               case _ => s.record.status
    ensures op.FinishAfterCancel? ==> s.record.status == Lifecycle.Cancelling
    ensures op.StartAttempt? ==> !s.record.status.IsTerminal()
  {
    hide TryNew, PushBoth, Coordination.ObserversOf;
  }

  lemma StepKeepsStatus(ops: seq<Op>, s: State, op: Op)
    requires AttemptsAgree(ops, s) && s.record.status == StatusAfter(ops) && Allowed(s, op)
    ensures Step(s, op).record.status == StatusAfter(ops + [op])
  {
    OneMore(ops, op);
    SaysOneMore(ops, op);
    WinnerOfOneMore(ops, s, op);
    StepOfStatus(s, op);
    hide Starts, Completions, Finished, Winner, LastMove, Step, Allowed, Increasing;
  }

  // ----- Cancels -----

  ghost predicate CancelsAgree(ops: seq<Op>, s: State) {
    var cancels, r := CancelsOf(ops), s.record;
    if Winner(ops).Some? || cancels == [] then
      !r.flag && r.tokenReason == None && r.cancelReason == None && r.writing == None
    else
      r.flag && r.tokenReason == Some(cancels[0]) && r.cancelReason == Some(cancels[|cancels| - 1])
      && r.writing == None
  }

  lemma StepOfCancel(s: State, op: Op)
    requires Allowed(s, op)
    ensures var r, t := s.record, Step(s, op).record;
            if op.CompleteAttempt? && IsCurrent(s, op.attempt) then
              !t.flag && t.tokenReason == None && t.cancelReason == None && t.writing == None
            else if op.Cancel? && !r.status.IsTerminal() then
              && t.flag && t.cancelReason == Some(op.reason) && t.writing == r.writing
              && t.tokenReason == (if r.flag then r.tokenReason else Some(op.reason))
            else
              && t.flag == r.flag && t.tokenReason == r.tokenReason
              && t.cancelReason == r.cancelReason && t.writing == r.writing
  {
    hide TryNew, PushBoth, Coordination.ObserversOf;
  }

  lemma StepKeepsCancels(ops: seq<Op>, s: State, op: Op)
    requires AttemptsAgree(ops, s) && CancelsAgree(ops, s) && Allowed(s, op)
    ensures CancelsAgree(ops + [op], Step(s, op))
  {
    OneMore(ops, op);
    SaysOneMore(ops, op);
    WinnerOfOneMore(ops, s, op);
    StepOfCancel(s, op);
    hide Starts, Completions, Finished, Winner, CancelsOf, Step, Allowed, Increasing;
  }

  // ----- Queue -----

  lemma StepOfEvents(ops: seq<Op>, s: State, op: Op)
    requires AttemptsAgree(ops, s) && Allowed(s, op)
    ensures var q := QueueOpsOf(ops, op);
            && |q| <= 2
            && Step(s, op).queue
               == if |q| == 0 then s.queue
                  else if |q| == 1 then Queue.Step(256, s.queue, q[0])
                  else Queue.Step(256, Queue.Step(256, s.queue, q[0]), q[1])
  {
    hide Starts, Winner, Finished, Increasing, Queue.PushStep, Queue.DrainStep, TryNew, Coordination.ObserversOf,
      Lifecycle.Step;
    if op.CompleteAttempt? {
      EventsOfWinner(op.attempt, op.output);
    }
  }

  lemma StepKeepsQueue(start: Queue.Machine, ops: seq<Op>, s: State, op: Op)
    requires AttemptsAgree(ops, s) && Allowed(s, op) && s.queue == Queue.Run(256, start, QueueOps(ops))
    ensures Step(s, op).queue == Queue.Run(256, start, QueueOps(ops + [op]))
  {
    StepOfEvents(ops, s, op);
    SaysOneMore(ops, op);
    hide Step, Allowed, AttemptsAgree, QueueOps, QueueOpsOf, Queue.Run, Queue.Step;
    var before, q := QueueOps(ops), QueueOpsOf(ops, op);
    if |q| == 0 {
      assert before + q == before;
    } else {
      Queue.RunOneMore(256, start, before, q[0]);
      if |q| == 1 {
        assert before + q == before + [q[0]];
      } else {
        Queue.RunOneMore(256, start, before + [q[0]], q[1]);
        assert before + q == before + [q[0]] + [q[1]];
      }
    }
  }

  // ----- The main results -----

  ghost predicate Says(start: State, ops: seq<Op>, t: State) {
    && t.record.status == StatusAfter(ops)
    && CancelsAgree(ops, t)
    && t.queue == Queue.Run(256, start.queue, QueueOps(ops))
  }

  lemma NothingSaid(s: State, ops: seq<Op>)
    requires IsNew(s) && |ops| == 0
    ensures Says(s, ops, s)
  {
  }

  /**
   Over every run: the status is the one the calls lead to; before a completion wins, the token is cancelled exactly
   if a cancel was made in time, for the reason of the first, and the record has the reason of the last; and the
   queue is the one that the pushes and drains of the calls, in their order, make of an empty one.
   */
  lemma {:induction false} RunIsAsTheCallsSay(s: State, ops: seq<Op>)
    requires IsNew(s) && Run(s, ops).Some?
    ensures Says(s, ops, Run(s, ops).value)
  {
    hide Says, IsNew, Allowed, Step, Agrees;
    if ops == [] {
      NothingSaid(s, ops);
    } else {
      var init, op := ops[..|ops| - 1], ops[|ops| - 1];
      RunIsAsTheCallsSay(s, init);
      RunAgrees(s, init);
      assert ops == init + [op];
      StepSays(s, init, Run(s, init).value, op);
    }
  }

  lemma StepSays(start: State, ops: seq<Op>, t: State, op: Op)
    requires Agrees(start.key, ops, t) && Says(start, ops, t) && Allowed(t, op)
    ensures Says(start, ops + [op], Step(t, op))
  {
    hide Step, Allowed, StatusAfter, CancelsAgree, QueueOps, Queue.Run, AttemptsAgree, WinnerAgrees, QueueAgrees,
      ObserversAgree;
    StepKeepsStatus(ops, t, op);
    StepKeepsCancels(ops, t, op);
    StepKeepsQueue(start.queue, ops, t, op);
  }

  lemma KeyIsValid(output: string)
    ensures TryNew(OUTPUT_PREFIX + output).Ok? <==> IsPlain(TrimEnd(output))
  {
    PrefixIsPlain();
    hide TryNew, TrimEnd, StripPrefix, OUTPUT_PREFIX, IsControl, IsWhite;
    PrefixedKey(OUTPUT_PREFIX, output);
    ConcatIsPlain(OUTPUT_PREFIX, TrimEnd(output));
  }

  lemma PrefixIsPlain()
    ensures |OUTPUT_PREFIX| > 0 && IsPlain(OUTPUT_PREFIX)
    ensures !IsWhite(OUTPUT_PREFIX[0]) && !IsWhite(OUTPUT_PREFIX[|OUTPUT_PREFIX| - 1])
  {
  }

  lemma ConcatIsPlain(first: string, second: string)
    requires IsPlain(first)
    ensures (forall i :: 0 <= i < |first + second| ==> !IsControl((first + second)[i])) <==> IsPlain(second)
  {
    hide IsControl;
    assert forall i :: 0 <= i < |second| ==> (first + second)[|first| + i] == second[i];
  }

  /** A call panics exactly when the calls made so far, and the room left in the queue, say so. */
  lemma PanicsExactly(s: State, ops: seq<Op>, op: Op)
    requires IsNew(s) && Run(s, ops).Some?
    ensures Run(s, ops + [op]).Some? <==> ExpectsHold(ops, op, Size(Run(s, ops).value.queue.queue))
  {
    RunIsAsTheCallsSay(s, ops);
    RunAgrees(s, ops);
    assert (ops + [op])[..|ops|] == ops;
    var t := Run(s, ops).value;
    assert Run(s, ops + [op]).Some? <==> Allowed(t, op);
    hide Run, IsNew, Step;
    AllowedAsTheCallsSay(s, ops, t, op);
  }

  lemma AllowedAsTheCallsSay(start: State, ops: seq<Op>, t: State, op: Op)
    requires Agrees(start.key, ops, t) && Says(start, ops, t)
    ensures Allowed(t, op) <==> ExpectsHold(ops, op, Size(t.queue.queue))
  {
    assert AttemptsAgree(ops, t) && t.record.status == StatusAfter(ops);
    hide Agrees, Says;
    match op {
      case StartAttempt(a) => StartAllowed(ops, t, a);
      case CompleteAttempt(a, output) => CompleteAllowed(ops, t, a, output);
      case _ => hide Starts, Winner, Finished, LastMove, Increasing;
    }
  }

  lemma StartAllowed(ops: seq<Op>, t: State, a: AttemptId)
    requires AttemptsAgree(ops, t)
    ensures Allowed(t, Op.StartAttempt(a)) <==> ExpectsHold(ops, Op.StartAttempt(a), Size(t.queue.queue))
  {
    hide Starts, Winner, Finished, Increasing;
    if Starts(ops) != [] {
      LastIsGreatest(Starts(ops));
    }
  }

  lemma CompleteAllowed(ops: seq<Op>, t: State, a: AttemptId, output: string)
    requires AttemptsAgree(ops, t)
    ensures var op := CompleteAttempt(a, output);
            Allowed(t, op) <==> ExpectsHold(ops, op, Size(t.queue.queue))
  {
    hide Starts, Winner, Finished, Increasing, TryNew, TrimEnd, IsControl, OUTPUT_PREFIX;
    KeyIsValid(output);
    var op, pending := CompleteAttempt(a, output), Size(t.queue.queue);
    var ok := TryNew(OUTPUT_PREFIX + output).Ok?;
    assert IsCurrent(t, a) <==> IsLatest(ops, a);
    hide AttemptsAgree, IsCurrent, IsLatest, Size;
    assert Allowed(t, op) <==> (IsCurrent(t, a) ==> ok && pending + 2 <= 256);
    assert ExpectsHold(ops, op, pending) <==> (IsLatest(ops, a) ==> pending + 2 <= 256 && IsPlain(TrimEnd(output)));
  }

  /** A started attempt can be cancelled and then finished, whatever was called before. */
  lemma CancelledAttemptCanFinish(s: State, ops: seq<Op>, a: AttemptId, reason: CancelReason)
    requires IsNew(s) && Run(s, ops + [StartAttempt(a)]).Some?
    ensures var all := Run(s, ops + [StartAttempt(a)] + [Op.Cancel(reason)] + [FinishAfterCancel]);
            all.Some? && all.value.record.status == Lifecycle.FinishedAfterCancel
  {
    var started := ops + [StartAttempt(a)];
    var cancelled := started + [Op.Cancel(reason)];
    assert started[..|ops|] == ops && Run(s, ops).Some?;
    PanicsExactly(s, ops, StartAttempt(a));
    PanicsExactly(s, started, Op.Cancel(reason));
    OneMore(ops, StartAttempt(a));
    OneMore(started, Op.Cancel(reason));
    WinnerKept(ops, StartAttempt(a));
    WinnerKept(started, Op.Cancel(reason));
    SaysOneMore(started, Op.Cancel(reason));
    PanicsExactly(s, cancelled, FinishAfterCancel);
    OneMore(cancelled, FinishAfterCancel);
    WinnerKept(cancelled, FinishAfterCancel);
    hide Run, Starts, Winner, Finished, LastMove, IsNew;
    RunIsAsTheCallsSay(s, cancelled + [FinishAfterCancel]);
  }

  lemma WinnerKept(ops: seq<Op>, op: Op)
    requires !op.CompleteAttempt?
    ensures Winner(ops + [op]) == Winner(ops)
  {
    assert (ops + [op])[..|ops|] == ops;
  }
}
