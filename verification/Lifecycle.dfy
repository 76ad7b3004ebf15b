/** The lifecycle of a task record (src/lifecycle.rs): ten statuses, attempt fencing and a shared token. */
module Lifecycle {
  import opened Prelude
  import TaskEvents
  import opened Cancellation

  type TaskKey = TaskEvents.TaskKey
  type AttemptId = TaskEvents.AttemptId

  datatype Status =
    | Queued | Running | Waiting | Blocked | Completed | Failed
    | Cancelling | Cancelled | FinishedAfterCancel | FailedToCancel
  {
    predicate IsTerminal(): (terminal: bool)
      ensures terminal <==> !(Queued? || Running? || Waiting? || Blocked? || Cancelling?)
    {
      this in {Completed, Failed, Cancelled, FinishedAfterCancel, FailedToCancel}
    }
  }

  datatype ErrorKind = StaleAttempt | TerminalState | NotRunning | NotCancelling | NonAdvancingAttempt

  /** Everything a record's methods read or change. The token part may also change behind the record's back. */
  datatype RecordState = RecordState(
    status: Status,
    attempt: Option<AttemptId>,
    flag: bool,
    tokenReason: Option<CancelReason>,
    /** Some other thread won the swap with this reason and has yet to write it. */
    writing: Option<CancelReason>,
    cancelReason: Option<CancelReason>,
    observers: nat)

  const QUEUED := RecordState(Queued, None, false, None, None, None, 0)

  datatype Call =
    | StartAttempt(attempt: AttemptId)
    | MarkRunning(attempt: AttemptId)
    | MarkWaiting(attempt: AttemptId)
    | MarkBlocked(attempt: AttemptId)
    | Complete(attempt: AttemptId)
    | Fail(attempt: AttemptId)
    | ConfirmCancelled(attempt: AttemptId)
    | FinishAfterCancel(attempt: AttemptId)
    | FailToCancel(attempt: AttemptId)
    | RequestCancel(reason: CancelReason)
    | SyncObserverCount(key: TaskKey, count: nat)
    /** Somebody else cancels a clone of the record's token: first the swap, later the write if the swap was won. */
    | CloneSwaps(reason: CancelReason)
    | CloneWrites

  ghost function TargetStatus(call: Call): Status {
    match call
    case MarkRunning(_) => Running
    case MarkWaiting(_) => Waiting
    case MarkBlocked(_) => Blocked
    case Complete(_) => Completed
    case Fail(_) => Failed
    case ConfirmCancelled(_) => Cancelled
    case FinishAfterCancel(_) => FinishedAfterCancel
    case FailToCancel(_) => FailedToCancel
    case RequestCancel(_) => Cancelling
    case _ => Queued
  }

  ghost predicate IsClone(call: Call) {
    call.CloneSwaps? || call.CloneWrites?
  }

  /** Calls that name an attempt they expect to be current. */
  ghost predicate NamesCurrentAttempt(call: Call) {
    !call.StartAttempt? && !call.RequestCancel? && !call.SyncObserverCount? && !IsClone(call)
  }

  ghost function ActiveRefusal(s: RecordState, a: AttemptId): Option<ErrorKind> {
    if s.status.IsTerminal() then Some(TerminalState)
    else if s.attempt == None then Some(NotRunning)
    else if s.attempt != Some(a) then Some(StaleAttempt)
    else None
  }

  ghost function Refusal(s: RecordState, call: Call): Option<ErrorKind> {
    match call
    case StartAttempt(a) =>
      if s.status.IsTerminal() then Some(TerminalState)
      else if s.attempt.Some? && a <= s.attempt.value then Some(NonAdvancingAttempt)
      else None
    case MarkRunning(a) => ActiveRefusal(s, a)
    case MarkWaiting(a) => ActiveRefusal(s, a)
    case MarkBlocked(a) => ActiveRefusal(s, a)
    case FinishAfterCancel(a) =>
      if ActiveRefusal(s, a).Some? then ActiveRefusal(s, a)
      else if s.status != Cancelling then Some(NotCancelling)
      else None
    case RequestCancel(_) => None
    case SyncObserverCount(_, _) => None
    case CloneSwaps(_) => None
    case CloneWrites => None
    case _ =>
      if ActiveRefusal(s, call.attempt).Some? then ActiveRefusal(s, call.attempt)
      else if s.status == Queued then Some(NotRunning)
      else None
  }

  ghost function CancelToken(s: RecordState, r: CancelReason): RecordState {
    if s.flag then s else s.(flag := true, tokenReason := Some(r))
  }

  ghost function Step(key: TaskKey, s: RecordState, call: Call): RecordState {
    if Refusal(s, call).Some? then s
    else
      match call
      case StartAttempt(a) => s.(attempt := Some(a), status := Queued)
      case RequestCancel(r) =>
        if s.status.IsTerminal() then s else CancelToken(s, r).(cancelReason := Some(r), status := Cancelling)
      case SyncObserverCount(k, n) => if k == key then s.(observers := n) else s
      case CloneSwaps(r) => if s.flag then s else s.(flag := true, writing := Some(r))
      case CloneWrites => if s.writing.Some? then s.(tokenReason := s.writing, writing := None) else s
      case _ => s.(status := TargetStatus(call))
  }

  ghost function Run(key: TaskKey, s: RecordState, calls: seq<Call>): RecordState {
    if calls == [] then s
    else Step(key, Run(key, s, calls[..|calls| - 1]), calls[|calls| - 1])
  }

  // ----- Safety of whole runs -----

  /** The attempts whose start was accepted, in order. */
  ghost function Starts(key: TaskKey, calls: seq<Call>): seq<int> {
    if calls == [] then []
    else
      var before, last := Starts(key, calls[..|calls| - 1]), calls[|calls| - 1];
      var s := Run(key, QUEUED, calls[..|calls| - 1]);
      if last.StartAttempt? && Refusal(s, last) == None then before + [last.attempt] else before
  }

  /** Accepted attempts strictly increase, and the record holds the last of them. */
  lemma {:induction false} AttemptsAdvance(key: TaskKey, calls: seq<Call>)
    ensures Increasing(Starts(key, calls))
    ensures var starts, s := Starts(key, calls), Run(key, QUEUED, calls);
            s.attempt.Some? <==> starts != []
    ensures var starts, s := Starts(key, calls), Run(key, QUEUED, calls);
            starts != [] ==> s.attempt.value == starts[|starts| - 1]
  {
    if calls != [] {
      AttemptsAdvance(key, calls[..|calls| - 1]);
    }
  }

  /** Fencing: a mark or terminal call is accepted only for the greatest attempt ever started. */
  lemma AcceptedCallNamesGreatestAttempt(key: TaskKey, calls: seq<Call>, call: Call)
    requires NamesCurrentAttempt(call) && Refusal(Run(key, QUEUED, calls), call) == None
    ensures var starts := Starts(key, calls);
            call.attempt in starts && forall a :: a in starts ==> a <= call.attempt
  {
    AttemptsAdvance(key, calls);
  }

  /** Start calls on a fresh record, one for each given attempt. */
  ghost function StartCalls(attempts: seq<AttemptId>): seq<Call> {
    seq(|attempts|, i requires 0 <= i < |attempts| => Call.StartAttempt(attempts[i]))
  }

  /** Attempts can be started one after the other exactly if each is greater than the one before. */
  lemma AdvancingStartsAreAccepted(key: TaskKey, attempts: seq<AttemptId>)
    ensures Starts(key, StartCalls(attempts)) == attempts <==> Increasing(attempts)
  {
    hide Starts, StartCalls, Run;
    AttemptsAdvance(key, StartCalls(attempts));
    if Increasing(attempts) {
      IncreasingStartsAreAccepted(key, attempts);
    }
  }

  lemma {:induction false} IncreasingStartsAreAccepted(key: TaskKey, attempts: seq<AttemptId>)
    requires Increasing(attempts)
    ensures Starts(key, StartCalls(attempts)) == attempts
    ensures !Run(key, QUEUED, StartCalls(attempts)).status.IsTerminal()
  {
    if attempts == [] {
      assert StartCalls(attempts) == [];
    } else {
      var init, a := attempts[..|attempts| - 1], attempts[|attempts| - 1];
      hide Starts, StartCalls, Run;
      IncreasingStartsAreAccepted(key, init);
      AttemptsAdvance(key, StartCalls(init));
      OneMoreStart(key, init, a);
      assert attempts == init + [a];
      assert init != [] ==> attempts[|init| - 1] < attempts[|init|];
      hide Increasing;
    }
  }

  lemma OneMoreStart(key: TaskKey, init: seq<AttemptId>, a: AttemptId)
    ensures var s, before := Run(key, QUEUED, StartCalls(init)), Starts(key, StartCalls(init));
            && Run(key, QUEUED, StartCalls(init + [a])) == Step(key, s, Call.StartAttempt(a))
            && Starts(key, StartCalls(init + [a]))
               == if Refusal(s, Call.StartAttempt(a)) == None then before + [a] else before
  {
    var calls := StartCalls(init + [a]);
    assert calls[..|init|] == StartCalls(init) && calls[|init|] == Call.StartAttempt(a);
    hide Step, Refusal;
  }

  /** The calls that end a task. */
  ghost predicate Ends(call: Call) {
    call.Complete? || call.Fail? || call.ConfirmCancelled? || call.FinishAfterCancel? || call.FailToCancel?
  }

  /** After an accepted call nothing can be started, marked, ended or cancelled any more exactly if it was an end. */
  lemma OnlyEndsAreFinal(key: TaskKey, s: RecordState, call: Call, next: Call)
    requires !s.status.IsTerminal() && Refusal(s, call) == None
    requires next.StartAttempt? || NamesCurrentAttempt(next)
    ensures Ends(call) ==>
              && Refusal(Step(key, s, call), next) == Some(TerminalState)
              && forall r :: Step(key, Step(key, s, call), RequestCancel(r)) == Step(key, s, call)
    ensures !Ends(call) ==> Refusal(Step(key, s, call), next) != Some(TerminalState)
  {
  }

  /** How many calls of a run turned the record terminal. */
  ghost function TerminalEntries(key: TaskKey, calls: seq<Call>): nat {
    if calls == [] then 0
    else
      var init := calls[..|calls| - 1];
      TerminalEntries(key, init)
      + (if !Run(key, QUEUED, init).status.IsTerminal() && Run(key, QUEUED, calls).status.IsTerminal() then 1 else 0)
  }

  /** At most one call of a run makes the record terminal, and the record is terminal exactly when one did. */
  lemma {:induction false} TerminalAtMostOnce(key: TaskKey, calls: seq<Call>)
    ensures TerminalEntries(key, calls) == if Run(key, QUEUED, calls).status.IsTerminal() then 1 else 0
  {
    if calls != [] {
      TerminalAtMostOnce(key, calls[..|calls| - 1]);
    }
  }

  /** After the record is terminal only the observer count moves, and the token through its clones. */
  lemma {:induction false} TerminalIsFinal(key: TaskKey, s: RecordState, calls: seq<Call>)
    requires s.status.IsTerminal()
    ensures var t := Run(key, s, calls);
            && t == s.(observers := t.observers, flag := t.flag, tokenReason := t.tokenReason, writing := t.writing)
            && ((forall i :: 0 <= i < |calls| ==> !IsClone(calls[i])) ==> t == s.(observers := t.observers))
  {
    if calls != [] {
      TerminalIsFinal(key, s, calls[..|calls| - 1]);
    }
  }

  /** The reasons of the cancel requests that found the record alive. */
  ghost function Requests(key: TaskKey, calls: seq<Call>): seq<CancelReason> {
    if calls == [] then []
    else
      var before, last := Requests(key, calls[..|calls| - 1]), calls[|calls| - 1];
      var s := Run(key, QUEUED, calls[..|calls| - 1]);
      if last.RequestCancel? && !s.status.IsTerminal() then before + [last.reason] else before
  }

  /** The reasons that reached the token: those requests, and the ones through clones. */
  ghost function TokenCancels(key: TaskKey, calls: seq<Call>): seq<CancelReason> {
    if calls == [] then []
    else
      var before, last := TokenCancels(key, calls[..|calls| - 1]), calls[|calls| - 1];
      var s := Run(key, QUEUED, calls[..|calls| - 1]);
      if last.CloneSwaps? || (last.RequestCancel? && !s.status.IsTerminal()) then before + [last.reason]
      else before
  }

  /**
   The token gets the first reason that reached it, and has none only while a clone is between its swap and its
   write; the record keeps its last accepted request.
   */
  lemma {:induction false} ReasonsFirstAndLast(key: TaskKey, calls: seq<Call>)
    ensures var s, requests, cancels := Run(key, QUEUED, calls), Requests(key, calls), TokenCancels(key, calls);
            && s.cancelReason == (if requests == [] then None else Some(requests[|requests| - 1]))
            && s.tokenReason == (if cancels == [] || s.writing.Some? then None else Some(cancels[0]))
            && (s.writing.Some? ==> cancels != [] && s.writing.value == cancels[0])
            && (calls != [] && calls[|calls| - 1].CloneWrites? ==> s.writing == None)
            && s.flag == (cancels != [])
            && |requests| <= |cancels|
  {
    if calls != [] {
      ReasonsFirstAndLast(key, calls[..|calls| - 1]);
    }
  }

  /** Without clones the two sources of reasons are the same list: the token has its first, the record its last. */
  lemma {:induction false} WithoutClonesReasonsAgree(key: TaskKey, calls: seq<Call>)
    requires forall i :: 0 <= i < |calls| ==> !IsClone(calls[i])
    ensures TokenCancels(key, calls) == Requests(key, calls)
  {
    if calls != [] {
      WithoutClonesReasonsAgree(key, calls[..|calls| - 1]);
    }
  }

  // ----- Exact reachability -----

  /** What is observed of a record: status, attempt, token flag, and whether the record stored a reason. */
  datatype View = View(status: Status, attempt: Option<AttemptId>, flag: bool, hasReason: bool)

  ghost function ViewOf(s: RecordState): View {
    View(s.status, s.attempt, s.flag, s.cancelReason.Some?)
  }

  ghost predicate Shape(v: View) {
    && (v.attempt.None? ==> v.status == Cancelling || (v.status == Queued && !v.hasReason))
    && (v.status in {Cancelling, FinishedAfterCancel} ==> v.hasReason)
    && (v.hasReason ==> v.flag)
  }

  ghost predicate Reaches(key: TaskKey, s: RecordState, v: View) {
    exists calls :: ViewOf(Run(key, s, calls)) == v
  }

  lemma {:induction false} ReachableHasShape(key: TaskKey, calls: seq<Call>)
    ensures Shape(ViewOf(Run(key, QUEUED, calls)))
  {
    if calls != [] {
      ReachableHasShape(key, calls[..|calls| - 1]);
    }
  }

  lemma RunOneMore(key: TaskKey, s: RecordState, calls: seq<Call>, call: Call)
    ensures Run(key, s, calls + [call]) == Step(key, Run(key, s, calls), call)
  {
    assert (calls + [call])[..|calls|] == calls;
  }

  /** The calls that bring a started, non-terminal record to a given status. */
  ghost function Route(status: Status, a: AttemptId): seq<Call> {
    match status
    case Queued => []
    case Running => [MarkRunning(a)]
    case Waiting => [MarkWaiting(a)]
    case Blocked => [MarkBlocked(a)]
    case Completed => [MarkRunning(a), Complete(a)]
    case Failed => [MarkRunning(a), Fail(a)]
    case Cancelling => [RequestCancel(USER_REQUESTED)]
    case Cancelled => [MarkRunning(a), ConfirmCancelled(a)]
    case FinishedAfterCancel => [RequestCancel(USER_REQUESTED), FinishAfterCancel(a)]
    case FailedToCancel => [MarkRunning(a), FailToCancel(a)]
  }

  lemma RouteArrives(key: TaskKey, s: RecordState, calls: seq<Call>, status: Status, a: AttemptId)
    requires !Run(key, s, calls).status.IsTerminal() && Run(key, s, calls).attempt == Some(a)
    requires status == Queued ==> Run(key, s, calls).status == Queued
    ensures var t := Run(key, s, calls);
            var cancels := status in {Cancelling, FinishedAfterCancel};
            ViewOf(Run(key, s, calls + Route(status, a)))
            == View(status, Some(a), t.flag || cancels, t.cancelReason.Some? || cancels)
  {
    var route := Route(status, a);
    hide Run;
    if |route| == 0 {
      assert calls + route == calls;
    } else {
      RunOneMore(key, s, calls, route[0]);
      if |route| == 1 {
        assert calls + route == calls + [route[0]];
      } else {
        RunOneMore(key, s, calls + [route[0]], route[1]);
        assert calls + route == calls + [route[0]] + [route[1]];
      }
    }
  }

  /** Cancels that raise the flag, with or without the record storing a reason. */
  ghost function Preamble(v: View): seq<Call> {
    if v.hasReason then [RequestCancel(USER_REQUESTED)]
    else if v.flag then [CloneSwaps(USER_REQUESTED)]
    else []
  }

  /** A run to any view of the right shape. */
  ghost function Witness(v: View): seq<Call> {
    if v.attempt.None? then Preamble(v)
    else Preamble(v) + [StartAttempt(v.attempt.value)] + Route(v.status, v.attempt.value)
  }

  lemma PreambleArrives(key: TaskKey, v: View)
    requires v.hasReason ==> v.flag
    ensures ViewOf(Run(key, QUEUED, Preamble(v)))
            == View(if v.hasReason then Cancelling else Queued, None, v.flag, v.hasReason)
  {
    assert Run(key, QUEUED, []) == QUEUED;
    hide Run;
    if v.flag {
      var call := if v.hasReason then RequestCancel(USER_REQUESTED) else CloneSwaps(USER_REQUESTED);
      RunOneMore(key, QUEUED, [], call);
      assert [] + [call] == Preamble(v);
    }
  }

  lemma WitnessArrives(key: TaskKey, v: View)
    requires Shape(v)
    ensures ViewOf(Run(key, QUEUED, Witness(v))) == v
  {
    PreambleArrives(key, v);
    if v.attempt.Some? {
      var a := v.attempt.value;
      hide Route, Run;
      RunOneMore(key, QUEUED, Preamble(v), StartAttempt(a));
      RouteArrives(key, QUEUED, Preamble(v) + [StartAttempt(a)], v.status, a);
    }
  }

  /** Exactly the views of this shape are reachable from a fresh record. */
  lemma ReachableExactly(key: TaskKey, v: View)
    ensures Reaches(key, QUEUED, v) <==> Shape(v)
  {
    if Reaches(key, QUEUED, v) {
      var calls :| ViewOf(Run(key, QUEUED, calls)) == v;
      ReachableHasShape(key, calls);
    }
    if Shape(v) {
      WitnessArrives(key, v);
    }
  }

  /** No live record is stuck: it can still reach each of the five terminal statuses. */
  lemma EveryTerminalStatusStaysReachable(key: TaskKey, s: RecordState, terminal: Status)
    requires !s.status.IsTerminal() && terminal.IsTerminal()
    ensures exists calls :: Run(key, s, calls).status == terminal
  {
    var start: seq<Call> := if s.attempt.None? then [StartAttempt(0)] else [];
    if s.attempt.None? {
      RunOneMore(key, s, [], StartAttempt(0));
      assert start == [] + [StartAttempt(0)];
    }
    var a := Run(key, s, start).attempt.value;
    RouteArrives(key, s, start, terminal, a);
    assert ViewOf(Run(key, s, start + Route(terminal, a))).status == terminal;
  }

  // ----- The record object -----

  class TaskRecord {
    const id: TaskEvents.TaskId
    const key: TaskKey
    const policy: TaskEvents.TaskPolicy
    const cancellation: CancellationToken
    var status: Status
    var attemptId: Option<AttemptId>
    var cancelReason: Option<CancelReason>
    var observerCount: nat

    ghost function State(): RecordState
      reads this, cancellation
    {
      RecordState(status, attemptId, cancellation.cancelled, cancellation.reason, cancellation.writing,
                  cancelReason, observerCount)
    }

    constructor (id: TaskEvents.TaskId, key: TaskKey, policy: TaskEvents.TaskPolicy)
      ensures this.id == id && this.key == key && this.policy == policy
      ensures fresh(cancellation) && State() == QUEUED
      ensures status == Queued && attemptId == None && cancelReason == None && observerCount == 0
      ensures !cancellation.cancelled && cancellation.reason == None
    {
      this.id, this.key, this.policy := id, key, policy;
      cancellation := new CancellationToken();
      status, attemptId, cancelReason, observerCount := Queued, None, None, 0;
    }

    predicate AcceptsAttempt(a: AttemptId): (accepted: bool)
      reads this
      ensures accepted <==>
                && attemptId == Some(a)
                && (status.Queued? || status.Running? || status.Waiting? || status.Blocked? || status.Cancelling?)
    {
      !status.IsTerminal() && attemptId == Some(a)
    }

    function EnsureActiveAttempt(a: AttemptId): (refusal: Option<ErrorKind>)
      reads this, cancellation
      ensures refusal == ActiveRefusal(State(), a)
      ensures refusal == None <==> AcceptsAttempt(a)
      ensures refusal == Some(TerminalState) <==> status.IsTerminal()
      ensures refusal == Some(StaleAttempt) <==> !status.IsTerminal() && attemptId.Some? && attemptId != Some(a)
      ensures refusal == Some(NotRunning) <==> !status.IsTerminal() && attemptId == None
    {
      if status.IsTerminal() then Some(TerminalState)
      else match attemptId
        case Some(current) => if current == a then None else Some(StaleAttempt)
        case None => Some(NotRunning)
    }

    function EnsureTerminalEventAttempt(a: AttemptId): (refusal: Option<ErrorKind>)
      reads this, cancellation
      ensures refusal == None <==> AcceptsAttempt(a) && status != Queued
      ensures refusal == Some(TerminalState) <==> status.IsTerminal()
      ensures refusal == Some(StaleAttempt) <==> !status.IsTerminal() && attemptId.Some? && attemptId != Some(a)
      // the only other refusal: no attempt at all, or one that is still queued
      ensures refusal == Some(NotRunning) <==>
                !status.IsTerminal() && (attemptId == None || (attemptId == Some(a) && status == Queued))
      // all of complete, fail, confirm and fail-to-cancel stand behind this one guard
      ensures refusal == Refusal(State(), Call.Complete(a)) == Refusal(State(), Call.Fail(a))
                         == Refusal(State(), Call.ConfirmCancelled(a)) == Refusal(State(), Call.FailToCancel(a))
    {
      var refusal := EnsureActiveAttempt(a);
      if refusal.Some? then refusal
      else if status == Queued then Some(NotRunning)
      else None
    }

    method StartAttempt(a: AttemptId) returns (refusal: Option<ErrorKind>)
      modifies this`status, this`attemptId
      ensures refusal == Refusal(old(State()), Call.StartAttempt(a))
      ensures State() == Step(key, old(State()), Call.StartAttempt(a))
      // every attempt after the current one is accepted, and no other
      ensures refusal == None <==>
                !old(status).IsTerminal() && (old(attemptId) == None || old(attemptId).value < a)
      ensures refusal == Some(TerminalState) <==> old(status).IsTerminal()
      ensures refusal.Some? && refusal != Some(TerminalState) ==> refusal == Some(NonAdvancingAttempt)
      ensures if refusal == None then attemptId == Some(a) && status == Queued
              else attemptId == old(attemptId) && status == old(status)
    {
      if status.IsTerminal() {
        return Some(TerminalState);
      }
      if attemptId.Some? && a <= attemptId.value {
        return Some(NonAdvancingAttempt);
      }
      attemptId := Some(a);
      status := Queued;
      return None;
    }

    method MarkRunning(a: AttemptId) returns (refusal: Option<ErrorKind>)
      modifies this`status
      ensures refusal == Refusal(old(State()), Call.MarkRunning(a))
      ensures State() == Step(key, old(State()), Call.MarkRunning(a))
      ensures refusal == old(EnsureActiveAttempt(a))
      ensures status == if refusal == None then Running else old(status)
    {
      refusal := EnsureActiveAttempt(a);
      if refusal == None {
        status := Running;
      }
    }

    method MarkWaiting(a: AttemptId) returns (refusal: Option<ErrorKind>)
      modifies this`status
      ensures refusal == Refusal(old(State()), Call.MarkWaiting(a))
      ensures State() == Step(key, old(State()), Call.MarkWaiting(a))
      ensures refusal == old(EnsureActiveAttempt(a))
      ensures status == if refusal == None then Waiting else old(status)
    {
      refusal := EnsureActiveAttempt(a);
      if refusal == None {
        status := Waiting;
      }
    }

    method MarkBlocked(a: AttemptId) returns (refusal: Option<ErrorKind>)
      modifies this`status
      ensures refusal == Refusal(old(State()), Call.MarkBlocked(a))
      ensures State() == Step(key, old(State()), Call.MarkBlocked(a))
      ensures refusal == old(EnsureActiveAttempt(a))
      ensures status == if refusal == None then Blocked else old(status)
    {
      refusal := EnsureActiveAttempt(a);
      if refusal == None {
        status := Blocked;
      }
    }

    method Complete(a: AttemptId) returns (refusal: Option<ErrorKind>)
      modifies this`status
      ensures refusal == Refusal(old(State()), Call.Complete(a))
      ensures State() == Step(key, old(State()), Call.Complete(a))
      ensures refusal == old(EnsureTerminalEventAttempt(a))
      ensures status == if refusal == None then Completed else old(status)
    {
      refusal := EnsureTerminalEventAttempt(a);
      if refusal == None {
        status := Completed;
      }
    }

    method Fail(a: AttemptId) returns (refusal: Option<ErrorKind>)
      modifies this`status
      ensures refusal == Refusal(old(State()), Call.Fail(a))
      ensures State() == Step(key, old(State()), Call.Fail(a))
      ensures refusal == old(EnsureTerminalEventAttempt(a))
      ensures status == if refusal == None then Failed else old(status)
    {
      refusal := EnsureTerminalEventAttempt(a);
      if refusal == None {
        status := Failed;
      }
    }

    /** The stored reason is overwritten; the token keeps its first. */
    method RequestCancel(reason: CancelReason)
      modifies this`status, this`cancelReason, cancellation
      ensures State() == Step(key, old(State()), Call.RequestCancel(reason))
      ensures old(status).IsTerminal() ==> State() == old(State())
      ensures !old(status).IsTerminal() ==>
                && status == Cancelling && cancelReason == Some(reason) && cancellation.cancelled
                && cancellation.reason
                   == (if old(cancellation.cancelled) then old(cancellation.reason) else Some(reason))
    {
      if status.IsTerminal() {
        return;
      }
      cancellation.Cancel(reason);
      cancelReason := Some(reason);
      status := Cancelling;
    }

    method ConfirmCancelled(a: AttemptId) returns (refusal: Option<ErrorKind>)
      modifies this`status
      ensures refusal == Refusal(old(State()), Call.ConfirmCancelled(a))
      ensures State() == Step(key, old(State()), Call.ConfirmCancelled(a))
      ensures refusal == old(EnsureTerminalEventAttempt(a))
      ensures status == if refusal == None then Cancelled else old(status)
    {
      refusal := EnsureTerminalEventAttempt(a);
      if refusal == None {
        status := Cancelled;
      }
    }

    method FinishAfterCancel(a: AttemptId) returns (refusal: Option<ErrorKind>)
      modifies this`status
      ensures refusal == Refusal(old(State()), Call.FinishAfterCancel(a))
      ensures State() == Step(key, old(State()), Call.FinishAfterCancel(a))
      ensures refusal == None <==> old(status) == Cancelling && old(attemptId) == Some(a)
      ensures refusal == Some(NotCancelling) <==> old(AcceptsAttempt(a)) && old(status) != Cancelling
      ensures refusal.Some? && refusal != Some(NotCancelling) ==> refusal == old(EnsureActiveAttempt(a))
      ensures status == if refusal == None then FinishedAfterCancel else old(status)
    {
      refusal := EnsureActiveAttempt(a);
      if refusal.Some? {
        return;
      }
      if status != Cancelling {
        return Some(NotCancelling);
      }
      status := FinishedAfterCancel;
    }

    method FailToCancel(a: AttemptId) returns (refusal: Option<ErrorKind>)
      modifies this`status
      ensures refusal == Refusal(old(State()), Call.FailToCancel(a))
      ensures State() == Step(key, old(State()), Call.FailToCancel(a))
      ensures refusal == old(EnsureTerminalEventAttempt(a))
      ensures status == if refusal == None then FailedToCancel else old(status)
    {
      refusal := EnsureTerminalEventAttempt(a);
      if refusal == None {
        status := FailedToCancel;
      }
    }

    method SyncObserverCount(snapshotKey: TaskKey, count: nat)
      modifies this`observerCount
      ensures State() == Step(key, old(State()), Call.SyncObserverCount(snapshotKey, count))
      ensures observerCount == if snapshotKey == key then count else old(observerCount)
    {
      if snapshotKey == key {
        observerCount := count;
      }
    }
  }
}
