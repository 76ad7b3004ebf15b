/**
 The Tokio executor (src/runtime_tokio.rs) as an interleaved transition system. A job, its watcher and the callers
 of `spawn`, `cancel` and `drain_finished` take single steps in any order; the three calls exclude each other, so
 one caller position suffices. Tokio itself is only "a job ends with some outcome" and the mpsc channel a FIFO.
 */
module ExecutorProtocol {
  import opened Prelude
  import opened TaskEvents
  import opened Cancellation
  import opened Outcomes

  type TokenId = nat

  /** The cancelled tokens, each with its reason. */
  type Tokens = map<TokenId, CancelReason>

  /** Cancelling a token that is already cancelled changes nothing: the first reason is kept. */
  function CancelOne(tokens: Tokens, token: TokenId, reason: CancelReason): Tokens {
    if token in tokens then tokens else tokens[token := reason]
  }

  /** What the watcher captures after the join: the outcome, and one read of the token. */
  datatype Completion = Completion(cancellationRequested: bool, outcome: RunnableOutcome)

  /** Where one accepted spawn stands. */
  datatype Phase =
    | Running
    | Ended(outcome: RunnableOutcome)
    | Snapshotted(completion: Completion)
    | InChannel(completion: Completion)
    | Received(completion: Completion)
    | Diagnosed(completion: Completion)
    | Emitted(completion: Completion)
  {
    /** Taken out of the channel by some drain. */
    predicate Drained() {
      Received? || Diagnosed? || Emitted?
    }

    predicate Captured() {
      Snapshotted? || InChannel? || Drained()
    }
  }

  datatype Spawn = Spawn(handle: TaskHandle, policy: TaskPolicy, token: TokenId, jobEvents: seq<JobEvent>, phase: Phase)

  /** The one `&mut self` caller: outside, between launch and insert, or inside a drain. */
  datatype Caller =
    | Idle
    | Inserting(spawn: nat)
    | Draining(report: Report)
    | Emitting(report: Report, spawn: nat)

  /** An event handed to the sink of a spawn. */
  datatype Emission = Emission(spawn: nat, event: TaskEvent)

  datatype State = State(
    spawns: seq<Spawn>,
    cancelled: Tokens,
    active: map<TaskHandle, nat>,
    channel: seq<nat>,
    caller: Caller,
    log: seq<Emission>,
    reports: seq<Report>)

  const INITIAL := State([], map[], map[], [], Idle, [], [])

  datatype Mode = AsyncMode | BlockingMode

  datatype Step =
    | Launch(handle: TaskHandle, policy: TaskPolicy, token: TokenId, mode: Mode, runnable: Mode)
    | Insert
    | JobEmit(spawn: nat, event: JobEvent)
    | JobEnd(spawn: nat, outcome: RunnableOutcome)
    | Snapshot(spawn: nat)
    | Send(spawn: nat)
    | CancelToken(token: TokenId, reason: CancelReason)
    | CancelHandle(handle: TaskHandle)
    | BeginDrain
    | Receive
    | Diagnose
    | Emit
    | EndDrain

  function TerminalOf(sp: Spawn): Terminal
    requires sp.phase.Captured()
  {
    MapTerminal(sp.policy, sp.phase.completion.cancellationRequested, sp.phase.completion.outcome)
  }

  predicate At(s: State, n: nat) {
    n < |s.spawns|
  }

  predicate Enabled(s: State, step: Step) {
    match step
    case Launch(_, _, _, _, _) => s.caller.Idle?
    case Insert => s.caller.Inserting? && At(s, s.caller.spawn)
    case JobEmit(n, _) => At(s, n) && s.spawns[n].phase.Running?
    case JobEnd(n, _) => At(s, n) && s.spawns[n].phase.Running?
    case Snapshot(n) => At(s, n) && s.spawns[n].phase.Ended?
    case Send(n) => At(s, n) && s.spawns[n].phase.Snapshotted?
    case CancelToken(_, _) => true
    case CancelHandle(_) => s.caller.Idle?
    case BeginDrain => s.caller.Idle?
    case Receive =>
      s.caller.Draining? && s.channel != [] && At(s, s.channel[0]) && s.spawns[s.channel[0]].phase.InChannel?
    case Diagnose =>
      && s.caller.Emitting? && At(s, s.caller.spawn)
      && s.spawns[s.caller.spawn].phase.Received? && NeedsDiagnostic(TerminalOf(s.spawns[s.caller.spawn]))
    case Emit =>
      && s.caller.Emitting? && At(s, s.caller.spawn)
      && (var sp := s.spawns[s.caller.spawn];
          sp.phase.Diagnosed? || (sp.phase.Received? && !NeedsDiagnostic(TerminalOf(sp))))
    case EndDrain => s.caller.Draining? && s.channel == []
  }

  /** What `cancel(handle)` does: it cancels the token stored under the handle, or none when it is unknown. */
  function CancelActive(s: State, h: TaskHandle): Tokens {
    if h in s.active && At(s, s.active[h]) then CancelOne(s.cancelled, s.spawns[s.active[h]].token, USER_REQUESTED)
    else s.cancelled
  }

  function Move(s: State, n: nat, phase: Phase): seq<Spawn>
    requires At(s, n)
  {
    s.spawns[n := s.spawns[n].(phase := phase)]
  }

  function Apply(s: State, step: Step): State
    requires Enabled(s, step)
  {
    match step
    case Launch(h, policy, token, mode, runnable) =>
      if mode != runnable then s // rejected before anything runs
      else s.(spawns := s.spawns + [Spawn(h, policy, token, [], Running)], caller := Inserting(|s.spawns|))
    case Insert => s.(active := s.active[s.spawns[s.caller.spawn].handle := s.caller.spawn], caller := Idle)
    case JobEmit(n, e) =>
      var sp := s.spawns[n];
      s.(spawns := s.spawns[n := sp.(jobEvents := sp.jobEvents + [e])],
         log := s.log + [Emission(n, FromJobEvent(sp.handle, e))])
    case JobEnd(n, outcome) => s.(spawns := Move(s, n, Ended(outcome)))
    case Snapshot(n) =>
      var sp := s.spawns[n];
      s.(spawns := Move(s, n, Snapshotted(Completion(sp.token in s.cancelled, sp.phase.outcome))))
    case Send(n) => s.(spawns := Move(s, n, InChannel(s.spawns[n].phase.completion)), channel := s.channel + [n])
    case CancelToken(token, reason) => s.(cancelled := CancelOne(s.cancelled, token, reason))
    case CancelHandle(h) => s.(cancelled := CancelActive(s, h))
    case BeginDrain => s.(caller := Draining(EMPTY_REPORT))
    case Receive =>
      var n := s.channel[0];
      s.(spawns := Move(s, n, Received(s.spawns[n].phase.completion)), channel := s.channel[1..],
         active := s.active - {s.spawns[n].handle}, caller := Emitting(s.caller.report, n))
    case Diagnose =>
      var n := s.caller.spawn;
      var sp := s.spawns[n];
      s.(spawns := Move(s, n, Diagnosed(sp.phase.completion)),
         log := s.log + [Emission(n, DiagnosticEvent(sp.handle, TerminalOf(sp)))])
    case Emit =>
      var n := s.caller.spawn;
      var sp := s.spawns[n];
      s.(spawns := Move(s, n, Emitted(sp.phase.completion)),
         log := s.log + [Emission(n, TerminalEvent(sp.handle, TerminalOf(sp)))],
         caller := Draining(Plus(s.caller.report, One(TerminalOf(sp)))))
    case EndDrain => s.(caller := Idle, reports := s.reports + [s.caller.report])
  }

  /** The state after a schedule, or None when some step of it could not be taken. */
  ghost function Exec(s: State, steps: seq<Step>): Option<State> {
    if steps == [] then Some(s)
    else
      var before, last := Exec(s, steps[..|steps| - 1]), steps[|steps| - 1];
      if before.Some? && Enabled(before.value, last) then Some(Apply(before.value, last)) else None
  }

  lemma ExecOne(s: State, steps: seq<Step>, step: Step)
    ensures Exec(s, steps + [step])
            == if Exec(s, steps).Some? && Enabled(Exec(s, steps).value, step)
               then Some(Apply(Exec(s, steps).value, step)) else None
  {
    assert (steps + [step])[..|steps|] == steps;
  }

  lemma {:induction false} ExecConcat(s: State, steps: seq<Step>, more: seq<Step>)
    ensures Exec(s, steps + more) == if Exec(s, steps).Some? then Exec(Exec(s, steps).value, more) else None
    decreases |more|
  {
    if more == [] {
      assert steps + more == steps;
    } else {
      var init, last := more[..|more| - 1], more[|more| - 1];
      ExecConcat(s, steps, init);
      ExecOne(s, steps + init, last);
      assert steps + more == steps + init + [last];
    }
  }

  // ----- What every step keeps -----

  /** The events handed to the sink on behalf of one spawn, in order. */
  ghost function EventsOf(log: seq<Emission>, n: nat): seq<TaskEvent> {
    if log == [] then []
    else
      var before, last := EventsOf(log[..|log| - 1], n), log[|log| - 1];
      if last.spawn == n then before + [last.event] else before
  }

  /** The events of a job as its sink receives them. */
  ghost function Stream(handle: TaskHandle, events: seq<JobEvent>): seq<TaskEvent> {
    seq(|events|, i requires 0 <= i < |events| => FromJobEvent(handle, events[i]))
  }

  ghost function JobStream(sp: Spawn): seq<TaskEvent> {
    Stream(sp.handle, sp.jobEvents)
  }

  /** What the executor itself has added: nothing, the diagnostic, or the diagnostic and the terminal event. */
  ghost function Closing(sp: Spawn): seq<TaskEvent> {
    if sp.phase.Diagnosed? then Diagnostics(sp.handle, TerminalOf(sp))
    else if sp.phase.Emitted? then Diagnostics(sp.handle, TerminalOf(sp)) + [TerminalEvent(sp.handle, TerminalOf(sp))]
    else []
  }

  ghost predicate ChannelOk(s: State) {
    && (forall i, j :: 0 <= i < j < |s.channel| ==> s.channel[i] != s.channel[j])
    && (forall i :: 0 <= i < |s.channel| ==> At(s, s.channel[i]) && s.spawns[s.channel[i]].phase.InChannel?)
    && (forall n :: 0 <= n < |s.spawns| && s.spawns[n].phase.InChannel? ==> n in s.channel)
  }

  /** At most one spawn is between channel and sink, and it is the one the drain holds. */
  ghost predicate CallerOk(s: State) {
    && (s.caller.Inserting? ==> At(s, s.caller.spawn) && !s.spawns[s.caller.spawn].phase.Drained())
    && (s.caller.Emitting? ==>
          && At(s, s.caller.spawn)
          && (var sp := s.spawns[s.caller.spawn];
              sp.phase.Received? || (sp.phase.Diagnosed? && NeedsDiagnostic(TerminalOf(sp)))))
    && (forall n :: 0 <= n < |s.spawns| && (s.spawns[n].phase.Received? || s.spawns[n].phase.Diagnosed?) ==>
          s.caller.Emitting? && s.caller.spawn == n)
  }

  /** Every entry names an undrained spawn of its handle, and not the one still being inserted. */
  ghost predicate ActiveOk(s: State) {
    forall h :: h in s.active ==>
      && At(s, s.active[h])
      && s.spawns[s.active[h]].handle == h
      && !s.spawns[s.active[h]].phase.Drained()
      && !(s.caller.Inserting? && s.caller.spawn == s.active[h])
  }

  /** A snapshot that saw cancellation saw a token that is cancelled now. */
  ghost predicate SnapshotsOk(s: State) {
    forall n :: 0 <= n < |s.spawns| ==>
      var sp := s.spawns[n];
      sp.phase.Captured() && sp.phase.completion.cancellationRequested ==> sp.token in s.cancelled
  }

  /** Each sink has seen exactly the job's own events followed by what the executor added. */
  ghost predicate StreamOk(s: State, n: nat) {
    EventsOf(s.log, n) == if At(s, n) then JobStream(s.spawns[n]) + Closing(s.spawns[n]) else []
  }

  ghost predicate LogOk(s: State) {
    forall n: nat :: StreamOk(s, n)
  }

  ghost function EmittedSpawns(s: State): set<nat> {
    set n: nat | n < |s.spawns| && s.spawns[n].phase.Emitted?
  }

  /** How often a lifecycle event was handed to any sink. */
  ghost function Occurrences(log: seq<Emission>, e: LifecycleEvent): nat {
    if log == [] then 0
    else Occurrences(log[..|log| - 1], e) + (if log[|log| - 1].event.kind == Lifecycle(e) then 1 else 0)
  }

  /** All that has been reported so far, including the drain in progress. */
  ghost function Reported(s: State): Report {
    if s.caller.Draining? || s.caller.Emitting? then Plus(Sum(s.reports), s.caller.report) else Sum(s.reports)
  }

  /** Each counter is the number of lifecycle events of its kind; together they count the emitted spawns. */
  ghost predicate CountersOk(s: State) {
    forall e :: Occurrences(s.log, e) == Counter(Reported(s), e)
  }

  ghost predicate TotalOk(s: State) {
    Total(Reported(s)) == |EmittedSpawns(s)|
  }

  ghost predicate Inv(s: State) {
    ChannelOk(s) && CallerOk(s) && ActiveOk(s) && SnapshotsOk(s) && LogOk(s) && CountersOk(s) && TotalOk(s)
  }

  lemma SendKeepsChannel(s: State, n: nat)
    requires ChannelOk(s) && Enabled(s, Send(n))
    ensures ChannelOk(Apply(s, Send(n)))
  {
    var t := Apply(s, Send(n));
    assert t.channel[|s.channel|] == n;
    assert forall m :: m in s.channel ==> m in t.channel;
  }

  lemma ReceiveKeepsChannel(s: State)
    requires ChannelOk(s) && Enabled(s, Receive)
    ensures ChannelOk(Apply(s, Receive))
  {
    var t := Apply(s, Receive);
    assert forall i :: 0 <= i < |t.channel| ==> t.channel[i] == s.channel[i + 1];
    assert forall m :: m in s.channel ==> m == s.channel[0] || m in t.channel;
  }

  lemma StepKeepsChannel(s: State, step: Step)
    requires ChannelOk(s) && Enabled(s, step)
    ensures ChannelOk(Apply(s, step))
  {
    match step {
      case Send(n) => SendKeepsChannel(s, n);
      case Receive => ReceiveKeepsChannel(s);
      case _ =>
        hide MapTerminal, CancelActive;
        assert Apply(s, step).channel == s.channel;
    }
  }

  lemma StepKeepsCaller(s: State, step: Step)
    requires CallerOk(s) && Enabled(s, step)
    ensures CallerOk(Apply(s, step))
  {
  }

  lemma StepKeepsActive(s: State, step: Step)
    requires CallerOk(s) && ActiveOk(s) && Enabled(s, step)
    ensures ActiveOk(Apply(s, step))
  {
  }

  lemma StepKeepsSnapshots(s: State, step: Step)
    requires SnapshotsOk(s) && Enabled(s, step)
    ensures SnapshotsOk(Apply(s, step))
  {
  }

  lemma EmissionAppends(log: seq<Emission>, m: Emission)
    ensures forall n: nat :: EventsOf(log + [m], n) == EventsOf(log, n) + (if m.spawn == n then [m.event] else [])
  {
    assert (log + [m])[..|log|] == log;
  }

  lemma EmissionOccurs(log: seq<Emission>, m: Emission, e: LifecycleEvent)
    ensures Occurrences(log + [m], e) == Occurrences(log, e) + (if m.event.kind == Lifecycle(e) then 1 else 0)
  {
    assert (log + [m])[..|log|] == log;
  }

  lemma StepKeepsStream(s: State, step: Step, n: nat)
    requires StreamOk(s, n) && CallerOk(s) && Enabled(s, step)
    ensures StreamOk(Apply(s, step), n)
  {
    hide EventsOf, CancelActive, MapTerminal;
    var t := Apply(s, step);
    if t.log != s.log {
      var m := t.log[|s.log|];
      assert t.log == s.log + [m];
      EmissionAppends(s.log, m);
      if n == m.spawn {
        assert JobStream(t.spawns[n]) + Closing(t.spawns[n])
          == JobStream(s.spawns[n]) + Closing(s.spawns[n]) + [m.event];
      }
    }
  }

  lemma StepKeepsLog(s: State, step: Step)
    requires LogOk(s) && CallerOk(s) && Enabled(s, step)
    ensures LogOk(Apply(s, step))
  {
    hide StreamOk, CallerOk, Apply, Enabled;
    forall n: nat ensures StreamOk(Apply(s, step), n) {
      StepKeepsStream(s, step, n);
    }
  }

  /** What one step reports: an emission adds to one counter, and ending a drain only files its report. */
  lemma StepReports(s: State, step: Step)
    requires Enabled(s, step)
    ensures Reported(Apply(s, step))
            == if step.Emit? then Plus(Reported(s), One(TerminalOf(s.spawns[s.caller.spawn]))) else Reported(s)
  {
    hide CancelActive, Occurrences, EventsOf;
    if step.EndDrain? {
      assert Apply(s, step).reports[..|s.reports|] == s.reports;
    } else {
      hide Sum;
      assert Apply(s, step).reports == s.reports;
    }
  }

  lemma CounterAdds(r: Report, terminal: Terminal, e: LifecycleEvent)
    ensures Counter(Plus(r, One(terminal)), e) == Counter(r, e) + (if EventOf(terminal) == e then 1 else 0)
  {
  }

  lemma StepKeepsCounters(s: State, step: Step)
    requires CountersOk(s) && Enabled(s, step)
    ensures CountersOk(Apply(s, step))
  {
    var t := Apply(s, step);
    StepReports(s, step);
    hide Reported, Occurrences, MapTerminal, CancelActive, Plus, One, Counter, NeedsDiagnostic;
    forall e ensures Occurrences(t.log, e) == Counter(Reported(t), e) {
      assert Occurrences(s.log, e) == Counter(Reported(s), e);
      match step {
        case JobEmit(n, event) => EmissionOccurs(s.log, t.log[|s.log|], e);
        case Diagnose => EmissionOccurs(s.log, t.log[|s.log|], e);
        case Emit =>
          EmissionOccurs(s.log, t.log[|s.log|], e);
          CounterAdds(Reported(s), TerminalOf(s.spawns[s.caller.spawn]), e);
        case _ =>
          assert t.log == s.log;
      }
    }
  }

  lemma StepEmits(s: State, step: Step, n: nat)
    requires Enabled(s, step)
    ensures n in EmittedSpawns(Apply(s, step)) <==> n in EmittedSpawns(s) || (step.Emit? && n == s.caller.spawn)
    ensures step.Emit? ==> s.caller.spawn !in EmittedSpawns(s)
  {
  }

  lemma StepEmitsOnly(s: State, step: Step)
    requires Enabled(s, step)
    ensures EmittedSpawns(Apply(s, step)) == EmittedSpawns(s) + (if step.Emit? then {s.caller.spawn} else {})
    ensures step.Emit? ==> s.caller.spawn !in EmittedSpawns(s)
  {
    var newOne: set<nat> := if step.Emit? then {s.caller.spawn} else {};
    var before, after := EmittedSpawns(s), EmittedSpawns(Apply(s, step));
    if step.Emit? {
      StepEmits(s, step, s.caller.spawn);
    }
    hide Apply, EmittedSpawns, Enabled;
    forall n: nat ensures n in after <==> n in before + newOne {
      StepEmits(s, step, n);
    }
  }

  lemma StepKeepsTotal(s: State, step: Step)
    requires TotalOk(s) && Enabled(s, step)
    ensures TotalOk(Apply(s, step))
  {
    StepReports(s, step);
    StepEmitsOnly(s, step);
    hide Reported, EmittedSpawns, Apply, TerminalOf;
  }

  lemma StepKeepsInv(s: State, step: Step)
    requires Inv(s) && Enabled(s, step)
    ensures Inv(Apply(s, step))
  {
    StepKeepsChannel(s, step);
    StepKeepsCaller(s, step);
    StepKeepsActive(s, step);
    StepKeepsSnapshots(s, step);
    StepKeepsLog(s, step);
    StepKeepsCounters(s, step);
    StepKeepsTotal(s, step);
  }

  lemma NothingYet(s: State)
    requires |s.spawns| == |s.channel| == |s.log| == |s.reports| == |s.active| == 0 && s.caller.Idle?
    ensures Inv(s)
  {
    assert EmittedSpawns(s) == {};
    assert s.active.Keys == {};
  }

  lemma {:induction false} ExecKeepsInv(s: State, steps: seq<Step>)
    requires Inv(s) && Exec(s, steps).Some?
    ensures Inv(Exec(s, steps).value)
  {
    hide Inv, Apply, Enabled;
    if steps != [] {
      var before := Exec(s, steps[..|steps| - 1]).value;
      ExecKeepsInv(s, steps[..|steps| - 1]);
      StepKeepsInv(before, steps[|steps| - 1]);
    }
  }

  lemma RunKeepsInv(steps: seq<Step>)
    requires Exec(INITIAL, steps).Some?
    ensures Inv(Exec(INITIAL, steps).value)
  {
    hide Inv, Exec;
    NothingYet(INITIAL);
    ExecKeepsInv(INITIAL, steps);
  }
}
