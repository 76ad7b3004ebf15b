/**
 Every run of the fake executor is a run of the Tokio executor: the same tokens end up cancelled for the same reasons,
 every drain returns the same report, and every sink is handed the same events. The exceptions are stated exactly.
 */
module FakeRuns {
  import opened Prelude
  import opened TaskEvents
  import opened Cancellation
  import opened Outcomes
  import opened ExecutorProtocol
  import opened ExecutorTheorems
  import opened FakeModel
  import opened FakeSchedule

  // ----- Runs of the fake -----

  datatype Op =
    | SpawnOp(request: Request, sink: Sink)
    | CancelOp(handle: TaskHandle)
    | CloneOp(clone: CloneCancel)
    | DrainOp

  /** A run of the fake: its state, the reports it has returned, and the handles spawned since the last drain. */
  datatype FakeRun = FakeRun(fake: FakeState, reports: seq<Report>, recent: set<TaskHandle>)

  const START := FakeRun(FakeState([], [], map[], EMPTY_REPORT, map[], []), [], {})

  ghost function FakeStep(run: FakeRun, op: Op): FakeRun {
    match op
    case SpawnOp(r, sink) => run.(fake := SpawnStep(run.fake, r, sink), recent := run.recent + {r.handle})
    case CancelOp(h) => run.(fake := CancelStep(run.fake, h))
    case CloneOp(c) => run.(fake := run.fake.(cancelled := AfterClone(run.fake.cancelled, c)))
    case DrainOp => FakeRun(run.fake.(finished := EMPTY_REPORT), run.reports + [run.fake.finished], {})
  }

  ghost function RunFake(ops: seq<Op>): FakeRun {
    if ops == [] then START else FakeStep(RunFake(ops[..|ops| - 1]), ops[|ops| - 1])
  }

  /** The sink of a spawn takes the diagnostic, if there is one. */
  ghost predicate Delivers(run: FakeRun, op: Op) {
    op.SpawnOp? ==> Delivered(TerminalOfRequest(run.fake, op.request), op.sink)
  }

  ghost predicate AllDelivered(ops: seq<Op>) {
    ops == [] || (AllDelivered(ops[..|ops| - 1]) && Delivers(RunFake(ops[..|ops| - 1]), ops[|ops| - 1]))
  }

  /** A cancel finds its task undrained, or its token already cancelled. */
  ghost predicate Aimed(run: FakeRun, h: TaskHandle) {
    h in run.fake.handles ==> h in run.recent || run.fake.handles[h].token in run.fake.cancelled
  }

  /** The call does the same to both executors: it is an aimed cancel, or a spawn through the entry point that fits. */
  ghost predicate Fits(run: FakeRun, op: Op) {
    match op
    case SpawnOp(r, _) => r.mode == r.runnable
    case CancelOp(h) => Aimed(run, h)
    case _ => true
  }

  ghost predicate AllFit(ops: seq<Op>) {
    ops == [] || (AllFit(ops[..|ops| - 1]) && Fits(RunFake(ops[..|ops| - 1]), ops[|ops| - 1]))
  }

  /** A spawn that finds `h` already spawned since the last drain reports nothing while it runs. */
  ghost predicate Quiet(run: FakeRun, op: Op, h: TaskHandle) {
    op.SpawnOp? && op.request.handle == h && h in run.recent ==> Reports(op.request.actions) == []
  }

  ghost predicate AllQuiet(ops: seq<Op>, h: TaskHandle) {
    ops == [] || (AllQuiet(ops[..|ops| - 1], h) && Quiet(RunFake(ops[..|ops| - 1]), ops[|ops| - 1], h))
  }

  // ----- Calls -----

  /** The same call made on the Tokio executor. Cancels through clones are no calls. */
  ghost function SameCall(op: Op): seq<Step> {
    match op
    case SpawnOp(r, _) => [Launch(r.handle, r.policy, r.token, r.mode, r.runnable)]
    case CancelOp(h) => [CancelHandle(h)]
    case DrainOp => [BeginDrain]
    case CloneOp(_) => []
  }

  ghost function SameCalls(ops: seq<Op>): seq<Step> {
    if ops == [] then [] else SameCalls(ops[..|ops| - 1]) + SameCall(ops[|ops| - 1])
  }

  /** The calls of a schedule. */
  ghost function Calls(steps: seq<Step>): seq<Step> {
    if steps == [] then []
    else
      var before, last := Calls(steps[..|steps| - 1]), steps[|steps| - 1];
      if IsCall(last) then before + [last] else before
  }

  lemma {:induction false} NoMoreCalls(steps: seq<Step>, more: seq<Step>)
    requires CallsNothing(more)
    ensures Calls(steps + more) == Calls(steps)
    decreases |more|
  {
    if more == [] {
      assert steps + more == steps;
    } else {
      var all, init := steps + more, more[..|more| - 1];
      NoMoreCalls(steps, init);
      assert all[..|all| - 1] == steps + init;
    }
  }

  lemma OneMoreCall(steps: seq<Step>, more: seq<Step>, call: Step)
    requires OneCall(more, call)
    ensures Calls(steps + more) == Calls(steps) + [call]
  {
    assert (steps + [call])[..|steps|] == steps;
    assert Calls(steps + [call]) == Calls(steps) + [call];
    hide Calls;
    NoMoreCalls(steps + [call], more[1..]);
    assert steps + [call] + more[1..] == steps + more;
  }

  /** The Tokio executor accepts a spawn exactly through the entry point that fits; the fake through either. */
  lemma SpawnAgreesExactly(f: FakeState, t: State, r: Request, sink: Sink)
    requires t.caller.Idle?
    ensures |SpawnStep(f, r, sink).spawned| == |f.spawned| + 1
    ensures var call := Launch(r.handle, r.policy, r.token, r.mode, r.runnable);
            && (|Apply(t, call).spawns| == |t.spawns| + 1 <==> r.mode == r.runnable)
            && (r.mode != r.runnable ==> Apply(t, call) == t)
  {
    hide MapTerminal, Emissions, Plus, One, AfterJob, AfterClones, Reports;
  }

  /**
   The fake hands over and counts what it would with a sink that takes everything, exactly if its sink takes the
   diagnostic.
   */
  lemma SinkAgreesExactly(f: FakeState, r: Request, sink: Sink)
    ensures var g, all := SpawnStep(f, r, sink), SpawnStep(f, r, INFALLIBLE);
            g.log == all.log && g.finished == all.finished <==> Delivered(TerminalOfRequest(f, r), sink)
  {
    var terminal := TerminalOfRequest(f, r);
    var closing, n := Diagnostics(r.handle, terminal), |f.spawned|;
    assert |Emissions(n, closing)| < |Emissions(n, closing + [TerminalEvent(r.handle, terminal)])|;
    hide MapTerminal, Emissions, Plus, One, AfterJob, AfterClones, Reports;
  }

  // ----- The simulation -----

  /** All that the sink of a finished spawn will have been handed. */
  ghost function Whole(sp: Spawn): seq<TaskEvent>
    requires sp.phase.Captured()
  {
    JobStream(sp) + ClosingEvents(sp)
  }

  ghost predicate StreamsMatch(log: seq<Emission>, spawns: seq<Spawn>)
    requires forall n :: 0 <= n < |spawns| ==> spawns[n].phase.Captured()
  {
    && (forall n :: 0 <= n < |spawns| ==> EventsOf(log, n) == Whole(spawns[n]))
    && (forall n: nat :: |spawns| <= n ==> EventsOf(log, n) == [])
  }

  ghost predicate HandlesMatch(f: FakeState, t: State) {
    forall h :: h in t.active ==>
      h in f.handles && At(t, t.active[h]) && f.handles[h].token == t.spawns[t.active[h]].token
  }

  ghost predicate Matches(run: FakeRun, t: State) {
    && Inv(t) && t.caller.Idle? && AllFinished(t)
    && run.reports == t.reports && run.fake.finished == Ones(Owed(t))
    && run.fake.cancelled == t.cancelled && |run.fake.spawned| == |t.spawns|
    && t.active.Keys == run.recent && HandlesMatch(run.fake, t)
    && StreamsMatch(run.fake.log, t.spawns)
  }

  lemma {:induction false} EmissionsArrive(log: seq<Emission>, n: nat, events: seq<TaskEvent>, m: nat)
    ensures EventsOf(log + Emissions(n, events), m) == EventsOf(log, m) + (if m == n then events else [])
    decreases |events|
  {
    hide EventsOf;
    if events == [] {
      assert log + Emissions(n, events) == log;
    } else {
      var init, last := events[..|events| - 1], events[|events| - 1];
      EmissionsArrive(log, n, init, m);
      assert events == init + [last];
      EmissionsAppend(n, init, last);
      EmissionAppends(log + Emissions(n, init), Emission(n, last));
      hide Emissions;
      assert log + Emissions(n, events) == log + Emissions(n, init) + [Emission(n, last)];
    }
  }

  /** What a spawn of the fake adds to its log, in terms of the spawn in the channel. */
  lemma SpawnLog(f: FakeState, t: State, r: Request, sink: Sink)
    requires f.cancelled == t.cancelled && |f.spawned| == |t.spawns| && Delivered(TerminalOfRequest(f, r), sink)
    ensures var n, u := |t.spawns|, AfterSpawn(t, r);
            SpawnStep(f, r, sink).log
            == f.log + Emissions(n, Stream(r.handle, Reports(r.actions))) + Emissions(n, ClosingEvents(u.spawns[n]))
  {
    hide MapTerminal, Emissions, Stream, Reports, AfterJob, AfterClones, Plus, One;
    assert TerminalOfRequest(f, r) == TerminalOf(AfterSpawn(t, r).spawns[|t.spawns|]);
  }

  lemma SpawnStreams(f: FakeState, t: State, r: Request, sink: Sink)
    requires f.cancelled == t.cancelled && |f.spawned| == |t.spawns| && AllFinished(t) && StreamsMatch(f.log, t.spawns)
    requires Delivered(TerminalOfRequest(f, r), sink)
    ensures AllFinished(AfterSpawn(t, r)) && StreamsMatch(SpawnStep(f, r, sink).log, AfterSpawn(t, r).spawns)
  {
    hide EventsOf, MapTerminal, Reports, AfterJob, AfterClones, Plus, One;
    var n, sp := |t.spawns|, AfterSpawn(t, r).spawns[|t.spawns|];
    var job, closing := Stream(r.handle, Reports(r.actions)), ClosingEvents(sp);
    assert JobStream(sp) == job;
    var log := SpawnStep(f, r, sink).log;
    SpawnLog(f, t, r, sink);
    forall m: nat ensures EventsOf(log, m) == EventsOf(f.log, m) + (if m == n then job + closing else []) {
      EmissionsArrive(f.log, n, job, m);
      EmissionsArrive(f.log + Emissions(n, job), n, closing, m);
    }
    assert Whole(sp) == job + closing;
  }

  lemma SpawnMatches(run: FakeRun, t: State, r: Request, sink: Sink)
    requires Matches(run, t) && Delivers(run, SpawnOp(r, sink))
    ensures Exec(t, SpawnSteps(|t.spawns|, r)) == Some(AfterSpawn(t, r))
    ensures Matches(FakeStep(run, SpawnOp(r, sink)), AfterSpawn(t, r))
  {
    var u := AfterSpawn(t, r);
    hide Inv, Exec, EventsOf, MapTerminal, One, Plus, SpawnSteps, StreamsMatch, HandlesMatch, Owed, Ones;
    SpawnRuns(t, r);
    ExecKeepsInv(t, SpawnSteps(|t.spawns|, r));
    InvParts(t);
    InvParts(u);
    SpawnStreams(run.fake, t, r, sink);
    SpawnOwes(t, r);
    SpawnHandles(run.fake, t, r, sink);
    assert TerminalOfRequest(run.fake, r) == TerminalOf(u.spawns[|t.spawns|]);
    hide TerminalOf, TerminalOfRequest, AllFinished, Emissions, Stream, Reports, AfterJob, AfterClones;
  }

  lemma SpawnHandles(f: FakeState, t: State, r: Request, sink: Sink)
    requires ActiveOk(t) && HandlesMatch(f, t)
    ensures HandlesMatch(SpawnStep(f, r, sink), AfterSpawn(t, r))
    ensures AfterSpawn(t, r).active.Keys == t.active.Keys + {r.handle}
  {
    hide MapTerminal, Emissions, Stream, Reports, AfterJob, AfterClones, Plus, One;
  }

  lemma SpawnOwes(t: State, r: Request)
    requires ChannelOk(t) && ChannelOk(AfterSpawn(t, r))
    ensures var terminal := TerminalOf(AfterSpawn(t, r).spawns[|t.spawns|]);
            Ones(Owed(AfterSpawn(t, r))) == Plus(Ones(Owed(t)), One(terminal))
  {
    var u, n := AfterSpawn(t, r), |t.spawns|;
    hide MapTerminal, One, Plus, Emissions, Stream, Reports, AfterJob, AfterClones;
    assert Owed(u) == Owed(t) + [TerminalOf(u.spawns[n])];
    assert Owed(u)[..|t.channel|] == Owed(t);
  }

  /** The step of a cancel: through the handle when it is aimed, otherwise through a clone of the token. */
  ghost function CancelStepOf(run: FakeRun, op: Op): Step
    requires op.CancelOp? || op.CloneOp?
  {
    if op.CloneOp? then CancelToken(op.clone.token, op.clone.reason)
    else if Aimed(run, op.handle) then CancelHandle(op.handle)
    else CancelToken(run.fake.handles[op.handle].token, USER_REQUESTED)
  }

  /** Through the handle, both executors do the same to the tokens exactly if the cancel is aimed. */
  lemma CancelAgreesExactly(run: FakeRun, t: State, h: TaskHandle)
    requires HandlesMatch(run.fake, t) && t.active.Keys == run.recent && t.cancelled == run.fake.cancelled
    requires t.caller.Idle?
    ensures Apply(t, CancelHandle(h)).cancelled == CancelStep(run.fake, h).cancelled <==> Aimed(run, h)
  {
    hide MapTerminal;
    if h in run.fake.handles && !Aimed(run, h) {
      assert run.fake.handles[h].token in CancelStep(run.fake, h).cancelled;
    }
  }

  lemma CancelKeepsAll(run: FakeRun, t: State, op: Op)
    requires op.CancelOp? || op.CloneOp?
    requires HandlesMatch(run.fake, t) && t.active.Keys == run.recent && t.cancelled == run.fake.cancelled
    requires t.caller.Idle?
    ensures var u, f := Apply(t, CancelStepOf(run, op)), FakeStep(run, op).fake;
            && u == t.(cancelled := f.cancelled)
            && f == run.fake.(cancelled := f.cancelled, cancelRequests := f.cancelRequests)
  {
    if op.CancelOp? {
      CancelAgreesExactly(run, t, op.handle);
    }
    hide Aimed, HandlesMatch, CancelActive, MapTerminal;
  }

  lemma CancelMatches(run: FakeRun, t: State, op: Op)
    requires Matches(run, t) && (op.CancelOp? || op.CloneOp?)
    ensures var step := CancelStepOf(run, op);
            Enabled(t, step) && Matches(FakeStep(run, op), Apply(t, step)) && Apply(t, step).log == t.log
  {
    hide Inv, EventsOf, One, Plus, StreamsMatch, Ones, Owed, MapTerminal, CancelActive;
    StepKeepsInv(t, CancelStepOf(run, op));
    InvParts(t);
    InvParts(Apply(t, CancelStepOf(run, op)));
    CancelKeepsAll(run, t, op);
    hide Apply, FakeStep, Aimed, CancelStepOf;
    OwedKept(t, Apply(t, CancelStepOf(run, op)));
    hide ChannelOk;
  }

  lemma WholeIsKept(t: State, u: State, n: nat)
    requires At(t, n) && At(u, n) && SpawnLater(t, u, n) && t.spawns[n].phase.Captured()
    ensures u.spawns[n].phase.Captured() && Whole(u.spawns[n]) == Whole(t.spawns[n])
  {
    hide MapTerminal;
    assert JobStream(u.spawns[n]) == JobStream(t.spawns[n]);
  }

  lemma DrainMatches(run: FakeRun, t: State) returns (steps: seq<Step>, u: State)
    requires Matches(run, t)
    ensures Exec(t, steps) == Some(u) && Matches(FakeStep(run, DrainOp), u) && OneCall(steps, BeginDrain)
    ensures u.channel == [] && u.log == t.log + PendingLog(t)
  {
    hide Inv, Exec, EventsOf, One, Plus, ClosingLog, OneCall, ClosingEvents, JobStream, Owed, Ones;
    steps, u := DrainRuns(t);
    RunIsLater(t, steps);
    InvParts(u);
    forall n | 0 <= n < |t.spawns| ensures u.spawns[n].phase.Captured() && Whole(u.spawns[n]) == Whole(t.spawns[n]) {
      WholeIsKept(t, u, n);
    }
    NothingOwed(u);
    hide Whole, ChannelOk, Later;
    assert u.active.Keys == {};
  }

  lemma NothingMatches(run: FakeRun, t: State)
    requires |t.spawns| == |t.channel| == |t.log| == |t.reports| == |t.active| == 0 && t.caller.Idle?
             && t.cancelled == map[]
    requires run.fake.finished == EMPTY_REPORT && |run.fake.log| == |run.fake.spawned| == |run.reports| == 0
    requires run.recent == {} && run.fake.cancelled == map[]
    ensures Matches(run, t)
  {
    hide Inv, ChannelOk, EventsOf, Owed, Ones;
    NothingYet(t);
    InvParts(t);
    NothingOwed(t);
    NothingLogged(run.fake.log);
    assert t.active.Keys == {};
  }

  lemma NothingOwed(t: State)
    requires ChannelOk(t) && |t.channel| == 0
    ensures Ones(Owed(t)) == EMPTY_REPORT
  {
    assert |Owed(t)| == 0;
  }

  lemma NothingLogged(log: seq<Emission>)
    requires |log| == 0
    ensures forall n: nat :: EventsOf(log, n) == []
  {
  }

  // ----- The same, seen from outside: by task and attempt -----

  /** The events of one task attempt, whichever spawn they come from. */
  ghost function EventsFor(log: seq<Emission>, h: TaskHandle): seq<TaskEvent> {
    if log == [] then []
    else
      var before, last := EventsFor(log[..|log| - 1], h), log[|log| - 1];
      if last.event.provenance == PlainProvenance(h) then before + [last.event] else before
  }

  lemma {:induction false} EventsForConcat(log: seq<Emission>, more: seq<Emission>, h: TaskHandle)
    ensures EventsFor(log + more, h) == EventsFor(log, h) + EventsFor(more, h)
    decreases |more|
  {
    if more == [] {
      assert log + more == log;
    } else {
      var all, init := log + more, more[..|more| - 1];
      EventsForConcat(log, init, h);
      assert all[..|all| - 1] == log + init;
    }
  }

  /** Events that carry one handle count for that handle only. */
  lemma {:induction false} EventsForEmissions(n: nat, events: seq<TaskEvent>, handle: TaskHandle, h: TaskHandle)
    requires forall i :: 0 <= i < |events| ==> events[i].provenance == PlainProvenance(handle)
    ensures EventsFor(Emissions(n, events), h) == if h == handle then events else []
  {
    if events != [] {
      var init, last := events[..|events| - 1], events[|events| - 1];
      EventsForEmissions(n, init, handle, h);
      EmissionsAppend(n, init, last);
      assert events == init + [last];
      assert (Emissions(n, init) + [Emission(n, last)])[..|events| - 1] == Emissions(n, init);
    }
  }

  /** The log that a drain would add now. */
  ghost function PendingLog(t: State): seq<Emission>
    requires ChannelOk(t)
  {
    ClosingLog(t.spawns, t.channel)
  }

  // ----- How far two streams can be apart -----

  ghost function Endings(events: seq<TaskEvent>): nat {
    if events == [] then 0
    else Endings(events[..|events| - 1]) + (if events[|events| - 1].kind.Lifecycle? then 1 else 0)
  }

  /** The sum of the positions of the lifecycle events. */
  ghost function Weight(events: seq<TaskEvent>): nat {
    if events == [] then 0
    else Weight(events[..|events| - 1]) + (if events[|events| - 1].kind.Lifecycle? then |events| - 1 else 0)
  }

  lemma {:induction false} EndingsConcat(first: seq<TaskEvent>, second: seq<TaskEvent>)
    ensures Endings(first + second) == Endings(first) + Endings(second)
    decreases |second|
  {
    if second == [] {
      assert first + second == first;
    } else {
      var all, init := first + second, second[..|second| - 1];
      EndingsConcat(first, init);
      assert all[..|all| - 1] == first + init;
    }
  }

  /** A job's own events have no weight. */
  lemma {:induction false} JobIsWeightless(before: seq<TaskEvent>, job: seq<TaskEvent>)
    requires forall i :: 0 <= i < |job| ==> !job[i].kind.Lifecycle?
    ensures Weight(before + job) == Weight(before)
    decreases |job|
  {
    if job == [] {
      assert before + job == before;
    } else {
      var all, init := before + job, job[..|job| - 1];
      JobIsWeightless(before, init);
      assert all[..|all| - 1] == before + init;
    }
  }

  /** Putting a job's events before the closing events of others moves the endings of those back. */
  lemma {:induction false} JobShifts(before: seq<TaskEvent>, pending: seq<TaskEvent>, job: seq<TaskEvent>)
    requires forall i :: 0 <= i < |job| ==> !job[i].kind.Lifecycle?
    ensures Weight(before + job + pending) >= Weight(before + pending)
    ensures job != [] && Endings(pending) > 0 ==> Weight(before + job + pending) > Weight(before + pending)
    decreases |pending|
  {
    if pending == [] {
      JobIsWeightless(before, job);
      assert before + job + pending == before + job && before + pending == before;
    } else {
      var init := pending[..|pending| - 1];
      var far, near := before + job + pending, before + pending;
      JobShifts(before, init, job);
      assert far[..|far| - 1] == before + job + init && near[..|near| - 1] == before + init;
    }
  }

  /** The same events at the same place weigh the same. */
  lemma {:induction false} SameTail(stream: seq<TaskEvent>, other: seq<TaskEvent>, tail: seq<TaskEvent>)
    requires |stream| == |other|
    ensures Weight(stream + tail) - Weight(stream) == Weight(other + tail) - Weight(other)
    decreases |tail|
  {
    if tail == [] {
      assert stream + tail == stream && other + tail == other;
    } else {
      var init, s, o := tail[..|tail| - 1], stream + tail, other + tail;
      SameTail(stream, other, init);
      assert s[..|s| - 1] == stream + init && o[..|o| - 1] == other + init;
    }
  }

  /** The same events if all was quiet; otherwise different ones, with endings further back in the second stream. */
  ghost predicate Apart(stream: seq<TaskEvent>, other: seq<TaskEvent>, quiet: bool) {
    && |stream| == |other|
    && if quiet then stream == other else Weight(stream) < Weight(other)
  }

  lemma PastPending(before: seq<TaskEvent>, pending: seq<TaskEvent>, job: seq<TaskEvent>, closing: seq<TaskEvent>)
    requires job == [] || pending == []
    ensures before + pending + job + closing == before + job + (pending + closing)
  {
  }

  lemma SpawnApart(stream: seq<TaskEvent>, before: seq<TaskEvent>, pending: seq<TaskEvent>,
                   job: seq<TaskEvent>, closing: seq<TaskEvent>, quiet: bool)
    requires Apart(stream, before + pending, quiet)
    requires forall i :: 0 <= i < |job| ==> !job[i].kind.Lifecycle?
    requires pending != [] ==> Endings(pending) > 0
    ensures Apart(stream + job + closing, before + job + (pending + closing), quiet && (job == [] || pending == []))
  {
    hide Weight, Endings;
    if quiet && (job == [] || pending == []) {
      PastPending(before, pending, job, closing);
    } else {
      JobIsWeightless(stream, job);
      JobShifts(before, pending, job);
      SameTail(stream + job, before + job + pending, closing);
      assert before + job + (pending + closing) == before + job + pending + closing;
    }
  }

  // ----- Attempt by attempt -----

  lemma {:induction false} NothingPendingFor(spawns: seq<Spawn>, channel: seq<nat>, h: TaskHandle)
    requires forall i :: 0 <= i < |channel| ==>
               channel[i] < |spawns| && spawns[channel[i]].phase.Captured() && spawns[channel[i]].handle != h
    ensures EventsFor(ClosingLog(spawns, channel), h) == []
    decreases |channel|
  {
    if channel != [] {
      var sp := spawns[channel[0]];
      var first, rest := Emissions(channel[0], ClosingEvents(sp)), ClosingLog(spawns, channel[1..]);
      NothingPendingFor(spawns, channel[1..], h);
      EventsForEmissions(channel[0], ClosingEvents(sp), sp.handle, h);
      EventsForConcat(first, rest, h);
    }
  }

  /** Every completion in the channel has its handle in the active map. */
  ghost predicate ChannelActive(t: State)
    requires ChannelOk(t)
  {
    forall i :: 0 <= i < |t.channel| ==> t.spawns[t.channel[i]].handle in t.active
  }

  lemma {:induction false} SomethingPendingFor(spawns: seq<Spawn>, channel: seq<nat>, h: TaskHandle, i: nat)
    requires forall j :: 0 <= j < |channel| ==> channel[j] < |spawns| && spawns[channel[j]].phase.Captured()
    requires i < |channel| && spawns[channel[i]].handle == h
    ensures Endings(EventsFor(ClosingLog(spawns, channel), h)) > 0
    decreases |channel|
  {
    var sp := spawns[channel[0]];
    var first, rest := Emissions(channel[0], ClosingEvents(sp)), ClosingLog(spawns, channel[1..]);
    EventsForEmissions(channel[0], ClosingEvents(sp), sp.handle, h);
    EventsForConcat(first, rest, h);
    ClosingEnds(sp);
    hide EventsFor, Endings, ClosingEvents, MapTerminal;
    if i > 0 {
      SomethingPendingFor(spawns, channel[1..], h, i - 1);
    }
    EndingsConcat(EventsFor(first, h), EventsFor(rest, h));
  }

  lemma ClosingEnds(sp: Spawn)
    requires sp.phase.Captured()
    ensures Endings(ClosingEvents(sp)) > 0
  {
  }

  /** Something is pending for a handle exactly while it is active, and then with its terminal event. */
  lemma PendingExactly(t: State, h: TaskHandle)
    requires ChannelOk(t) && ActiveOk(t) && AllFinished(t) && ChannelActive(t)
    ensures h in t.active ==> Endings(EventsFor(PendingLog(t), h)) > 0
    ensures h !in t.active ==> EventsFor(PendingLog(t), h) == []
  {
    if h in t.active {
      var n := t.active[h];
      assert n in t.channel;
      var i :| 0 <= i < |t.channel| && t.channel[i] == n;
      hide EventsFor, ClosingLog, Endings;
      SomethingPendingFor(t.spawns, t.channel, h, i);
    } else {
      hide EventsFor, ClosingLog, Endings;
      NothingPendingFor(t.spawns, t.channel, h);
    }
  }

  lemma SpawnPending(t: State, r: Request)
    requires ChannelOk(t) && ChannelOk(AfterSpawn(t, r))
    ensures var n, u := |t.spawns|, AfterSpawn(t, r);
            PendingLog(u) == PendingLog(t) + Emissions(n, ClosingEvents(u.spawns[n]))
  {
    var n, u := |t.spawns|, AfterSpawn(t, r);
    hide MapTerminal, Emissions, Stream, Reports, AfterJob, AfterClones, ClosingEvents;
    assert u.channel == t.channel + [n];
    ClosingLogElsewhere(t.spawns, u.spawns, t.channel);
    ClosingLogAppend(u.spawns, t.channel, n);
  }

  lemma EventsForSpawn(n: nat, sp: Spawn, events: seq<JobEvent>, h: TaskHandle)
    requires sp.phase.Captured()
    ensures EventsFor(Emissions(n, Stream(sp.handle, events)), h) == if h
            == sp.handle then Stream(sp.handle, events) else []
    ensures EventsFor(Emissions(n, ClosingEvents(sp)), h) == if h == sp.handle then ClosingEvents(sp) else []
  {
    hide EventsFor, MapTerminal, Emissions;
    EventsForEmissions(n, Stream(sp.handle, events), sp.handle, h);
    EventsForEmissions(n, ClosingEvents(sp), sp.handle, h);
  }

  ghost predicate AttemptApart(log: seq<Emission>, t: State, h: TaskHandle, quiet: bool)
    requires ChannelOk(t)
  {
    Apart(EventsFor(log, h), EventsFor(t.log, h) + EventsFor(PendingLog(t), h), quiet)
  }

  lemma JobIsNoEnding(handle: TaskHandle, events: seq<JobEvent>)
    ensures forall i :: 0 <= i < |Stream(handle, events)| ==> !Stream(handle, events)[i].kind.Lifecycle?
    ensures Stream(handle, events) == [] <==> events == []
  {
  }

  lemma SpawnAttempt(run: FakeRun, t: State, op: Op, h: TaskHandle, quiet: bool)
    requires op.SpawnOp? && Delivers(run, op) && run.recent == t.active.Keys
    requires run.fake.cancelled == t.cancelled && |run.fake.spawned| == |t.spawns|
    requires ChannelOk(t) && ActiveOk(t) && AllFinished(t) && ChannelActive(t) && ChannelOk(AfterSpawn(t, op.request))
    requires AttemptApart(run.fake.log, t, h, quiet)
    ensures AttemptApart(FakeStep(run, op).fake.log, AfterSpawn(t, op.request), h, quiet && Quiet(run, op, h))
  {
    var r := op.request;
    var n, u := |t.spawns|, AfterSpawn(t, r);
    var sp, log := u.spawns[n], run.fake.log;
    var job, closing := Emissions(n, Stream(r.handle, Reports(r.actions))), Emissions(n, ClosingEvents(sp));
    SpawnLog(run.fake, t, r, op.sink);
    SpawnPending(t, r);
    PendingExactly(t, h);
    EventsForSpawn(n, sp, Reports(r.actions), h);
    JobIsNoEnding(r.handle, Reports(r.actions));
    hide EventsFor, ClosingLog, MapTerminal, Emissions, Stream, Reports, AfterJob, AfterClones, ClosingEvents,
      ChannelOk,
      ChannelActive, ActiveOk, AllFinished, SpawnStep, TerminalOf, Delivers, Apart, Endings;
    EventsForConcat(log + job, closing, h);
    EventsForConcat(log, job, h);
    EventsForConcat(t.log, job, h);
    EventsForConcat(PendingLog(t), closing, h);
    var before, pending := EventsFor(t.log, h), EventsFor(PendingLog(t), h);
    SpawnApart(EventsFor(log, h), before, pending, EventsFor(job, h), EventsFor(closing, h), quiet);
  }

  /** A run of the fake and a Tokio state that stands where it stands. */
  ghost predicate Follows(run: FakeRun, t: State) {
    Matches(run, t) && ChannelActive(t)
  }

  /** Attempt by attempt, the streams are apart exactly if some reuse of the handle was not quiet. */
  ghost predicate InStep(run: FakeRun, t: State, ops: seq<Op>)
    requires Follows(run, t)
  {
    forall h :: AttemptApart(run.fake.log, t, h, AllQuiet(ops, h))
  }

  lemma SpawnStaysActive(t: State, r: Request)
    requires ChannelOk(t) && ChannelOk(AfterSpawn(t, r)) && ChannelActive(t)
    ensures ChannelActive(AfterSpawn(t, r))
  {
    hide MapTerminal, Emissions, Stream, Reports, AfterJob, AfterClones;
  }

  lemma QuietOneMore(ops: seq<Op>, op: Op, h: TaskHandle)
    ensures AllQuiet(ops + [op], h) <==> AllQuiet(ops, h) && Quiet(RunFake(ops), op, h)
  {
    assert (ops + [op])[..|ops|] == ops;
  }

  lemma SpawnFollows(ops: seq<Op>, t: State, op: Op)
    requires var run := RunFake(ops); Follows(run, t) && InStep(run, t, ops) && op.SpawnOp? && Delivers(run, op)
    ensures var u, next := AfterSpawn(t, op.request), FakeStep(RunFake(ops), op);
            && Exec(t, SpawnSteps(|t.spawns|, op.request)) == Some(u) && Follows(next, u)
            && InStep(next, u, ops + [op])
  {
    hide Exec, AfterSpawn, FakeStep, StreamsMatch, HandlesMatch, Owed, Ones, AllFinished, SpawnSteps, ClosingLog,
      EventsFor,
      RunFake, AllQuiet, Quiet, Delivers, Apart;
    var run, u := RunFake(ops), AfterSpawn(t, op.request);
    SpawnMatches(run, t, op.request, op.sink);
    InvParts(t);
    InvParts(u);
    SpawnStaysActive(t, op.request);
    hide Inv, ChannelOk, ChannelActive, ActiveOk, LogOk, AttemptApart;
    forall h ensures AttemptApart(FakeStep(run, op).fake.log, u, h, AllQuiet(ops + [op], h)) {
      SpawnAttempt(run, t, op, h, AllQuiet(ops, h));
      QuietOneMore(ops, op, h);
    }
  }

  lemma DrainFollows(ops: seq<Op>, t: State) returns (steps: seq<Step>, u: State)
    requires Follows(RunFake(ops), t) && InStep(RunFake(ops), t, ops)
    ensures Exec(t, steps) == Some(u) && OneCall(steps, BeginDrain) && u.channel == []
    ensures Follows(FakeStep(RunFake(ops), DrainOp), u) && InStep(FakeStep(RunFake(ops), DrainOp), u, ops + [DrainOp])
  {
    hide Exec, StreamsMatch, HandlesMatch, Owed, Ones, AllFinished, EventsFor, Inv, RunFake, AllQuiet, Apart;
    var run := RunFake(ops);
    steps, u := DrainMatches(run, t);
    InvParts(t);
    InvParts(u);
    hide ChannelOk, ActiveOk, LogOk;
    NothingInChannel(u);
    forall h ensures AttemptApart(run.fake.log, u, h, AllQuiet(ops + [DrainOp], h)) {
      EventsForConcat(t.log, PendingLog(t), h);
      NothingInChannelFor(u, h);
      QuietOneMore(ops, DrainOp, h);
      assert EventsFor(u.log, h) + [] == EventsFor(u.log, h);
      assert AttemptApart(run.fake.log, t, h, AllQuiet(ops, h));
    }
  }

  lemma NothingInChannel(t: State)
    requires ChannelOk(t) && |t.channel| == 0
    ensures ChannelActive(t)
  {
  }

  lemma NothingFor(log: seq<Emission>, h: TaskHandle)
    requires |log| == 0
    ensures EventsFor(log, h) == []
  {
  }

  lemma NothingInChannelFor(t: State, h: TaskHandle)
    requires ChannelOk(t) && |t.channel| == 0
    ensures EventsFor(PendingLog(t), h) == []
  {
    hide ChannelOk;
    NothingPendingFor(t.spawns, t.channel, h);
  }

  lemma CancelFollows(ops: seq<Op>, t: State, op: Op)
    requires Follows(RunFake(ops), t) && InStep(RunFake(ops), t, ops) && (op.CancelOp? || op.CloneOp?)
    ensures var step, next := CancelStepOf(RunFake(ops), op), FakeStep(RunFake(ops), op);
            && Enabled(t, step) && Follows(next, Apply(t, step)) && InStep(next, Apply(t, step), ops + [op])
  {
    hide RunFake, AllQuiet;
    var run := RunFake(ops);
    CancelMatches(run, t, op);
    CancelKeepsAll(run, t, op);
    hide Apply, FakeStep, CancelStepOf, StreamsMatch, HandlesMatch, Owed, Ones, AllFinished, EventsFor, ClosingLog,
      Inv, Apart;
    var u := Apply(t, CancelStepOf(run, op));
    InvParts(t);
    InvParts(u);
    hide ActiveOk, LogOk;
    forall h ensures AttemptApart(FakeStep(run, op).fake.log, u, h, AllQuiet(ops + [op], h)) {
      QuietOneMore(ops, op, h);
      assert AttemptApart(run.fake.log, t, h, AllQuiet(ops, h));
    }
  }

  lemma StartFollows(run: FakeRun, t: State, ops: seq<Op>)
    requires |t.spawns| == |t.channel| == |t.log| == |t.reports| == |t.active| == 0 && t.caller.Idle?
    requires run.fake.finished == EMPTY_REPORT && |run.fake.log| == |run.fake.spawned| == |run.reports| == 0
    requires run.recent == {} && run.fake.cancelled == t.cancelled == map[] && |ops| == 0
    ensures Follows(run, t) && InStep(run, t, ops)
  {
    hide Inv, EventsOf, Owed, Ones, StreamsMatch, HandlesMatch, AllFinished, EventsFor, ClosingLog, ChannelOk,
      ChannelActive;
    NothingMatches(run, t);
    InvParts(t);
    NothingInChannel(t);
    StartInStep(run.fake.log, t, ops);
  }

  lemma StartInStep(log: seq<Emission>, t: State, ops: seq<Op>)
    requires |log| == |t.log| == |t.channel| == |ops| == 0 && ChannelOk(t)
    ensures forall h :: AttemptApart(log, t, h, AllQuiet(ops, h))
  {
    hide EventsFor, ClosingLog, ChannelOk;
    forall h ensures AttemptApart(log, t, h, AllQuiet(ops, h)) {
      NothingInChannelFor(t, h);
      NothingFor(t.log, h);
      NothingFor(log, h);
    }
  }

  /** A run of the fake, and a Tokio state that stands where it stands in every respect. */
  ghost predicate Stands(ops: seq<Op>, t: State) {
    Follows(RunFake(ops), t) && InStep(RunFake(ops), t, ops)
  }

  lemma RunOneMore(ops: seq<Op>, op: Op)
    ensures RunFake(ops + [op]) == FakeStep(RunFake(ops), op)
  {
    assert (ops + [op])[..|ops|] == ops;
  }

  /** The steps of an operation make the call it makes, if any. */
  ghost predicate MakesCall(steps: seq<Step>, op: Op) {
    if op.CloneOp? then CallsNothing(steps) else OneCall(steps, SameCall(op)[0])
  }

  lemma CancelMakesCall(run: FakeRun, op: Op)
    requires (op.CancelOp? || op.CloneOp?) && Fits(run, op)
    ensures MakesCall([CancelStepOf(run, op)], op)
  {
    hide Aimed;
  }

  lemma SpawnMakesCall(n: nat, run: FakeRun, op: Op)
    requires op.SpawnOp? && Fits(run, op)
    ensures MakesCall(SpawnSteps(n, op.request), op)
  {
    hide SpawnSteps, OneCall;
    SpawnIsOneCall(n, op.request);
  }

  lemma ExecSingle(s: State, step: Step)
    requires Enabled(s, step)
    ensures Exec(s, [step]) == Some(Apply(s, step))
  {
    hide Enabled, Apply;
    assert Exec(s, []) == Some(s);
    ExecOne(s, [], step);
    assert [] + [step] == [step];
  }

  /** One call of the fake, with the steps it stands for. */
  lemma OpFollows(ops: seq<Op>, t: State, op: Op) returns (steps: seq<Step>, u: State)
    requires Stands(ops, t) && Delivers(RunFake(ops), op)
    ensures Exec(t, steps) == Some(u) && Stands(ops + [op], u)
    ensures op.DrainOp? ==> u.channel == []
    ensures Fits(RunFake(ops), op) ==> MakesCall(steps, op)
  {
    hide Follows, InStep, FakeStep, Apply, Enabled, SpawnSteps, RunFake, Delivers, Exec, Fits, CancelStepOf, OneCall,
      CallsNothing,
      AfterSpawn;
    RunOneMore(ops, op);
    match op {
      case SpawnOp(r, _) =>
        SpawnFollows(ops, t, op);
        steps, u := SpawnSteps(|t.spawns|, r), AfterSpawn(t, r);
        if Fits(RunFake(ops), op) {
          SpawnMakesCall(|t.spawns|, RunFake(ops), op);
        }
      case DrainOp =>
        steps, u := DrainFollows(ops, t);
      case _ =>
        CancelFollows(ops, t, op);
        var step := CancelStepOf(RunFake(ops), op);
        ExecSingle(t, step);
        steps, u := [step], Apply(t, step);
        if Fits(RunFake(ops), op) {
          CancelMakesCall(RunFake(ops), op);
        }
    }
  }

  lemma NothingCalled(ops: seq<Op>, steps: seq<Step>)
    requires |ops| == |steps| == 0
    ensures Calls(steps) == SameCalls(ops) && Exec(INITIAL, steps) == Some(INITIAL)
  {
  }

  lemma NothingStands(ops: seq<Op>)
    requires |ops| == 0
    ensures Stands(ops, INITIAL)
  {
    assert RunFake(ops) == START;
    hide RunFake, Follows, InStep;
    StartFollows(START, INITIAL, ops);
  }

  lemma {:induction false} RunFollows(ops: seq<Op>) returns (steps: seq<Step>, t: State)
    requires AllDelivered(ops)
    ensures Exec(INITIAL, steps) == Some(t) && Stands(ops, t)
    ensures ops != [] && ops[|ops| - 1].DrainOp? ==> t.channel == []
    ensures AllFit(ops) ==> Calls(steps) == SameCalls(ops)
  {
    if ops == [] {
      hide *;
      steps, t := [], INITIAL;
      NothingCalled(ops, steps);
      NothingStands(ops);
    } else {
      hide Exec, Stands, Fits, Delivers, RunFake, MakesCall, Calls, SameCall;
      var init, op := ops[..|ops| - 1], ops[|ops| - 1];
      assert ops == init + [op];
      var before, s := RunFollows(init);
      var more;
      more, t := OpFollows(init, s, op);
      ExecConcat(INITIAL, before, more);
      steps := before + more;
      if Fits(RunFake(init), op) {
        CallsOfOp(before, more, op);
      }
    }
  }

  lemma CallsOfOp(before: seq<Step>, more: seq<Step>, op: Op)
    requires MakesCall(more, op)
    ensures Calls(before + more) == Calls(before) + SameCall(op)
  {
    hide Calls, CallsNothing, OneCall;
    if op.CloneOp? {
      NoMoreCalls(before, more);
    } else {
      OneMoreCall(before, more, SameCall(op)[0]);
    }
  }

  // ----- The main results -----

  /** What the Tokio executor still owes the sink of a spawn. */
  ghost function StillOwed(sp: Spawn): seq<TaskEvent>
    requires sp.phase.Captured()
  {
    if sp.phase.Emitted? then [] else ClosingEvents(sp)
  }

  lemma SinkAgrees(run: FakeRun, t: State, n: nat)
    requires Matches(run, t) && n < |t.spawns|
    ensures t.spawns[n].phase.Captured()
    ensures EventsOf(run.fake.log, n) == EventsOf(t.log, n) + StillOwed(t.spawns[n])
    ensures t.channel == [] ==> t.spawns[n].phase.Emitted?
  {
    hide EventsOf, MapTerminal;
    assert LogOk(t) && ChannelOk(t) && StreamOk(t, n);
    var sp := t.spawns[n];
    assert sp.phase.InChannel? || sp.phase.Emitted?;
    assert sp.phase.InChannel? ==> n in t.channel;
    assert EventsOf(t.log, n) == JobStream(sp) + Closing(sp);
    assert EventsOf(run.fake.log, n) == Whole(sp);
  }

  /**
   Every run of the fake in which no sink refuses a diagnostic is a run of the Tokio executor: the same tokens end up
   cancelled for the same reasons, every drain returns the same report, and each spawn's sink is handed the same
   events in the same order; what the Tokio executor has not handed over yet is the closing part of completions still
   in the channel. Both are called in the same way if every call fits; a spawn that does not goes through the other
   entry point, and a cancel that does not through a clone.
   */
  lemma FakeIsATokioSchedule(ops: seq<Op>) returns (steps: seq<Step>, t: State)
    requires AllDelivered(ops)
    ensures var run := RunFake(ops);
            && Exec(INITIAL, steps) == Some(t) && t.caller.Idle?
            && t.cancelled == run.fake.cancelled && t.reports == run.reports && |t.spawns| == |run.fake.spawned|
    ensures AllFit(ops) ==> Calls(steps) == SameCalls(ops)
    ensures forall n :: 0 <= n < |t.spawns| ==>
              && t.spawns[n].phase.Captured()
              && EventsOf(RunFake(ops).fake.log, n) == EventsOf(t.log, n) + StillOwed(t.spawns[n])
    ensures ops != [] && ops[|ops| - 1].DrainOp? ==>
              forall n :: 0 <= n < |t.spawns| ==> EventsOf(RunFake(ops).fake.log, n) == EventsOf(t.log, n)
  {
    steps, t := RunFollows(ops);
    hide Exec, RunFake, EventsOf, MapTerminal, Inv, StreamsMatch, HandlesMatch, AllFit, AllDelivered, ChannelActive,
      InStep;
    forall n | 0 <= n < |t.spawns|
      ensures t.spawns[n].phase.Captured()
      ensures EventsOf(RunFake(ops).fake.log, n) == EventsOf(t.log, n) + StillOwed(t.spawns[n])
      ensures t.channel == [] ==> t.spawns[n].phase.Emitted?
    {
      SinkAgrees(RunFake(ops), t, n);
    }
  }

  /**
   The same from outside: after a drain both executors have produced the same events in the same order for a task
   attempt exactly if no spawn of it that follows another one since the last drain reported anything while it ran.
   The fake has such reports after the terminal event of the other spawn, the Tokio executor before it.
   */
  lemma DrainedRunsAgreeExactly(ops: seq<Op>) returns (steps: seq<Step>, t: State)
    requires AllDelivered(ops) && ops != [] && ops[|ops| - 1].DrainOp?
    ensures Exec(INITIAL, steps) == Some(t) && t.reports == RunFake(ops).reports
    ensures AllFit(ops) ==> Calls(steps) == SameCalls(ops)
    ensures forall h :: EventsFor(RunFake(ops).fake.log, h) == EventsFor(t.log, h) <==> AllQuiet(ops, h)
  {
    hide Exec, RunFake, EventsOf, AllFit, AllDelivered, AllQuiet, EventsFor, Inv, StreamsMatch, HandlesMatch, Weight;
    steps, t := RunFollows(ops);
    InvParts(t);
    hide ChannelOk, ActiveOk, LogOk;
    forall h ensures EventsFor(RunFake(ops).fake.log, h) == EventsFor(t.log, h) <==> AllQuiet(ops, h) {
      NothingInChannelFor(t, h);
      assert AttemptApart(RunFake(ops).fake.log, t, h, AllQuiet(ops, h));
      assert EventsFor(t.log, h) + [] == EventsFor(t.log, h);
    }
  }

  /** Two spawns of one handle before a drain, the second with something to report: the streams differ. */
  lemma ReportingAgainDiffers(first: Request, again: Request) returns (ops: seq<Op>, steps: seq<Step>, t: State)
    requires again.handle == first.handle && Reports(again.actions) != []
    ensures ops == [SpawnOp(first, INFALLIBLE), SpawnOp(again, INFALLIBLE), DrainOp]
    ensures Exec(INITIAL, steps) == Some(t)
    ensures EventsFor(RunFake(ops).fake.log, first.handle) != EventsFor(t.log, first.handle)
  {
    ops := [SpawnOp(first, INFALLIBLE), SpawnOp(again, INFALLIBLE), DrainOp];
    assert ops[..2] == [SpawnOp(first, INFALLIBLE), SpawnOp(again, INFALLIBLE)];
    assert ops[..2][..1] == [SpawnOp(first, INFALLIBLE)] && ops[..1][..0] == [];
    InfallibleDelivers(ops);
    assert first.handle in RunFake(ops[..1]).recent;
    assert !AllQuiet(ops[..2], first.handle);
    hide RunFake, Exec, EventsFor;
    steps, t := DrainedRunsAgreeExactly(ops);
  }

  lemma {:induction false} InfallibleDelivers(ops: seq<Op>)
    requires forall i :: 0 <= i < |ops| && ops[i].SpawnOp? ==> ops[i].sink == INFALLIBLE
    ensures AllDelivered(ops)
  {
    if ops != [] {
      InfallibleDelivers(ops[..|ops| - 1]);
    }
  }

  // ----- What the fake remembers -----

  /** The spawns made, and the cancels that found their handle spawned before. */
  ghost function SpawnsOf(ops: seq<Op>): seq<SpawnRecord> {
    if ops == [] then []
    else
      var before, last := SpawnsOf(ops[..|ops| - 1]), ops[|ops| - 1];
      if last.SpawnOp? then before + [SpawnRecord(last.request.handle, last.request.policy)] else before
  }

  ghost function CancelsOf(ops: seq<Op>): seq<TaskHandle> {
    if ops == [] then []
    else
      var init, last := ops[..|ops| - 1], ops[|ops| - 1];
      if last.CancelOp? && SpawnedBefore(init, last.handle) then CancelsOf(init) + [last.handle] else CancelsOf(init)
  }

  ghost predicate SpawnedBefore(ops: seq<Op>, h: TaskHandle) {
    exists i :: 0 <= i < |ops| && ops[i].SpawnOp? && ops[i].request.handle == h
  }

  lemma StepIsRemembered(run: FakeRun, op: Op)
    ensures var f, g := run.fake, FakeStep(run, op).fake;
            && g.spawned
               == f.spawned + (if op.SpawnOp? then [SpawnRecord(op.request.handle, op.request.policy)] else [])
            && g.cancelRequests
               == f.cancelRequests + (if op.CancelOp? && op.handle in f.handles then [op.handle] else [])
            && g.handles.Keys == f.handles.Keys + (if op.SpawnOp? then {op.request.handle} else {})
  {
    hide MapTerminal, Emissions, Plus, One, AfterJob, AfterClones, Reports;
  }

  /** The fake's records are exactly the spawns and the cancels of spawned handles, in order. */
  lemma {:induction false} FakeRemembersCalls(ops: seq<Op>)
    ensures var f := RunFake(ops).fake; f.spawned == SpawnsOf(ops) && f.cancelRequests == CancelsOf(ops)
    ensures forall h :: h in RunFake(ops).fake.handles <==> SpawnedBefore(ops, h)
  {
    if ops != [] {
      var init, last := ops[..|ops| - 1], ops[|ops| - 1];
      FakeRemembersCalls(init);
      StepIsRemembered(RunFake(init), last);
      hide FakeStep;
      forall h
        ensures SpawnedBefore(ops, h) <==> SpawnedBefore(init, h) || (last.SpawnOp? && last.request.handle == h)
      {
        assert forall i :: 0 <= i < |init| ==> init[i] == ops[i];
      }
      assert RunFake(ops) == FakeStep(RunFake(init), last);
      assert RunFake(ops).fake.handles.Keys
          == RunFake(init).fake.handles.Keys + (if last.SpawnOp? then {last.request.handle} else {});
    }
  }

  // ----- Where the results of `cancel` differ -----

  /** Whether the sink of the last spawn of `h` took its terminal event. */
  ghost predicate TookTerminal(ops: seq<Op>, h: TaskHandle) {
    ops != [] && (
      var last := ops[|ops| - 1];
      if last.SpawnOp? && last.request.handle == h then last.sink.takesTerminal else TookTerminal(ops[..|ops| - 1], h))
  }

  lemma {:induction false} TerminalIfTaken(ops: seq<Op>, h: TaskHandle)
    requires AllDelivered(ops) && h in RunFake(ops).fake.handles
    ensures RunFake(ops).fake.handles[h].terminal <==> TookTerminal(ops, h)
  {
    if ops != [] {
      var init, last := ops[..|ops| - 1], ops[|ops| - 1];
      StepHandles(RunFake(init), last, h);
      hide FakeStep, Delivers;
      if h in RunFake(init).fake.handles {
        TerminalIfTaken(init, h);
      }
    }
  }

  lemma StepHandles(run: FakeRun, op: Op, h: TaskHandle)
    requires Delivers(run, op)
    ensures var before, after := run.fake.handles, FakeStep(run, op).fake.handles;
            if op.SpawnOp? && op.request.handle == h then h in after && after[h].terminal == op.sink.takesTerminal
            else (h in after <==> h in before) && (h in before ==> after[h] == before[h])
  {
    hide MapTerminal, Emissions, Plus, One, AfterJob, AfterClones, Reports;
  }

  /**
   The fake's `cancel` returns Ok exactly for a spawned handle whose sink refused the terminal event, because a job is
   over when its spawn returns. The Tokio executor's returns Ok exactly for handles spawned since the last drain.
   */
  lemma CancelResultsDiffer(ops: seq<Op>, h: TaskHandle) returns (steps: seq<Step>, t: State)
    requires AllDelivered(ops)
    ensures Exec(INITIAL, steps) == Some(t) && t.caller.Idle?
    ensures h in RunFake(ops).fake.handles ==> (RunFake(ops).fake.handles[h].terminal <==> TookTerminal(ops, h))
    ensures h in t.active <==> h in RunFake(ops).recent
  {
    if h in RunFake(ops).fake.handles {
      TerminalIfTaken(ops, h);
    }
    steps, t := RunFollows(ops);
    hide Exec, RunFake, Inv, StreamsMatch, HandlesMatch, AllFit, AllDelivered, ChannelActive, InStep;
    assert h in t.active.Keys <==> h in RunFake(ops).recent;
  }
}
