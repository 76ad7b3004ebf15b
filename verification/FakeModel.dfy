/**
 The fake executor (src/testing.rs): it runs a job to its end inside `spawn` and emits the terminal events at once.
 `FakeModel` says what each call does to the fake and to what it shares with others (token flags and sinks).
 */
module FakeModel {
  import opened Prelude
  import opened TaskEvents
  import opened Cancellation
  import opened Outcomes
  import opened ExecutorProtocol

  /** A cancel through a clone of a token. */
  datatype CloneCancel = CloneCancel(token: TokenId, reason: CancelReason)

  /** What a job does while it runs: report an event, or cancel some token it holds a clone of. */
  datatype JobAction = JobReports(event: JobEvent) | JobCancels(clone: CloneCancel)

  /** A job run in place either returns or panics; there is no join to fail. */
  type FakeOutcome = o: RunnableOutcome | !o.JoinFailed? witness ReturnedOk

  /**
   A spawn: through which entry point (`mode`), and with what kind of runnable. `settling` are the cancels of other
   threads between the job's return and the read of the token in the match guard.
   */
  datatype Request = Request(
    handle: TaskHandle,
    policy: TaskPolicy,
    token: TokenId,
    mode: Mode,
    runnable: Mode,
    actions: seq<JobAction>,
    outcome: FakeOutcome,
    settling: seq<CloneCancel>)

  /** Whether the sink of a request accepts the closing diagnostic and the terminal event. */
  datatype Sink = Sink(takesDiagnostic: bool, takesTerminal: bool)

  const INFALLIBLE := Sink(true, true)

  datatype FakeHandle = FakeHandle(token: TokenId, terminal: bool)

  datatype SpawnRecord = SpawnRecord(handle: TaskHandle, policy: TaskPolicy)

  datatype FakeState = FakeState(
    spawned: seq<SpawnRecord>,
    cancelRequests: seq<TaskHandle>,
    handles: map<TaskHandle, FakeHandle>,
    finished: Report,
    cancelled: Tokens,
    log: seq<Emission>)

  ghost function Reports(actions: seq<JobAction>): seq<JobEvent> {
    if actions == [] then []
    else
      var before, last := Reports(actions[..|actions| - 1]), actions[|actions| - 1];
      if last.JobReports? then before + [last.event] else before
  }

  ghost function AfterClone(tokens: Tokens, clone: CloneCancel): Tokens {
    CancelOne(tokens, clone.token, clone.reason)
  }

  /** The tokens after a number of cancels through clones. */
  ghost function AfterClones(tokens: Tokens, clones: seq<CloneCancel>): Tokens {
    if clones == [] then tokens
    else AfterClone(AfterClones(tokens, clones[..|clones| - 1]), clones[|clones| - 1])
  }

  /** The tokens after a job has run. */
  ghost function AfterJob(tokens: Tokens, actions: seq<JobAction>): Tokens {
    if actions == [] then tokens
    else
      var before, last := AfterJob(tokens, actions[..|actions| - 1]), actions[|actions| - 1];
      if last.JobCancels? then AfterClone(before, last.clone) else before
  }

  ghost function Emissions(n: nat, events: seq<TaskEvent>): seq<Emission> {
    seq(|events|, i requires 0 <= i < |events| => Emission(n, events[i]))
  }

  /** The spawn is recorded, its job has run and the tokens have settled. */
  ghost function Ran(f: FakeState, r: Request): FakeState {
    f.(spawned := f.spawned + [SpawnRecord(r.handle, r.policy)],
       handles := f.handles[r.handle := FakeHandle(r.token, false)],
       log := f.log + Emissions(|f.spawned|, Stream(r.handle, Reports(r.actions))),
       cancelled := AfterClones(AfterJob(f.cancelled, r.actions), r.settling))
  }

  ghost function TerminalOfRequest(f: FakeState, r: Request): Terminal {
    MapTerminal(r.policy, r.token in Ran(f, r).cancelled, r.outcome)
  }

  /** A sink that refuses the diagnostic stops everything; one that refuses the terminal event leaves it counted. */
  ghost predicate Delivered(terminal: Terminal, sink: Sink) {
    NeedsDiagnostic(terminal) ==> sink.takesDiagnostic
  }

  ghost predicate Accepted(terminal: Terminal, sink: Sink) {
    Delivered(terminal, sink) && sink.takesTerminal
  }

  ghost function SpawnStep(f: FakeState, r: Request, sink: Sink): FakeState {
    var ran, terminal, n := Ran(f, r), TerminalOfRequest(f, r), |f.spawned|;
    if !Delivered(terminal, sink) then
      ran.(log := ran.log + Emissions(n, Diagnostics(r.handle, terminal)))
    else
      ran.(log := ran.log + Emissions(n, Diagnostics(r.handle, terminal) + [TerminalEvent(r.handle, terminal)]),
           finished := Plus(f.finished, One(terminal)),
           handles := ran.handles[r.handle := FakeHandle(r.token, sink.takesTerminal)])
  }

  /** Even a cancel that is refused because the task is over is recorded and flips the token. */
  ghost function CancelStep(f: FakeState, h: TaskHandle): FakeState {
    if h !in f.handles then f
    else f.(cancelRequests := f.cancelRequests + [h],
           cancelled := CancelOne(f.cancelled, f.handles[h].token, USER_REQUESTED))
  }

  lemma SpawnIsExact(f: FakeState, r: Request, sink: Sink)
    ensures var g, terminal := SpawnStep(f, r, sink), TerminalOfRequest(f, r);
            && (NeedsDiagnostic(terminal) <==> Failing(r.outcome))
            && Total(g.finished) == Total(f.finished) + (if Failing(r.outcome) && !sink.takesDiagnostic then 0 else 1)
            && |g.log| - |f.log| - |Reports(r.actions)|
               == if Failing(r.outcome) && sink.takesDiagnostic then 2 else 1
  {
    hide AfterJob, AfterClones, Reports;
  }

  lemma EmissionsAppend(n: nat, events: seq<TaskEvent>, e: TaskEvent)
    ensures Emissions(n, events + [e]) == Emissions(n, events) + [Emission(n, e)]
  {
  }

  lemma StreamAppend(handle: TaskHandle, events: seq<JobEvent>, e: JobEvent)
    ensures Stream(handle, events + [e]) == Stream(handle, events) + [FromJobEvent(handle, e)]
  {
  }

  /** One more action of a job. */
  lemma ActionAppends(n: nat, handle: TaskHandle, tokens: Tokens, actions: seq<JobAction>, a: JobAction)
    ensures AfterJob(tokens, actions + [a])
            == if a.JobCancels? then AfterClone(AfterJob(tokens, actions), a.clone) else AfterJob(tokens, actions)
    ensures Reports(actions + [a]) == Reports(actions) + (if a.JobReports? then [a.event] else [])
    ensures Emissions(n, Stream(handle, Reports(actions + [a])))
            == Emissions(n, Stream(handle, Reports(actions)))
               + (if a.JobReports? then [Emission(n, FromJobEvent(handle, a.event))] else [])
  {
    assert (actions + [a])[..|actions|] == actions;
    if a.JobReports? {
      StreamAppend(handle, Reports(actions), a.event);
      EmissionsAppend(n, Stream(handle, Reports(actions)), FromJobEvent(handle, a.event));
    }
  }

  datatype FakeError = SinkFailed | HandleNotFound | AlreadyTerminal

  /** The token flags and sinks that the executor shares with jobs and callers. */
  class SharedWorld {
    var cancelled: Tokens
    var log: seq<Emission>
  }

  class FakeExecutor {
    const world: SharedWorld
    var spawned: seq<SpawnRecord>
    var cancelRequests: seq<TaskHandle>
    var handles: map<TaskHandle, FakeHandle>
    var finished: Report

    ghost function State(): FakeState
      reads this, world
    {
      FakeState(spawned, cancelRequests, handles, finished, world.cancelled, world.log)
    }

    constructor (world: SharedWorld)
      ensures this.world == world
      ensures State() == FakeState([], [], map[], EMPTY_REPORT, world.cancelled, world.log)
    {
      this.world := world;
      spawned, cancelRequests, handles, finished := [], [], map[], EMPTY_REPORT;
    }

    method Spawn(r: Request, sink: Sink) returns (result: Result<TaskHandle, FakeError>)
      modifies this, world
      ensures State() == SpawnStep(old(State()), r, sink)
      ensures result == if Accepted(TerminalOfRequest(old(State()), r), sink) then Ok(r.handle) else Err(SinkFailed)
      ensures result.Ok? <==> sink.takesTerminal && (Failing(r.outcome) ==> sink.takesDiagnostic)
      ensures spawned == old(spawned) + [SpawnRecord(r.handle, r.policy)] && cancelRequests == old(cancelRequests)
      ensures handles == old(handles)[r.handle := FakeHandle(r.token, result.Ok?)]
      // a refused diagnostic is the last thing handed over, and nothing is counted
      ensures Total(finished)
              == Total(old(finished)) + (if Failing(r.outcome) && !sink.takesDiagnostic then 0 else 1)
      ensures |world.log| - |old(world.log)| - |Reports(r.actions)|
              == if Failing(r.outcome) && sink.takesDiagnostic then 2 else 1
    {
      SpawnIsExact(State(), r, sink);
      hide MapTerminal, One, Plus, Total, AfterJob, AfterClones, Reports, Emissions, Stream, Failing;
      var n := |spawned|;
      spawned := spawned + [SpawnRecord(r.handle, r.policy)];
      handles := handles[r.handle := FakeHandle(r.token, false)];
      RunJob(n, r.handle, r.actions);
      Settle(r.settling);
      var terminal := MapTerminal(r.policy, r.token in world.cancelled, r.outcome);
      var ok := EmitTerminal(n, r.handle, terminal, sink);
      if !ok {
        return Err(SinkFailed);
      }
      handles := handles[r.handle := handles[r.handle].(terminal := true)];
      return Ok(r.handle);
    }

    /** The job runs to its end on the caller's thread. */
    method RunJob(n: nat, handle: TaskHandle, actions: seq<JobAction>)
      modifies world
      ensures world.log == old(world.log) + Emissions(n, Stream(handle, Reports(actions)))
      ensures world.cancelled == AfterJob(old(world.cancelled), actions)
    {
      for i := 0 to |actions|
        invariant world.log == old(world.log) + Emissions(n, Stream(handle, Reports(actions[..i])))
        invariant world.cancelled == AfterJob(old(world.cancelled), actions[..i])
      {
        ActionAppends(n, handle, old(world.cancelled), actions[..i], actions[i]);
        assert actions[..i] + [actions[i]] == actions[..i + 1];
        hide Reports, AfterJob, Emissions, Stream;
        match actions[i] {
          case JobReports(e) => world.log := world.log + [Emission(n, FromJobEvent(handle, e))];
          case JobCancels(c) => world.cancelled := CancelOne(world.cancelled, c.token, c.reason);
        }
      }
      assert actions[..|actions|] == actions;
    }

    method Settle(clones: seq<CloneCancel>)
      modifies world`cancelled
      ensures world.cancelled == AfterClones(old(world.cancelled), clones)
    {
      for i := 0 to |clones|
        invariant world.cancelled == AfterClones(old(world.cancelled), clones[..i])
      {
        assert clones[..i + 1][..i] == clones[..i];
        world.cancelled := CancelOne(world.cancelled, clones[i].token, clones[i].reason);
      }
      assert clones[..|clones|] == clones;
    }

    method EmitTerminal(n: nat, handle: TaskHandle, terminal: Terminal, sink: Sink) returns (ok: bool)
      modifies this`finished, world`log
      ensures ok == Accepted(terminal, sink)
      ensures !Delivered(terminal, sink) ==>
                finished == old(finished) && world.log == old(world.log) + Emissions(n, Diagnostics(handle, terminal))
      ensures Delivered(terminal, sink) ==>
                && finished == Plus(old(finished), One(terminal))
                && world.log == old(world.log) + Emissions(n, Diagnostics(handle, terminal)
                   + [TerminalEvent(handle, terminal)])
    {
      EmissionsAppend(n, Diagnostics(handle, terminal), TerminalEvent(handle, terminal));
      if NeedsDiagnostic(terminal) {
        world.log := world.log + [Emission(n, DiagnosticEvent(handle, terminal))];
        assert Emissions(n, Diagnostics(handle, terminal)) == [Emission(n, DiagnosticEvent(handle, terminal))];
        if !sink.takesDiagnostic {
          return false;
        }
      } else {
        assert Emissions(n, Diagnostics(handle, terminal)) == [];
      }
      finished := Plus(finished, One(terminal));
      world.log := world.log + [Emission(n, TerminalEvent(handle, terminal))];
      return sink.takesTerminal;
    }

    method Cancel(h: TaskHandle) returns (result: Result<(), FakeError>)
      modifies this`cancelRequests, world`cancelled
      ensures State() == CancelStep(old(State()), h)
      ensures result == if h !in handles then Err(HandleNotFound)
                        else if handles[h].terminal then Err(AlreadyTerminal)
                        else Ok(())
      ensures cancelRequests == old(cancelRequests) + (if h in handles then [h] else [])
      ensures world.cancelled
              == if h !in handles || handles[h].token in old(world.cancelled) then old(world.cancelled)
                 else old(world.cancelled)[handles[h].token
                                           := CancelReason(UserRequested, "user requested cancellation")]
    {
      if h !in handles {
        return Err(HandleNotFound);
      }
      cancelRequests := cancelRequests + [h];
      world.cancelled := CancelOne(world.cancelled, handles[h].token, USER_REQUESTED);
      if handles[h].terminal {
        return Err(AlreadyTerminal);
      }
      return Ok(());
    }

    method DrainFinished() returns (report: Report)
      modifies this`finished
      ensures report == old(finished) && State() == old(State()).(finished := EMPTY_REPORT)
    {
      report := finished;
      finished := EMPTY_REPORT;
    }
  }
}
