/**
 The executor object (src/runtime_tokio.rs). Its methods update their fields in place while other threads keep
 running: each takes, as a parameter, the background steps that happen to fall between its own actions. Every call
 is proved to be a run of the transition system.
 */
module TokioExecutor {
  import opened Prelude
  import opened TaskEvents
  import opened Cancellation
  import opened Outcomes
  import opened ExecutorProtocol
  import opened ExecutorTheorems

  /** Steps of jobs, watchers and holders of token clones. */
  predicate IsBackground(step: Step) {
    step.JobEmit? || step.JobEnd? || step.Snapshot? || step.Send? || step.CancelToken?
  }

  /** What other threads do around one turn of the receive loop. */
  datatype Race = Race(beforeReceive: seq<Step>, beforeDiagnostic: seq<Step>, beforeEvent: seq<Step>)

  datatype ExecutorError = InvalidRequest | CancellationFailed

  /** Each counter of a report is the number of terminal events of its own kind by which a log has grown. */
  ghost predicate CountsEvents(r: Report, before: seq<Emission>, after: seq<Emission>) {
    && r.completed == Occurrences(after, Completed) - Occurrences(before, Completed)
    && r.failed == Occurrences(after, Failed) - Occurrences(before, Failed)
    && r.cancelled == Occurrences(after, Cancelled) - Occurrences(before, Cancelled)
    && r.finishedAfterCancel == Occurrences(after, FinishedAfterCancel) - Occurrences(before, FinishedAfterCancel)
    && r.failedToCancel == Occurrences(after, FailedToCancel) - Occurrences(before, FailedToCancel)
  }

  class TokioTaskExecutor {
    // shared with the jobs and their watchers
    var spawns: seq<Spawn>
    var cancelled: Tokens
    var log: seq<Emission>
    var channel: seq<nat>
    // owned by the supervisor
    var active: map<TaskHandle, nat>
    ghost var caller: Caller
    ghost var reports: seq<Report>

    ghost function World(): State
      reads this
    {
      State(spawns, cancelled, active, channel, caller, log, reports)
    }

    ghost predicate Valid()
      reads this
    {
      Inv(World()) && caller.Idle?
    }

    constructor ()
      ensures Valid() && World() == INITIAL
    {
      spawns, cancelled, log, channel, active := [], map[], [], [], map[];
      caller, reports := Idle, [];
      new;
      NothingYet(World());
    }

    /** Other threads run: those of the given steps that can be taken are taken, in order. */
    method Interfere(steps: seq<Step>) returns (ghost taken: seq<Step>)
      requires Inv(World())
      modifies this`spawns, this`cancelled, this`log, this`channel
      ensures Inv(World()) && Exec(old(World()), taken) == Some(World())
      ensures forall i :: 0 <= i < |taken| ==> IsBackground(taken[i])
    {
      taken := [];
      for i := 0 to |steps|
        invariant Inv(World()) && Exec(old(World()), taken) == Some(World())
        invariant forall i :: 0 <= i < |taken| ==> IsBackground(taken[i])
      {
        ghost var w := World();
        hide Exec, Inv;
        ghost var happened := Background(steps[i]);
        if happened {
          Advance(old(World()), taken, w, steps[i]);
          taken := taken + [steps[i]];
        }
      }
    }

    /** One step of another thread, if it can be taken now. */
    method Background(step: Step) returns (ghost happened: bool)
      modifies this`spawns, this`cancelled, this`log, this`channel
      ensures happened == (IsBackground(step) && Enabled(old(World()), step))
      ensures World() == if happened then Apply(old(World()), step) else old(World())
    {
      happened := true;
      match step {
        case JobEmit(n, e) =>
          if n < |spawns| && spawns[n].phase.Running? {
            log := log + [Emission(n, FromJobEvent(spawns[n].handle, e))];
            spawns := spawns[n := spawns[n].(jobEvents := spawns[n].jobEvents + [e])];
            return;
          }
        case JobEnd(n, outcome) =>
          if n < |spawns| && spawns[n].phase.Running? {
            spawns := spawns[n := spawns[n].(phase := Ended(outcome))];
            return;
          }
        case Snapshot(n) =>
          if n < |spawns| && spawns[n].phase.Ended? {
            var seen := spawns[n].token in cancelled;
            spawns := spawns[n := spawns[n].(phase := Snapshotted(Completion(seen, spawns[n].phase.outcome)))];
            return;
          }
        case Send(n) =>
          if n < |spawns| && spawns[n].phase.Snapshotted? {
            spawns := spawns[n := spawns[n].(phase := InChannel(spawns[n].phase.completion))];
            channel := channel + [n];
            return;
          }
        case CancelToken(token, reason) =>
          cancelled := CancelOne(cancelled, token, reason);
          return;
        case _ =>
      }
      happened := false;
    }

    /** A mode mismatch is rejected before anything runs; otherwise the job races with the insertion. */
    method Spawn(handle: TaskHandle, policy: TaskPolicy, token: TokenId, mode: Mode, runnable: Mode, race: seq<Step>)
      returns (r: Result<TaskHandle, ExecutorError>, ghost steps: seq<Step>)
      requires Valid()
      modifies this
      ensures Valid() && Exec(old(World()), steps) == Some(World())
      ensures r == if mode != runnable then Err(InvalidRequest) else Ok(handle)
      ensures r.Err? ==> World() == old(World())
      ensures r.Ok? ==>
                && active == old(active)[handle := |old(spawns)|]
                && |spawns| == |old(spawns)| + 1
                && var sp := spawns[|old(spawns)|]; sp.handle == handle && sp.policy == policy && sp.token == token
      // every undrained spawn stays within reach of `Cancel` exactly if the handle was not active before the call
      ensures r.Ok? && old(Tracked(World())) ==> (Tracked(World()) <==> handle !in old(active))
    {
      if mode != runnable {
        return Err(InvalidRequest), [];
      }
      var n := |spawns|;
      ghost var w0, launch := World(), Launch(handle, policy, token, mode, runnable);
      spawns := spawns + [ExecutorProtocol.Spawn(handle, policy, token, [], Running)];
      caller := Inserting(n);
      ghost var w1 := World();
      assert w1 == Apply(w0, launch);
      Advance(w0, [], w0, launch);
      assert [] + [launch] == [launch];

      ghost var taken := Interfere(race);

      ghost var w2 := World();
      BackgroundKeeps(w1, taken);
      SpawnTracking(w0, launch, taken, w2);
      hide Exec, Inv, Tracked;
      active := active[handle := n];
      caller := Idle;
      assert Enabled(w2, Insert) && World() == Apply(w2, Insert);
      hide Apply, Enabled;
      ExecConcat(w0, [launch], taken);
      Advance(w0, [launch] + taken, w2, Insert);
      return Ok(handle), [launch] + taken + [Insert];
    }

    /** Succeeds exactly for the handles in the active map, and cancels the token stored there for the user. */
    method Cancel(handle: TaskHandle) returns (r: Result<(), ExecutorError>)
      requires Valid()
      modifies this`cancelled
      ensures Valid() && World() == Apply(old(World()), CancelHandle(handle))
      ensures r.Ok? <==> handle in active
      ensures cancelled
              == if handle !in active || spawns[active[handle]].token in old(cancelled) then old(cancelled)
                 else old(cancelled)[spawns[active[handle]].token
                                     := CancelReason(UserRequested, "user requested cancellation")]
      ensures old(Tracked(World())) ==>
                && Tracked(World())
                && forall n: nat :: Undrained(World(), n) && spawns[n].handle == handle ==>
                   r.Ok? && spawns[n].token in cancelled
    {
      StepKeepsInv(World(), CancelHandle(handle));
      assert ActiveOk(World());
      if handle !in active {
        return Err(CancellationFailed);
      }
      cancelled := CancelOne(cancelled, spawns[active[handle]].token, USER_REQUESTED);
      return Ok(());
    }

    /** Other threads race with the i-th turn as `schedule[i]` says; the drain ends when it finds the channel empty. */
    method DrainFinished(schedule: seq<Race>) returns (report: Report, ghost steps: seq<Step>)
      requires Valid()
      modifies this
      ensures Valid() && Exec(old(World()), steps) == Some(World())
      ensures reports == old(reports) + [report] && channel == []
      ensures Total(report) == |EmittedSpawns(World())| - |EmittedSpawns(old(World()))|
      ensures CountsEvents(report, old(log), log)
      ensures |spawns| == |old(spawns)| && (old(Tracked(World())) ==> Tracked(World()))
    {
      report := EMPTY_REPORT;
      ghost var w0 := World();
      StepKeepsInv(w0, BeginDrain);
      caller := Draining(report);
      assert World() == Apply(w0, BeginDrain);
      steps := [BeginDrain];
      assert Exec(w0, steps) == Some(World());
      assert steps[0].BeginDrain? && SpawnsNothing(steps);
      var i := 0;
      hide *;

      while true
        invariant Inv(World()) && Exec(w0, steps) == Some(World())
        invariant caller == Draining(report) && reports == old(reports) && SpawnsNothing(steps)
        decreases |UndrainedSpawns(World())|
      {
        ghost var w1 := World();
        var race := if i < |schedule| then schedule[i] else Race([], [], []);
        ghost var more := Interfere(race.beforeReceive);
        i := i + 1;
        BackgroundIsQuiet(more);
        QuietDrainsNothing(w1, more);
        ExecConcat(w0, steps, more);
        SpawnsNothingConcat(steps, more);
        steps := steps + more;
        if channel == [] {
          break;
        }
        report, more := ReceiveNext(report, race);
        ExecConcat(w0, steps, more);
        SpawnsNothingConcat(steps, more);
        steps := steps + more;
      }

      steps := FinishDrain(w0, report, steps);
    }

    /** The receive loop found the channel empty. */
    ghost method FinishDrain(w0: State, report: Report, before: seq<Step>) returns (steps: seq<Step>)
      requires Inv(World()) && Exec(w0, before) == Some(World()) && Inv(w0) && w0.caller.Idle?
      requires caller == Draining(report) && reports == w0.reports && channel == [] && SpawnsNothing(before)
      modifies this`caller, this`reports
      ensures Valid() && Exec(w0, steps) == Some(World())
      ensures reports == w0.reports + [report]
      ensures Total(report) == |EmittedSpawns(World())| - |EmittedSpawns(w0)|
      ensures CountsEvents(report, w0.log, log)
      ensures |spawns| == |w0.spawns| && (Tracked(w0) ==> Tracked(World()))
    {
      ghost var w := World();
      caller := Idle;
      reports := reports + [report];
      assert World() == Apply(w, EndDrain);
      ExecOne(w0, before, EndDrain);
      StepKeepsInv(w, EndDrain);
      steps := before + [EndDrain];
      ReportOfDrain(w0, World(), report);
      assert SpawnsNothing(steps);
      hide Inv, Exec, SpawnsNothing, Tracked;
      NothingSpawned(w0, steps);
    }

    /** One turn of the receive loop. */
    method ReceiveNext(before: Report, race: Race) returns (report: Report, ghost steps: seq<Step>)
      requires Inv(World()) && caller == Draining(before) && channel != []
      modifies this`spawns, this`cancelled, this`log, this`caller, this`channel, this`active
      ensures Inv(World()) && Exec(old(World()), steps) == Some(World())
      ensures caller == Draining(report) && SpawnsNothing(steps)
      ensures |UndrainedSpawns(World())| == |UndrainedSpawns(old(World()))| - 1
    {
      ghost var w := World();
      InvChannel(w);
      var n := channel[0];
      channel := channel[1..];
      active := active - {spawns[n].handle};
      spawns := spawns[n := spawns[n].(phase := Received(spawns[n].phase.completion))];
      caller := Emitting(before, n);
      assert World() == Apply(w, Receive);
      StepKeepsInv(w, Receive);
      StepShrinksUndrained(w, Receive);
      assert Exec(w, [Receive]) == Some(World());
      hide Inv, Exec, UndrainedSpawns, Quiet, SpawnsNothing, Apply, Enabled;
      ghost var middle := World();
      report, steps := EmitTerminal(n, before, race);
      QuietDrainsNothing(middle, steps);
      ExecConcat(w, [Receive], steps);
      ReceiveThenQuiet(steps);
      steps := [Receive] + steps;
    }

    /** Other threads run, but a spawn already taken out of the channel is no longer theirs. */
    method InterfereAround(n: nat, steps: seq<Step>) returns (ghost taken: seq<Step>)
      requires Inv(World()) && n < |spawns| && spawns[n].phase.Drained()
      modifies this`spawns, this`cancelled, this`log, this`channel
      ensures Inv(World()) && Exec(old(World()), taken) == Some(World()) && Quiet(taken)
      ensures n < |spawns| && spawns[n] == old(spawns[n])
    {
      ghost var w := World();
      taken := Interfere(steps);
      BackgroundIsQuiet(taken);
      BackgroundKeeps(w, taken);
    }

    /** The emission closure of one completion: diagnostic first, then counter and terminal event. */
    method EmitTerminal(n: nat, before: Report, race: Race) returns (report: Report, ghost steps: seq<Step>)
      requires Inv(World()) && caller == Emitting(before, n) && n < |spawns| && spawns[n].phase.Received?
      modifies this`spawns, this`cancelled, this`log, this`channel, this`caller
      ensures Inv(World()) && Exec(old(World()), steps) == Some(World()) && Quiet(steps)
      ensures caller == Draining(report) && report == Plus(before, One(old(TerminalOf(spawns[n]))))
    {
      ghost var w := World();
      hide Exec, Inv, Apply, MapTerminal, One, Plus, Move, CancelActive, Quiet;
      steps := InterfereAround(n, race.beforeDiagnostic);
      if NeedsDiagnostic(TerminalOf(spawns[n])) {
        ghost var w1 := World();
        assert Enabled(w1, Diagnose);
        EmitDiagnostic(n, before);
        Advance(w, steps, w1, Diagnose);
        QuietOneMore(steps, Diagnose);
        steps := steps + [Diagnose];
      }
      ghost var w2 := World();
      ghost var more := InterfereAround(n, race.beforeEvent);
      ExecConcat(w, steps, more);
      QuietConcat(steps, more);
      steps := steps + more;
      ghost var w3 := World();
      assert Enabled(w3, Emit);
      report := EmitLifecycle(n, before);
      Advance(w, steps, w3, Emit);
      QuietOneMore(steps, Emit);
      steps := steps + [Emit];
    }

    method EmitDiagnostic(n: nat, before: Report)
      requires caller == Emitting(before, n) && Enabled(World(), Diagnose)
      modifies this`spawns, this`log
      ensures World() == Apply(old(World()), Diagnose) && caller == old(caller)
      ensures n < |spawns| && spawns[n] == old(spawns[n]).(phase := Diagnosed(old(spawns[n].phase.completion)))
    {
      log := log + [Emission(n, DiagnosticEvent(spawns[n].handle, TerminalOf(spawns[n])))];
      spawns := spawns[n := spawns[n].(phase := Diagnosed(spawns[n].phase.completion))];
    }

    method EmitLifecycle(n: nat, before: Report) returns (report: Report)
      requires caller == Emitting(before, n) && Enabled(World(), Emit)
      modifies this`spawns, this`log, this`caller
      ensures World() == Apply(old(World()), Emit)
      ensures caller == Draining(report) && report == Plus(before, One(old(TerminalOf(spawns[n]))))
    {
      var terminal := TerminalOf(spawns[n]);
      report := Plus(before, One(terminal));
      log := log + [Emission(n, TerminalEvent(spawns[n].handle, terminal))];
      spawns := spawns[n := spawns[n].(phase := Emitted(spawns[n].phase.completion))];
      caller := Draining(report);
    }
  }

  /** One more step of a run that keeps the invariant. */
  lemma Advance(start: State, steps: seq<Step>, s: State, step: Step)
    requires Exec(start, steps) == Some(s) && Inv(s) && Enabled(s, step)
    ensures Exec(start, steps + [step]) == Some(Apply(s, step)) && Inv(Apply(s, step))
  {
    ExecOne(start, steps, step);
    StepKeepsInv(s, step);
  }

  /** Steps of a drain that neither take anything out of the channel nor end it. */
  predicate Quiet(steps: seq<Step>) {
    SpawnsNothing(steps) && forall i :: 0 <= i < |steps| ==> !steps[i].Receive? && !steps[i].EndDrain?
  }

  lemma QuietOneMore(steps: seq<Step>, step: Step)
    requires Quiet(steps) && (step.Diagnose? || step.Emit?)
    ensures Quiet(steps + [step])
  {
  }

  lemma QuietConcat(steps: seq<Step>, more: seq<Step>)
    requires Quiet(steps) && Quiet(more)
    ensures Quiet(steps + more)
  {
  }

  lemma ReceiveThenQuiet(more: seq<Step>)
    requires Quiet(more)
    ensures SpawnsNothing([Receive] + more)
  {
  }

  predicate SpawnsNothing(steps: seq<Step>) {
    forall i :: 0 <= i < |steps| ==> !steps[i].Launch? && !steps[i].Insert?
  }

  lemma SpawnsNothingConcat(steps: seq<Step>, more: seq<Step>)
    requires SpawnsNothing(steps) && SpawnsNothing(more)
    ensures SpawnsNothing(steps + more)
  {
  }

  /** Without an insertion there is nothing to overwrite an entry. */
  lemma {:induction false} NothingSpawned(s: State, steps: seq<Step>)
    requires Inv(s) && Exec(s, steps).Some? && SpawnsNothing(steps)
    ensures var t := Exec(s, steps).value; |t.spawns| == |s.spawns| && (Tracked(s) ==> Tracked(t))
  {
    if steps != [] {
      var init, last := steps[..|steps| - 1], steps[|steps| - 1];
      NothingSpawned(s, init);
      ExecKeepsInv(s, init);
      var before := Exec(s, init).value;
      hide Exec, MapTerminal, CancelActive;
      assert ChannelOk(before) && CallerOk(before) && ActiveOk(before);
      hide Inv, ChannelOk, CallerOk, ActiveOk, Tracked;
      if Tracked(before) {
        TrackingLostOnlyByOverwriting(before, last);
      }
    }
  }

  /** What one spawn does to the tracking of all: nothing up to the insertion. */
  lemma SpawnTracking(s: State, launch: Step, taken: seq<Step>, t: State)
    requires Inv(s) && launch.Launch? && Enabled(s, launch) && launch.mode == launch.runnable
    requires Exec(Apply(s, launch), taken) == Some(t) && forall i :: 0 <= i < |taken| ==> IsBackground(taken[i])
    ensures Tracked(s) && Enabled(t, Insert) ==>
              (Tracked(Apply(t, Insert)) <==> launch.handle !in s.active)
  {
    var u := Apply(s, launch);
    assert ChannelOk(s) && CallerOk(s) && ActiveOk(s);
    StepKeepsInv(s, launch);
    BackgroundKeeps(u, taken);
    BackgroundIsQuiet(taken);
    ExecKeepsInv(u, taken);
    NothingSpawned(u, taken);
    hide Exec;
    assert ChannelOk(t) && CallerOk(t) && ActiveOk(t);
    hide Inv, ChannelOk, CallerOk, ActiveOk, Tracked;
    if Tracked(s) && Enabled(t, Insert) {
      TrackingLostOnlyByOverwriting(s, launch);
      TrackingLostOnlyByOverwriting(t, Insert);
    }
  }

  lemma BackgroundIsQuiet(steps: seq<Step>)
    requires forall i :: 0 <= i < |steps| ==> IsBackground(steps[i])
    ensures Quiet(steps)
  {
  }

  lemma QuietDrainsNothing(s: State, steps: seq<Step>)
    requires Exec(s, steps).Some? && InDrain(s) && Quiet(steps)
    ensures |UndrainedSpawns(Exec(s, steps).value)| == |UndrainedSpawns(s)|
  {
    DrainIsBounded(s, steps);
    NoReceives(steps);
  }

  lemma {:induction false} NoReceives(steps: seq<Step>)
    requires forall i :: 0 <= i < |steps| ==> !steps[i].Receive?
    ensures Receives(steps) == 0
  {
    if steps != [] {
      NoReceives(steps[..|steps| - 1]);
    }
  }

  lemma InvChannel(s: State)
    requires Inv(s)
    ensures ChannelOk(s)
  {
  }

  /**
   Background steps leave the supervisor alone, change only how far a spawn is, and leave a drained spawn as it is.
   */
  lemma {:induction false} BackgroundKeeps(s: State, steps: seq<Step>)
    requires Exec(s, steps).Some? && forall i :: 0 <= i < |steps| ==> IsBackground(steps[i])
    ensures var t := Exec(s, steps).value;
            && |t.spawns| == |s.spawns| && t.caller == s.caller && t.active == s.active && t.reports == s.reports
            && forall n :: 0 <= n < |s.spawns| ==>
                 && t.spawns[n].(phase := s.spawns[n].phase, jobEvents := s.spawns[n].jobEvents) == s.spawns[n]
                 && (s.spawns[n].phase.Drained() ==> t.spawns[n] == s.spawns[n])
  {
    if steps != [] {
      BackgroundKeeps(s, steps[..|steps| - 1]);
    }
  }

  lemma ReportOfDrain(s: State, t: State, report: Report)
    requires Inv(s) && Inv(t) && s.caller.Idle? && t.caller.Idle? && t.reports == s.reports + [report]
    ensures Total(report) == |EmittedSpawns(t)| - |EmittedSpawns(s)|
    ensures CountsEvents(report, s.log, t.log)
  {
    assert t.reports[..|s.reports|] == s.reports;
    assert TotalOk(s) && TotalOk(t) && CountersOk(s) && CountersOk(t);
    hide Inv, TotalOk, EmittedSpawns, Occurrences;
  }
}
