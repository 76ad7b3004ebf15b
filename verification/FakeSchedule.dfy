/**
 The fake executor as one schedule of the Tokio executor: each spawn runs, ends, is snapshotted and sent at once,
 and a drain receives everything. This module has the schedule of one spawn and of one drain.
 */
module FakeSchedule {
  import opened Prelude
  import opened TaskEvents
  import opened Outcomes
  import opened ExecutorProtocol
  import opened FakeModel

  // ----- The Tokio schedule of one fake spawn -----

  ghost function BodySteps(n: nat, actions: seq<JobAction>): seq<Step> {
    seq(|actions|, i requires 0 <= i < |actions| =>
      match actions[i]
      case JobReports(e) => JobEmit(n, e)
      case JobCancels(c) => CancelToken(c.token, c.reason))
  }

  ghost function SettleSteps(clones: seq<CloneCancel>): seq<Step> {
    seq(|clones|, i requires 0 <= i < |clones| => CancelToken(clones[i].token, clones[i].reason))
  }

  /** The call goes through the entry point that fits the runnable, whichever one the fake was called through. */
  ghost function LaunchOf(r: Request): Step {
    Launch(r.handle, r.policy, r.token, r.runnable, r.runnable)
  }

  ghost function SpawnSteps(n: nat, r: Request): seq<Step> {
    [LaunchOf(r), Insert]
    + BodySteps(n, r.actions) + [JobEnd(n, r.outcome)] + SettleSteps(r.settling) + [Snapshot(n), Send(n)]
  }

  lemma {:induction false} BodyRuns(s: State, n: nat, actions: seq<JobAction>)
    requires At(s, n) && s.spawns[n].phase.Running?
    ensures var sp := s.spawns[n];
            Exec(s, BodySteps(n, actions))
            == Some(s.(spawns := s.spawns[n := sp.(jobEvents := sp.jobEvents + Reports(actions))],
                       cancelled := AfterJob(s.cancelled, actions),
                       log := s.log + Emissions(n, Stream(sp.handle, Reports(actions)))))
    decreases |actions|
  {
    if actions == [] {
      assert Emissions(n, Stream(s.spawns[n].handle, Reports(actions))) == [];
      var sp := s.spawns[n];
      assert sp.jobEvents + Reports(actions) == sp.jobEvents && s.log + [] == s.log;
      assert s.spawns[n := sp.(jobEvents := sp.jobEvents)] == s.spawns;
    } else {
      var init, a := actions[..|actions| - 1], actions[|actions| - 1];
      BodyRuns(s, n, init);
      ActionAppends(n, s.spawns[n].handle, s.cancelled, init, a);
      assert actions == init + [a];
      var step := if a.JobReports? then JobEmit(n, a.event) else CancelToken(a.clone.token, a.clone.reason);
      assert BodySteps(n, actions) == BodySteps(n, init) + [step];
      ExecOne(s, BodySteps(n, init), step);
      hide Exec, BodySteps, Reports, AfterJob, Emissions, Stream;
      var sp, before := s.spawns[n], Exec(s, BodySteps(n, init)).value;
      if a.JobReports? {
        var m := Emission(n, FromJobEvent(sp.handle, a.event));
        assert s.log + Emissions(n, Stream(sp.handle, Reports(init))) + [m]
          == s.log + Emissions(n, Stream(sp.handle, Reports(actions)));
        assert sp.jobEvents + Reports(init) + [a.event] == sp.jobEvents + Reports(actions);
        assert before.spawns[n := before.spawns[n].(jobEvents := sp.jobEvents + Reports(actions))]
            == s.spawns[n := sp.(jobEvents := sp.jobEvents + Reports(actions))];
      }
    }
  }

  lemma {:induction false} SettleRuns(s: State, clones: seq<CloneCancel>)
    ensures Exec(s, SettleSteps(clones)) == Some(s.(cancelled := AfterClones(s.cancelled, clones)))
    decreases |clones|
  {
    if clones != [] {
      var init, c := clones[..|clones| - 1], clones[|clones| - 1];
      SettleRuns(s, init);
      assert SettleSteps(clones) == SettleSteps(init) + [CancelToken(c.token, c.reason)];
      ExecOne(s, SettleSteps(init), CancelToken(c.token, c.reason));
    }
  }

  /** The spawn as it stands once its completion is in the channel. */
  ghost function Finished(cancelled: Tokens, r: Request): Spawn {
    Spawn(r.handle, r.policy, r.token, Reports(r.actions), InChannel(Completion(r.token in cancelled, r.outcome)))
  }

  ghost function AfterSpawn(s: State, r: Request): State {
    var n, cancelled := |s.spawns|, AfterClones(AfterJob(s.cancelled, r.actions), r.settling);
    s.(spawns := s.spawns + [Finished(cancelled, r)], cancelled := cancelled, active := s.active[r.handle := n],
       channel := s.channel + [n], log := s.log + Emissions(n, Stream(r.handle, Reports(r.actions))))
  }

  lemma ExecTwo(s: State, a: Step, b: Step)
    requires Enabled(s, a) && Enabled(Apply(s, a), b)
    ensures Exec(s, [a, b]) == Some(Apply(Apply(s, a), b))
  {
    assert Exec(s, [a]) == Some(Apply(s, a));
    ExecOne(s, [a], b);
    assert [a] + [b] == [a, b];
  }

  lemma LaunchRuns(s: State, r: Request)
    requires s.caller.Idle?
    ensures Exec(s, [LaunchOf(r), Insert])
            == Some(s.(spawns := s.spawns + [Spawn(r.handle, r.policy, r.token, [], Running)],
                       active := s.active[r.handle := |s.spawns|]))
  {
    hide Exec;
    ExecTwo(s, LaunchOf(r), Insert);
  }

  lemma SendRuns(s: State, n: nat)
    requires At(s, n) && s.spawns[n].phase.Ended?
    ensures var sp := s.spawns[n];
            Exec(s, [Snapshot(n), Send(n)])
            == Some(s.(spawns := Move(s, n, InChannel(Completion(sp.token in s.cancelled, sp.phase.outcome))),
                       channel := s.channel + [n]))
  {
    hide Exec, MapTerminal, CancelActive;
    var u := Apply(s, Snapshot(n));
    assert Apply(u, Send(n)).spawns == Move(s, n, InChannel(u.spawns[n].phase.completion));
    ExecTwo(s, Snapshot(n), Send(n));
  }

  /** From the launch to the end of the job. */
  lemma JobRuns(s: State, r: Request)
    requires s.caller.Idle?
    ensures var n := |s.spawns|;
            var head := [LaunchOf(r), Insert];
            Exec(s, head + BodySteps(n, r.actions) + [JobEnd(n, r.outcome)])
            == Some(s.(spawns := s.spawns + [Spawn(r.handle, r.policy, r.token, Reports(r.actions), Ended(r.outcome))],
                       active := s.active[r.handle := n], cancelled := AfterJob(s.cancelled, r.actions),
                       log := s.log + Emissions(n, Stream(r.handle, Reports(r.actions)))))
  {
    var n := |s.spawns|;
    var head := [LaunchOf(r), Insert];
    var body := BodySteps(n, r.actions);
    LaunchRuns(s, r);
    var s1 := Exec(s, head).value;
    BodyRuns(s1, n, r.actions);
    ExecConcat(s, head, body);
    ExecOne(s, head + body, JobEnd(n, r.outcome));
    hide Exec, BodySteps, Reports, AfterJob, Emissions, Stream;
    assert [] + Reports(r.actions) == Reports(r.actions);
    var s2 := Exec(s1, body).value;
    assert s2.spawns[n] == Spawn(r.handle, r.policy, r.token, Reports(r.actions), Running);
    assert Move(s2, n, Ended(r.outcome))
        == s.spawns + [Spawn(r.handle, r.policy, r.token, Reports(r.actions), Ended(r.outcome))];
  }

  /** The schedule of a spawn can be taken from any idle state, and leaves the completion in the channel. */
  lemma SpawnRuns(s: State, r: Request)
    requires s.caller.Idle?
    ensures Exec(s, SpawnSteps(|s.spawns|, r)) == Some(AfterSpawn(s, r))
  {
    var n := |s.spawns|;
    var body, tail := BodySteps(n, r.actions), SettleSteps(r.settling);
    JobRuns(s, r);
    var work := [LaunchOf(r), Insert] + body + [JobEnd(n, r.outcome)];
    var s1 := Exec(s, work).value;
    SettleRuns(s1, r.settling);
    ExecConcat(s, work, tail);
    var s2 := Exec(s1, tail).value;
    SendRuns(s2, n);
    ExecConcat(s, work + tail, [Snapshot(n), Send(n)]);
    hide Exec, BodySteps, SettleSteps, Reports, AfterJob, AfterClones, Emissions, Stream;
    assert AfterSpawn(s, r) == Exec(s2, [Snapshot(n), Send(n)]).value;
  }

  // ----- The drain that receives everything -----

  ghost predicate AllFinished(s: State) {
    forall n :: 0 <= n < |s.spawns| ==> s.spawns[n].phase.InChannel? || s.spawns[n].phase.Emitted?
  }

  /** The outcomes waiting in the channel, in order. */
  ghost function Owed(s: State): seq<Terminal>
    requires ChannelOk(s)
  {
    seq(|s.channel|, i requires 0 <= i < |s.channel| => TerminalOf(s.spawns[s.channel[i]]))
  }

  ghost function Ones(terminals: seq<Terminal>): Report {
    if terminals == [] then EMPTY_REPORT
    else Plus(Ones(terminals[..|terminals| - 1]), One(terminals[|terminals| - 1]))
  }

  lemma {:induction false} OnesFromTheFront(report: Report, terminals: seq<Terminal>)
    requires terminals != []
    ensures Plus(report, Ones(terminals)) == Plus(Plus(report, One(terminals[0])), Ones(terminals[1..]))
    decreases |terminals|
  {
    hide One;
    if |terminals| > 1 {
      var init := terminals[..|terminals| - 1];
      OnesFromTheFront(report, init);
      assert terminals[1..][..|terminals| - 2] == init[1..];
    } else {
      assert terminals[..0] == [] && terminals[1..] == [];
    }
  }

  /** What the executor adds to a job's own events. */
  ghost function ClosingEvents(sp: Spawn): seq<TaskEvent>
    requires sp.phase.Captured()
  {
    Diagnostics(sp.handle, TerminalOf(sp)) + [TerminalEvent(sp.handle, TerminalOf(sp))]
  }

  /** A call of the executor's one caller begins. */
  predicate IsCall(step: Step) {
    step.Launch? || step.CancelHandle? || step.BeginDrain?
  }

  ghost predicate CallsNothing(steps: seq<Step>) {
    forall i :: 0 <= i < |steps| ==> !IsCall(steps[i])
  }

  /** One call and all that follows from it. */
  ghost predicate OneCall(steps: seq<Step>, call: Step) {
    steps != [] && steps[0] == call && IsCall(call) && CallsNothing(steps[1..])
  }

  lemma SpawnIsOneCall(n: nat, r: Request)
    ensures OneCall(SpawnSteps(n, r), LaunchOf(r))
  {
  }

  lemma CallsNothingConcat(steps: seq<Step>, more: seq<Step>)
    requires CallsNothing(steps) && CallsNothing(more)
    ensures CallsNothing(steps + more)
  {
  }

  /** What draining the completions of a channel, in order, adds to the log. */
  ghost function ClosingLog(spawns: seq<Spawn>, channel: seq<nat>): seq<Emission>
    requires forall i :: 0 <= i < |channel| ==> channel[i] < |spawns| && spawns[channel[i]].phase.Captured()
  {
    if channel == [] then []
    else Emissions(channel[0], ClosingEvents(spawns[channel[0]])) + ClosingLog(spawns, channel[1..])
  }

  lemma {:induction false} ClosingLogElsewhere(spawns: seq<Spawn>, others: seq<Spawn>, channel: seq<nat>)
    requires forall i :: 0 <= i < |channel| ==>
               channel[i] < |spawns| && spawns[channel[i]].phase.Captured() && channel[i] < |others|
                 && others[channel[i]] == spawns[channel[i]]
    ensures ClosingLog(others, channel) == ClosingLog(spawns, channel)
    decreases |channel|
  {
    if channel != [] {
      ClosingLogElsewhere(spawns, others, channel[1..]);
    }
  }

  lemma {:induction false} ClosingLogAppend(spawns: seq<Spawn>, channel: seq<nat>, n: nat)
    requires forall i :: 0 <= i < |channel| ==> channel[i] < |spawns| && spawns[channel[i]].phase.Captured()
    requires n < |spawns| && spawns[n].phase.Captured()
    ensures ClosingLog(spawns, channel + [n]) == ClosingLog(spawns, channel) + Emissions(n, ClosingEvents(spawns[n]))
    decreases |channel|
  {
    hide ClosingEvents, Emissions;
    if channel == [] {
      assert (channel + [n])[1..] == [];
      assert ClosingLog(spawns, []) == [];
    } else {
      assert (channel + [n])[1..] == channel[1..] + [n];
      ClosingLogAppend(spawns, channel[1..], n);
    }
  }

  /** One completion: received, diagnosed when it needs to be, emitted. */
  lemma ReceiveRuns(s: State) returns (steps: seq<Step>, t: State)
    requires Inv(s) && s.caller.Draining? && s.channel != []
    ensures Exec(s, steps) == Some(t) && Inv(t)
    ensures var n := s.channel[0];
            && t.caller == Draining(Plus(s.caller.report, One(TerminalOf(s.spawns[n]))))
            && t.channel == s.channel[1..] && t.cancelled == s.cancelled && t.reports == s.reports
            && t.active == s.active - {s.spawns[n].handle}
            && t.spawns == Move(s, n, Emitted(s.spawns[n].phase.completion))
            && t.log == s.log + Emissions(n, ClosingEvents(s.spawns[n])) && CallsNothing(steps)
  {
    var n := s.channel[0];
    assert ChannelOk(s) && Exec(s, [Receive]) == Some(Apply(s, Receive));
    hide Exec, Inv, MapTerminal, One, Plus, CancelActive, Emissions;
    StepKeepsInv(s, Receive);
    var u := Apply(s, Receive);
    var closing;
    closing, t := ClosingRuns(u, n);
    ExecConcat(s, [Receive], closing);
    steps := [Receive] + closing;
    assert t.spawns == Move(s, n, Emitted(s.spawns[n].phase.completion));
  }

  /** The emission of a received completion. */
  lemma ClosingRuns(s: State, n: nat) returns (steps: seq<Step>, t: State)
    requires Inv(s) && s.caller.Emitting? && s.caller.spawn == n && At(s, n) && s.spawns[n].phase.Received?
    ensures Exec(s, steps) == Some(t) && Inv(t)
    ensures && t.caller == Draining(Plus(s.caller.report, One(TerminalOf(s.spawns[n]))))
            && t.channel == s.channel && t.cancelled == s.cancelled && t.reports == s.reports && t.active == s.active
            && t.spawns == Move(s, n, Emitted(s.spawns[n].phase.completion))
            && t.log == s.log + Emissions(n, ClosingEvents(s.spawns[n])) && CallsNothing(steps)
  {
    hide Inv, MapTerminal, One, Plus, CancelActive;
    if NeedsDiagnostic(TerminalOf(s.spawns[n])) {
      var u := Apply(s, Diagnose);
      StepKeepsInv(s, Diagnose);
      StepKeepsInv(u, Emit);
      t, steps := Apply(u, Emit), [Diagnose, Emit];
      ExecTwo(s, Diagnose, Emit);
      hide Exec;
      assert t.spawns == Move(s, n, Emitted(s.spawns[n].phase.completion));
    } else {
      StepKeepsInv(s, Emit);
      t, steps := Apply(s, Emit), [Emit];
      assert Exec(s, [Emit]) == Some(t);
    }
  }

  lemma RestOwed(s: State, u: State)
    requires ChannelOk(s) && ChannelOk(u) && AllFinished(s) && s.channel != [] && u.channel == s.channel[1..]
    requires u.spawns == Move(s, s.channel[0], Emitted(s.spawns[s.channel[0]].phase.completion))
    ensures AllFinished(u) && Owed(u) == Owed(s)[1..]
    ensures ClosingLog(s.spawns, s.channel)
            == Emissions(s.channel[0], ClosingEvents(s.spawns[s.channel[0]])) + ClosingLog(u.spawns, u.channel)
  {
    hide MapTerminal, Emissions, ClosingEvents;
    ClosingLogElsewhere(s.spawns, u.spawns, u.channel);
  }

  /** One completion less in the channel, as seen from the end of the drain. */
  lemma OneLess(s: State) returns (steps: seq<Step>, t: State)
    requires Inv(s) && s.caller.Draining? && s.channel != [] && AllFinished(s)
    ensures Exec(s, steps) == Some(t) && Inv(t) && t.caller.Draining? && AllFinished(t) && CallsNothing(steps)
    ensures t.channel == s.channel[1..] && t.cancelled == s.cancelled && t.reports == s.reports
            && |t.spawns| == |s.spawns|
    ensures Plus(t.caller.report, Ones(Owed(t))) == Plus(s.caller.report, Ones(Owed(s)))
    ensures t.log + ClosingLog(t.spawns, t.channel) == s.log + ClosingLog(s.spawns, s.channel)
  {
    hide Inv, Exec, One, Plus, MapTerminal, Ones, Emissions, ClosingEvents, ClosingLog, CallsNothing;
    steps, t := ReceiveRuns(s);
    InvParts(s);
    InvParts(t);
    RestOwed(s, t);
    assert |Owed(s)| == |s.channel| && Owed(s)[0] == TerminalOf(s.spawns[s.channel[0]]);
    hide AllFinished, ChannelOk, Owed;
    OnesFromTheFront(s.caller.report, Owed(s));
  }

  lemma {:induction false} ChannelRuns(s: State) returns (steps: seq<Step>, t: State)
    requires Inv(s) && s.caller.Draining? && AllFinished(s)
    ensures Exec(s, steps) == Some(t) && Inv(t)
    ensures t.caller == Draining(Plus(s.caller.report, Ones(Owed(s))))
    ensures t.channel == [] && t.cancelled == s.cancelled && t.reports == s.reports
    ensures |t.spawns| == |s.spawns| && AllFinished(t)
    ensures t.log == s.log + ClosingLog(s.spawns, s.channel) && CallsNothing(steps)
    decreases |s.channel|
  {
    if s.channel == [] {
      steps, t := [], s;
    } else {
      hide *;
      var first, u := OneLess(s);
      var rest;
      rest, t := ChannelRuns(u);
      ExecConcat(s, first, rest);
      steps := first + rest;
      CallsNothingConcat(first, rest);
    }
  }

  /** A drain of finished spawns empties the channel and the active map and files exactly what was owed. */
  lemma DrainRuns(s: State) returns (steps: seq<Step>, t: State)
    requires Inv(s) && s.caller.Idle? && AllFinished(s)
    ensures Exec(s, steps) == Some(t) && Inv(t) && t.caller.Idle?
    ensures t.channel == [] && t.active == map[] && t.cancelled == s.cancelled
    ensures t.reports == s.reports + [Ones(Owed(s))]
    ensures |t.spawns| == |s.spawns| && forall n :: 0 <= n < |t.spawns| ==> t.spawns[n].phase.Emitted?
    ensures t.log == s.log + ClosingLog(s.spawns, s.channel) && OneCall(steps, BeginDrain)
  {
    var u := DrainBegins(s);
    hide Exec, Inv, Apply, Enabled, ClosingLog, Ones, Owed, AllFinished, CallsNothing, ChannelOk;
    var middle, v := ChannelRuns(u);
    InvParts(s);
    PlusEmpty(Ones(Owed(s)));
    t := DrainEnds(v);
    steps := [BeginDrain] + middle;
    ExecConcat(s, [BeginDrain], middle);
    ExecOne(s, steps, EndDrain);
    OneMoreStep(middle);
    steps := steps + [EndDrain];
  }

  lemma OneMoreStep(middle: seq<Step>)
    requires CallsNothing(middle)
    ensures OneCall([BeginDrain] + middle + [EndDrain], BeginDrain)
  {
  }

  lemma DrainBegins(s: State) returns (u: State)
    requires Inv(s) && s.caller.Idle? && AllFinished(s)
    ensures Exec(s, [BeginDrain]) == Some(u) && Inv(u) && AllFinished(u)
    ensures u == s.(caller := Draining(EMPTY_REPORT)) && Owed(u) == Owed(s)
  {
    u := Apply(s, BeginDrain);
    StepKeepsInv(s, BeginDrain);
    assert Exec(s, [BeginDrain]) == Some(u);
    assert ChannelOk(s);
    hide Inv, Exec;
    OwedKept(s, u);
  }

  /** With every spawn finished and the channel empty, everything has been emitted. */
  lemma DrainEnds(v: State) returns (t: State)
    requires Inv(v) && v.caller.Draining? && v.channel == [] && AllFinished(v)
    ensures Enabled(v, EndDrain) && t == Apply(v, EndDrain) && Inv(t) && t.caller.Idle?
    ensures t.channel == [] && t.active == map[] && t.cancelled == v.cancelled && t.log == v.log
    ensures t.reports == v.reports + [v.caller.report]
    ensures |t.spawns| == |v.spawns| && forall n :: 0 <= n < |t.spawns| ==> t.spawns[n].phase.Emitted?
  {
    t := Apply(v, EndDrain);
    StepKeepsInv(v, EndDrain);
    assert ChannelOk(t) && ActiveOk(t);
    hide Inv, Apply;
    forall n | 0 <= n < |t.spawns| ensures t.spawns[n].phase.Emitted? {
      assert t.spawns[n].phase.InChannel? ==> n in t.channel;
    }
    assert t.active.Keys == {};
  }

  lemma PlusEmpty(r: Report)
    ensures Plus(EMPTY_REPORT, r) == r
  {
  }

  lemma OwedKept(s: State, t: State)
    requires ChannelOk(s) && ChannelOk(t) && s.spawns == t.spawns && s.channel == t.channel
    ensures Owed(s) == Owed(t)
  {
  }

  lemma InvParts(s: State)
    requires Inv(s)
    ensures ChannelOk(s) && ActiveOk(s) && LogOk(s)
  {
  }
}
