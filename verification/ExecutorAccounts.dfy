/** What a schedule of the executor did, read off its steps, against what its state holds in the end. */
module ExecutorAccounts {
  import opened Prelude
  import opened TaskEvents
  import opened Cancellation
  import opened Outcomes
  import opened ExecutorProtocol
  import opened ExecutorTheorems

  // ----- What jobs report -----

  /** The events that the job of spawn `n` reported, in order. */
  ghost function ReportedBy(steps: seq<Step>, n: nat): seq<JobEvent> {
    if steps == [] then []
    else
      var before, last := ReportedBy(steps[..|steps| - 1], n), steps[|steps| - 1];
      if last.JobEmit? && last.spawn == n then before + [last.event] else before
  }

  lemma {:induction false} JobEventsAreThoseReported(steps: seq<Step>, n: nat)
    requires Exec(INITIAL, steps).Some?
    ensures var t := Exec(INITIAL, steps).value;
            ReportedBy(steps, n) == if At(t, n) then t.spawns[n].jobEvents else []
  {
    if steps != [] {
      var init, last := steps[..|steps| - 1], steps[|steps| - 1];
      JobEventsAreThoseReported(init, n);
      hide Exec, MapTerminal, CancelActive, ReportedBy;
      StepReportsForItself(Exec(INITIAL, init).value, last, n);
      ReportedOneMore(steps, n);
      LastStep(steps);
    }
  }

  lemma ReportedOneMore(steps: seq<Step>, n: nat)
    requires steps != []
    ensures var init, last := steps[..|steps| - 1], steps[|steps| - 1];
            ReportedBy(steps, n)
            == ReportedBy(init, n) + (if last.JobEmit? && last.spawn == n then [last.event] else [])
  {
  }

  lemma LastStep(steps: seq<Step>)
    requires steps != [] && Exec(INITIAL, steps).Some?
    ensures var init, last := steps[..|steps| - 1], steps[|steps| - 1];
            && Exec(INITIAL, init).Some? && Enabled(Exec(INITIAL, init).value, last)
            && Exec(INITIAL, steps) == Some(Apply(Exec(INITIAL, init).value, last))
  {
    hide Enabled, Apply;
  }

  lemma StepReportsForItself(s: State, step: Step, n: nat)
    requires Enabled(s, step)
    ensures var t, reported := Apply(s, step), if step.JobEmit? && step.spawn == n then [step.event] else [];
            (if At(t, n) then t.spawns[n].jobEvents else [])
            == (if At(s, n) then s.spawns[n].jobEvents else []) + reported
  {
    hide MapTerminal, CancelActive;
  }

  /** In every run, a sink is first handed exactly what the job reported, event by event, payloads unchanged. */
  lemma SinkGetsWhatTheJobReported(steps: seq<Step>, n: nat)
    requires Exec(INITIAL, steps).Some? && n < |Exec(INITIAL, steps).value.spawns|
    ensures var t := Exec(INITIAL, steps).value;
            var events, reported := EventsOf(t.log, n), ReportedBy(steps, n);
            && |reported| <= |events|
            && forall i :: 0 <= i < |reported| ==>
                 && JobEventOf(events[i]) == Some(reported[i])
                 && events[i] == EventFor(t.spawns[n].handle, events[i].kind)
  {
    JobEventsAreThoseReported(steps, n);
    hide Exec, EventsOf, ReportedBy, FromJobEvent, JobEventOf, Diagnostics, TerminalOf;
    RunKeepsInv(steps);
    var t := Exec(INITIAL, steps).value;
    assert StreamOk(t, n);
    hide Inv;
    var sp, events := t.spawns[n], EventsOf(t.log, n);
    assert events == JobStream(sp) + Closing(sp);
    forall i | 0 <= i < |sp.jobEvents|
      ensures JobEventOf(events[i]) == Some(sp.jobEvents[i]) && events[i] == EventFor(sp.handle, events[i].kind)
    {
      JobEventsRoundTrip(sp.handle, sp.jobEvents[i]);
      assert events[i] == FromJobEvent(sp.handle, sp.jobEvents[i]);
    }
  }

  // ----- The order of completions -----

  /** The spawns whose watchers have sent, in order. */
  ghost function SentBy(steps: seq<Step>): seq<nat> {
    if steps == [] then []
    else
      var before, last := SentBy(steps[..|steps| - 1]), steps[|steps| - 1];
      if last.Send? then before + [last.spawn] else before
  }

  /** The spawns whose terminal event was handed over, in order. */
  ghost function EndedIn(log: seq<Emission>): seq<nat> {
    if log == [] then []
    else
      var before, last := EndedIn(log[..|log| - 1]), log[|log| - 1];
      if last.event.kind.Lifecycle? then before + [last.spawn] else before
  }

  ghost function InHand(s: State): seq<nat> {
    if s.caller.Emitting? then [s.caller.spawn] else []
  }

  lemma StepKeepsOrder(s: State, step: Step)
    requires Enabled(s, step)
    ensures var t := Apply(s, step);
            EndedIn(t.log) + InHand(t) + t.channel
            == EndedIn(s.log) + InHand(s) + s.channel + (if step.Send? then [step.spawn] else [])
  {
    hide MapTerminal, CancelActive, EndedIn, NeedsDiagnostic;
    var t := Apply(s, step);
    match step {
      case JobEmit(n, e) => EmissionEnds(s.log, t.log[|s.log|]);
      case Diagnose => EmissionEnds(s.log, t.log[|s.log|]);
      case Emit => EmissionEnds(s.log, t.log[|s.log|]);
      case Send(n) => Reassociate(EndedIn(s.log) + InHand(s), s.channel, n);
      case Receive => assert s.channel == [s.channel[0]] + t.channel;
      case _ => assert t.channel == s.channel && t.log == s.log && InHand(t) == InHand(s);
    }
  }

  lemma Reassociate(first: seq<nat>, second: seq<nat>, n: nat)
    ensures first + (second + [n]) == first + second + [n]
  {
  }

  lemma EmissionEnds(log: seq<Emission>, m: Emission)
    ensures EndedIn(log + [m]) == EndedIn(log) + (if m.event.kind.Lifecycle? then [m.spawn] else [])
  {
    assert (log + [m])[..|log|] == log;
  }

  lemma NothingSent(s: State)
    requires |s.log| == |s.channel| == 0 && s.caller.Idle?
    ensures EndedIn(s.log) + InHand(s) + s.channel == []
  {
  }

  lemma SentOneMore(steps: seq<Step>)
    requires steps != []
    ensures var init, last := steps[..|steps| - 1], steps[|steps| - 1];
            SentBy(steps) == SentBy(init) + (if last.Send? then [last.spawn] else [])
  {
  }

  /** Completions are reported in the order in which they were sent: none overtakes, none is lost, none comes twice. */
  lemma {:induction false} CompletionsKeepTheirOrder(steps: seq<Step>)
    requires Exec(INITIAL, steps).Some?
    ensures var t := Exec(INITIAL, steps).value;
            SentBy(steps) == EndedIn(t.log) + InHand(t) + t.channel
  {
    if steps == [] {
      hide EndedIn;
      NothingSent(INITIAL);
    } else {
      hide Enabled, Apply, EndedIn, SentBy, Exec;
      LastStep(steps);
      CompletionsKeepTheirOrder(steps[..|steps| - 1]);
      StepKeepsOrder(Exec(INITIAL, steps[..|steps| - 1]).value, steps[|steps| - 1]);
      SentOneMore(steps);
    }
  }

  // ----- The reason of a token -----

  /** The reason given by the first step of a schedule that cancels `token`. */
  ghost function FirstReason(steps: seq<Step>, token: TokenId): Option<CancelReason>
    requires Exec(INITIAL, steps).Some?
  {
    if steps == [] then None
    else
      var init, last := steps[..|steps| - 1], steps[|steps| - 1];
      var before, s := FirstReason(init, token), Exec(INITIAL, init).value;
      if before.Some? then before
      else if last.CancelToken? && last.token == token then Some(last.reason)
      else if last.CancelHandle? && last.handle in s.active && Names(s, last.handle, token)
      then Some(CancelReason(UserRequested, "user requested cancellation"))
      else None
  }

  /** The active entry of a handle is a spawn with this token. */
  ghost predicate Names(s: State, h: TaskHandle, token: TokenId) {
    h in s.active && At(s, s.active[h]) && s.spawns[s.active[h]].token == token
  }

  ghost function ReasonOf(s: State, token: TokenId): Option<CancelReason> {
    if token in s.cancelled then Some(s.cancelled[token]) else None
  }

  lemma StepGivesReason(s: State, step: Step, token: TokenId)
    requires Enabled(s, step)
    ensures ReasonOf(Apply(s, step), token)
            == if token in s.cancelled then ReasonOf(s, token)
               else if step.CancelToken? && step.token == token then Some(step.reason)
               else if step.CancelHandle? && Names(s, step.handle, token)
               then Some(CancelReason(UserRequested, "user requested cancellation"))
               else None
  {
    hide TerminalOf, Move;
  }

  /** In every run a token is cancelled exactly if some step cancelled it, and with the reason of the first that did. */
  lemma {:induction false} ReasonIsTheFirst(steps: seq<Step>, token: TokenId)
    requires Exec(INITIAL, steps).Some?
    ensures ReasonOf(Exec(INITIAL, steps).value, token) == FirstReason(steps, token)
  {
    if steps != [] {
      hide Enabled, Apply;
      ReasonIsTheFirst(steps[..|steps| - 1], token);
      StepGivesReason(Exec(INITIAL, steps[..|steps| - 1]).value, steps[|steps| - 1], token);
    }
  }
}
