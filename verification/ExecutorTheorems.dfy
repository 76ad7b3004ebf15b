/** What holds of every run of the executor, over all interleavings of jobs, watchers, cancellers and calls. */
module ExecutorTheorems {
  import opened Prelude
  import opened TaskEvents
  import opened Cancellation
  import opened Outcomes
  import opened ExecutorProtocol

  // ----- Exactly one terminal event, last, and counted once -----

  ghost function Lifecycles(events: seq<TaskEvent>): seq<LifecycleEvent> {
    if events == [] then []
    else
      var before, last := Lifecycles(events[..|events| - 1]), events[|events| - 1];
      if last.kind.Lifecycle? then before + [last.kind.lifecycle] else before
  }

  lemma {:induction false} NoLifecycles(events: seq<TaskEvent>)
    requires forall i :: 0 <= i < |events| ==> !events[i].kind.Lifecycle?
    ensures Lifecycles(events) == []
  {
    if events != [] {
      NoLifecycles(events[..|events| - 1]);
    }
  }

  /**
   In every run, the sink of a spawn has been handed the job's own events, then one error diagnostic exactly when
   the task failed or failed to cancel, then one terminal lifecycle event; the last two only once its completion
   was drained. A job cannot forge a lifecycle event.
   */
  lemma TerminalEventExactlyOnce(steps: seq<Step>, n: nat)
    requires Exec(INITIAL, steps).Some? && n < |Exec(INITIAL, steps).value.spawns|
    ensures var t := Exec(INITIAL, steps).value;
            var sp, events := t.spawns[n], EventsOf(t.log, n);
            && Lifecycles(events) == (if sp.phase.Emitted? then [EventOf(TerminalOf(sp))] else [])
            && (!sp.phase.Drained() ==> events == JobStream(sp))
            && (sp.phase.Emitted? ==>
                  events == JobStream(sp) + Diagnostics(sp.handle, TerminalOf(sp))
                    + [TerminalEvent(sp.handle, TerminalOf(sp))])
  {
    hide Exec, Lifecycles, EventsOf, JobStream, Diagnostics, TerminalOf, EventOf;
    RunKeepsInv(steps);
    var t := Exec(INITIAL, steps).value;
    assert StreamOk(t, n);
    hide Inv;
    SinkOf(t, n);
  }

  /** What the sink of a spawn has been handed, in a state whose log is in order. */
  lemma SinkOf(t: State, n: nat)
    requires At(t, n) && StreamOk(t, n)
    ensures var sp, events := t.spawns[n], EventsOf(t.log, n);
            && Lifecycles(events) == (if sp.phase.Emitted? then [EventOf(TerminalOf(sp))] else [])
            && (!sp.phase.Drained() ==> events == JobStream(sp))
            && (sp.phase.Emitted? ==>
                  events == JobStream(sp) + Diagnostics(sp.handle, TerminalOf(sp))
                            + [TerminalEvent(sp.handle, TerminalOf(sp))])
  {
    hide EventsOf, MapTerminal;
    var sp, events := t.spawns[n], EventsOf(t.log, n);
    if sp.phase.Emitted? {
      var before := JobStream(sp) + Diagnostics(sp.handle, TerminalOf(sp));
      NoLifecycles(before);
      assert events == before + [TerminalEvent(sp.handle, TerminalOf(sp))];
      assert events[..|events| - 1] == before;
    } else {
      NoLifecycles(events);
    }
  }

  /**
   The terminal event says how the job ended: a failing job is reported with its own message, as `Failed` or,
   when its token was seen cancelled, as `FailedToCancel`; `Cancelled` is only what the job says of itself.
   */
  lemma SinkIsToldHowTheJobEnded(steps: seq<Step>, n: nat)
    requires Exec(INITIAL, steps).Some? && n < |Exec(INITIAL, steps).value.spawns|
    requires Exec(INITIAL, steps).value.spawns[n].phase.Emitted?
    ensures var t := Exec(INITIAL, steps).value;
            var sp := t.spawns[n];
            var outcome, requested := sp.phase.completion.outcome, sp.phase.completion.cancellationRequested;
            exists final ::
              && EventsOf(t.log, n) == JobStream(sp)
                 + (if Failing(outcome) then [EventFor(sp.handle, Diagnostic(Error, MessageOf(outcome)))] else [])
                 + [EventFor(sp.handle, Lifecycle(final))]
              && (final == Failed <==> Failing(outcome) && !requested)
              && (final == FailedToCancel <==> Failing(outcome) && requested)
              && (final == Cancelled <==> outcome.ReturnedErr? && outcome.failure.kind == KindCancelled)
              && (final == FinishedAfterCancel <==>
                    outcome == ReturnedOk && requested && sp.policy.blocking == NonAbortableReportCancelling)
              && final != Started
  {
    TerminalEventExactlyOnce(steps, n);
    hide Exec, EventsOf, JobStream;
    var sp := Exec(INITIAL, steps).value.spawns[n];
    TerminalSaysHowTheJobEnded(sp);
    hide Diagnostics, Failing, EventOf, TerminalOf;
    var final := EventOf(TerminalOf(sp));
    assert TerminalEvent(sp.handle, TerminalOf(sp)) == EventFor(sp.handle, Lifecycle(final));
  }

  lemma TerminalSaysHowTheJobEnded(sp: Spawn)
    requires sp.phase.Captured()
    ensures var outcome, requested := sp.phase.completion.outcome, sp.phase.completion.cancellationRequested;
            var final := EventOf(TerminalOf(sp));
            && Diagnostics(sp.handle, TerminalOf(sp))
               == (if Failing(outcome) then [EventFor(sp.handle, Diagnostic(Error, MessageOf(outcome)))] else [])
            && (final == Failed <==> Failing(outcome) && !requested)
            && (final == FailedToCancel <==> Failing(outcome) && requested)
            && (final == Cancelled <==> outcome.ReturnedErr? && outcome.failure.kind == KindCancelled)
            && (final == FinishedAfterCancel <==>
                  outcome == ReturnedOk && requested && sp.policy.blocking == NonAbortableReportCancelling)
            && final != Started
  {
  }

  /** All drain reports together count exactly the emitted spawns, and each counter its own kind of terminal event. */
  lemma ReportsCountEmissions(steps: seq<Step>)
    requires Exec(INITIAL, steps).Some? && Exec(INITIAL, steps).value.caller.Idle?
    ensures var t := Exec(INITIAL, steps).value;
            && Total(Sum(t.reports)) == |EmittedSpawns(t)|
            && Sum(t.reports).completed == Occurrences(t.log, Completed)
            && Sum(t.reports).failed == Occurrences(t.log, Failed)
            && Sum(t.reports).cancelled == Occurrences(t.log, Cancelled)
            && Sum(t.reports).finishedAfterCancel == Occurrences(t.log, FinishedAfterCancel)
            && Sum(t.reports).failedToCancel == Occurrences(t.log, FailedToCancel)
  {
    hide Exec, Occurrences, Sum;
    RunKeepsInv(steps);
    var t := Exec(INITIAL, steps).value;
    assert CountersOk(t) && TotalOk(t);
    hide Inv;
  }

  // ----- Cancellation truth -----

  /** How one spawn may differ between an earlier and a later state. */
  ghost predicate SpawnLater(s: State, t: State, n: nat)
    requires At(s, n) && At(t, n)
  {
    var a, b := s.spawns[n], t.spawns[n];
    && a.handle == b.handle && a.policy == b.policy && a.token == b.token
    && (!a.phase.Running? ==> b.jobEvents == a.jobEvents)
    && (a.phase.Ended? ==> b.phase == a.phase || (b.phase.Captured() && b.phase.completion.outcome == a.phase.outcome))
    && (a.phase.Captured() ==> b.phase.Captured() && b.phase.completion == a.phase.completion)
    && (a.phase.Drained() ==> b.phase.Drained())
    // a token already cancelled before the snapshot is seen by the snapshot
    && (!a.phase.Captured() && a.token in s.cancelled && b.phase.Captured() ==>
       b.phase.completion.cancellationRequested)
  }

  ghost predicate Later(s: State, t: State) {
    && (forall k :: k in s.cancelled ==> k in t.cancelled && t.cancelled[k] == s.cancelled[k])
    && |s.spawns| <= |t.spawns|
    && forall n :: 0 <= n < |s.spawns| ==> SpawnLater(s, t, n)
  }

  lemma StepKeepsTokens(s: State, step: Step)
    requires Enabled(s, step)
    ensures var t := Apply(s, step);
            forall k :: k in s.cancelled ==> k in t.cancelled && t.cancelled[k] == s.cancelled[k]
  {
    hide TerminalOf, Move;
  }

  lemma StepIsLater(s: State, step: Step)
    requires Enabled(s, step)
    ensures Later(s, Apply(s, step))
  {
    hide MapTerminal, CancelActive, CancelOne;
    StepKeepsTokens(s, step);
  }

  lemma LaterIsTransitive(s: State, u: State, t: State)
    requires Later(s, u) && Later(u, t)
    ensures Later(s, t)
  {
    forall n | 0 <= n < |s.spawns| ensures SpawnLater(s, t, n) {
      assert SpawnLater(s, u, n) && SpawnLater(u, t, n);
    }
  }

  lemma {:induction false} RunIsLater(s: State, steps: seq<Step>)
    requires Exec(s, steps).Some?
    ensures Later(s, Exec(s, steps).value)
  {
    hide Later, Enabled, Apply;
    if steps == [] {
      LaterIsReflexive(s);
    } else {
      var init, last := steps[..|steps| - 1], steps[|steps| - 1];
      RunIsLater(s, init);
      StepIsLater(Exec(s, init).value, last);
      LaterIsTransitive(s, Exec(s, init).value, Exec(s, steps).value);
    }
  }

  lemma LaterIsReflexive(s: State)
    ensures Later(s, s)
  {
  }

  /**
   A token cancelled before the job ended is never overlooked: whatever happens next, the emitted outcome is
   neither `Failed`, nor `Completed` under the non-abortable policy; it is truthful about the request unless the
   job returned Ok under another policy.
   */
  lemma CancelBeforeEndIsSeen(before: seq<Step>, n: nat, outcome: RunnableOutcome, after: seq<Step>)
    requires Exec(INITIAL, before + [JobEnd(n, outcome)] + after).Some?
    requires Exec(INITIAL, before).Some? && n < |Exec(INITIAL, before).value.spawns|
    requires Exec(INITIAL, before).value.spawns[n].token in Exec(INITIAL, before).value.cancelled
    ensures var t := Exec(INITIAL, before + [JobEnd(n, outcome)] + after).value;
            n < |t.spawns|
    ensures var t := Exec(INITIAL, before + [JobEnd(n, outcome)] + after).value;
            t.spawns[n].phase.Emitted? ==>
              var terminal := TerminalOf(t.spawns[n]);
              var policy := t.spawns[n].policy;
              && !terminal.TaskFailed?
              && (policy.blocking == NonAbortableReportCancelling ==> !terminal.TaskCompleted?)
              && (terminal.TaskCompleted? <==> outcome == ReturnedOk && policy.blocking != NonAbortableReportCancelling)
              && (terminal.TaskCancelled? <==> outcome.ReturnedErr? && outcome.failure.kind == KindCancelled)
  {
    var s := Exec(INITIAL, before).value;
    var step := JobEnd(n, outcome);
    ExecConcat(INITIAL, before + [step], after);
    ExecOne(INITIAL, before, step);
    hide Exec;
    var u := Exec(INITIAL, before + [step]).value;
    RunIsLater(u, after);
    assert SpawnLater(u, Exec(u, after).value, n);
  }

  /** `FinishedAfterCancel` and `FailedToCancel` imply that the token was cancelled by the time of the snapshot. */
  lemma CancelOutcomeImpliesRequest(before: seq<Step>, after: seq<Step>, n: nat)
    requires Exec(INITIAL, before).Some? && Exec(INITIAL, before + after).Some?
    requires n < |Exec(INITIAL, before).value.spawns|
    requires Exec(INITIAL, before).value.spawns[n].phase.Captured()
    ensures n < |Exec(INITIAL, before + after).value.spawns|
    ensures var s, t := Exec(INITIAL, before).value, Exec(INITIAL, before + after).value;
            && t.spawns[n].phase.Captured()
            && TerminalOf(t.spawns[n]) == TerminalOf(s.spawns[n])
            && (TerminalOf(t.spawns[n]).TaskFinishedAfterCancel? || TerminalOf(t.spawns[n]).TaskFailedToCancel? ==>
                  s.spawns[n].token in s.cancelled)
  {
    RunKeepsInv(before);
    ExecConcat(INITIAL, before, after);
    hide Exec;
    var s := Exec(INITIAL, before).value;
    RunIsLater(s, after);
    assert SpawnLater(s, Exec(s, after).value, n);
    assert SnapshotsOk(s);
    hide Inv, Later;
  }

  /** The request is seen exactly if the token is cancelled when the watcher reads it; nothing later changes that. */
  lemma SnapshotReadsTheToken(before: seq<Step>, n: nat, after: seq<Step>)
    requires Exec(INITIAL, before).Some? && Exec(INITIAL, before + [Snapshot(n)] + after).Some?
    ensures var s, t := Exec(INITIAL, before).value, Exec(INITIAL, before + [Snapshot(n)] + after).value;
            && n < |s.spawns| && s.spawns[n].phase.Ended?
            && n < |t.spawns| && t.spawns[n].phase.Captured()
            && t.spawns[n].phase.completion == Completion(s.spawns[n].token in s.cancelled, s.spawns[n].phase.outcome)
  {
    ExecConcat(INITIAL, before + [Snapshot(n)], after);
    ExecOne(INITIAL, before, Snapshot(n));
    hide Exec;
    var u := Exec(INITIAL, before + [Snapshot(n)]).value;
    RunIsLater(u, after);
    assert SpawnLater(u, Exec(u, after).value, n);
  }

  /** A token keeps the reason it was first cancelled with, whoever cancels it afterwards. */
  lemma FirstReasonIsKept(before: seq<Step>, after: seq<Step>, token: TokenId)
    requires Exec(INITIAL, before).Some? && Exec(INITIAL, before + after).Some?
    requires token in Exec(INITIAL, before).value.cancelled
    ensures var s, t := Exec(INITIAL, before).value, Exec(INITIAL, before + after).value;
            token in t.cancelled && t.cancelled[token] == s.cancelled[token]
  {
    ExecConcat(INITIAL, before, after);
    hide Exec;
    RunIsLater(Exec(INITIAL, before).value, after);
  }

  // ----- The active map -----

  ghost predicate Undrained(s: State, n: nat) {
    At(s, n) && !s.spawns[n].phase.Drained()
  }

  /** Every undrained spawn is the one its handle's entry names, apart from the one still being inserted. */
  ghost predicate Tracked(s: State) {
    forall n: nat :: Undrained(s, n) && !(s.caller.Inserting? && s.caller.spawn == n) ==>
      s.spawns[n].handle in s.active && s.active[s.spawns[n].handle] == n
  }

  /** An insertion that finds its handle already in the active map. */
  ghost predicate Overwrites(s: State, step: Step) {
    step.Insert? && s.caller.Inserting? && At(s, s.caller.spawn) && s.spawns[s.caller.spawn].handle in s.active
  }

  lemma InsertTracking(s: State)
    requires CallerOk(s) && ActiveOk(s) && Tracked(s) && Enabled(s, Insert)
    ensures Tracked(Apply(s, Insert)) <==> !Overwrites(s, Insert)
  {
    var t, n := Apply(s, Insert), s.caller.spawn;
    hide MapTerminal;
    if Overwrites(s, Insert) {
      var m := s.active[s.spawns[n].handle];
      assert Undrained(t, m) && m != n;
    } else {
      forall m: nat | Undrained(t, m) ensures t.spawns[m].handle in t.active && t.active[t.spawns[m].handle] == m {
        assert Undrained(s, m);
      }
    }
  }

  lemma ReceiveTracking(s: State)
    requires ChannelOk(s) && Tracked(s) && Enabled(s, Receive)
    ensures Tracked(Apply(s, Receive))
  {
    var t, first := Apply(s, Receive), s.channel[0];
    hide MapTerminal, CancelActive;
    assert Undrained(s, first);
    forall m: nat | Undrained(t, m) ensures t.spawns[m].handle in t.active && t.active[t.spawns[m].handle] == m {
      assert Undrained(s, m) && m != first;
    }
  }

  lemma OtherStepsKeepTracking(s: State, step: Step)
    requires CallerOk(s) && Tracked(s) && Enabled(s, step) && !step.Receive? && !step.Insert?
    ensures Tracked(Apply(s, step))
  {
    var t := Apply(s, step);
    hide MapTerminal, CancelActive;
    forall n: nat | Undrained(t, n) && !(t.caller.Inserting? && t.caller.spawn == n)
      ensures t.spawns[n].handle in t.active && t.active[t.spawns[n].handle] == n
    {
      if n < |s.spawns| {
        assert Undrained(s, n);
      }
    }
  }

  /**
   A spawn stops being tracked exactly when an insertion overwrites its entry. Nothing else does it: not a drain,
   and not a job that finishes before its own insertion.
   */
  lemma TrackingLostOnlyByOverwriting(s: State, step: Step)
    requires ChannelOk(s) && CallerOk(s) && ActiveOk(s) && Tracked(s) && Enabled(s, step)
    ensures Tracked(Apply(s, step)) <==> !Overwrites(s, step)
  {
    match step {
      case Insert => InsertTracking(s);
      case Receive => ReceiveTracking(s);
      case _ => OtherStepsKeepTracking(s, step);
    }
  }

  ghost predicate TrackedAfter(steps: seq<Step>, i: nat)
    requires i <= |steps|
  {
    Exec(INITIAL, steps[..i]).Some? && Tracked(Exec(INITIAL, steps[..i]).value)
  }

  ghost predicate OverwritesAt(steps: seq<Step>, i: nat)
    requires i < |steps|
  {
    Exec(INITIAL, steps[..i]).Some? && Overwrites(Exec(INITIAL, steps[..i]).value, steps[i])
  }

  /** Every spawn is tracked after every prefix of the schedule. */
  ghost predicate AlwaysTracked(steps: seq<Step>) {
    forall i :: 0 <= i <= |steps| ==> TrackedAfter(steps, i)
  }

  ghost predicate NeverOverwrites(steps: seq<Step>) {
    forall i :: 0 <= i < |steps| ==> !OverwritesAt(steps, i)
  }

  lemma RunKeepsParts(steps: seq<Step>)
    requires Exec(INITIAL, steps).Some?
    ensures var t := Exec(INITIAL, steps).value; ChannelOk(t) && CallerOk(t) && ActiveOk(t)
  {
    hide Exec;
    RunKeepsInv(steps);
  }

  lemma LastOfAlways(steps: seq<Step>)
    requires steps != [] && Exec(INITIAL, steps).Some?
    ensures var init, last := steps[..|steps| - 1], steps[|steps| - 1];
            && (AlwaysTracked(steps) <==> AlwaysTracked(init) && Tracked(Exec(INITIAL, steps).value))
            && (NeverOverwrites(steps) <==> NeverOverwrites(init) && !Overwrites(Exec(INITIAL, init).value, last))
  {
    var n := |steps| - 1;
    assert Exec(INITIAL, steps[..n]).Some?;
    hide Exec, Tracked, Overwrites, TrackedAfter, OverwritesAt;
    forall i | 0 <= i <= n ensures TrackedAfter(steps, i) <==> TrackedAfter(steps[..n], i) {
      TrackedInPrefix(steps, n, i);
    }
    forall i | 0 <= i < n ensures OverwritesAt(steps, i) <==> OverwritesAt(steps[..n], i) {
      TrackedInPrefix(steps, n, i);
    }
    assert TrackedAfter(steps, n + 1) <==> Tracked(Exec(INITIAL, steps).value) by {
      TrackedInPrefix(steps, n + 1, n + 1);
    }
    assert OverwritesAt(steps, n) <==> Overwrites(Exec(INITIAL, steps[..n]).value, steps[n]) by {
      TrackedInPrefix(steps, n, n);
    }
  }

  /** What a prefix of a prefix says. */
  lemma TrackedInPrefix(steps: seq<Step>, n: nat, i: nat)
    requires i <= n <= |steps|
    ensures TrackedAfter(steps[..n], i) <==> TrackedAfter(steps, i)
    ensures i < n ==> (OverwritesAt(steps[..n], i) <==> OverwritesAt(steps, i))
    ensures var before := Exec(INITIAL, steps[..i]);
            && (TrackedAfter(steps, i) <==> before.Some? && Tracked(before.value))
            && (i < |steps| ==> (OverwritesAt(steps, i) <==> before.Some? && Overwrites(before.value, steps[i])))
    ensures i == |steps| ==> steps[..i] == steps
  {
    hide Exec, Tracked, Overwrites;
    assert steps[..n][..i] == steps[..i];
  }

  /** Over whole runs: no spawn is ever untracked exactly if no handle is inserted while its last entry is there. */
  lemma {:induction false} TrackedExactlyWithoutOverwriting(steps: seq<Step>)
    requires Exec(INITIAL, steps).Some?
    ensures AlwaysTracked(steps) <==> NeverOverwrites(steps)
  {
    if steps == [] {
      assert steps[..0] == [] && Tracked(INITIAL);
      assert TrackedAfter(steps, 0);
    } else {
      var init, last := steps[..|steps| - 1], steps[|steps| - 1];
      TrackedExactlyWithoutOverwriting(init);
      LastOfAlways(steps);
      RunKeepsParts(init);
      hide Enabled, Apply, ChannelOk, CallerOk, ActiveOk, Tracked, Overwrites, NeverOverwrites, TrackedAfter;
      if AlwaysTracked(init) {
        assert TrackedAfter(init, |init|);
        TrackedInPrefix(init, |init|, |init|);
        TrackingLostOnlyByOverwriting(Exec(INITIAL, init).value, last);
      }
    }
  }

  /**
   While no insertion overwrites an entry, the active map is exactly the undrained spawns, each under its handle,
   whatever raced. A handle may be spawned again as soon as its previous completion is drained.
   */
  lemma ActiveIsExactlyUndrained(steps: seq<Step>)
    requires Exec(INITIAL, steps).Some? && NeverOverwrites(steps) && !Exec(INITIAL, steps).value.caller.Inserting?
    ensures var t := Exec(INITIAL, steps).value;
            && (forall h, n: nat :: h in t.active && t.active[h] == n <==> Undrained(t, n) && t.spawns[n].handle == h)
            && (forall h :: h in t.active <==> exists n: nat :: Undrained(t, n) && t.spawns[n].handle == h)
  {
    TrackedExactlyWithoutOverwriting(steps);
    RunKeepsParts(steps);
    var t := Exec(INITIAL, steps).value;
    assert TrackedAfter(steps, |steps|);
    assert steps[..|steps|] == steps;
    hide Exec, ChannelOk, CallerOk, AlwaysTracked, NeverOverwrites, TrackedAfter;
    forall h | h in t.active ensures exists n: nat :: Undrained(t, n) && t.spawns[n].handle == h {
      assert Undrained(t, t.active[h]);
    }
  }

  ghost predicate DistinctHandles(s: State) {
    forall m, n :: 0 <= m < n < |s.spawns| ==> s.spawns[m].handle != s.spawns[n].handle
  }

  lemma EarlierHandlesDistinct(s: State, t: State)
    requires Later(s, t) && DistinctHandles(t)
    ensures DistinctHandles(s)
  {
    forall m, n | 0 <= m < n < |s.spawns| ensures s.spawns[m].handle != s.spawns[n].handle {
      assert SpawnLater(s, t, m) && SpawnLater(s, t, n);
    }
  }

  /** Spawning every handle only once is one way never to overwrite. */
  lemma {:induction false} DistinctHandlesNeverOverwrite(steps: seq<Step>)
    requires Exec(INITIAL, steps).Some? && DistinctHandles(Exec(INITIAL, steps).value)
    ensures NeverOverwrites(steps)
  {
    if steps != [] {
      var init, last := steps[..|steps| - 1], steps[|steps| - 1];
      var s := Exec(INITIAL, init).value;
      StepIsLater(s, last);
      RunKeepsParts(init);
      hide Enabled, Apply, Later, NeverOverwrites;
      EarlierHandlesDistinct(s, Exec(INITIAL, steps).value);
      DistinctHandlesNeverOverwrite(init);
      LastOfAlways(steps);
      hide Exec;
      assert !Overwrites(s, last);
    }
  }

  /** A schedule and the state it leads to, extended by one step. */
  lemma Extend(start: State, steps: seq<Step>, s: State, step: Step) returns (more: seq<Step>, t: State)
    requires Exec(start, steps) == Some(s) && Enabled(s, step)
    ensures t == Apply(s, step) && more == steps + [step] && Exec(start, more) == Some(t)
  {
    ExecOne(start, steps, step);
    more, t := steps + [step], Apply(s, step);
  }

  lemma TwoSpawnsOfOneHandle(h: TaskHandle, policy: TaskPolicy) returns (steps: seq<Step>, s: State)
    ensures Exec(INITIAL, steps) == Some(s) && forall i :: 0 <= i < |steps| ==> steps[i].Launch? || steps[i].Insert?
    ensures s.caller.Idle? && s.channel == [] && |s.spawns| == 2 && s.cancelled == map[] && s.active == map[h := 1]
    ensures forall n :: 0 <= n < 2 ==> s.spawns[n] == Spawn(h, policy, n, [], Running)
  {
    assert Exec(INITIAL, []) == Some(INITIAL);
    hide Exec;
    steps, s := Extend(INITIAL, [], INITIAL, Launch(h, policy, 0, AsyncMode, AsyncMode));
    steps, s := Extend(INITIAL, steps, s, Insert);
    steps, s := Extend(INITIAL, steps, s, Launch(h, policy, 1, AsyncMode, AsyncMode));
    steps, s := Extend(INITIAL, steps, s, Insert);
  }

  /** Why overwriting matters: right after it, cancelling the handle misses the first job, which still runs. */
  lemma OverwrittenSpawnCannotBeCancelled(h: TaskHandle, policy: TaskPolicy)
    ensures exists steps: seq<Step> :: Exec(INITIAL, steps).Some? &&
              var t := Exec(INITIAL, steps).value;
              && t.caller.Idle? && (forall i :: 0 <= i < |steps| ==> !steps[i].Receive?)
              && |t.spawns| == 2 && t.spawns[0].phase.Running? && t.spawns[0].handle == h && h in t.active
              && t.spawns[0].token !in Apply(t, CancelHandle(h)).cancelled
  {
    hide Exec;
    var steps, s := TwoSpawnsOfOneHandle(h, policy);
    assert Apply(s, CancelHandle(h)).cancelled == map[1 := USER_REQUESTED];
  }

  lemma FirstCompletes(before: seq<Step>, s0: State) returns (steps: seq<Step>, s: State)
    requires Exec(INITIAL, before) == Some(s0)
    requires s0.caller.Idle? && s0.channel == [] && |s0.spawns| == 2 && s0.spawns[0].phase.Running?
    ensures Exec(INITIAL, steps) == Some(s)
    ensures s.caller.Idle? && s.channel == [0] && |s.spawns| == 2 && s.spawns[1] == s0.spawns[1]
    ensures s.spawns[0].handle == s0.spawns[0].handle
            && s.spawns[0].phase == InChannel(Completion(s.spawns[0].token in s.cancelled, ReturnedOk))
  {
    hide Exec;
    steps, s := Extend(INITIAL, before, s0, JobEnd(0, ReturnedOk));
    steps, s := Extend(INITIAL, steps, s, Snapshot(0));
    steps, s := Extend(INITIAL, steps, s, Send(0));
  }

  /**
   Later it is the second job that is missed: draining the first completion removes the entry of the handle, and
   the second job, still running, cannot be cancelled.
   */
  lemma ReusedHandleCannotBeCancelled(h: TaskHandle, policy: TaskPolicy)
    ensures exists steps :: Exec(INITIAL, steps).Some? &&
              var t := Exec(INITIAL, steps).value;
              t.caller.Idle? && |t.spawns| == 2 && t.spawns[1].phase.Running? && t.spawns[1].handle == h
                && h !in t.active
  {
    hide Exec, Plus, One;
    var steps, s := TwoSpawnsOfOneHandle(h, policy);
    steps, s := FirstCompletes(steps, s);
    steps, s := Extend(INITIAL, steps, s, BeginDrain);
    steps, s := Extend(INITIAL, steps, s, Receive);
    steps, s := Extend(INITIAL, steps, s, Emit);
    steps, s := Extend(INITIAL, steps, s, EndDrain);
  }

  // ----- What a cancel can and cannot change -----

  /** One job, just inserted and still running. */
  lemma OneSpawn(h: TaskHandle, policy: TaskPolicy) returns (steps: seq<Step>, s: State)
    ensures Exec(INITIAL, steps) == Some(s)
    ensures s == INITIAL.(spawns := [Spawn(h, policy, 0, [], Running)], active := map[h := 0])
  {
    assert Exec(INITIAL, []) == Some(INITIAL);
    hide Exec;
    steps, s := Extend(INITIAL, [], INITIAL, Launch(h, policy, 0, BlockingMode, BlockingMode));
    steps, s := Extend(INITIAL, steps, s, Insert);
  }

  lemma OneSpawnEnds(s0: State, sp: Spawn, outcome: RunnableOutcome) returns (steps: seq<Step>, s: State)
    requires s0.spawns == [sp] && sp.phase.Running?
    ensures Exec(s0, steps) == Some(s)
    ensures s == s0.(spawns := [sp.(phase := Snapshotted(Completion(sp.token in s0.cancelled, outcome)))])
  {
    assert Exec(s0, []) == Some(s0);
    hide Exec, MapTerminal;
    steps, s := Extend(s0, [], s0, JobEnd(0, outcome));
    steps, s := Extend(s0, steps, s, Snapshot(0));
  }

  lemma OneSpawnIsReceived(s0: State, sp: Spawn) returns (steps: seq<Step>, s: State)
    requires s0.caller.Idle? && s0.channel == [] && s0.spawns == [sp] && sp.phase.Snapshotted?
    ensures Exec(s0, steps) == Some(s) && s.cancelled == s0.cancelled
    ensures s.spawns == [sp.(phase := Received(sp.phase.completion))] && s.caller.Emitting? && s.caller.spawn == 0
  {
    assert Exec(s0, []) == Some(s0);
    hide Exec, MapTerminal, CancelActive;
    steps, s := Extend(s0, [], s0, Send(0));
    steps, s := Extend(s0, steps, s, BeginDrain);
    steps, s := Extend(s0, steps, s, Receive);
  }

  lemma OneSpawnIsEmitted(s0: State, sp: Spawn) returns (steps: seq<Step>, s: State)
    requires s0.caller.Emitting? && s0.caller.spawn == 0 && s0.spawns == [sp]
    requires sp.phase.Diagnosed? || (sp.phase.Received? && !NeedsDiagnostic(TerminalOf(sp)))
    ensures Exec(s0, steps) == Some(s) && s.cancelled == s0.cancelled
    ensures s.spawns == [sp.(phase := Emitted(sp.phase.completion))]
    ensures |s.log| > 0 && s.log[|s.log| - 1] == Emission(0, TerminalEvent(sp.handle, TerminalOf(sp)))
  {
    assert Exec(s0, []) == Some(s0);
    hide Exec, Plus, One, MapTerminal, CancelActive;
    steps, s := Extend(s0, [], s0, Emit);
  }

  /** The watcher sends, and a drain emits what it sent. */
  lemma OneSpawnIsReported(s0: State, sp: Spawn) returns (steps: seq<Step>, s: State)
    requires s0.caller.Idle? && s0.channel == [] && s0.spawns == [sp] && sp.phase.Snapshotted?
    ensures Exec(s0, steps) == Some(s) && s.cancelled == s0.cancelled
    ensures s.spawns == [sp.(phase := Emitted(sp.phase.completion))]
    ensures |s.log| > 0 && s.log[|s.log| - 1] == Emission(0, TerminalEvent(sp.handle, TerminalOf(sp)))
  {
    hide Exec, Plus, One, MapTerminal, CancelActive;
    steps, s := OneSpawnIsReceived(s0, sp);
    if NeedsDiagnostic(TerminalOf(sp)) {
      steps, s := Extend(s0, steps, s, Diagnose);
    }
    hide Apply, Enabled;
    var rest, t := OneSpawnIsEmitted(s, s.spawns[0]);
    ExecConcat(s0, steps, rest);
    steps, s := steps + rest, t;
  }

  /**
   Under every policy but the non-abortable one the terminal event can hide a cancel that was requested while the
   job ran: the job returns Ok and its sink is told `Completed`.
   */
  lemma CompletedAlthoughCancelled(h: TaskHandle, policy: TaskPolicy)
    requires policy.blocking != NonAbortableReportCancelling
    ensures exists steps :: Exec(INITIAL, steps).Some? &&
              var t := Exec(INITIAL, steps).value;
              && |t.spawns| == 1 && t.spawns[0].phase == Emitted(Completion(true, ReturnedOk)) && |t.log| > 0
              && t.log[|t.log| - 1] == Emission(0, LifecycleOf(h, Completed))
  {
    hide Exec;
    var steps, s := OneSpawn(h, policy);
    steps, s := Extend(INITIAL, steps, s, CancelHandle(h));
    var ending, u := OneSpawnEnds(s, s.spawns[0], ReturnedOk);
    var rest, t := OneSpawnIsReported(u, u.spawns[0]);
    ExecConcat(INITIAL, steps, ending);
    ExecConcat(INITIAL, steps + ending, rest);
  }

  /**
   A cancel between the watcher's snapshot and the drain finds the handle, flips the token, and is never seen: the
   sink is told `Completed`, even under the non-abortable policy, or `Failed`.
   */
  lemma CancelAfterSnapshotIsUnseen(h: TaskHandle, policy: TaskPolicy, outcome: RunnableOutcome)
    ensures exists before, after :: Exec(INITIAL, before).Some? && h in Exec(INITIAL, before).value.active &&
              Exec(INITIAL, before + [CancelHandle(h)] + after).Some? &&
              var t := Exec(INITIAL, before + [CancelHandle(h)] + after).value;
              && |t.spawns| == 1 && t.spawns[0].phase == Emitted(Completion(false, outcome)) && |t.log| > 0
              && t.spawns[0].token in t.cancelled
              && t.log[|t.log| - 1] == Emission(0, LifecycleOf(h,
                   if outcome == ReturnedOk then Completed else if Failing(outcome) then Failed else Cancelled))
  {
    hide Exec;
    var steps, s := OneSpawn(h, policy);
    var ending, u := OneSpawnEnds(s, s.spawns[0], outcome);
    ExecConcat(INITIAL, steps, ending);
    var before := steps + ending;
    var upTo, v := Extend(INITIAL, before, u, CancelHandle(h));
    var after, t := OneSpawnIsReported(v, v.spawns[0]);
    ExecConcat(INITIAL, upTo, after);
  }

  /** A job may call itself cancelled although nobody asked it to be, and its sink is told so. */
  lemma CancelledWithoutRequest(h: TaskHandle, policy: TaskPolicy, message: string)
    ensures exists steps :: Exec(INITIAL, steps).Some? &&
              var t := Exec(INITIAL, steps).value;
              && t.cancelled == map[] && |t.log| > 0 && t.log[|t.log| - 1] == Emission(0, LifecycleOf(h, Cancelled))
  {
    hide Exec;
    var steps, s := OneSpawn(h, policy);
    var ending, u := OneSpawnEnds(s, s.spawns[0], ReturnedErr(TaskFailure(KindCancelled, message)));
    var rest, t := OneSpawnIsReported(u, u.spawns[0]);
    ExecConcat(INITIAL, steps, ending);
    ExecConcat(INITIAL, steps + ending, rest);
  }

  // ----- Termination of a drain -----

  ghost function UndrainedSpawns(s: State): set<nat> {
    set n: nat | n < |s.spawns| && !s.spawns[n].phase.Drained()
  }

  ghost predicate InDrain(s: State) {
    s.caller.Draining? || s.caller.Emitting?
  }

  ghost function Receives(steps: seq<Step>): nat {
    if steps == [] then 0 else Receives(steps[..|steps| - 1]) + (if steps[|steps| - 1].Receive? then 1 else 0)
  }

  lemma StepUndrained(s: State, step: Step, n: nat)
    requires Enabled(s, step) && InDrain(s)
    ensures n in UndrainedSpawns(Apply(s, step)) <==> n in UndrainedSpawns(s) && !(step.Receive? && n == s.channel[0])
    ensures step.Receive? ==> s.channel[0] in UndrainedSpawns(s)
  {
    hide MapTerminal, CancelActive;
  }

  lemma StepShrinksUndrained(s: State, step: Step)
    requires Enabled(s, step) && InDrain(s)
    ensures |UndrainedSpawns(Apply(s, step))| == |UndrainedSpawns(s)| - (if step.Receive? then 1 else 0)
  {
    var t := Apply(s, step);
    if step.Receive? {
      StepUndrained(s, step, s.channel[0]);
    }
    forall n: nat ensures n in UndrainedSpawns(t) <==>
      n in UndrainedSpawns(s) && !(step.Receive? && n == s.channel[0]) {
      StepUndrained(s, step, n);
    }
    var gone: set<nat> := if step.Receive? then {s.channel[0]} else {};
    hide UndrainedSpawns, Apply, Enabled;
    assert UndrainedSpawns(t) == UndrainedSpawns(s) - gone;
  }

  /**
   While jobs keep finishing concurrently, a drain still terminates: its receive loop uses up accepted but
   undrained spawns one by one, and no step taken during the drain adds one.
   */
  lemma {:induction false} DrainIsBounded(s: State, steps: seq<Step>)
    requires InDrain(s) && Exec(s, steps).Some?
    requires forall i :: 0 <= i < |steps| ==> !steps[i].EndDrain?
    ensures InDrain(Exec(s, steps).value)
    ensures Receives(steps) + |UndrainedSpawns(Exec(s, steps).value)| == |UndrainedSpawns(s)|
  {
    if steps != [] {
      DrainIsBounded(s, steps[..|steps| - 1]);
      StepShrinksUndrained(Exec(s, steps[..|steps| - 1]).value, steps[|steps| - 1]);
    }
  }

  // ----- No completion is ever stuck -----

  ghost function Rank(phase: Phase): nat {
    match phase
    case Running => 6
    case Ended(_) => 5
    case Snapshotted(_) => 4
    case InChannel(_) => 3
    case Received(_) => 2
    case Diagnosed(_) => 1
    case Emitted(_) => 0
  }

  ghost function Work(spawns: seq<Spawn>): nat {
    if spawns == [] then 0 else Work(spawns[..|spawns| - 1]) + Rank(spawns[|spawns| - 1].phase)
  }

  lemma {:induction false} WorkMoves(spawns: seq<Spawn>, n: nat, sp: Spawn)
    requires n < |spawns|
    ensures Work(spawns[n := sp]) + Rank(spawns[n].phase) == Work(spawns) + Rank(sp.phase)
  {
    var init, last := spawns[..|spawns| - 1], |spawns| - 1;
    if n == last {
      assert spawns[n := sp][..last] == init;
    } else {
      assert spawns[n := sp][..last] == init[n := sp];
      WorkMoves(init, n, sp);
    }
  }

  lemma {:induction false} NoWorkLeft(spawns: seq<Spawn>)
    ensures Work(spawns) == 0 <==> forall n :: 0 <= n < |spawns| ==> spawns[n].phase.Emitted?
  {
    if spawns != [] {
      NoWorkLeft(spawns[..|spawns| - 1]);
    }
  }

  ghost function CallerRank(s: State): nat {
    match s.caller
    case Inserting(_) => 3
    case Idle => if Work(s.spawns) > 0 then 2 else 0
    case Draining(_) => 1
    case Emitting(_, _) => 0
  }

  ghost predicate AllEmitted(s: State) {
    s.caller.Idle? && forall n :: 0 <= n < |s.spawns| ==> s.spawns[n].phase.Emitted?
  }

  /** The spawn that a step moves, if it moves one. */
  ghost function Moved(s: State, step: Step): Option<nat> {
    match step
    case JobEnd(n, _) => Some(n)
    case Snapshot(n) => Some(n)
    case Send(n) => Some(n)
    case Receive => if s.channel != [] then Some(s.channel[0]) else None
    case Diagnose => if s.caller.Emitting? then Some(s.caller.spawn) else None
    case Emit => if s.caller.Emitting? then Some(s.caller.spawn) else None
    case _ => None
  }

  /** Every step that moves a spawn leaves less work. */
  lemma MoveLeavesLess(s: State, step: Step)
    requires Enabled(s, step) && Moved(s, step).Some?
    ensures Work(Apply(s, step).spawns) < Work(s.spawns)
  {
    var n, t := Moved(s, step).value, Apply(s, step);
    hide MapTerminal;
    assert t.spawns == s.spawns[n := t.spawns[n]];
    WorkMoves(s.spawns, n, t.spawns[n]);
  }

  ghost predicate AtWork(phase: Phase) {
    phase.Running? || phase.Ended? || phase.Snapshotted?
  }

  /** The step a scheduler could take next, as long as something is left to do. */
  lemma NextStep(s: State) returns (step: Step)
    requires ChannelOk(s) && CallerOk(s) && !AllEmitted(s)
    ensures Enabled(s, step)
    ensures Moved(s, step).Some? || (Apply(s, step).spawns == s.spawns && CallerRank(Apply(s, step)) < CallerRank(s))
  {
    NoWorkLeft(s.spawns);
    if s.caller.Inserting? {
      return Insert;
    } else if s.caller.Emitting? {
      var sp := s.spawns[s.caller.spawn];
      return if sp.phase.Received? && NeedsDiagnostic(TerminalOf(sp)) then Diagnose else Emit;
    } else if n: nat :| n < |s.spawns| && AtWork(s.spawns[n].phase) {
      match s.spawns[n].phase {
        case Running => return JobEnd(n, ReturnedOk);
        case Ended(_) => return Snapshot(n);
        case _ => return Send(n);
      }
    } else if s.channel != [] {
      return if s.caller.Idle? then BeginDrain else Receive;
    } else {
      return EndDrain;
    }
  }

  /** From every reachable state some continuation emits every accepted spawn: no completion is lost or stuck. */
  lemma {:induction false} EverySpawnCanBeEmitted(s: State) returns (steps: seq<Step>)
    requires Inv(s)
    ensures Exec(s, steps).Some? && AllEmitted(Exec(s, steps).value)
    ensures |Exec(s, steps).value.spawns| == |s.spawns|
    decreases Work(s.spawns), CallerRank(s)
  {
    if AllEmitted(s) {
      steps := [];
    } else {
      var step := NextStep(s);
      StepKeepsInv(s, step);
      if Moved(s, step).Some? {
        MoveLeavesLess(s, step);
      }
      assert |Apply(s, step).spawns| == |s.spawns|;
      var rest := EverySpawnCanBeEmitted(Apply(s, step));
      steps := [step] + rest;
      assert Exec(s, [step]) == Some(Apply(s, step));
      ExecConcat(s, [step], rest);
    }
  }
}
