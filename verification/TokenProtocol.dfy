/**
 The cancellation token (src/cancel.rs) with any number of concurrent cancellers, each of which first swaps the
 atomic flag and then, if it won the swap, writes the reason under the mutex.
 */
module TokenProtocol {
  import opened Prelude
  import opened Cancellation

  /** One call of `cancel`: before its swap, between a won swap and the write, or finished. */
  datatype Canceller =
    | Entered(reason: CancelReason)
    | Won(reason: CancelReason)
    | Finished(reason: CancelReason, won: bool)

  datatype State = State(cancelled: bool, reason: Option<CancelReason>, cancellers: seq<Canceller>)

  const INITIAL := State(false, None, [])

  datatype Step = Enter(reason: CancelReason) | Swap(caller: nat) | Write(caller: nat)

  ghost predicate Enabled(s: State, step: Step) {
    match step
    case Enter(_) => true
    case Swap(i) => i < |s.cancellers| && s.cancellers[i].Entered?
    case Write(i) => i < |s.cancellers| && s.cancellers[i].Won?
  }

  ghost function Apply(s: State, step: Step): State
    requires Enabled(s, step)
  {
    match step
    case Enter(r) => s.(cancellers := s.cancellers + [Entered(r)])
    case Swap(i) =>
      var r := s.cancellers[i].reason;
      s.(cancelled := true, cancellers := s.cancellers[i := if s.cancelled then Finished(r, false) else Won(r)])
    case Write(i) =>
      var r := s.cancellers[i].reason;
      s.(reason := Some(r), cancellers := s.cancellers[i := Finished(r, true)])
  }

  /** The state after a schedule, or None when some step of it could not be taken. */
  ghost function Exec(s: State, steps: seq<Step>): Option<State> {
    if steps == [] then Some(s)
    else
      var before, last := Exec(s, steps[..|steps| - 1]), steps[|steps| - 1];
      if before.Some? && Enabled(before.value, last) then Some(Apply(before.value, last)) else None
  }

  /** The canceller whose swap came first. */
  ghost function Winner(steps: seq<Step>): Option<nat> {
    if steps == [] then None
    else
      var before, last := Winner(steps[..|steps| - 1]), steps[|steps| - 1];
      if before.None? && last.Swap? then Some(last.caller) else before
  }

  ghost function Writes(steps: seq<Step>): nat {
    if steps == [] then 0
    else Writes(steps[..|steps| - 1]) + (if steps[|steps| - 1].Write? then 1 else 0)
  }

  /** Where everybody stands, in terms of the winner of the swap. */
  ghost predicate Settled(s: State, winner: Option<nat>, writes: nat) {
    && (s.cancelled <==> winner.Some?)
    && (winner.None? ==>
          && s.reason == None && writes == 0
          && forall i :: 0 <= i < |s.cancellers| ==> s.cancellers[i].Entered?)
    && (winner.Some? ==>
          var w := winner.value;
          && w < |s.cancellers|
          && (s.cancellers[w].Won? || s.cancellers[w] == Finished(s.cancellers[w].reason, true))
          && (forall i :: 0 <= i < |s.cancellers| && i != w ==>
                s.cancellers[i].Entered? || s.cancellers[i] == Finished(s.cancellers[i].reason, false))
          && (s.cancellers[w].Won? ==> s.reason == None && writes == 0)
          && (s.cancellers[w].Finished? ==> s.reason == Some(s.cancellers[w].reason) && writes == 1))
  }

  lemma {:induction false} RunSettles(steps: seq<Step>)
    requires Exec(INITIAL, steps).Some?
    ensures Settled(Exec(INITIAL, steps).value, Winner(steps), Writes(steps))
  {
    if steps != [] {
      RunSettles(steps[..|steps| - 1]);
    }
  }

  /**
   After any schedule of any number of cancellers: the reason is written at most once; a reason implies the flag;
   the flag is up without a reason exactly while the winner of the swap has still to write; and once every call
   has returned the reason is the winner's.
   */
  lemma ReasonIsTheWinners(steps: seq<Step>)
    requires Exec(INITIAL, steps).Some?
    ensures var s := Exec(INITIAL, steps).value;
            && (s.cancelled <==> Winner(steps).Some?)
            && (s.reason.Some? ==> s.cancelled)
            && (s.cancelled ==> Winner(steps).value < |s.cancellers|)
            && Writes(steps) == (if s.reason.Some? then 1 else 0)
    ensures var s := Exec(INITIAL, steps).value;
            && (s.reason.Some? ==> s.reason.value == s.cancellers[Winner(steps).value].reason)
            && (s.cancelled ==> (s.reason.None? <==> s.cancellers[Winner(steps).value].Won?))
            && (s.cancellers != [] && (forall i :: 0 <= i < |s.cancellers| ==> s.cancellers[i].Finished?) ==>
                  s.cancelled && s.reason == Some(s.cancellers[Winner(steps).value].reason))
  {
    RunSettles(steps);
    var s := Exec(INITIAL, steps).value;
    assert s.cancellers != [] ==> s.cancellers[0].Entered? || s.cancellers[0].Won? || s.cancellers[0].Finished?;
  }

  /** A `cancel` that nobody interrupts has the effect that callers of `CancellationToken.Cancel` rely on. */
  lemma UninterruptedCancel(s: State, r: CancelReason)
    ensures var n := |s.cancellers|;
            var end := Exec(s, [Enter(r), Swap(n)] + (if s.cancelled then [] else [Write(n)]));
            && end.Some? && end.value.cancelled
            && end.value.reason == (if s.cancelled then s.reason else Some(r))
            && end.value.cancellers == s.cancellers + [Finished(r, !s.cancelled)]
  {
    var n := |s.cancellers|;
    var first, both := [Enter(r)], [Enter(r), Swap(n)];
    assert Exec(s, []) == Some(s);
    assert first[..0] == [] && both[..1] == first;
    assert Exec(s, first).Some? && Exec(s, both).Some?;
    if s.cancelled {
      assert both + [] == both;
    } else {
      assert (both + [Write(n)])[..2] == both;
    }
  }

  /** Flag and reason only ever go up, whatever the cancellers do next. */
  lemma {:induction false} TokenIsMonotone(steps: seq<Step>, more: seq<Step>)
    requires Exec(INITIAL, steps + more).Some?
    ensures Exec(INITIAL, steps).Some?
    ensures var s, t := Exec(INITIAL, steps).value, Exec(INITIAL, steps + more).value;
            && (s.cancelled ==> t.cancelled)
            && (s.reason.Some? ==> t.reason == s.reason)
    decreases |more|
  {
    if more == [] {
      assert steps + more == steps;
    } else {
      var all, init := steps + more, more[..|more| - 1];
      assert all[..|all| - 1] == steps + init;
      TokenIsMonotone(steps, init);
      RunSettles(steps + init);
    }
  }
}
