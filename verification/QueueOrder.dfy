/**
 The order in which a drain returns what was pushed (src/queue.rs:84-147). Ordinary events come before progress, and
 a coalesced update keeps the place of the update it replaced, so a drain can turn the order of pushes around. This
 module says exactly when it does.
 */
module QueueOrder {
  import opened Prelude
  import opened TaskEvents
  import opened QueueModel
  import opened QueueHistory
  import opened QueueRuns

  /** The times at which ordinary events were accepted. */
  ghost function OrdinaryTimes(h: History): seq<int> {
    if h == [] then []
    else
      var rest, last := OrdinaryTimes(h[..|h| - 1]), h[|h| - 1];
      if last.Accept? && SlotOf(last.event) == None then rest + [|h| - 1] else rest
  }

  lemma {:induction false} OrdinaryTimesAreWhenAccepted(h: History)
    ensures Increasing(OrdinaryTimes(h)) && |OrdinaryTimes(h)| == |Accepts(h, None)|
    ensures forall i :: 0 <= i < |OrdinaryTimes(h)| ==>
              0 <= OrdinaryTimes(h)[i] < |h| && h[OrdinaryTimes(h)[i]] == Accept(Accepts(h, None)[i])
  {
    if h != [] {
      OrdinaryTimesAreWhenAccepted(h[..|h| - 1]);
    }
  }

  /** When the events of the FIFO were accepted. */
  ghost function FifoTimes(h: History, q: Pending): (times: seq<int>)
    requires Explains(h, q)
    ensures |times| == |q.fifo| && Increasing(times)
    ensures forall i :: 0 <= i < |times| ==> 0 <= times[i] < |h| && h[times[i]] == Accept(q.fifo[i])
  {
    OrdinaryTimesAreWhenAccepted(h);
    hide Accepts, Returns, ReturnsLatest, Opened, Latest, OrdinaryTimes, OpeningTimes, HasSlot, WellFormed;
    OrdinaryTimes(h)[|Returns(h, None)|..]
  }

  /** When the last push for `k` was accepted, or -1. */
  ghost function LatestTime(h: History, k: ProgressSlot): int {
    if h == [] then -1
    else
      var last := h[|h| - 1];
      if last.Accept? && SlotOf(last.event) == Some(k) then |h| - 1 else LatestTime(h[..|h| - 1], k)
  }

  ghost function LatestTimes(h: History, ps: seq<TaskEvent>): seq<int> {
    seq(|ps|, i requires 0 <= i < |ps| => if SlotOf(ps[i]).Some? then LatestTime(h, SlotOf(ps[i]).value) else -1)
  }

  lemma {:induction false} LatestTimeNamesLatest(h: History, k: ProgressSlot)
    requires Latest(h, k).Some?
    ensures 0 <= LatestTime(h, k) < |h| && h[LatestTime(h, k)] == Accept(Latest(h, k).value)
    ensures forall i :: LatestTime(h, k) < i < |h| && SlotOf(h[i].event) == Some(k) ==> !h[i].Accept?
  {
    var n, last := |h| - 1, h[|h| - 1];
    if !(last.Accept? && SlotOf(last.event) == Some(k)) {
      LatestTimeNamesLatest(h[..n], k);
      assert forall i :: 0 <= i < n ==> h[..n][i] == h[i];
    }
  }

  /**
   When each pending event was itself pushed: a progress event replaces the earlier ones of its slot, so that is
   the time of the last push for the slot, which may be long after the slot was opened.
   */
  ghost function PushTimes(h: History, q: Pending): seq<int>
    requires Explains(h, q)
  {
    FifoTimes(h, q) + LatestTimes(h, q.progress)
  }

  /** Every pending event was accepted exactly at its time, and no later push for its slot was. */
  lemma PushTimesNamePushes(h: History, q: Pending, i: nat)
    requires Explains(h, q) && i < Size(q)
    ensures |PushTimes(h, q)| == Size(q)
    ensures var t := PushTimes(h, q)[i]; 0 <= t < |h| && h[t] == Accept(All(q)[i])
    ensures i >= |q.fifo| ==>
              forall j :: PushTimes(h, q)[i] < j < |h| && SlotOf(h[j].event) == SlotOf(All(q)[i]) ==> !h[j].Accept?
  {
    if i >= |q.fifo| {
      var e := q.progress[i - |q.fifo|];
      assert SlotOf(e).Some? && Latest(h, SlotOf(e).value) == Some(e);
      hide Explains, Latest;
      LatestTimeNamesLatest(h, SlotOf(e).value);
    }
  }

  /** When each pending event, or its slot, entered the queue. */
  ghost function EntryTimes(h: History, q: Pending): seq<int>
    requires Explains(h, q)
  {
    FifoTimes(h, q) + OpeningTimes(h, q.progress)
  }

  /** A pending slot entered with its first accepted push since the slot was last returned. */
  lemma SlotTimesNamePushes(h: History, q: Pending, i: nat)
    requires Explains(h, q) && i < |q.progress|
    ensures var t, k := OpeningTimes(h, q.progress)[i], SlotOf(q.progress[i]).value;
            0 <= t < |h| && h[t].Accept? && SlotOf(h[t].event) == Some(k) && Opened(h, k) == Some(t)
  {
    var k := SlotOf(q.progress[i]).value;
    FindIs(q.progress, k, i);
    assert HasSlot(q, k);
    hide Accepts, Returns, ReturnsLatest, Latest;
    OpenedInRange(h, k);
  }

  /** When a prefix of two sequences, the first one increasing, is increasing. */
  lemma PrefixIncreasing(early: seq<int>, late: seq<int>, n: nat)
    requires Increasing(early) && n <= |early + late|
    ensures Increasing((early + late)[..n])
            <==> n <= |early| || (Increasing(late[..n - |early|]) && (early == [] || early[|early| - 1] < late[0]))
  {
    var times, k := (early + late)[..n], |early|;
    if n > k {
      assert late[..n - k] == times[k..];
      assert k > 0 ==> times[k - 1] == early[k - 1];
      assert times[k] == late[0];
      if Increasing(times) {
        assert Increasing(late[..n - k]);
      }
    }
  }

  /**
   A drain returns events in the order in which they were pushed exactly if it stays within the FIFO, or the slots
   it reaches were last pushed in the order in which they wait, all of them after the last pending ordinary event.
   */
  lemma DrainKeepsPushOrderExactly(h: History, q: Pending, budget: nat)
    requires Explains(h, q)
    ensures |PushTimes(h, q)| == Size(q) >= |Drained(q, budget)|
    ensures var n, k, late := |Drained(q, budget)|, |q.fifo|, LatestTimes(h, q.progress);
            Increasing(PushTimes(h, q)[..n])
            <==> n <= k || (Increasing(late[..n - k]) && (k == 0 || FifoTimes(h, q)[k - 1] < late[0]))
  {
    hide Explains, Increasing, LatestTime;
    PrefixIncreasing(FifoTimes(h, q), LatestTimes(h, q.progress), |Drained(q, budget)|);
  }

  /**
   Counting a slot from the push that opened it, as its place in the queue does, the order is kept exactly if the
   drain stays within the FIFO, or one class is not pending, or the first pending slot was opened after the last
   pending ordinary event was accepted.
   */
  lemma DrainKeepsEntryOrderExactly(h: History, q: Pending, budget: nat)
    requires Explains(h, q)
    ensures |EntryTimes(h, q)| == Size(q) >= |Drained(q, budget)|
    ensures Increasing(EntryTimes(h, q)[..|Drained(q, budget)|])
            <==> || budget <= |q.fifo| || q.fifo == [] || q.progress == []
                 || FifoTimes(h, q)[|q.fifo| - 1] < OpeningTime(h, q.progress[0])
  {
    var early, late, n := FifoTimes(h, q), OpeningTimes(h, q.progress), |Drained(q, budget)|;
    assert Increasing(late);
    assert n > |early| ==> Increasing(late[..n - |early|]);
    hide Explains, FifoTimes, Increasing;
    PrefixIncreasing(early, late, n);
  }

  /** A task's last event overtakes the progress pushed before it. */
  lemma CompletedOvertakesProgress(capacity: nat, progress: TaskEvent, completed: TaskEvent)
    requires capacity >= 2 && SlotOf(progress).Some? && completed.kind == Lifecycle(Completed)
    ensures Run(capacity, EMPTY, [PushOp(progress), PushOp(completed), DrainOp(2)]).history
            == [Accept(progress), Accept(completed), Return(completed), Return(progress)]
  {
    var m1, m2 := FirstIsProgress(capacity, progress, completed);
    assert m2.queue == Pending([completed], [progress]);
    assert Drained(m2.queue, 2) == [completed, progress];
    assert AsReturns([completed, progress]) == [Return(completed), Return(progress)];
    hide PushStep;
    ThreeOps(capacity, EMPTY, PushOp(progress), PushOp(completed), DrainOp(2));
  }

  lemma FirstIsProgress(capacity: nat, first: TaskEvent, second: TaskEvent) returns (m1: Machine, m2: Machine)
    requires capacity >= 2 && SlotOf(first).Some? && SlotOf(second) != SlotOf(first)
    ensures m1 == PushStep(capacity, EMPTY, first) && m2 == PushStep(capacity, m1, second)
    ensures m2.queue == if SlotOf(second) == None then Pending([second], [first]) else Pending([], [first, second])
    ensures m2.history == [Accept(first), Accept(second)]
  {
    m1 := PushStep(capacity, EMPTY, first);
    assert m1.queue == Pending([], [first]) && m1.history == [Accept(first)];
    m2 := PushStep(capacity, m1, second);
  }

  /** A coalesced update overtakes an earlier push for another slot, because it keeps the place of its slot. */
  lemma CoalescedOvertakes(capacity: nat, a1: TaskEvent, b1: TaskEvent, a2: TaskEvent)
    requires capacity >= 2 && SlotOf(a1).Some? && SlotOf(b1).Some? && SlotOf(b1) != SlotOf(a1)
             && SlotOf(a2) == SlotOf(a1)
    ensures Run(capacity, EMPTY, [PushOp(a1), PushOp(b1), PushOp(a2), DrainOp(2)]).history
            == [Accept(a1), Accept(b1), Accept(a2), Return(a2), Return(b1)]
  {
    var m1, m2 := FirstIsProgress(capacity, a1, b1);
    assert Find(m2.queue.progress, SlotOf(a1).value) == 0;
    var m3 := PushStep(capacity, m2, a2);
    assert m3.queue == Pending([], [a2, b1]);
    assert Drained(m3.queue, 2) == [a2, b1] && AsReturns([a2, b1]) == [Return(a2), Return(b1)];
    hide PushStep;
    FourOps(capacity, EMPTY, PushOp(a1), PushOp(b1), PushOp(a2), DrainOp(2));
  }

  /** A coalesced update pushed after an ordinary event comes out after it, although its slot was opened before. */
  lemma CoalescedKeepsPushOrder(capacity: nat, a1: TaskEvent, x: TaskEvent, a2: TaskEvent)
    requires capacity >= 2 && SlotOf(a1).Some? && SlotOf(x) == None && SlotOf(a2) == SlotOf(a1)
    ensures Run(capacity, EMPTY, [PushOp(a1), PushOp(x), PushOp(a2), DrainOp(2)]).history
            == [Accept(a1), Accept(x), Accept(a2), Return(x), Return(a2)]
  {
    var m1, m2 := FirstIsProgress(capacity, a1, x);
    assert Find(m2.queue.progress, SlotOf(a1).value) == 0;
    var m3 := PushStep(capacity, m2, a2);
    assert m3.queue == Pending([x], [a2]);
    assert Drained(m3.queue, 2) == [x, a2] && AsReturns([x, a2]) == [Return(x), Return(a2)];
    hide PushStep;
    FourOps(capacity, EMPTY, PushOp(a1), PushOp(x), PushOp(a2), DrainOp(2));
  }

  lemma ThreeOps(capacity: nat, m: Machine, a: Op, b: Op, c: Op)
    ensures Run(capacity, m, [a, b, c]) == Step(capacity, Step(capacity, Step(capacity, m, a), b), c)
  {
    hide Step;
    var m1, m2 := Step(capacity, m, a), Step(capacity, Step(capacity, m, a), b);
    assert [a, b, c][1..] == [b, c] && [b, c][1..] == [c] && [c][1..] == [];
    assert Run(capacity, m2, [c]) == Run(capacity, Step(capacity, m2, c), []);
    assert Run(capacity, m1, [b, c]) == Run(capacity, m2, [c]);
  }

  lemma FourOps(capacity: nat, m: Machine, a: Op, b: Op, c: Op, d: Op)
    ensures Run(capacity, m, [a, b, c, d])
            == Step(capacity, Step(capacity, Step(capacity, Step(capacity, m, a), b), c), d)
  {
    hide Step;
    assert [a, b, c, d][1..] == [b, c, d];
    assert Run(capacity, m, [a, b, c, d]) == Run(capacity, Step(capacity, m, a), [b, c, d]);
    ThreeOps(capacity, Step(capacity, m, a), b, c, d);
  }
}
