/**
 The ordered model of the coalescing event queue (src/queue.rs): a FIFO of ordinary events followed by the
 pending progress events, at most one per slot, in the order their slots were opened.
 */
module QueueModel {
  import opened Prelude
  import opened TaskEvents

  datatype Pending = Pending(fifo: seq<TaskEvent>, progress: seq<TaskEvent>)

  function Size(q: Pending): nat {
    |q.fifo| + |q.progress|
  }

  function All(q: Pending): seq<TaskEvent> {
    q.fifo + q.progress
  }

  /** The position of the event pending for `k`, or |ps| when there is none. */
  function Find(ps: seq<TaskEvent>, k: ProgressSlot): (r: nat)
    ensures r <= |ps|
    ensures r < |ps| ==> SlotOf(ps[r]) == Some(k)
    ensures forall i :: 0 <= i < r ==> SlotOf(ps[i]) != Some(k)
  {
    if ps == [] then 0
    else if SlotOf(ps[0]) == Some(k) then 0
    else 1 + Find(ps[1..], k)
  }

  ghost predicate HasSlot(q: Pending, k: ProgressSlot) {
    Find(q.progress, k) < |q.progress|
  }

  ghost predicate DistinctSlots(ps: seq<TaskEvent>) {
    && (forall i :: 0 <= i < |ps| ==> SlotOf(ps[i]).Some?)
    && (forall i, j :: 0 <= i < j < |ps| ==> SlotOf(ps[i]) != SlotOf(ps[j]))
  }

  ghost predicate WellFormed(q: Pending) {
    && (forall i :: 0 <= i < |q.fifo| ==> SlotOf(q.fifo[i]) == None)
    && DistinctSlots(q.progress)
  }

  datatype Verdict = Accepted | Coalesced | Dropped

  function Classify(capacity: nat, q: Pending, e: TaskEvent): Verdict {
    match SlotOf(e)
    case Some(k) =>
      if Find(q.progress, k) < |q.progress| then Coalesced
      else if Size(q) >= capacity then Dropped
      else Accepted
    case None => if Size(q) >= capacity then Dropped else Accepted
  }

  function Push(capacity: nat, q: Pending, e: TaskEvent): Pending {
    match Classify(capacity, q, e)
    case Dropped => q
    case Coalesced => q.(progress := q.progress[Find(q.progress, SlotOf(e).value) := e])
    case Accepted => if SlotOf(e).Some? then q.(progress := q.progress + [e]) else q.(fifo := q.fifo + [e])
  }

  /** What a drain leaves behind after it took `n` events. */
  function Skip(q: Pending, n: nat): Pending
    requires n <= Size(q)
  {
    if n <= |q.fifo| then q.(fifo := q.fifo[n..]) else Pending([], q.progress[n - |q.fifo|..])
  }

  function Drained(q: Pending, budget: nat): seq<TaskEvent> {
    All(q)[..Min(budget, Size(q))]
  }

  function Drain(q: Pending, budget: nat): Pending {
    Skip(q, Min(budget, Size(q)))
  }

  lemma FindIs(ps: seq<TaskEvent>, k: ProgressSlot, i: nat)
    requires DistinctSlots(ps) && i < |ps| && SlotOf(ps[i]) == Some(k)
    ensures Find(ps, k) == i
  {
  }

  lemma FindAppended(ps: seq<TaskEvent>, e: TaskEvent, k: ProgressSlot)
    requires DistinctSlots(ps + [e])
    ensures Find(ps + [e], k) == if SlotOf(e)
            == Some(k) then |ps| else if Find(ps, k) < |ps| then Find(ps, k) else |ps| + 1
  {
    var qs := ps + [e];
    if SlotOf(e) == Some(k) {
      FindIs(qs, k, |ps|);
    } else if Find(ps, k) < |ps| {
      FindIs(qs, k, Find(ps, k));
    }
  }

  lemma FindReplaced(ps: seq<TaskEvent>, i: nat, e: TaskEvent, k: ProgressSlot)
    requires DistinctSlots(ps) && i < |ps| && SlotOf(ps[i]) == SlotOf(e)
    ensures DistinctSlots(ps[i := e]) && Find(ps[i := e], k) == Find(ps, k)
  {
    if Find(ps, k) < |ps| {
      FindIs(ps[i := e], k, Find(ps, k));
    } else if Find(ps[i := e], k) < |ps| {
      FindIs(ps, k, Find(ps[i := e], k));
    }
  }

  lemma FindRest(ps: seq<TaskEvent>, k: ProgressSlot)
    requires DistinctSlots(ps) && ps != []
    ensures Find(ps[1..], k) < |ps| - 1 <==> Find(ps, k) < |ps| && SlotOf(ps[0]) != Some(k)
  {
    if Find(ps[1..], k) < |ps| - 1 {
      FindIs(ps, k, Find(ps[1..], k) + 1);
    }
  }

  lemma PushKeepsWellFormed(capacity: nat, q: Pending, e: TaskEvent)
    requires WellFormed(q) && Size(q) <= capacity
    ensures WellFormed(Push(capacity, q, e)) && Size(Push(capacity, q, e)) <= capacity
  {
  }

  /** Some pending event is an update of the same progress. */
  ghost predicate Updates(q: Pending, e: TaskEvent) {
    exists i :: 0 <= i < |q.progress| && SameProgress(q.progress[i], e)
  }

  /** What a push leaves pending when it replaces nothing. */
  ghost predicate Appended(q: Pending, r: Pending, e: TaskEvent, accepted: bool) {
    && r.fifo == q.fifo + (if accepted && !e.kind.Progress? then [e] else [])
    && r.progress == q.progress + (if accepted && e.kind.Progress? then [e] else [])
  }

  /**
   A push in terms of task, attempt and key: it takes the place of the pending update of the same progress, and no
   other event is touched; when there is none it goes to the end of its class if there is room.
   */
  lemma PushIsExact(capacity: nat, q: Pending, e: TaskEvent)
    requires WellFormed(q)
    ensures Classify(capacity, q, e).Coalesced? <==> Updates(q, e)
    ensures Classify(capacity, q, e).Dropped? <==> Size(q) >= capacity && !Updates(q, e)
    ensures forall i :: 0 <= i < |q.progress| && SameProgress(q.progress[i], e) ==>
              Push(capacity, q, e) == Pending(q.fifo, q.progress[i := e])
    ensures !Updates(q, e) ==> Appended(q, Push(capacity, q, e), e, Size(q) < capacity)
  {
    forall i | 0 <= i < |q.progress|
      ensures SameProgress(q.progress[i], e) <==> SlotOf(e).Some? && SlotOf(q.progress[i]) == SlotOf(e)
    {
      SlotsTellProgressApart(q.progress[i], e);
    }
    SlotsTellProgressApart(e, e);
    hide SameProgress, SlotOf;
    if SlotOf(e).Some? {
      forall i | 0 <= i < |q.progress| && SlotOf(q.progress[i]) == SlotOf(e)
        ensures Find(q.progress, SlotOf(e).value) == i
      {
        FindIs(q.progress, SlotOf(e).value, i);
      }
    }
  }

  lemma SkipCounts(q: Pending, n: nat)
    requires n <= Size(q)
    ensures Size(Skip(q, n)) == Size(q) - n
  {
  }

  /** Taking one more event removes the head of what is left. */
  lemma SkipNext(q: Pending, n: nat)
    requires n <= Size(q) && Size(Skip(q, n)) > 0
    ensures n < Size(q)
    ensures Skip(q, n + 1) == Skip(Skip(q, n), 1)
    ensures All(Skip(q, n))[0] == All(q)[n] && All(q)[..n + 1] == All(q)[..n] + [All(q)[n]]
  {
    SkipCounts(q, n);
  }

  lemma SkipSplitsAll(q: Pending, n: nat)
    requires WellFormed(q) && n <= Size(q)
    ensures All(q) == All(q)[..n] + All(Skip(q, n))
    ensures WellFormed(Skip(q, n)) && Size(Skip(q, n)) == Size(q) - n
  {
  }

  /** A drain splits what is pending in two, and takes from the FIFO as long as it can. */
  lemma DrainIsExact(q: Pending, budget: nat)
    requires WellFormed(q)
    ensures |Drained(q, budget)| == Min(budget, |q.fifo| + |q.progress|)
    ensures var rest := Drain(q, budget);
            && Drained(q, budget) + (rest.fifo + rest.progress) == q.fifo + q.progress
            && rest.fifo == q.fifo[Min(budget, |q.fifo|)..]
  {
    SkipSplitsAll(q, Min(budget, Size(q)));
  }

  /** A drain takes what it can from the FIFO first, then from the pending progress. */
  lemma DrainByClass(q: Pending, budget: nat, early: seq<TaskEvent>, late: seq<TaskEvent>, rest: Pending)
    requires |early| == Min(budget, |q.fifo|) && q.fifo == early + rest.fifo
    requires |late| == Min(budget - |early|, |q.progress|) && q.progress == late + rest.progress
    ensures Drained(q, budget) == early + late && Drain(q, budget) == rest
  {
  }

  lemma SkipTwice(q: Pending, n: nat, m: nat)
    requires WellFormed(q) && n + m <= Size(q)
    ensures m <= Size(Skip(q, n)) && Skip(Skip(q, n), m) == Skip(q, n + m)
    ensures All(q)[..n] + All(Skip(q, n))[..m] == All(q)[..n + m]
  {
    SkipSplitsAll(q, n);
  }

  /** Draining is additive: two drains in a row are one drain with the summed budget. */
  lemma DrainIsAdditive(q: Pending, a: nat, b: nat)
    requires WellFormed(q)
    ensures Drained(q, a) + Drained(Drain(q, a), b) == Drained(q, a + b)
    ensures Drain(Drain(q, a), b) == Drain(q, a + b)
    ensures |Drained(q, a)| == Min(a, Size(q))
  {
    assert |All(q)| == Size(q);
    hide Skip, All;
    var first, size := Min(a, Size(q)), Size(q);
    SkipSplitsAll(q, first);
    SkipTwice(q, first, Min(b, size - first));
    assert first + Min(b, size - first) == Min(a + b, size);
  }
}
