/** The queue object itself (src/queue.rs): a FIFO, a map of progress slots and a separate deque of slot order. */
module TaskQueue {
  import opened Prelude
  import opened TaskEvents
  import opened QueueModel
  import opened QueueHistory
  import opened QueueRuns

  datatype QueueError = Overflow(capacity: nat)

  datatype QueueReport = QueueReport(capacity: nat, pendingEvents: nat, droppedEvents: nat, coalescedEvents: nat)

  datatype DrainReport = DrainReport(events: seq<TaskEvent>, queue: QueueReport, coalescedEvents: nat)

  /** The deque lists exactly the slots of the map, each once, and each event sits in its own slot. */
  ghost predicate SlotsMatch(order: seq<ProgressSlot>, slots: map<ProgressSlot, TaskEvent>) {
    && (forall i, j :: 0 <= i < j < |order| ==> order[i] != order[j])
    && (forall i :: 0 <= i < |order| ==> order[i] in slots && SlotOf(slots[order[i]]) == Some(order[i]))
    && (forall k :: k in slots ==> k in order)
  }

  /** The pending events in the order of their slots. */
  ghost function InOrder(order: seq<ProgressSlot>, slots: map<ProgressSlot, TaskEvent>): (r: seq<TaskEvent>)
    requires SlotsMatch(order, slots)
    ensures |r| == |order| && forall i :: 0 <= i < |r| ==> r[i] == slots[order[i]]
  {
    seq(|order|, i requires 0 <= i < |order| => slots[order[i]])
  }

  lemma {:induction false} DequeCountsMap(order: seq<ProgressSlot>, slots: map<ProgressSlot, TaskEvent>)
    requires SlotsMatch(order, slots)
    ensures |order| == |slots|
  {
    if order == [] {
      assert slots.Keys == {};
    } else {
      RemoveFirst(order, slots);
      DequeCountsMap(order[1..], slots - {order[0]});
      assert slots.Keys == (slots - {order[0]}).Keys + {order[0]};
      assert |slots| == |slots.Keys|;
    }
  }

  /** Replacing the event of a slot already pending. */
  lemma ReplaceInOrder(order: seq<ProgressSlot>, slots: map<ProgressSlot, TaskEvent>, k: ProgressSlot, e: TaskEvent)
    requires SlotsMatch(order, slots) && SlotOf(e) == Some(k) && k in slots
    ensures Find(InOrder(order, slots), k) < |order|
    ensures SlotsMatch(order, slots[k := e])
    ensures InOrder(order, slots[k := e]) == InOrder(order, slots)[Find(InOrder(order, slots), k) := e]
  {
    assert k in order;
    hide Find, InOrder, SlotOf;
    var at :| 0 <= at < |order| && order[at] == k;
    SlotFound(order, slots, at);
    ReplaceAt(order, slots, at, e);
  }

  lemma ReplaceAt(order: seq<ProgressSlot>, slots: map<ProgressSlot, TaskEvent>, at: nat, e: TaskEvent)
    requires SlotsMatch(order, slots) && at < |order| && SlotOf(e) == Some(order[at])
    ensures SlotsMatch(order, slots[order[at] := e])
    ensures InOrder(order, slots[order[at] := e]) == InOrder(order, slots)[at := e]
  {
    hide SlotOf;
  }

  lemma SlotFound(order: seq<ProgressSlot>, slots: map<ProgressSlot, TaskEvent>, at: nat)
    requires SlotsMatch(order, slots) && at < |order|
    ensures Find(InOrder(order, slots), order[at]) == at
  {
    hide Find;
    FindIs(InOrder(order, slots), order[at], at);
  }

  /** A slot outside the map is pending nowhere, and opening it puts it at the end. */
  lemma AppendInOrder(order: seq<ProgressSlot>, slots: map<ProgressSlot, TaskEvent>, k: ProgressSlot, e: TaskEvent)
    requires SlotsMatch(order, slots) && SlotOf(e) == Some(k) && k !in slots
    ensures Find(InOrder(order, slots), k) == |order|
    ensures SlotsMatch(order + [k], slots[k := e])
    ensures InOrder(order + [k], slots[k := e]) == InOrder(order, slots) + [e]
  {
    var order', slots' := order + [k], slots[k := e];
    assert forall i :: 0 <= i < |order| ==> order'[i] == order[i] && order[i] in slots;
    assert order'[|order|] == k;
    forall j | j in slots' ensures j in order' {
      assert j != k ==> j in order;
    }
  }

  /** Removing the first slot leaves map and deque in agreement. */
  lemma RemoveFirst(order: seq<ProgressSlot>, slots: map<ProgressSlot, TaskEvent>)
    requires SlotsMatch(order, slots) && order != []
    ensures order[0] in slots && SlotsMatch(order[1..], slots - {order[0]})
  {
    forall j | j in slots - {order[0]} ensures j in order[1..] {
      var i :| 0 <= i < |order| && order[i] == j;
      assert order[1..][i - 1] == j;
    }
  }

  lemma RemoveInOrder(order: seq<ProgressSlot>, slots: map<ProgressSlot, TaskEvent>)
    requires SlotsMatch(order, slots) && order != []
    ensures order[0] in slots && SlotsMatch(order[1..], slots - {order[0]})
    ensures InOrder(order, slots) == [slots[order[0]]] + InOrder(order[1..], slots - {order[0]})
  {
    RemoveFirst(order, slots);
  }

  lemma Reassociate(es: seq<TaskEvent>, e: TaskEvent, fs: seq<TaskEvent>)
    ensures es + ([e] + fs) == (es + [e]) + fs
  {
  }

  class TaskEventQueue {
    const capacity: nat
    var fifo: seq<TaskEvent>
    var progress: map<ProgressSlot, TaskEvent>
    var progressOrder: seq<ProgressSlot>
    var droppedEvents: nat
    var coalescedEvents: nat
    /** Every push and every returned event since construction. */
    ghost var history: History

    ghost predicate SlotsAgree()
      reads this
    {
      SlotsMatch(progressOrder, progress)
    }

    ghost function Contents(): Pending
      requires SlotsAgree()
      reads this
    {
      Pending(fifo, InOrder(progressOrder, progress))
    }

    ghost function Model(): Machine
      requires SlotsAgree()
      reads this
    {
      Machine(Contents(), history, coalescedEvents, droppedEvents)
    }

    ghost predicate Valid()
      reads this
    {
      SlotsAgree() && Sound(capacity, Model())
    }

    constructor (capacity: nat)
      ensures Valid() && this.capacity == capacity
      ensures |history| == Size(Contents()) == droppedEvents == coalescedEvents == 0
    {
      this.capacity := capacity;
      fifo, progress, progressOrder := [], map[], [];
      droppedEvents, coalescedEvents := 0, 0;
      history := [];
      new;
      EmptyIsSound(capacity);
      assert Contents() == Pending([], []);
    }

    function PendingEvents(): (n: nat)
      requires SlotsAgree()
      reads this
      ensures n == Size(Contents())
    {
      DequeCountsMap(progressOrder, progress);
      |fifo| + |progress|
    }

    function Report(): (r: QueueReport)
      requires SlotsAgree()
      reads this
      ensures r == QueueReport(capacity, Size(Contents()), droppedEvents, coalescedEvents)
    {
      QueueReport(capacity, PendingEvents(), droppedEvents, coalescedEvents)
    }

    /**
     Fails exactly when the queue is full and the event cannot coalesce; a failed push changes only the drop
     counter (and the record of it in the history).
     */
    method Push(event: TaskEvent) returns (r: Result<(), QueueError>)
      requires Valid()
      modifies this
      ensures Valid() && Model() == PushStep(capacity, old(Model()), event)
      ensures r.Err? <==> Size(old(Contents())) == capacity && !Updates(old(Contents()), event)
      ensures r.Err? ==> r.error == Overflow(capacity)
      ensures droppedEvents == old(droppedEvents) + (if r.Err? then 1 else 0)
      ensures coalescedEvents == old(coalescedEvents) + (if Updates(old(Contents()), event) then 1 else 0)
      // an update of the same task, attempt and key replaces it in its place, and nothing else
      ensures forall i :: 0 <= i < |old(Contents()).progress| && SameProgress(old(Contents()).progress[i], event) ==>
                Contents() == Pending(old(Contents()).fifo, old(Contents()).progress[i := event])
      ensures !Updates(old(Contents()), event) ==> Appended(old(Contents()), Contents(), event, r.Ok?)
    {
      PushIsSound(capacity, Model(), event);
      PushIsExact(capacity, Contents(), event);
      WithinBounds();
      hide Sound, SlotsMatch, InOrder, Updates, Appended, SameProgress, QueueModel.Push, Find;
      r := PushAny(event);
    }

    lemma WithinBounds()
      requires Valid()
      ensures WellFormed(Contents()) && Size(Contents()) <= capacity
    {
    }

    method PushAny(event: TaskEvent) returns (r: Result<(), QueueError>)
      requires SlotsAgree()
      modifies this
      ensures SlotsAgree() && Model() == PushStep(capacity, old(Model()), event)
      ensures r == if Classify(capacity, old(Contents()), event).Dropped? then Err(Overflow(capacity)) else Ok(())
    {
      match SlotOf(event) {
        case Some(slot) =>
          r := PushProgress(slot, event);
        case None =>
          if PendingEvents() >= capacity {
            droppedEvents := droppedEvents + 1;
            history := history + [Reject(event)];
            return Err(Overflow(capacity));
          }
          fifo := fifo + [event];
          history := history + [Accept(event)];
          return Ok(());
      }
    }

    method PushProgress(slot: ProgressSlot, event: TaskEvent) returns (r: Result<(), QueueError>)
      requires SlotsAgree() && SlotOf(event) == Some(slot)
      modifies this
      ensures SlotsAgree() && Model() == PushStep(capacity, old(Model()), event)
      ensures r == if Classify(capacity, old(Contents()), event).Dropped? then Err(Overflow(capacity)) else Ok(())
    {
      hide SlotsMatch, InOrder, Find;
      if slot in progress {
        ReplaceInOrder(progressOrder, progress, slot, event);
        progress := progress[slot := event];
        coalescedEvents := coalescedEvents + 1;
        history := history + [Accept(event)];
        return Ok(());
      }
      AppendInOrder(progressOrder, progress, slot, event);
      if PendingEvents() >= capacity {
        droppedEvents := droppedEvents + 1;
        history := history + [Reject(event)];
        return Err(Overflow(capacity));
      }
      progress := progress[slot := event];
      progressOrder := progressOrder + [slot];
      history := history + [Accept(event)];
      return Ok(());
    }

    /** Returns the first `budget` events of the FIFO followed by the pending progress. */
    method Drain(budget: nat) returns (report: DrainReport)
      requires Valid()
      modifies this
      ensures Valid() && Model() == DrainStep(old(Model()), budget)
      ensures report.events == Drained(old(Contents()), budget)
      ensures |report.events| == Min(budget, |old(fifo)| + |old(Contents()).progress|)
      ensures report.events + (fifo + Contents().progress) == old(fifo) + old(Contents()).progress
      ensures fifo == old(fifo)[Min(budget, |old(fifo)|)..]
      ensures report.queue == Report()
      // the coalesced count is the total since construction, not that of this drain
      ensures report.coalescedEvents == old(coalescedEvents)
    {
      hide Sound, SlotsMatch, InOrder, Drained, QueueModel.Drain, WellFormed, AsReturns;
      DrainIsSound(capacity, Model(), budget);
      WithinBounds();
      DrainIsExact(Contents(), budget);
      report := DrainAny(budget);
    }

    method DrainAny(budget: nat) returns (report: DrainReport)
      requires SlotsAgree()
      modifies this
      ensures SlotsAgree() && Model() == DrainStep(old(Model()), budget)
      ensures report == DrainReport(Drained(old(Contents()), budget), Report(), old(coalescedEvents))
    {
      hide SlotsMatch, InOrder;
      var events := DrainFifo(budget);
      var late := DrainProgress(budget - |events|);
      DrainByClass(old(Contents()), budget, events, late, Contents());
      ReturnsConcat(events, late);
      report := DrainReport(events + late, Report(), coalescedEvents);
    }

    /** The first loop of a drain. */
    method DrainFifo(budget: nat) returns (events: seq<TaskEvent>)
      requires SlotsAgree()
      modifies this`fifo, this`history
      ensures SlotsAgree() && |events| == Min(budget, |old(fifo)|)
      ensures events == old(fifo)[..|events|] && fifo == old(fifo)[|events|..]
      ensures history == old(history) + AsReturns(events)
    {
      events := [];
      var remaining := budget;
      while remaining > 0
        invariant |events| + remaining == budget && |events| <= |old(fifo)|
        invariant events == old(fifo)[..|events|] && fifo == old(fifo)[|events|..]
        invariant history == old(history) + AsReturns(events)
      {
        if fifo == [] {
          break;
        }
        var event := fifo[0];
        ReturnNext(events, event);
        fifo := fifo[1..];
        history := history + [Return(event)];
        events := events + [event];
        remaining := remaining - 1;
      }
    }

    /** The second loop of a drain. A slot named by the deque is always in the map, so none is ever skipped. */
    method DrainProgress(budget: nat) returns (events: seq<TaskEvent>)
      requires SlotsAgree()
      modifies this`progress, this`progressOrder, this`history
      ensures SlotsAgree() && |events| == Min(budget, |old(Contents()).progress|)
      ensures old(Contents()).progress == events + Contents().progress
      ensures history == old(history) + AsReturns(events)
    {
      hide SlotsMatch, InOrder;
      events := [];
      var remaining := budget;
      while remaining > 0
        invariant |events| + remaining == budget
        invariant SlotsAgree() && old(Contents()).progress == events + InOrder(progressOrder, progress)
        invariant history == old(history) + AsReturns(events)
      {
        if progressOrder == [] {
          break;
        }
        var slot := progressOrder[0];
        RemoveInOrder(progressOrder, progress);
        progressOrder := progressOrder[1..];
        if slot !in progress {
          assert false;
        }
        var event := progress[slot];
        ReturnNext(events, event);
        Reassociate(events, event, InOrder(progressOrder, progress - {slot}));
        progress := progress - {slot};
        history := history + [Return(event)];
        events := events + [event];
        remaining := remaining - 1;
      }
    }
  }
}
