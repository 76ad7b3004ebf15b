/**
 Whole runs of the queue: any interleaving of pushes and budgeted drains. The machine carries its history and
 its two counters beside the queue; `RunIsSound` lifts the per-step lemmas to every run.
 */
module QueueRuns {
  import opened Prelude
  import opened TaskEvents
  import opened QueueModel
  import opened QueueHistory

  datatype Machine = Machine(queue: Pending, history: History, coalesced: nat, dropped: nat)

  const EMPTY := Machine(Pending([], []), [], 0, 0)

  datatype Op = PushOp(event: TaskEvent) | DrainOp(budget: nat)

  ghost function PushStep(capacity: nat, m: Machine, e: TaskEvent): Machine {
    var queue := Push(capacity, m.queue, e);
    match Classify(capacity, m.queue, e)
    case Dropped => m.(history := m.history + [Reject(e)], dropped := m.dropped + 1)
    case Coalesced => m.(queue := queue, history := m.history + [Accept(e)], coalesced := m.coalesced + 1)
    case Accepted => m.(queue := queue, history := m.history + [Accept(e)])
  }

  ghost function DrainStep(m: Machine, budget: nat): Machine {
    m.(queue := Drain(m.queue, budget), history := m.history + AsReturns(Drained(m.queue, budget)))
  }

  ghost function Step(capacity: nat, m: Machine, op: Op): Machine {
    match op
    case PushOp(e) => PushStep(capacity, m, e)
    case DrainOp(budget) => DrainStep(m, budget)
  }

  ghost function Run(capacity: nat, m: Machine, ops: seq<Op>): Machine
    decreases |ops|
  {
    if ops == [] then m else Run(capacity, Step(capacity, m, ops[0]), ops[1..])
  }

  lemma {:induction false} RunOneMore(capacity: nat, m: Machine, ops: seq<Op>, op: Op)
    ensures Run(capacity, m, ops + [op]) == Step(capacity, Run(capacity, m, ops), op)
    decreases |ops|
  {
    hide Step;
    if ops == [] {
      assert (ops + [op])[1..] == [];
      assert Run(capacity, m, ops + [op]) == Run(capacity, Step(capacity, m, op), []);
    } else {
      RunOneMore(capacity, Step(capacity, m, ops[0]), ops[1..], op);
      assert (ops + [op])[1..] == ops[1..] + [op];
    }
  }

  /** The queue is the one its history determines, the counters balance, and the bound holds. */
  ghost predicate Sound(capacity: nat, m: Machine) {
    var totals := Count(m.history);
    && Explains(m.history, m.queue)
    && Size(m.queue) <= capacity
    && m.dropped == totals.rejected
    && totals.accepted == totals.returned + Size(m.queue) + m.coalesced
  }

  lemma NothingIsSound(capacity: nat, m: Machine)
    requires Size(m.queue) == |m.history| == m.coalesced == m.dropped == 0
    ensures Sound(capacity, m)
  {
    NothingExplained(m.history, m.queue);
    hide Explains;
  }

  lemma EmptyIsSound(capacity: nat)
    ensures Sound(capacity, EMPTY)
  {
    hide Sound;
    NothingIsSound(capacity, EMPTY);
  }

  lemma PushIsSound(capacity: nat, m: Machine, e: TaskEvent)
    requires Sound(capacity, m)
    ensures Sound(capacity, PushStep(capacity, m, e))
  {
    var entry := if Classify(capacity, m.queue, e).Dropped? then Reject(e) else Accept(e);
    assert (m.history + [entry])[..|m.history|] == m.history;
    match Classify(capacity, m.queue, e) {
      case Dropped => RejectExplained(m.history, m.queue, e);
      case Coalesced => AcceptUpdateExplained(m.history, m.queue, e, Find(m.queue.progress, SlotOf(e).value));
      case Accepted =>
        if SlotOf(e).Some? {
          AcceptNewSlotExplained(m.history, m.queue, e);
        } else {
          AcceptOrdinaryExplained(m.history, m.queue, e);
        }
    }
  }

  ghost function TakeStep(m: Machine, n: nat): Machine
    requires n <= Size(m.queue)
  {
    m.(queue := Skip(m.queue, n), history := m.history + AsReturns(All(m.queue)[..n]))
  }

  lemma {:induction false} TakeIsSound(capacity: nat, m: Machine, n: nat)
    requires Sound(capacity, m) && n <= Size(m.queue)
    ensures Sound(capacity, TakeStep(m, n))
  {
    if n == 0 {
      assert TakeStep(m, 0) == m;
    } else {
      hide Sound, AsReturns;
      var part := TakeStep(m, n - 1);
      TakeIsSound(capacity, m, n - 1);
      SkipCounts(m.queue, n - 1);
      SkipNext(m.queue, n - 1);
      TakeOneIsSound(capacity, part);
      var e := All(part.queue)[0];
      ReturnNext(All(m.queue)[..n - 1], e);
      assert TakeStep(m, n).history == part.history + [Return(e)];
    }
  }

  lemma TakeOneIsSound(capacity: nat, m: Machine)
    requires Sound(capacity, m) && Size(m.queue) > 0
    ensures Sound(capacity, m.(queue := Skip(m.queue, 1), history := m.history + [Return(All(m.queue)[0])]))
  {
    hide Explains;
    var e := All(m.queue)[0];
    ReturnExplained(m.history, m.queue);
    SkipCounts(m.queue, 1);
    assert (m.history + [Return(e)])[..|m.history|] == m.history;
  }

  lemma DrainIsSound(capacity: nat, m: Machine, budget: nat)
    requires Sound(capacity, m)
    ensures Sound(capacity, DrainStep(m, budget))
  {
    TakeIsSound(capacity, m, Min(budget, Size(m.queue)));
  }

  lemma StepIsSound(capacity: nat, m: Machine, op: Op)
    requires Sound(capacity, m)
    ensures Sound(capacity, Step(capacity, m, op))
  {
    match op {
      case PushOp(e) => PushIsSound(capacity, m, e);
      case DrainOp(budget) => DrainIsSound(capacity, m, budget);
    }
  }

  /** Conservation, the bound and the refinement to the history hold after every run. */
  lemma {:induction false} RunIsSound(capacity: nat, m: Machine, ops: seq<Op>)
    requires Sound(capacity, m)
    ensures Sound(capacity, Run(capacity, m, ops))
    decreases |ops|
  {
    if ops != [] {
      StepIsSound(capacity, m, ops[0]);
      RunIsSound(capacity, Step(capacity, m, ops[0]), ops[1..]);
    }
  }

  ghost function Pushes(ops: seq<Op>): nat {
    if ops == [] then 0 else (if ops[0].PushOp? then 1 else 0) + Pushes(ops[1..])
  }

  /** How many events the drains of a run return, all together. */
  ghost function TotalDrained(capacity: nat, m: Machine, ops: seq<Op>): nat
    decreases |ops|
  {
    if ops == [] then 0
    else
      (if ops[0].DrainOp? then |Drained(m.queue, ops[0].budget)| else 0)
      + TotalDrained(capacity, Step(capacity, m, ops[0]), ops[1..])
  }

  lemma {:induction false} CountReturns(h: History, es: seq<TaskEvent>)
    ensures Count(h + AsReturns(es)) == Count(h).(returned := Count(h).returned + |es|)
  {
    if es == [] {
      assert h + AsReturns(es) == h;
    } else {
      var init, all := es[..|es| - 1], h + AsReturns(es);
      CountReturns(h, init);
      assert all[..|all| - 1] == h + AsReturns(init) && all[|all| - 1].Return?;
      hide AsReturns;
    }
  }

  /** Every push makes one entry of a history, and every drain one for each event it returns. */
  lemma {:induction false} RunIsCounted(capacity: nat, m: Machine, ops: seq<Op>)
    ensures var before, after := Count(m.history), Count(Run(capacity, m, ops).history);
            && after.accepted + after.rejected == before.accepted + before.rejected + Pushes(ops)
            && after.returned == before.returned + TotalDrained(capacity, m, ops)
    decreases |ops|
  {
    if ops != [] {
      RunIsCounted(capacity, Step(capacity, m, ops[0]), ops[1..]);
      hide Run, TotalDrained, Pushes;
      match ops[0] {
        case PushOp(e) =>
          assert PushStep(capacity, m, e).history[..|m.history|] == m.history;
        case DrainOp(budget) =>
          CountReturns(m.history, Drained(m.queue, budget));
      }
    }
  }

  /** Every push of a run is accounted for once: returned by a drain, pending, coalesced away or dropped. */
  lemma Conservation(capacity: nat, ops: seq<Op>)
    ensures var m := Run(capacity, EMPTY, ops);
            && Pushes(ops) == TotalDrained(capacity, EMPTY, ops) + Size(m.queue) + m.coalesced + m.dropped
            && Size(m.queue) <= capacity
  {
    EmptyIsSound(capacity);
    RunIsSound(capacity, EMPTY, ops);
    RunIsCounted(capacity, EMPTY, ops);
    NothingCounted(EMPTY.history);
    hide Explains, Run, TotalDrained, Pushes, Count;
  }

  lemma NothingCounted(h: History)
    requires |h| == 0
    ensures Count(h) == Totals(0, 0, 0)
  {
  }

  /** Freshness of every slot after every run. */
  lemma ProgressIsFresh(capacity: nat, ops: seq<Op>, k: ProgressSlot)
    ensures var m := Run(capacity, EMPTY, ops);
            var accepted := Accepts(m.history, Some(k));
            var seen := Returns(m.history, Some(k))
                        + (if HasSlot(m.queue, k) then [m.queue.progress[Find(m.queue.progress, k)]] else []);
            && Subsequence(seen, accepted)
            && (accepted != [] ==> seen != [] && seen[|seen| - 1] == accepted[|accepted| - 1])
  {
    hide Run, Returns, Accepts, Subsequence, Opened, Find;
    EmptyIsSound(capacity);
    RunIsSound(capacity, EMPTY, ops);
    var m := Run(capacity, EMPTY, ops);
    SlotIsFresh(m.history, k);
    assert Opened(m.history, k).Some? <==> HasSlot(m.queue, k);
  }

  // ----- Bounded waiting -----

  ghost function TotalBudget(ops: seq<Op>): nat {
    if ops == [] then 0
    else (if ops[0].DrainOp? then ops[0].budget else 0) + TotalBudget(ops[1..])
  }

  /** How many events of class `k` a history has returned. */
  ghost function Returned(h: History, k: Option<ProgressSlot>): nat {
    |Returns(h, k)|
  }

  /** The events of one class among those of a drain. */
  ghost function OfClass(es: seq<TaskEvent>, k: Option<ProgressSlot>): seq<TaskEvent> {
    if es == [] then []
    else
      var rest, last := OfClass(es[..|es| - 1], k), es[|es| - 1];
      if SlotOf(last) == k then rest + [last] else rest
  }

  lemma {:induction false} OfClassCounts(es: seq<TaskEvent>, k: Option<ProgressSlot>)
    ensures (exists i :: 0 <= i < |es| && SlotOf(es[i]) == k) <==> OfClass(es, k) != []
    ensures (forall i :: 0 <= i < |es| ==> SlotOf(es[i]) == k) ==> |OfClass(es, k)| == |es|
  {
    if es != [] {
      OfClassCounts(es[..|es| - 1], k);
    }
  }

  lemma {:induction false} DrainReturns(h: History, es: seq<TaskEvent>, k: Option<ProgressSlot>)
    ensures Accepts(h + AsReturns(es), k) == Accepts(h, k)
    ensures Returns(h + AsReturns(es), k) == Returns(h, k) + OfClass(es, k)
  {
    if es == [] {
      assert h + AsReturns(es) == h;
    } else {
      var init, all := es[..|es| - 1], h + AsReturns(es);
      DrainReturns(h, init, k);
      assert all[..|all| - 1] == h + AsReturns(init) && all[|all| - 1] == Return(es[|es| - 1]);
      hide AsReturns;
    }
  }

  lemma ReturnsOfDrain(h: History, es: seq<TaskEvent>, k: Option<ProgressSlot>)
    ensures Accepts(h + AsReturns(es), k) == Accepts(h, k)
    ensures Returned(h, k) <= Returned(h + AsReturns(es), k)
    ensures (exists i :: 0 <= i < |es| && SlotOf(es[i]) == k) <==> Returned(h, k) < Returned(h + AsReturns(es), k)
    ensures (forall i :: 0 <= i < |es| ==> SlotOf(es[i]) == k) ==>
            Returned(h + AsReturns(es), k) == Returned(h, k) + |es|
  {
    hide Accepts, Returns, OfClass;
    DrainReturns(h, es, k);
    OfClassCounts(es, k);
  }

  lemma {:induction false} ReturnsNeverShrink(capacity: nat, m: Machine, ops: seq<Op>, k: Option<ProgressSlot>)
    ensures Returned(m.history, k) <= Returned(Run(capacity, m, ops).history, k)
    ensures |Accepts(m.history, k)| <= |Accepts(Run(capacity, m, ops).history, k)|
    ensures Accepts(m.history, k) <= Accepts(Run(capacity, m, ops).history, k)
    decreases |ops|
  {
    if ops != [] {
      match ops[0] {
        case PushOp(e) =>
          var next := PushStep(capacity, m, e);
          assert next.history[..|m.history|] == m.history;
        case DrainOp(budget) =>
          ReturnsOfDrain(m.history, Drained(m.queue, budget), k);
      }
      ReturnsNeverShrink(capacity, Step(capacity, m, ops[0]), ops[1..], k);
    }
  }

  /**
   An ordinary event at position `i` has been returned, as the (i+1)-th ordinary event from now, exactly if the drain
   budgets granted since then total at least i + 1, whatever is pushed in between; until then it moves up by each.
   */
  lemma OrdinaryWaitIsExact(capacity: nat, m: Machine, ops: seq<Op>, i: nat)
    requires Sound(capacity, m) && i < |m.queue.fifo|
    ensures var last, granted, position := Run(capacity, m, ops), TotalBudget(ops), Returned(m.history, None) + i;
            && (granted > i <==> position < |Returns(last.history, None)|)
            && (granted > i ==> Returns(last.history, None)[position] == m.queue.fifo[i])
            && (granted <= i ==> i - granted < |last.queue.fifo| && last.queue.fifo[i - granted] == m.queue.fifo[i])
  {
    hide Sound, Run, Returns, Accepts, TotalBudget;
    var last := Run(capacity, m, ops);
    RunIsSound(capacity, m, ops);
    OrdinaryWaitCount(capacity, m, ops, i);
    ReturnsNeverShrink(capacity, m, ops, None);
    OrdinaryConserved(capacity, m);
    OrdinaryConserved(capacity, last);
    SamePlace(Returns(m.history, None), m.queue.fifo, Returns(last.history, None), last.queue.fifo, i);
  }

  lemma OrdinaryConserved(capacity: nat, m: Machine)
    requires Sound(capacity, m)
    ensures Accepts(m.history, None) == Returns(m.history, None) + m.queue.fifo
  {
  }

  /** An element keeps its place in the whole while the boundary between its two parts moves. */
  lemma SamePlace(out: seq<TaskEvent>, waiting: seq<TaskEvent>, out': seq<TaskEvent>, waiting': seq<TaskEvent>, i: nat)
    requires out + waiting <= out' + waiting' && i < |waiting| && |out| <= |out'|
    ensures if |out| + i < |out'| then out'[|out| + i] == waiting[i]
            else |out| + i - |out'| < |waiting'| && waiting'[|out| + i - |out'|] == waiting[i]
  {
    assert (out + waiting)[|out| + i] == (out' + waiting')[|out| + i];
  }

  /** A push never moves an ordinary event. */
  lemma OrdinaryStays(capacity: nat, m: Machine, e: TaskEvent, i: nat)
    requires i < |m.queue.fifo|
    ensures var next := PushStep(capacity, m, e);
            i < |next.queue.fifo| && Returned(next.history, None) == Returned(m.history, None)
  {
    hide Find;
    assert PushStep(capacity, m, e).history[..|m.history|] == m.history;
  }

  /** A drain that does not reach it moves an ordinary event up by the whole budget. */
  lemma OrdinaryMovesUp(m: Machine, budget: nat, i: nat)
    requires WellFormed(m.queue) && budget <= i < |m.queue.fifo|
    ensures var next := DrainStep(m, budget);
            i - budget < |next.queue.fifo| && Returned(next.history, None) == Returned(m.history, None) + budget
  {
    hide Returns, Accepts;
    assert Drained(m.queue, budget) == m.queue.fifo[..budget];
    ReturnsOfDrain(m.history, m.queue.fifo[..budget], None);
  }

  /** A longer drain returns it. */
  lemma OrdinaryIsReturned(m: Machine, budget: nat, i: nat)
    requires WellFormed(m.queue) && i < |m.queue.fifo| && i < budget
    ensures Returned(DrainStep(m, budget).history, None) > Returned(m.history, None) + i
  {
    hide Returns, Accepts;
    var taken := Drained(m.queue, budget);
    var first, later := taken[..i + 1], taken[i + 1..];
    assert first == m.queue.fifo[..i + 1];
    ReturnsOfDrain(m.history, first, None);
    ReturnsOfDrain(m.history + AsReturns(first), later, None);
    ReturnsConcat(first, later);
    assert taken == first + later;
    assert m.history + AsReturns(first) + AsReturns(later) == m.history + AsReturns(taken);
  }

  lemma {:induction false} OrdinaryWaitCount(capacity: nat, m: Machine, ops: seq<Op>, i: nat)
    requires Sound(capacity, m) && i < |m.queue.fifo|
    ensures var last, granted := Run(capacity, m, ops), TotalBudget(ops);
            if granted <= i
            then i - granted < |last.queue.fifo| && Returned(last.history, None) == Returned(m.history, None) + granted
            else Returned(last.history, None) > Returned(m.history, None) + i
    decreases |ops|
  {
    if ops != [] {
      var next := Step(capacity, m, ops[0]);
      StepIsSound(capacity, m, ops[0]);
      assert WellFormed(m.queue);
      hide Sound, WellFormed, Returned, PushStep, DrainStep;
      match ops[0] {
        case PushOp(e) =>
          OrdinaryStays(capacity, m, e, i);
          OrdinaryWaitCount(capacity, next, ops[1..], i);
        case DrainOp(budget) =>
          if budget <= i {
            OrdinaryMovesUp(m, budget, i);
            OrdinaryWaitCount(capacity, next, ops[1..], i - budget);
          } else {
            OrdinaryIsReturned(m, budget, i);
            ReturnsNeverShrink(capacity, next, ops[1..], None);
          }
      }
    }
  }

  /** How many events are returned before slot `k`'s. */
  ghost function Ahead(q: Pending, k: ProgressSlot): nat {
    |q.fifo| + Find(q.progress, k)
  }

  /** A push moves a pending slot back by one exactly when it is an accepted ordinary event. */
  lemma PushAhead(capacity: nat, m: Machine, e: TaskEvent, k: ProgressSlot)
    requires Sound(capacity, m) && HasSlot(m.queue, k)
    ensures var next := PushStep(capacity, m, e);
            && HasSlot(next.queue, k)
            && Returned(next.history, Some(k)) == Returned(m.history, Some(k))
            && Ahead(next.queue, k) - Ahead(m.queue, k) == |Accepts(next.history, None)| - |Accepts(m.history, None)|
  {
    assert WellFormed(m.queue) && Size(m.queue) <= capacity;
    hide Explains, Count, Find;
    var next, j := PushStep(capacity, m, e), Find(m.queue.progress, k);
    assert next.history[..|m.history|] == m.history;
    PushKeepsWellFormed(capacity, m.queue, e);
    assert SlotOf(next.queue.progress[j]) == Some(k);
    FindIs(next.queue.progress, k, j);
  }

  lemma SlotMovesUp(q: Pending, budget: nat, k: ProgressSlot)
    requires WellFormed(q) && HasSlot(q, k) && budget <= Ahead(q, k)
    ensures HasSlot(Drain(q, budget), k) && Ahead(Drain(q, budget), k) == Ahead(q, k) - budget
  {
    hide Find;
    var rest := Drain(q, budget);
    SkipSplitsAll(q, budget);
    FindIs(rest.progress, k, Ahead(q, k) - budget - |rest.fifo|);
  }

  lemma SlotIsPassedOver(q: Pending, budget: nat, k: ProgressSlot)
    requires WellFormed(q) && HasSlot(q, k) && budget <= Ahead(q, k)
    ensures forall i :: 0 <= i < |Drained(q, budget)| ==> SlotOf(Drained(q, budget)[i]) != Some(k)
  {
  }

  lemma SlotIsReturned(q: Pending, budget: nat, k: ProgressSlot)
    requires HasSlot(q, k) && budget > Ahead(q, k)
    ensures exists i :: 0 <= i < |Drained(q, budget)| && SlotOf(Drained(q, budget)[i]) == Some(k)
  {
    assert SlotOf(Drained(q, budget)[Ahead(q, k)]) == Some(k);
  }

  /** A drain returns a pending slot or moves it up by the whole budget. */
  lemma DrainAhead(capacity: nat, m: Machine, budget: nat, k: ProgressSlot)
    requires Sound(capacity, m) && HasSlot(m.queue, k)
    ensures var next := DrainStep(m, budget);
            && Accepts(next.history, None) == Accepts(m.history, None)
            && if budget <= Ahead(m.queue, k)
               then && HasSlot(next.queue, k) && Ahead(next.queue, k) == Ahead(m.queue, k) - budget
                    && Returned(next.history, Some(k)) == Returned(m.history, Some(k))
               else Returned(next.history, Some(k)) > Returned(m.history, Some(k))
  {
    assert WellFormed(m.queue);
    hide Sound, WellFormed, HasSlot, Ahead, Drained, Drain, Accepts, Returned;
    ReturnsOfDrain(m.history, Drained(m.queue, budget), None);
    ReturnsOfDrain(m.history, Drained(m.queue, budget), Some(k));
    if budget <= Ahead(m.queue, k) {
      SlotMovesUp(m.queue, budget, k);
      SlotIsPassedOver(m.queue, budget, k);
    } else {
      SlotIsReturned(m.queue, budget, k);
    }
  }

  /**
   The first `i` operations grant slot `k` its bound: with j slots and f ordinary events ahead of it, their budgets
   total at least f + j + n + 1, where n counts the ordinary pushes accepted by them.
   */
  ghost predicate Grants(capacity: nat, m: Machine, ops: seq<Op>, k: ProgressSlot, i: nat)
    requires i <= |ops|
  {
    TotalBudget(ops[..i])
    > Ahead(m.queue, k) + |Accepts(Run(capacity, m, ops[..i]).history, None)| - |Accepts(m.history, None)|
  }

  lemma GrantsLater(capacity: nat, m: Machine, ops: seq<Op>, k: ProgressSlot, i: nat)
    requires 0 < i <= |ops|
    ensures var next, budget := Step(capacity, m, ops[0]), if ops[0].DrainOp? then ops[0].budget else 0;
            Ahead(next.queue, k) - Ahead(m.queue, k)
            == |Accepts(next.history, None)| - |Accepts(m.history, None)| - budget ==>
              (Grants(capacity, m, ops, k, i) <==> Grants(capacity, next, ops[1..], k, i - 1))
  {
    assert ops[..i][1..] == ops[1..][..i - 1];
    hide Step, Ahead, Accepts;
    assert Run(capacity, m, ops[..i]) == Run(capacity, Step(capacity, m, ops[0]), ops[..i][1..]);
  }

  lemma NothingGranted(capacity: nat, m: Machine, ops: seq<Op>, k: ProgressSlot)
    ensures !Grants(capacity, m, ops, k, 0)
  {
    assert ops[..0] == [];
  }

  /**
   A pending slot has an event returned exactly if some prefix of the run has granted it its bound. Until then it
   waits where budgets and ordinary pushes have moved it. Coalescing never moves it back.
   */
  lemma {:induction false} ProgressWaitIsExact(capacity: nat, m: Machine, ops: seq<Op>, k: ProgressSlot)
    requires Sound(capacity, m) && HasSlot(m.queue, k)
    ensures var last := Run(capacity, m, ops);
            if exists i :: 0 <= i <= |ops| && Grants(capacity, m, ops, k, i)
            then Returned(last.history, Some(k)) > Returned(m.history, Some(k))
            else
              && Returned(last.history, Some(k)) == Returned(m.history, Some(k)) && HasSlot(last.queue, k)
              && Ahead(last.queue, k) - Ahead(m.queue, k)
                 == |Accepts(last.history, None)| - |Accepts(m.history, None)| - TotalBudget(ops)
    decreases |ops|
  {
    NothingGranted(capacity, m, ops, k);
    if ops != [] {
      var next, op := Step(capacity, m, ops[0]), ops[0];
      StepIsSound(capacity, m, op);
      match op {
        case PushOp(e) => PushAhead(capacity, m, e, k);
        case DrainOp(budget) => DrainAhead(capacity, m, budget, k);
      }
      hide Sound, Ahead, Accepts, Returned, HasSlot, Grants, PushStep, DrainStep;
      if op.DrainOp? && op.budget > Ahead(m.queue, k) {
        GrantedAtOnce(capacity, m, ops, k);
        ReturnsNeverShrink(capacity, next, ops[1..], Some(k));
      } else {
        ProgressWaitIsExact(capacity, next, ops[1..], k);
        forall i | 0 < i <= |ops| ensures Grants(capacity, m, ops, k, i) <==>
          Grants(capacity, next, ops[1..], k, i - 1) {
          GrantsLater(capacity, m, ops, k, i);
        }
        assert (exists i :: 0 <= i <= |ops| && Grants(capacity, m, ops, k, i))
          <==> (exists i :: 0 <= i <= |ops| - 1 && Grants(capacity, next, ops[1..], k, i)) by {
          if i :| 0 <= i <= |ops| - 1 && Grants(capacity, next, ops[1..], k, i) {
            assert Grants(capacity, m, ops, k, i + 1) <==> Grants(capacity, next, ops[1..], k, i + 1 - 1);
          }
        }
      }
    }
  }

  lemma GrantedAtOnce(capacity: nat, m: Machine, ops: seq<Op>, k: ProgressSlot)
    requires ops != [] && ops[0].DrainOp? && ops[0].budget > Ahead(m.queue, k)
    requires Accepts(DrainStep(m, ops[0].budget).history, None) == Accepts(m.history, None)
    ensures Grants(capacity, m, ops, k, 1)
  {
    assert ops[..1] == [ops[0]] && [ops[0]][1..] == [];
    hide Accepts, Ahead, DrainStep;
    assert Run(capacity, m, [ops[0]]) == Run(capacity, DrainStep(m, ops[0].budget), []);
    assert TotalBudget([ops[0]]) == ops[0].budget + TotalBudget([]);
  }
}
