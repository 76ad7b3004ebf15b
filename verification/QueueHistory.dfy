/**
 What a queue holds, computed from its history alone. A history records every accepted push, every rejected
 push and every returned event, oldest first. `Explains` relates a history to a queue without mentioning any
 queue operation, and `HistoryDeterminesQueue` shows that it leaves exactly one queue possible.
 */
module QueueHistory {
  import opened Prelude
  import opened TaskEvents
  import opened QueueModel

  datatype Entry = Accept(event: TaskEvent) | Reject(event: TaskEvent) | Return(event: TaskEvent)

  type History = seq<Entry>

  /** The accepted events of one class, in order: those of slot `k`, or the ordinary ones when `k` is None. */
  ghost function Accepts(h: History, k: Option<ProgressSlot>): seq<TaskEvent> {
    if h == [] then []
    else
      var rest, last := Accepts(h[..|h| - 1], k), h[|h| - 1];
      if last.Accept? && SlotOf(last.event) == k then rest + [last.event] else rest
  }

  /** The returned events of one class, in order. */
  ghost function Returns(h: History, k: Option<ProgressSlot>): seq<TaskEvent> {
    if h == [] then []
    else
      var rest, last := Returns(h[..|h| - 1], k), h[|h| - 1];
      if last.Return? && SlotOf(last.event) == k then rest + [last.event] else rest
  }

  /** The time of the first accepted push for `k` since `k` was last returned. */
  ghost function Opened(h: History, k: ProgressSlot): Option<nat> {
    if h == [] then None
    else
      var rest, last := Opened(h[..|h| - 1], k), h[|h| - 1];
      if SlotOf(last.event) != Some(k) || last.Reject? then rest
      else if last.Return? then None
      else if rest.Some? then rest
      else Some(|h| - 1)
  }

  /** The latest accepted push for `k`, whether or not it has been returned. */
  ghost function Latest(h: History, k: ProgressSlot): Option<TaskEvent> {
    var accepted := Accepts(h, Some(k));
    if accepted == [] then None else Some(accepted[|accepted| - 1])
  }

  /** Every returned progress event was the latest accepted push of a slot still open at that moment. */
  ghost predicate ReturnsLatest(h: History) {
    h == [] || (
      var rest, last := h[..|h| - 1], h[|h| - 1];
      && ReturnsLatest(rest)
      && (last.Return? && SlotOf(last.event).Some? ==>
            Opened(rest, SlotOf(last.event).value).Some? && Latest(rest, SlotOf(last.event).value) == Some(last.event)))
  }

  ghost predicate Explains(h: History, q: Pending) {
    && WellFormed(q)
    && ReturnsLatest(h)
    // ordinary events leave in the order they came
    && Accepts(h, None) == Returns(h, None) + q.fifo
    // a slot is pending exactly while it is open, and holds its latest accepted push
    && (forall k :: Opened(h, k).Some? <==> HasSlot(q, k))
    && (forall i :: 0 <= i < |q.progress| ==> Latest(h, SlotOf(q.progress[i]).value) == Some(q.progress[i]))
    // slots wait in the order in which they were opened
    && Increasing(OpeningTimes(h, q.progress))
  }

  ghost function OpeningTime(h: History, e: TaskEvent): int {
    if SlotOf(e).Some? && Opened(h, SlotOf(e).value).Some? then Opened(h, SlotOf(e).value).value else -1
  }

  ghost function OpeningTimes(h: History, ps: seq<TaskEvent>): seq<int> {
    seq(|ps|, i requires 0 <= i < |ps| => OpeningTime(h, ps[i]))
  }

  // ----- Steps of a queue keep its history an explanation -----

  lemma OpenedInRange(h: History, k: ProgressSlot)
    ensures Opened(h, k).Some? ==>
              && Opened(h, k).value < |h|
              && h[Opened(h, k).value].Accept?
              && SlotOf(h[Opened(h, k).value].event) == Some(k)
  {
  }

  lemma NothingExplained(h: History, q: Pending)
    requires |h| == Size(q) == 0
    ensures Explains(h, q)
  {
  }

  lemma RejectExplained(h: History, q: Pending, e: TaskEvent)
    requires Explains(h, q)
    ensures Explains(h + [Reject(e)], q)
  {
    var h' := h + [Reject(e)];
    assert h'[..|h|] == h;
    assert OpeningTimes(h', q.progress) == OpeningTimes(h, q.progress);
  }

  /** What an accepted push changes in the history of slot `k` and of the ordinary events. */
  lemma AcceptEffects(h: History, e: TaskEvent, k: ProgressSlot)
    ensures var h' := h + [Accept(e)];
            && ReturnsLatest(h') == ReturnsLatest(h)
            && Returns(h', None) == Returns(h, None)
            && Accepts(h', None) == Accepts(h, None) + (if SlotOf(e) == None then [e] else [])
            && Latest(h', k) == (if SlotOf(e) == Some(k) then Some(e) else Latest(h, k))
            && Opened(h', k) == (if SlotOf(e) == Some(k) && Opened(h, k).None? then Some(|h|) else Opened(h, k))
  {
    assert (h + [Accept(e)])[..|h|] == h;
  }

  lemma AcceptOrdinaryExplained(h: History, q: Pending, e: TaskEvent)
    requires Explains(h, q) && SlotOf(e) == None
    ensures Explains(h + [Accept(e)], q.(fifo := q.fifo + [e]))
  {
    var h' := h + [Accept(e)];
    assert h'[..|h|] == h;
    assert OpeningTimes(h', q.progress) == OpeningTimes(h, q.progress);
  }

  lemma AcceptUpdateExplained(h: History, q: Pending, e: TaskEvent, i: nat)
    requires Explains(h, q) && i < |q.progress| && SlotOf(e).Some? && SlotOf(q.progress[i]) == SlotOf(e)
    ensures Explains(h + [Accept(e)], q.(progress := q.progress[i := e]))
  {
    hide Accepts, Returns, Opened, Latest, ReturnsLatest, Find;
    var h', q' := h + [Accept(e)], q.(progress := q.progress[i := e]);
    FindIs(q.progress, SlotOf(e).value, i);
    assert HasSlot(q, SlotOf(e).value);
    forall k ensures HasSlot(q', k) <==> Opened(h', k).Some? {
      FindReplaced(q.progress, i, e, k);
      AcceptEffects(h, e, k);
    }
    forall j | 0 <= j < |q.progress|
      ensures OpeningTime(h', q'.progress[j]) == OpeningTime(h, q.progress[j])
      ensures Latest(h', SlotOf(q'.progress[j]).value) == Some(q'.progress[j])
    {
      AcceptEffects(h, e, SlotOf(q.progress[j]).value);
    }
    AcceptEffects(h, e, SlotOf(e).value);
    assert OpeningTimes(h', q'.progress) == OpeningTimes(h, q.progress);
  }

  lemma AcceptNewSlotExplained(h: History, q: Pending, e: TaskEvent)
    requires Explains(h, q) && SlotOf(e).Some? && !HasSlot(q, SlotOf(e).value)
    ensures Explains(h + [Accept(e)], q.(progress := q.progress + [e]))
  {
    hide Accepts, Returns, Opened, Latest, ReturnsLatest, Find;
    var h', q' := h + [Accept(e)], q.(progress := q.progress + [e]);
    var n := |q.progress|;
    assert DistinctSlots(q'.progress) by {
      forall i | 0 <= i < n ensures SlotOf(q.progress[i]) != SlotOf(e) {
        FindIs(q.progress, SlotOf(q.progress[i]).value, i);
      }
    }
    forall k ensures HasSlot(q', k) <==> Opened(h', k).Some? {
      FindAppended(q.progress, e, k);
      AcceptEffects(h, e, k);
    }
    forall i | 0 <= i < n ensures OpeningTime(h', q.progress[i]) == OpeningTime(h, q.progress[i]) < |h| {
      AcceptEffects(h, e, SlotOf(q.progress[i]).value);
      OpenedInRange(h, SlotOf(q.progress[i]).value);
    }
    AcceptEffects(h, e, SlotOf(e).value);
    assert OpeningTimes(h', q'.progress) == OpeningTimes(h, q.progress) + [|h|];
    forall i | 0 <= i <= n ensures Latest(h', SlotOf(q'.progress[i]).value) == Some(q'.progress[i]) {
      AcceptEffects(h, e, SlotOf(q'.progress[i]).value);
    }
  }

  /** What a returned event changes in the history of slot `k`. */
  lemma ReturnEffects(h: History, e: TaskEvent, k: ProgressSlot)
    ensures var h' := h + [Return(e)];
            && Accepts(h', None) == Accepts(h, None)
            && Returns(h', None) == Returns(h, None) + (if SlotOf(e) == None then [e] else [])
            && Latest(h', k) == Latest(h, k)
            && Opened(h', k) == (if SlotOf(e) == Some(k) then None else Opened(h, k))
  {
    assert (h + [Return(e)])[..|h|] == h;
  }

  lemma ReturnOrdinaryExplained(h: History, q: Pending)
    requires Explains(h, q) && q.fifo != []
    ensures Explains(h + [Return(q.fifo[0])], q.(fifo := q.fifo[1..]))
  {
    var e := q.fifo[0];
    var h' := h + [Return(e)];
    assert h'[..|h|] == h;
    assert ReturnsLatest(h');
    hide Accepts, Returns, Opened, Latest, ReturnsLatest, Find;
    forall k ensures Opened(h', k) == Opened(h, k) && Latest(h', k) == Latest(h, k) {
      ReturnEffects(h, e, k);
    }
    ReturnEffects(h, e, ProgressSlot(0, 0, ""));
    assert q.fifo == [e] + q.fifo[1..];
    assert OpeningTimes(h', q.progress) == OpeningTimes(h, q.progress);
  }

  lemma ReturnProgressExplained(h: History, q: Pending)
    requires Explains(h, q) && q.fifo == [] && q.progress != []
    ensures Explains(h + [Return(q.progress[0])], q.(progress := q.progress[1..]))
  {
    var e, rest := q.progress[0], q.progress[1..];
    var h' := h + [Return(e)];
    assert h'[..|h|] == h;
    FindIs(q.progress, SlotOf(e).value, 0);
    assert HasSlot(q, SlotOf(e).value);
    assert ReturnsLatest(h');
    hide Accepts, Returns, Opened, Latest, ReturnsLatest, Find;
    forall k ensures HasSlot(q.(progress := rest), k) <==> Opened(h', k).Some? {
      ReturnEffects(h, e, k);
      FindRest(q.progress, k);
    }
    forall i | 0 <= i < |rest|
      ensures OpeningTime(h', rest[i]) == OpeningTime(h, rest[i])
      ensures Latest(h', SlotOf(rest[i]).value) == Latest(h, SlotOf(rest[i]).value)
    {
      ReturnEffects(h, e, SlotOf(rest[i]).value);
    }
    ReturnEffects(h, e, SlotOf(e).value);
    assert OpeningTimes(h', rest) == OpeningTimes(h, q.progress)[1..];
  }

  /** Returning the head of the queue. */
  lemma ReturnExplained(h: History, q: Pending)
    requires Explains(h, q) && Size(q) > 0
    ensures Explains(h + [Return(All(q)[0])], Skip(q, 1))
  {
    hide Explains;
    if q.fifo != [] {
      ReturnOrdinaryExplained(h, q);
    } else {
      ReturnProgressExplained(h, q);
    }
  }

  ghost function AsReturns(es: seq<TaskEvent>): History {
    seq(|es|, i requires 0 <= i < |es| => Return(es[i]))
  }

  lemma ReturnNext(es: seq<TaskEvent>, e: TaskEvent)
    ensures AsReturns(es + [e]) == AsReturns(es) + [Return(e)]
  {
  }

  lemma ReturnsConcat(es: seq<TaskEvent>, fs: seq<TaskEvent>)
    ensures AsReturns(es + fs) == AsReturns(es) + AsReturns(fs)
  {
  }

  // ----- The main results about histories -----

  /** A history leaves no choice: at most one queue is explained by it. */
  lemma {:induction false} HistoryDeterminesQueue(h: History, p: Pending, q: Pending)
    requires Explains(h, p) && Explains(h, q)
    ensures p == q
  {
    assert p.fifo == Accepts(h, None)[|Returns(h, None)|..] == q.fifo;
    var ps, qs := OpeningTimes(h, p.progress), OpeningTimes(h, q.progress);
    SameOpenSlots(h, p, q);
    SameOpenSlots(h, q, p);
    IncreasingIsUnique(ps, qs);
    forall i | 0 <= i < |ps| ensures p.progress[i] == q.progress[i] {
      assert HasSlot(p, SlotOf(p.progress[i]).value) by { FindIs(p.progress, SlotOf(p.progress[i]).value, i); }
      assert HasSlot(q, SlotOf(q.progress[i]).value) by { FindIs(q.progress, SlotOf(q.progress[i]).value, i); }
      OpenedInRange(h, SlotOf(p.progress[i]).value);
      OpenedInRange(h, SlotOf(q.progress[i]).value);
      assert ps[i] == qs[i];
    }
  }

  lemma SameOpenSlots(h: History, p: Pending, q: Pending)
    requires Explains(h, p) && Explains(h, q)
    ensures forall t :: t in OpeningTimes(h, p.progress) ==> t in OpeningTimes(h, q.progress)
  {
    var ps, qs := OpeningTimes(h, p.progress), OpeningTimes(h, q.progress);
    forall t | t in ps ensures t in qs {
      var i :| 0 <= i < |ps| && ps[i] == t;
      var k := SlotOf(p.progress[i]).value;
      FindIs(p.progress, k, i);
      assert HasSlot(p, k) && HasSlot(q, k);
      assert qs[Find(q.progress, k)] == t;
    }
  }

  /** The events of `k` that came out, followed by the one still waiting. */
  ghost function Seen(h: History, k: ProgressSlot): seq<TaskEvent> {
    Returns(h, Some(k)) + (if Opened(h, k).Some? && Latest(h, k).Some? then [Latest(h, k).value] else [])
  }

  /**
   Freshness of one slot over a whole run: what came out, followed by what is waiting, is a selection of the
   accepted pushes in their order that ends with the last accepted push. So no older update follows a newer
   one, and once nothing waits the last update returned is the last one accepted.
   */
  lemma {:induction false} SlotIsFresh(h: History, k: ProgressSlot)
    requires ReturnsLatest(h)
    ensures Subsequence(Seen(h, k), Accepts(h, Some(k)))
    ensures Accepts(h, Some(k)) != [] ==>
              && Seen(h, k) != []
              && Seen(h, k)[|Seen(h, k)| - 1] == Accepts(h, Some(k))[|Accepts(h, Some(k))| - 1]
    ensures Opened(h, k).Some? ==> Latest(h, k).Some?
  {
    if h != [] {
      var rest, last := h[..|h| - 1], h[|h| - 1];
      SlotIsFresh(rest, k);
      var before, accepted := Seen(rest, k), Accepts(rest, Some(k));
      if SlotOf(last.event) == Some(k) && last.Accept? {
        var returned := Returns(rest, Some(k));
        assert Subsequence(returned, accepted) by {
          if Opened(rest, k).Some? {
            SubsequenceDropLast(before, accepted);
            assert before[..|before| - 1] == returned;
          } else {
            assert before == returned;
          }
        }
        assert Seen(h, k) == returned + [last.event];
        assert (returned + [last.event])[..|returned|] == returned;
        assert (accepted + [last.event])[..|accepted|] == accepted;
        assert Subsequence(returned + [last.event], accepted + [last.event]);
      } else {
        assert Seen(h, k) == before;
        assert Accepts(h, Some(k)) == accepted;
      }
    }
  }

  /** What `Opened` means: pushed at that time, not returned since, and every earlier push already returned by then. */
  lemma {:induction false} OpenedIsFirstSinceReturn(h: History, k: ProgressSlot, t: nat)
    ensures Opened(h, k) == Some(t) <==>
            && t < |h| && h[t].Accept? && SlotOf(h[t].event) == Some(k)
            && (forall i :: t < i < |h| && SlotOf(h[i].event) == Some(k) ==> !h[i].Return?)
            && (forall i :: 0 <= i < t && SlotOf(h[i].event) == Some(k) && h[i].Accept? ==>
                  exists j :: i < j < t && h[j].Return? && SlotOf(h[j].event) == Some(k))
  {
    if h != [] {
      var n, last := |h| - 1, h[|h| - 1];
      OpenedIsFirstSinceReturn(h[..n], k, t);
      assert forall i :: 0 <= i < n ==> h[..n][i] == h[i];
      if SlotOf(last.event) == Some(k) && last.Accept? {
        if Opened(h[..n], k).Some? {
          OpenedIsFirstSinceReturn(h[..n], k, Opened(h[..n], k).value);
        } else {
          NothingOpen(h[..n], k);
        }
      }
    }
  }

  /** With nothing open, every accepted push for `k` has been followed by a return. */
  lemma {:induction false} NothingOpen(h: History, k: ProgressSlot)
    requires Opened(h, k) == None
    ensures forall i :: 0 <= i < |h| && SlotOf(h[i].event) == Some(k) && h[i].Accept? ==>
              exists j :: i < j < |h| && h[j].Return? && SlotOf(h[j].event) == Some(k)
  {
    if h != [] {
      var n, last := |h| - 1, h[|h| - 1];
      assert forall i :: 0 <= i < n ==> h[..n][i] == h[i];
      if SlotOf(last.event) == Some(k) && last.Return? {
        assert h[n].Return?;
      } else {
        NothingOpen(h[..n], k);
      }
    }
  }

  /** How many pushes were accepted, how many were rejected and how many events were returned. */
  datatype Totals = Totals(accepted: nat, rejected: nat, returned: nat)

  ghost function Count(h: History): Totals {
    if h == [] then Totals(0, 0, 0)
    else
      var t := Count(h[..|h| - 1]);
      match h[|h| - 1]
      case Accept(_) => t.(accepted := t.accepted + 1)
      case Reject(_) => t.(rejected := t.rejected + 1)
      case Return(_) => t.(returned := t.returned + 1)
  }
}
