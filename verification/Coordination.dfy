/** Shared observers of task keys (src/coordination.rs): a map of sets against a plain set of pairs. */
module Coordination {
  import opened TaskEvents

  type ObserverId = string
  type Pairs = set<(TaskKey, ObserverId)>

  datatype ObservationChange =
    | ObserverNotAttached
    | StillObserved(remaining: nat)
    | CancelRequested
    | PriorityLowered
    | Paused
    | ContinuedUnobserved

  function ObserversOf(pairs: Pairs, key: TaskKey): (observers: set<ObserverId>)
    ensures forall o :: o in observers <==> (key, o) in pairs
  {
    set p | p in pairs && p.0 == key :: p.1
  }

  function UnobservedResult(policy: UnobservedPolicy): ObservationChange {
    match policy
    case Cancel => CancelRequested
    case LowerPriority => PriorityLowered
    case Pause => Paused
    case Continue => ContinuedUnobserved
  }

  /** What detaching an observer reports, in terms of the pairs alone. */
  function Change(pairs: Pairs, key: TaskKey, observer: ObserverId, policy: UnobservedPolicy): ObservationChange {
    var remaining := ObserversOf(pairs - {(key, observer)}, key);
    if (key, observer) !in pairs then ObserverNotAttached
    else if remaining != {} then StillObserved(|remaining|)
    else UnobservedResult(policy)
  }

  // ----- Runs -----

  datatype Op =
    | Observe(key: TaskKey, observer: ObserverId)
    | Unobserve(key: TaskKey, observer: ObserverId, policy: UnobservedPolicy)

  ghost function Run(ops: seq<Op>): Pairs {
    if ops == [] then {}
    else
      var before := Run(ops[..|ops| - 1]);
      match ops[|ops| - 1]
      case Observe(k, o) => before + {(k, o)}
      case Unobserve(k, o, _) => before - {(k, o)}
  }

  datatype Edge = FirstAttached | LastDetached

  /** The turning points of one key: an observe that found nobody, an unobserve that reported its policy. */
  ghost function Edges(ops: seq<Op>, key: TaskKey): seq<Edge> {
    if ops == [] then []
    else
      var init, last := ops[..|ops| - 1], ops[|ops| - 1];
      var edges, pairs := Edges(init, key), Run(init);
      if last.key != key then edges
      else
        match last
        case Observe(_, _) => if ObserversOf(pairs, key) == {} then edges + [FirstAttached] else edges
        case Unobserve(_, o, policy) =>
          if Change(pairs, key, o, policy) == UnobservedResult(policy) then edges + [LastDetached] else edges
  }

  /** First attachments and unobserved results alternate, and the key is observed exactly after an odd number. */
  lemma {:induction false} ObservationAlternates(ops: seq<Op>, key: TaskKey)
    ensures forall i :: 0 <= i < |Edges(ops, key)| ==>
              Edges(ops, key)[i] == if i % 2 == 0 then FirstAttached else LastDetached
    ensures ObserversOf(Run(ops), key) != {} <==> |Edges(ops, key)| % 2 == 1
  {
    if ops != [] {
      var init, last := ops[..|ops| - 1], ops[|ops| - 1];
      ObservationAlternates(init, key);
      var before, after := Run(init), Run(ops);
      if last.key != key {
        assert ObserversOf(after, key) == ObserversOf(before, key);
      } else {
        match last {
          case Observe(_, o) =>
            assert (key, o) in after;
            assert o in ObserversOf(after, key);
          case Unobserve(_, o, _) =>
            if (key, o) in before {
              assert o in ObserversOf(before, key);
            } else {
              assert after == before;
            }
        }
      }
    }
  }

  // ----- The coordination object -----

  class TaskCoordination {
    var observers: map<TaskKey, set<ObserverId>>

    /** No key is kept with an empty set of observers. */
    ghost predicate Valid()
      reads this
    {
      forall k :: k in observers ==> observers[k] != {}
    }

    ghost function Attached(): Pairs
      reads this
    {
      set k, o | k in observers && o in observers[k] :: (k, o)
    }

    lemma AttachedTo(key: TaskKey)
      ensures ObserversOf(Attached(), key) == if key in observers then observers[key] else {}
    {
      forall o ensures o in ObserversOf(Attached(), key) <==> key in observers && o in observers[key] {
        if key in observers && o in observers[key] {
          assert (key, o) in Attached();
        }
      }
    }

    constructor ()
      ensures Valid() && Attached() == {}
    {
      observers := map[];
    }

    method Observe(key: TaskKey, observer: ObserverId)
      requires Valid()
      modifies this
      ensures Valid() && Attached() == old(Attached()) + {(key, observer)}
    {
      var current := if key in observers then observers[key] else {};
      observers := observers[key := current + {observer}];
    }

    method Unobserve(key: TaskKey, observer: ObserverId, policy: TaskPolicy) returns (change: ObservationChange)
      requires Valid()
      modifies this
      ensures Valid() && Attached() == old(Attached()) - {(key, observer)}
      ensures change == Change(old(Attached()), key, observer, policy.unobserved)
      // an observer that was attached leaves others behind, or the policy decides
      ensures change == ObserverNotAttached <==> (key, observer) !in old(Attached())
      ensures change.StillObserved? <==> (key, observer) in old(Attached()) && ObserversOf(Attached(), key) != {}
      ensures change.StillObserved? ==> change.remaining == |ObserversOf(Attached(), key)|
      ensures change == CancelRequested <==>
                (key, observer) in old(Attached()) && ObserversOf(Attached(), key) == {} && policy.unobserved == Cancel
      ensures change == PriorityLowered <==>
                && (key, observer) in old(Attached()) && ObserversOf(Attached(), key) == {}
                && policy.unobserved == LowerPriority
      ensures change == Paused <==>
                (key, observer) in old(Attached()) && ObserversOf(Attached(), key) == {} && policy.unobserved == Pause
      ensures change == ContinuedUnobserved <==>
                && (key, observer) in old(Attached()) && ObserversOf(Attached(), key) == {}
                && policy.unobserved == Continue
    {
      AttachedTo(key);
      ghost var remaining := ObserversOf(Attached() - {(key, observer)}, key);
      assert remaining == ObserversOf(Attached(), key) - {observer} by {
        forall o | o in ObserversOf(Attached(), key) && o != observer ensures o in remaining {
          assert (key, o) in Attached() - {(key, observer)};
        }
      }
      if key !in observers {
        return ObserverNotAttached;
      }
      if observer !in observers[key] {
        return ObserverNotAttached;
      }
      assert (key, observer) in Attached();
      observers := observers[key := observers[key] - {observer}];
      var count := |observers[key]|;
      if count > 0 {
        return StillObserved(count);
      }
      observers := observers - {key};
      return UnobservedResult(policy.unobserved);
    }

    function ObserverCount(key: TaskKey): (n: nat)
      reads this
      ensures n == |ObserversOf(Attached(), key)|
    {
      AttachedTo(key);
      if key in observers then |observers[key]| else 0
    }

    predicate IsObserved(key: TaskKey): (r: bool)
      reads this
      ensures r <==> exists o :: (key, o) in Attached()
    {
      AttachedTo(key);
      assert ObserversOf(Attached(), key) != {} <==> exists o :: (key, o) in Attached() by {
        assert forall o :: (key, o) in Attached() ==> o in ObserversOf(Attached(), key);
      }
      ObserverCount(key) > 0
    }
  }
}
