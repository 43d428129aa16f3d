/** The append-only event ledger and the status that replaying it gives. */
module Ledger {
  import opened Basics
  import opened Wrappers

  datatype TaskState =
    | Created | Planned | Simulated | WaitingApproval | ReadyToDispatch | Dispatched | Running | InProgress
    | Recovering | Terminal | Completed | Failed | Cancelled

  /** A status text: a workflow state or any other text. */
  datatype Status = Workflow(state: TaskState) | Text(name: string)

  const UNKNOWN: Status := Text("unknown")
  const DONE: Status := Text("done")

  /** What an event says, with the phase that its payload carries; None where the text is missing or empty. */
  datatype Kind =
    | TaskCreated(status: Option<Status>)
    | TaskUpdated(state: Option<Status>)
    | TaskDispatched
    | TaskAcknowledged
    | TaskProgress
    | TaskPaused
    | TaskResumed
    | MotionEvent(phase: Option<Status>)
    | TaskTerminal(phase: Option<Status>)
    | AnyOther(name: string)

  datatype Event = Event(id: nat, task: nat, kind: Kind, at: nat)

  function StatusAfter(k: Kind, current: Status): Status {
    match k
    case TaskCreated(s) => s.GetOr(Workflow(Created))
    case TaskUpdated(s) => s.GetOr(current)
    case TaskDispatched => Workflow(Dispatched)
    case TaskAcknowledged => Text("acknowledged")
    case TaskProgress => Workflow(Running)
    case TaskPaused => Text("paused")
    case TaskResumed => Text("resumed")
    case MotionEvent(p) => p.GetOr(current)
    case TaskTerminal(p) => p.GetOr(current)
    case AnyOther(_) => current
  }

  /** The status after replaying the events in this order. */
  function Fold(events: seq<Event>): Status {
    if events == [] then UNKNOWN else StatusAfter(events[|events| - 1].kind, Fold(events[..|events| - 1]))
  }

  function EventsFor(events: seq<Event>, task: nat): (r: seq<Event>)
    ensures |r| <= |events|
  {
    if events == [] then []
    else EventsFor(events[..|events| - 1], task) + if events[|events| - 1].task == task then [events[|events| - 1]] else []
  }

  // ---------------------------------------------------------------- time order

  predicate InOrder(events: seq<Event>) {
    forall i, j :: 0 <= i < j < |events| ==> events[i].at <= events[j].at
  }

  /** Insert an event after all that are not later. */
  function Insert(events: seq<Event>, e: Event): (r: seq<Event>)
    ensures |r| == |events| + 1
  {
    if events == [] || events[|events| - 1].at <= e.at then events + [e]
    else Insert(events[..|events| - 1], e) + [events[|events| - 1]]
  }

  /** A stable sort by time. */
  function Sorted(events: seq<Event>): (r: seq<Event>)
    ensures |r| == |events|
  {
    if events == [] then [] else Insert(Sorted(events[..|events| - 1]), events[|events| - 1])
  }

  predicate NoneLater(events: seq<Event>, now: nat) {
    forall e :: e in events ==> e.at <= now
  }

  lemma AppendInOrder(events: seq<Event>, e: Event)
    ensures InOrder(events) && NoneLater(events, e.at) ==> InOrder(events + [e])
    ensures InOrder(events + [e]) ==> InOrder(events) && NoneLater(events, e.at)
  {
    var all := events + [e];
    assert forall i :: 0 <= i < |events| ==> all[i] == events[i];
    if InOrder(events) && NoneLater(events, e.at) {
      forall i, j | 0 <= i < j < |all| ensures all[i].at <= all[j].at {
        if j == |events| { assert all[i] in events; }
      }
    }
    if InOrder(all) {
      forall x | x in events ensures x.at <= e.at {
        var i :| 0 <= i < |events| && events[i] == x;
        assert all[i].at <= all[|events|].at;
      }
    }
  }

  lemma {:induction false} InsertOrders(events: seq<Event>, e: Event)
    requires InOrder(events)
    ensures InOrder(Insert(events, e)) && multiset(Insert(events, e)) == multiset(events) + multiset{e}
    ensures forall now :: NoneLater(events, now) && e.at <= now ==> NoneLater(Insert(events, e), now)
  {
    hide InOrder;
    if events == [] {
      AppendInOrder([], e);
    } else {
      var front, last := events[..|events| - 1], events[|events| - 1];
      assert events == front + [last];
      AppendInOrder(front, last);
      if last.at <= e.at {
        AppendInOrder(events, e);
      } else {
        InsertOrders(front, e);
        AppendInOrder(Insert(front, e), last);
      }
    }
  }

  lemma InsertLast(events: seq<Event>, e: Event)
    requires InOrder(events + [e])
    ensures Insert(events, e) == events + [e] && InOrder(events)
  {
    AppendInOrder(events, e);
    assert events != [] ==> events[|events| - 1] in events;
  }

  /** Sorting orders by time, keeps every event, and leaves an ordered ledger alone. */
  lemma {:induction false} SortedIs(events: seq<Event>)
    ensures InOrder(Sorted(events)) && multiset(Sorted(events)) == multiset(events)
    ensures InOrder(events) ==> Sorted(events) == events
  {
    hide Insert, InOrder;
    if events != [] {
      var front, last := events[..|events| - 1], events[|events| - 1];
      SortedIs(front);
      InsertOrders(Sorted(front), last);
      assert events == front + [last];
      if InOrder(events) { InsertLast(front, last); }
    } else {
      NoEvents();
    }
  }

  /** Events of one time keep their order in the ledger. */
  lemma {:induction false} SortedIsStable(events: seq<Event>, time: nat, atThat: Event -> bool)
    requires forall e :: atThat(e) <==> e.at == time
    ensures Sifted(Sorted(events), atThat, true) == Sifted(events, atThat, true)
  {
    hide Insert, InOrder, Sifted;
    if events != [] {
      var front, last := events[..|events| - 1], events[|events| - 1];
      SortedIsStable(front, time, atThat);
      SortedIs(front);
      InsertIsStable(Sorted(front), last, time, atThat);
      assert events == front + [last];
      SiftedConcat(front, [last], atThat, true);
    }
  }

  lemma {:induction false} InsertIsStable(events: seq<Event>, e: Event, time: nat, atThat: Event -> bool)
    requires InOrder(events) && forall x :: atThat(x) <==> x.at == time
    ensures Sifted(Insert(events, e), atThat, true) == Sifted(events, atThat, true) + Sifted([e], atThat, true)
  {
    hide Sifted;
    if events == [] || events[|events| - 1].at <= e.at {
      SiftedConcat(events, [e], atThat, true);
    } else {
      var front, last := events[..|events| - 1], events[|events| - 1];
      assert events == front + [last];
      InsertIsStable(front, e, time, atThat);
      SiftedConcat(Insert(front, e), [last], atThat, true);
      SiftedConcat(front, [last], atThat, true);
      OneOfTwo(e, last, atThat);
      var f, one, two := Sifted(front, atThat, true), Sifted([e], atThat, true), Sifted([last], atThat, true);
      assert f + one + two == f + (one + two) && f + two + one == f + (two + one);
    }
  }

  lemma OneOfTwo(e: Event, last: Event, atThat: Event -> bool)
    requires !(atThat(e) && atThat(last))
    ensures Sifted([e], atThat, true) + Sifted([last], atThat, true) == Sifted([last], atThat, true) + Sifted([e], atThat, true)
  {
    assert [e][1..] == [] && [last][1..] == [];
  }

  lemma NoEvents()
    ensures InOrder([])
  {
  }

  // ---------------------------------------------------------------- growth

  lemma EventsForGrow(events: seq<Event>, e: Event, task: nat)
    ensures EventsFor(events + [e], task) == EventsFor(events, task) + if e.task == task then [e] else []
  {
    assert (events + [e])[..|events|] == events;
  }

  /** The events of a task in a longer ledger: the same ones first. */
  lemma {:induction false} EventsForPrefix(before: seq<Event>, after: seq<Event>, task: nat)
    requires before <= after
    ensures EventsFor(before, task) <= EventsFor(after, task)
    decreases |after|
  {
    if before == after { return; }
    var front := after[..|after| - 1];
    assert front[..|before|] == after[..|before|];
    EventsForPrefix(before, front, task);
  }

  lemma {:induction false} EventsForIn(events: seq<Event>, task: nat)
    ensures forall x :: x in EventsFor(events, task) ==> x in events && x.task == task
  {
    if events != [] {
      EventsForIn(events[..|events| - 1], task);
      assert events == events[..|events| - 1] + [events[|events| - 1]];
    }
  }

  lemma {:induction false} EventsForOrdered(events: seq<Event>, task: nat)
    requires InOrder(events)
    ensures InOrder(EventsFor(events, task))
  {
    hide InOrder;
    if events == [] {
      NoEvents();
    } else {
      var front, last := events[..|events| - 1], events[|events| - 1];
      assert events == front + [last];
      AppendInOrder(front, last);
      EventsForOrdered(front, task);
      EventsForIn(front, task);
      AppendInOrder(EventsFor(front, task), last);
      assert EventsFor(front, task) + [] == EventsFor(front, task);
    }
  }
}
