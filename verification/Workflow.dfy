/**
 The workflow orchestrator over the event ledger: guarded transitions, a rebuilt state with a cache
 keyed by the number of events, and the history of workflow states.
 */
module Workflow {
  import opened Wrappers
  import opened Ledger

  function Allowed(s: TaskState): set<TaskState> {
    match s
    case Created => {Planned}
    case Planned => {Simulated}
    case Simulated => {WaitingApproval, ReadyToDispatch}
    case WaitingApproval => {ReadyToDispatch, Terminal}
    case ReadyToDispatch => {Dispatched}
    case Dispatched => {Running, InProgress, Failed, Cancelled}
    case Running => {Terminal, Recovering}
    case InProgress => {Completed, Failed, Cancelled, Recovering}
    case Recovering => {Running, Terminal, InProgress}
    case Terminal => {}
    case Completed => {}
    case Failed => {Recovering, Terminal}
    case Cancelled => {}
  }

  /** The event that advancing to a state appends. COMPLETED is logged as phase "done". */
  function AdvanceKind(target: TaskState): Kind {
    match target
    case Dispatched => TaskDispatched
    case Completed => TaskTerminal(Some(DONE))
    case Failed => TaskTerminal(Some(Workflow(Failed)))
    case Cancelled => TaskTerminal(Some(Workflow(Cancelled)))
    case Terminal => TaskTerminal(Some(Workflow(Terminal)))
    case Created => TaskTerminal(Some(Workflow(Created)))
    case _ => TaskUpdated(Some(Workflow(target)))
  }

  // ---------------------------------------------------------------- what replaying gives

  /** The last workflow state that the replay passes through. */
  function LastState(events: seq<Event>): Option<TaskState> {
    if events == [] then None
    else if Fold(events).Workflow? then Some(Fold(events).state)
    else LastState(events[..|events| - 1])
  }

  /** The workflow states that the replay passes through, without repeats. */
  function History(events: seq<Event>): seq<TaskState> {
    if events == [] then []
    else
      var h := History(events[..|events| - 1]);
      if Fold(events).Workflow? && (h == [] || h[|h| - 1] != Fold(events).state) then h + [Fold(events).state] else h
  }

  /** The state of a task whose events, in ledger order, are these. */
  function Replay(events: seq<Event>): Option<TaskState> {
    LastState(Sorted(events))
  }

  /** Whenever a state is rebuilt, it is the last entry of the history. */
  lemma {:induction false} StateEndsHistory(events: seq<Event>)
    ensures LastState(events) == if History(events) == [] then None else Some(History(events)[|History(events)| - 1])
  {
    if events != [] { StateEndsHistory(events[..|events| - 1]); }
  }

  lemma NoReplay()
    ensures Replay([]) == None
  {
  }

  // ---------------------------------------------------------------- the class

  datatype Outcome<+T> = Ok(value: T) | UnknownTask | AlreadyRegistered | NotAllowed | DuplicateEvent

  function AsOutcome(s: Option<TaskState>): Outcome<TaskState> {
    if s.Some? then Ok(s.value) else UnknownTask
  }

  ghost predicate CachedWell(events: seq<Event>, t: nat, entry: (nat, TaskState)) {
    0 < entry.0 <= |EventsFor(events, t)|
    && (entry.0 == |EventsFor(events, t)| ==> Replay(EventsFor(events, t)) == Some(entry.1))
  }

  lemma RebuiltState(mine: seq<Event>)
    requires mine != [] && Fold(Sorted(mine)).Workflow?
    ensures Replay(mine) == Some(Fold(Sorted(mine)).state)
  {
  }

  class WorkflowOrchestrator {
    var events: seq<Event>
    var eventIds: set<nat>
    var cache: map<nat, (nat, TaskState)>

    constructor ()
      ensures Valid() && events == []
    {
      events, eventIds, cache := [], {}, map[];
    }

    /** While a task has as many events as its cached entry counts, the cached state is the replayed one. */
    ghost predicate Valid()
      reads this
    {
      (forall e :: e in events ==> e.id in eventIds) && forall t :: t in cache ==> CachedWell(events, t, cache[t])
    }

    /** An append by anyone: motion, progress and ack events come in this way, unguarded. */
    method AppendEvent(e: Event) returns (ok: bool)
      requires Valid()
      modifies this`events, this`eventIds
      ensures Valid() && ok == (e.id !in old(eventIds))
      ensures events == if ok then old(events) + [e] else old(events)
    {
      if e.id in eventIds { return false; }
      ghost var before := events;
      eventIds := eventIds + {e.id};
      events := events + [e];
      forall t | t in cache ensures CachedWell(events, t, cache[t]) {
        assert CachedWell(before, t, cache[t]);
        EventsForGrow(before, e, t);
        assert EventsFor(before, t) + [] == EventsFor(before, t);
      }
      return true;
    }

    /** What others append while a method of the orchestrator runs. */
    method AppendAll(more: seq<Event>)
      requires Valid()
      modifies this`events, this`eventIds
      ensures Valid() && old(events) <= events && (more == [] ==> events == old(events) && eventIds == old(eventIds))
    {
      for i := 0 to |more|
        invariant Valid() && old(events) <= events && cache == old(cache)
        invariant more == [] ==> events == old(events) && eventIds == old(eventIds)
      {
        var _ := AppendEvent(more[i]);
      }
    }

    method EventsOf(t: nat) returns (mine: seq<Event>)
      ensures mine == EventsFor(events, t)
    {
      mine := [];
      assert events[..|events|] == events;
      for i := 0 to |events|
        invariant mine == EventsFor(events[..i], t)
      {
        assert events[..i + 1][..i] == events[..i];
        if events[i].task == t { mine := mine + [events[i]]; }
      }
    }

    /** Replay the events and remember the last workflow state. */
    method LastWorkflowState(sorted: seq<Event>) returns (last: Option<TaskState>)
      ensures last == LastState(sorted)
    {
      assert sorted[..|sorted|] == sorted;
      var status := UNKNOWN;
      last := None;
      for i := 0 to |sorted|
        invariant status == Fold(sorted[..i]) && last == LastState(sorted[..i])
      {
        assert sorted[..i + 1][..i] == sorted[..i];
        status := StatusAfter(sorted[i].kind, status);
        if status.Workflow? { last := Some(status.state); }
      }
    }

    /** The status that the projection rebuilds. */
    method RebuildStatus(sorted: seq<Event>) returns (status: Status)
      ensures status == Fold(sorted)
    {
      assert sorted[..|sorted|] == sorted;
      status := UNKNOWN;
      for i := 0 to |sorted|
        invariant status == Fold(sorted[..i])
      {
        assert sorted[..i + 1][..i] == sorted[..i];
        status := StatusAfter(sorted[i].kind, status);
      }
    }

    /** The cached state is used when no event came in since.  Otherwise the status is rebuilt, and when it is
        no workflow state the ledger is read a second time; `meanwhile` is what others append between the two
        reads.  The answer is the replayed state at the first read or at the second, and the cache, which
        counts the events of the first read, stays right. */
    method CurrentState(t: nat, meanwhile: seq<Event>) returns (r: Outcome<TaskState>)
      requires Valid()
      modifies this
      ensures Valid() && old(events) <= events
      ensures meanwhile == [] ==> events == old(events) && eventIds == old(eventIds)
      ensures r == AsOutcome(Replay(EventsFor(old(events), t))) || r == AsOutcome(Replay(EventsFor(events, t)))
    {
      hide LastState, Sorted, EventsFor, Fold;
      var mine := EventsOf(t);
      if mine == [] {
        NoReplay();
        return UnknownTask;
      }
      if t in cache && cache[t].0 == |mine| {
        assert CachedWell(events, t, cache[t]);
        return Ok(cache[t].1);
      }
      var status := RebuildStatus(Sorted(mine));
      if status.Workflow? {
        RebuiltState(mine);
        cache := cache[t := (|mine|, status.state)];
        return Ok(status.state);
      }
      AppendAll(meanwhile);
      EventsForPrefix(old(events), events, t);
      var again := EventsOf(t);
      var last := LastWorkflowState(Sorted(again));
      if last.None? { return UnknownTask; }
      cache := cache[t := (|mine|, last.value)];
      return Ok(last.value);
    }

    method GetHistory(t: nat) returns (r: Outcome<seq<TaskState>>)
      ensures r == if EventsFor(events, t) == [] then UnknownTask else Ok(History(Sorted(EventsFor(events, t))))
    {
      var mine := EventsOf(t);
      if mine == [] { return UnknownTask; }
      var sorted := Sorted(mine);
      assert sorted[..|sorted|] == sorted;
      var status := UNKNOWN;
      var states: seq<TaskState> := [];
      for i := 0 to |sorted|
        invariant status == Fold(sorted[..i]) && states == History(sorted[..i])
      {
        assert sorted[..i + 1][..i] == sorted[..i];
        status := StatusAfter(sorted[i].kind, status);
        if status.Workflow? && (states == [] || states[|states| - 1] != status.state) { states := states + [status.state]; }
      }
      return Ok(states);
    }

    method Register(t: nat, id: nat, now: nat) returns (r: Outcome<TaskState>)
      requires Valid()
      modifies this
      ensures Valid() && events == RegisterS(old(events), t, id, now, id in old(eventIds))
      ensures events == old(events) + if EventsFor(old(events), t) == [] && id !in old(eventIds)
                                      then [Event(id, t, TaskCreated(Some(Workflow(Created))), now)] else []
      ensures r == if EventsFor(old(events), t) != [] then AlreadyRegistered
                   else if id in old(eventIds) then DuplicateEvent else AsOutcome(Replay(EventsFor(events, t)))
    {
      var mine := EventsOf(t);
      if mine != [] { return AlreadyRegistered; }
      var ok := AppendEvent(Event(id, t, TaskCreated(Some(Workflow(Created))), now));
      if !ok { return DuplicateEvent; }
      r := CurrentState(t, []);
    }

    method Advance(t: nat, target: TaskState, id: nat, now: nat) returns (r: Outcome<TaskState>)
      requires Valid()
      modifies this
      ensures Valid() && events == AdvanceS(old(events), t, target, id, now, id in old(eventIds))
      ensures var current := Replay(EventsFor(old(events), t));
        r == if current.None? then UnknownTask else if target !in Allowed(current.value) then NotAllowed
             else if id in old(eventIds) then DuplicateEvent else AsOutcome(Replay(EventsFor(events, t)))
    {
      hide Allowed, AdvanceKind, Replay, EventsFor, CachedWell;
      var current := CurrentState(t, []);
      if !current.Ok? { return UnknownTask; }
      if target !in Allowed(current.value) { return NotAllowed; }
      var ok := AppendEvent(Event(id, t, AdvanceKind(target), now));
      if !ok { return DuplicateEvent; }
      r := CurrentState(t, []);
    }
  }

  // ---------------------------------------------------------------- runs of register and advance

  function RegisterS(events: seq<Event>, t: nat, id: nat, now: nat, duplicate: bool): seq<Event> {
    if EventsFor(events, t) != [] || duplicate then events
    else events + [Event(id, t, TaskCreated(Some(Workflow(Created))), now)]
  }

  function AdvanceS(events: seq<Event>, t: nat, target: TaskState, id: nat, now: nat, duplicate: bool): seq<Event> {
    var current := Replay(EventsFor(events, t));
    if current.None? || target !in Allowed(current.value) || duplicate then events
    else events + [Event(id, t, AdvanceKind(target), now)]
  }

  datatype Call =
    | RegisterCall(task: nat, id: nat, now: nat, duplicate: bool)
    | AdvanceCall(task: nat, target: TaskState, id: nat, now: nat, duplicate: bool)

  function Do(events: seq<Event>, c: Call): seq<Event> {
    match c
    case RegisterCall(t, id, now, dup) => RegisterS(events, t, id, now, dup)
    case AdvanceCall(t, target, id, now, dup) => AdvanceS(events, t, target, id, now, dup)
  }

  function DoAll(calls: seq<Call>): seq<Event> {
    if calls == [] then [] else Do(DoAll(calls[..|calls| - 1]), calls[|calls| - 1])
  }

  /** The ledger is appended to in time order. */
  predicate Timely(calls: seq<Call>) {
    forall i, j :: 0 <= i < j < |calls| ==> calls[i].now <= calls[j].now
  }

  predicate Walk(h: seq<TaskState>) {
    (h != [] ==> h[0] == Created) && forall i :: 0 < i < |h| ==> h[i] in Allowed(h[i - 1])
  }

  /** The history so far is a legal walk, and the status is its end, or "done" logged over IN_PROGRESS. */
  predicate Lawful(events: seq<Event>) {
    var h := History(events);
    (events != [] <==> h != []) && Walk(h) && Completed !in h
    && (events != [] ==> (Fold(events) == Workflow(h[|h| - 1]) || (Fold(events) == DONE && h[|h| - 1] == InProgress)))
  }

  lemma RegisterLawful(e: Event)
    requires e.kind == TaskCreated(Some(Workflow(Created)))
    ensures Lawful([e])
  {
    assert [e][..0] == [];
    assert History([e]) == [Created];
  }

  lemma AdvanceLawful(events: seq<Event>, target: TaskState, e: Event)
    requires Lawful(events) && LastState(events).Some? && target in Allowed(LastState(events).value)
    requires e.kind == AdvanceKind(target)
    ensures Lawful(events + [e])
    ensures History(events + [e]) == History(events) + if target == Completed then [] else [target]
    ensures LastState(events + [e]) == if target == Completed then LastState(events) else Some(target)
  {
    hide Fold, History, LastState, AdvanceKind, Allowed, Walk;
    var h := History(events);
    StateEndsHistory(events);
    FoldAdvanced(events, target, e);
    ReplayNext(events, e);
    OnlyNew(h[|h| - 1], target);
    WalkNext(h, target);
  }

  lemma FoldAdvanced(events: seq<Event>, target: TaskState, e: Event)
    requires e.kind == AdvanceKind(target)
    ensures Fold(events + [e]) == if target == Completed then DONE else Workflow(target)
  {
    assert (events + [e])[..|events|] == events;
  }

  /** One event more in the history and in the rebuilt state. */
  lemma ReplayNext(events: seq<Event>, e: Event)
    ensures var (now, h) := (Fold(events + [e]), History(events));
      && History(events + [e]) == (if now.Workflow? && (h == [] || h[|h| - 1] != now.state) then h + [now.state] else h)
      && LastState(events + [e]) == if now.Workflow? then Some(now.state) else LastState(events)
  {
    hide Fold;
    assert (events + [e])[..|events|] == events;
  }

  lemma OnlyNew(s: TaskState, target: TaskState)
    requires target in Allowed(s)
    ensures target != s && (target == Completed ==> s == InProgress)
  {
  }

  lemma WalkNext(h: seq<TaskState>, target: TaskState)
    requires Walk(h) && h != [] && target in Allowed(h[|h| - 1])
    ensures Walk(h + [target])
  {
    hide Allowed;
  }

  /** One call on an ordered ledger keeps every task's replay lawful. */
  lemma CallLawful(before: seq<Event>, c: Call, t: nat)
    requires InOrder(before) && Lawful(EventsFor(before, t)) && Lawful(EventsFor(before, c.task))
    ensures Lawful(EventsFor(Do(before, c), t))
  {
    hide Lawful, InOrder, EventsFor, History, Fold, LastState, Sorted, AdvanceKind;
    var after := Do(before, c);
    if after != before {
      var e := after[|before|];
      assert after == before + [e];
      EventsForGrow(before, e, t);
      EventsForOrdered(before, t);
      SortedIs(EventsFor(before, t));
      if e.task == t {
        if c.RegisterCall? {
          assert EventsFor(after, t) == [e];
          RegisterLawful(e);
        } else {
          AdvanceLawful(EventsFor(before, t), c.target, e);
        }
      } else {
        assert EventsFor(before, t) + [] == EventsFor(before, t);
      }
    }
  }

  lemma {:induction false} RunLawful(calls: seq<Call>, t: nat)
    requires Timely(calls)
    ensures InOrder(DoAll(calls)) && Lawful(EventsFor(DoAll(calls), t))
    ensures calls != [] ==> NoneLater(DoAll(calls), calls[|calls| - 1].now)
  {
    if calls != [] {
      var front, before, c := calls[..|calls| - 1], DoAll(calls[..|calls| - 1]), calls[|calls| - 1];
      RunLawful(front, t);
      RunLawful(front, c.task);
      if front != [] { assert front[|front| - 1] == calls[|calls| - 2]; }
      assert before == [] || front != [];
      hide Lawful;
      CallLawful(before, c, t);
      CallInOrder(before, c);
    }
  }

  /** A call no earlier than the ledger keeps it in time order. */
  lemma CallInOrder(before: seq<Event>, c: Call)
    requires InOrder(before) && NoneLater(before, c.now)
    ensures InOrder(Do(before, c)) && NoneLater(Do(before, c), c.now)
  {
    hide InOrder;
    var after := Do(before, c);
    if after != before {
      assert after == before + [after[|before|]];
      AppendInOrder(before, after[|before|]);
    }
  }

  /** For every run of register and advance in time order, the rebuilt history of each task is a walk of the
      transition table from CREATED, COMPLETED is never in it, and the state is its last entry. */
  lemma RunsAreLegal(calls: seq<Call>, t: nat)
    requires Timely(calls)
    ensures var mine := EventsFor(DoAll(calls), t);
      Sorted(mine) == mine && Walk(History(mine)) && Completed !in History(mine)
      && (mine == [] <==> History(mine) == [])
      && Replay(mine) == (if History(mine) == [] then None else Some(History(mine)[|History(mine)| - 1]))
  {
    RunLawful(calls, t);
    var mine := EventsFor(DoAll(calls), t);
    EventsForOrdered(DoAll(calls), t);
    SortedIs(mine);
    StateEndsHistory(mine);
  }

  /** A walk that shows DISPATCHED began with PLANNED, SIMULATED and READY_TO_DISPATCH in that order, with at
      most an approval in between. */
  lemma DispatchedIsPrepared(h: seq<TaskState>, i: nat)
    requires Walk(h) && i < |h| && h[i] == Dispatched
    ensures h[..i + 1] == [Created, Planned, Simulated, ReadyToDispatch, Dispatched]
      || h[..i + 1] == [Created, Planned, Simulated, WaitingApproval, ReadyToDispatch, Dispatched]
  {
    Before(h, i);
    Before(h, i - 1);
    Before(h, i - 2);
    Before(h, i - 3);
    if h[i - 2] == WaitingApproval {
      Before(h, i - 4);
      FirstCreated(h, i - 5);
    } else {
      FirstCreated(h, i - 4);
    }
  }

  /** What can come before each preparatory state. */
  lemma Before(h: seq<TaskState>, i: nat)
    requires Walk(h) && i < |h| && h[i] in {Planned, Simulated, WaitingApproval, ReadyToDispatch, Dispatched}
    ensures i > 0
    ensures h[i] == Dispatched ==> h[i - 1] == ReadyToDispatch
    ensures h[i] == ReadyToDispatch ==> h[i - 1] in {Simulated, WaitingApproval}
    ensures h[i] == WaitingApproval ==> h[i - 1] == Simulated
    ensures h[i] == Simulated ==> h[i - 1] == Planned
    ensures h[i] == Planned ==> h[i - 1] == Created
  {
    assert i > 0 ==> h[i] in Allowed(h[i - 1]);
  }

  lemma FirstCreated(h: seq<TaskState>, i: nat)
    requires Walk(h) && i < |h| && h[i] == Created
    ensures i == 0
  {
    assert i > 0 ==> h[i] in Allowed(h[i - 1]);
  }

  /** In a run, DISPATCHED is shown only after planning, simulation and readiness. */
  lemma DispatchNeedsPreparation(calls: seq<Call>, t: nat, i: nat)
    requires Timely(calls) && i < |History(EventsFor(DoAll(calls), t))| && History(EventsFor(DoAll(calls), t))[i] == Dispatched
    ensures var h := History(EventsFor(DoAll(calls), t));
      h[..i + 1] == [Created, Planned, Simulated, ReadyToDispatch, Dispatched]
      || h[..i + 1] == [Created, Planned, Simulated, WaitingApproval, ReadyToDispatch, Dispatched]
  {
    RunsAreLegal(calls, t);
    DispatchedIsPrepared(History(EventsFor(DoAll(calls), t)), i);
  }

  // ---------------------------------------------------------------- what an event that anyone appends shows

  /** The replayed state, history and status of a task in a ledger. */
  function StateIn(ledger: seq<Event>, t: nat): Option<TaskState> {
    Replay(EventsFor(ledger, t))
  }

  function HistoryIn(ledger: seq<Event>, t: nat): seq<TaskState> {
    History(Sorted(EventsFor(ledger, t)))
  }

  function StatusIn(ledger: seq<Event>, t: nat): Status {
    Fold(Sorted(EventsFor(ledger, t)))
  }

  /** A state is added to a history unless it is already its end. */
  function Shown(h: seq<TaskState>, s: TaskState): seq<TaskState> {
    if h != [] && h[|h| - 1] == s then h else h + [s]
  }

  /** Replaying one event more, the latest of its task. */
  lemma LatestReplays(ledger: seq<Event>, e: Event)
    requires NoneLater(EventsFor(ledger, e.task), e.at)
    ensures Sorted(EventsFor(ledger + [e], e.task)) == Sorted(EventsFor(ledger, e.task)) + [e]
  {
    var mine := EventsFor(ledger, e.task);
    EventsForGrow(ledger, e, e.task);
    assert (mine + [e])[..|mine|] == mine;
    SortedIs(mine);
    forall x | x in Sorted(mine) ensures x.at <= e.at { assert x in multiset(Sorted(mine)); }
    AppendInOrder(Sorted(mine), e);
    InsertLast(Sorted(mine), e);
  }

  lemma StatusNext(ledger: seq<Event>, e: Event, status: Status)
    requires NoneLater(EventsFor(ledger, e.task), e.at) && StatusAfter(e.kind, StatusIn(ledger, e.task)) == status
    ensures var (l, t) := (ledger + [e], e.task);
      && StatusIn(l, t) == status
      && StateIn(l, t) == (if status.Workflow? then Some(status.state) else StateIn(ledger, t))
      && HistoryIn(l, t) == if status.Workflow? then Shown(HistoryIn(ledger, t), status.state) else HistoryIn(ledger, t)
  {
    hide StatusAfter, Sorted, EventsFor;
    var sorted := Sorted(EventsFor(ledger, e.task));
    LatestReplays(ledger, e);
    assert (sorted + [e])[..|sorted|] == sorted;
    ReplayNext(sorted, e);
  }

  /** A workflow status is the end of the history. */
  lemma StatusShows(ledger: seq<Event>, t: nat)
    requires StatusIn(ledger, t).Workflow?
    ensures StateIn(ledger, t) == Some(StatusIn(ledger, t).state)
    ensures HistoryIn(ledger, t) != [] && HistoryIn(ledger, t)[|HistoryIn(ledger, t)| - 1] == StatusIn(ledger, t).state
  {
    hide Sorted, EventsFor;
    var sorted := Sorted(EventsFor(ledger, t));
    assert sorted != [];
  }

  /** For every ledger, a progress event makes the task RUNNING, and shows it once. */
  lemma ProgressRuns(ledger: seq<Event>, e: Event)
    requires NoneLater(EventsFor(ledger, e.task), e.at) && e.kind.TaskProgress?
    ensures var l := ledger + [e];
      && StateIn(l, e.task) == Some(Running) && StatusIn(l, e.task) == Workflow(Running)
      && HistoryIn(l, e.task) == HistoryIn(ledger, e.task)
           + if HistoryIn(ledger, e.task) != [] && HistoryIn(ledger, e.task)[|HistoryIn(ledger, e.task)| - 1] == Running
             then [] else [Running]
  {
    hide StateIn, HistoryIn, StatusIn, EventsFor;
    StatusNext(ledger, e, Workflow(Running));
  }

  /** An acknowledgement, a pause and a resume change the status text and neither state nor history. */
  lemma AcksShowNothing(ledger: seq<Event>, e: Event)
    requires NoneLater(EventsFor(ledger, e.task), e.at)
    requires e.kind.TaskAcknowledged? || e.kind.TaskPaused? || e.kind.TaskResumed?
    ensures var l := ledger + [e];
      && StateIn(l, e.task) == StateIn(ledger, e.task) && HistoryIn(l, e.task) == HistoryIn(ledger, e.task)
      && StatusIn(l, e.task) == Text(if e.kind.TaskAcknowledged? then "acknowledged"
                                     else if e.kind.TaskPaused? then "paused" else "resumed")
  {
    hide StateIn, HistoryIn, StatusIn, EventsFor;
    StatusNext(ledger, e, StatusAfter(e.kind, StatusIn(ledger, e.task)));
  }

  /** A motion or terminal event with a workflow phase makes that phase the state; with another phase it changes the
      status text only. */
  lemma PhasesShow(ledger: seq<Event>, e: Event, phase: Status)
    requires NoneLater(EventsFor(ledger, e.task), e.at)
    requires e.kind == MotionEvent(Some(phase)) || e.kind == TaskTerminal(Some(phase)) || e.kind == TaskUpdated(Some(phase))
    ensures var (l, h) := (ledger + [e], HistoryIn(ledger, e.task));
      && StatusIn(l, e.task) == phase
      && StateIn(l, e.task) == (if phase.Workflow? then Some(phase.state) else StateIn(ledger, e.task))
      && HistoryIn(l, e.task) == h + if phase.Workflow? && !(h != [] && h[|h| - 1] == phase.state) then [phase.state] else []
  {
    hide StateIn, HistoryIn, StatusIn, EventsFor;
    StatusNext(ledger, e, phase);
  }

  /** An event without a phase, and one of any other kind, changes nothing. */
  lemma OthersShowNothing(ledger: seq<Event>, e: Event)
    requires NoneLater(EventsFor(ledger, e.task), e.at)
    requires e.kind == MotionEvent(None) || e.kind == TaskTerminal(None) || e.kind == TaskUpdated(None) || e.kind.AnyOther?
    ensures var l := ledger + [e];
      && StatusIn(l, e.task) == StatusIn(ledger, e.task) && StateIn(l, e.task) == StateIn(ledger, e.task)
      && HistoryIn(l, e.task) == HistoryIn(ledger, e.task)
  {
    hide StateIn, HistoryIn, StatusIn, EventsFor;
    StatusNext(ledger, e, StatusIn(ledger, e.task));
    if StatusIn(ledger, e.task).Workflow? { StatusShows(ledger, e.task); }
  }

  /** A creation shows the status in its payload, CREATED without one; a dispatch shows DISPATCHED. */
  lemma StartsShow(ledger: seq<Event>, e: Event)
    requires NoneLater(EventsFor(ledger, e.task), e.at) && (e.kind.TaskCreated? || e.kind.TaskDispatched?)
    ensures var status := if e.kind.TaskDispatched? then Workflow(Dispatched)
                          else if e.kind.status.Some? then e.kind.status.value else Workflow(Created);
      && StatusIn(ledger + [e], e.task) == status
      && (status.Workflow? ==> StateIn(ledger + [e], e.task) == Some(status.state))
      && (!status.Workflow? ==> StateIn(ledger + [e], e.task) == StateIn(ledger, e.task))
  {
    hide StateIn, HistoryIn, StatusIn, EventsFor;
    StatusNext(ledger, e, StatusAfter(e.kind, StatusIn(ledger, e.task)));
  }

  /** Events of other tasks show nothing for this one. */
  lemma OtherTasksShowNothing(ledger: seq<Event>, e: Event, t: nat)
    requires t != e.task
    ensures StateIn(ledger + [e], t) == StateIn(ledger, t) && HistoryIn(ledger + [e], t) == HistoryIn(ledger, t)
    ensures StatusIn(ledger + [e], t) == StatusIn(ledger, t)
  {
    EventsForGrow(ledger, e, t);
    assert EventsFor(ledger, t) + [] == EventsFor(ledger, t);
  }

  /** The workflow state that an event of this kind makes the status, whatever it was before. */
  predicate Shows(k: Kind, s: TaskState) {
    (k.TaskProgress? && s == Running) || (k.TaskDispatched? && s == Dispatched) || (k == TaskCreated(None) && s == Created)
    || k == TaskCreated(Some(Workflow(s))) || k == TaskUpdated(Some(Workflow(s))) || k == MotionEvent(Some(Workflow(s)))
    || k == TaskTerminal(Some(Workflow(s)))
  }

  lemma StatusFrom(k: Kind, current: Status, s: TaskState)
    ensures Shows(k, s) ==> StatusAfter(k, current) == Workflow(s)
    ensures StatusAfter(k, current) == Workflow(s) ==> Shows(k, s) || current == Workflow(s)
  {
  }

  lemma {:induction false} ShownBy(events: seq<Event>, s: TaskState)
    ensures Fold(events) == Workflow(s) ==> s in History(events)
    ensures s in History(events) <==> exists e :: e in events && Shows(e.kind, s)
  {
    hide Shows, StatusAfter;
    if events != [] {
      var front, last := events[..|events| - 1], events[|events| - 1];
      ShownBy(front, s);
      StatusFrom(last.kind, Fold(front), s);
      assert events == front + [last];
      assert forall e :: e in events <==> e in front || e == last;
    }
  }

  lemma {:induction false} EventsForHas(events: seq<Event>, t: nat, e: Event)
    requires e in events && e.task == t
    ensures e in EventsFor(events, t)
  {
    var front, last := events[..|events| - 1], events[|events| - 1];
    assert events == front + [last];
    if e in front { EventsForHas(front, t, e); }
  }

  /** For every ledger, in whatever order of time: the history of a task shows exactly the states that its events show. */
  lemma HistoryShowsExactly(ledger: seq<Event>, t: nat, s: TaskState)
    ensures s in HistoryIn(ledger, t) <==> exists e :: e in ledger && e.task == t && Shows(e.kind, s)
  {
    hide Shows, History, Sorted, EventsFor;
    var mine := EventsFor(ledger, t);
    SortedIs(mine);
    ShownBy(Sorted(mine), s);
    EventsForIn(ledger, t);
    forall e | e in ledger && e.task == t ensures e in Sorted(mine) {
      EventsForHas(ledger, t, e);
      assert e in multiset(Sorted(mine));
    }
    forall e | e in Sorted(mine) ensures e in ledger && e.task == t {
      assert e in multiset(mine);
    }
  }

  /** From where an advance reaches each state: it appends an event exactly in these cases. */
  lemma AdvancesInto(ledger: seq<Event>, c: Call)
    requires c.AdvanceCall? && !c.duplicate
    ensures var from := StateIn(ledger, c.task);
      Do(ledger, c) != ledger <==> (from.Some? &&
        match c.target
        case Created => false
        case Planned => from.value == Created
        case Simulated => from.value == Planned
        case WaitingApproval => from.value == Simulated
        case ReadyToDispatch => from.value == Simulated || from.value == WaitingApproval
        case Dispatched => from.value == ReadyToDispatch
        case Running => from.value == Dispatched || from.value == Recovering
        case InProgress => from.value == Dispatched || from.value == Recovering
        case Recovering => from.value == Running || from.value == InProgress || from.value == Failed
        case Terminal =>
          from.value == WaitingApproval || from.value == Running || from.value == Recovering || from.value == Failed
        case Completed => from.value == InProgress
        case Failed => from.value == Dispatched || from.value == InProgress
        case Cancelled => from.value == Dispatched || from.value == InProgress)
  {
    hide Replay, EventsFor, AdvanceKind;
    var e := Event(c.id, c.task, AdvanceKind(c.target), c.now);
    assert |ledger + [e]| == |ledger| + 1;
  }

  /** The event that an advance appends: a dispatch for DISPATCHED, a terminal event with its phase for the five ends, an
      update for every other target. */
  lemma AdvanceLogs(ledger: seq<Event>, c: Call)
    requires c.AdvanceCall? && Do(ledger, c) != ledger
    ensures var kind := Do(ledger, c)[|Do(ledger, c)| - 1].kind;
      && Do(ledger, c) == ledger + [Event(c.id, c.task, kind, c.now)]
      && (c.target == Dispatched ==> kind == TaskDispatched)
      && (c.target == Completed ==> kind == TaskTerminal(Some(Text("done"))))
      && (c.target == Failed || c.target == Cancelled || c.target == Terminal ==> kind == TaskTerminal(Some(Workflow(c.target))))
      && (c.target in {Planned, Simulated, WaitingApproval, ReadyToDispatch, Running, InProgress, Recovering} ==>
            kind == TaskUpdated(Some(Workflow(c.target))))
  {
    hide Replay, EventsFor, Allowed;
  }

  // ---------------------------------------------------------------- what does not hold

  /** Advancing to an allowed state leaves the task in that state exactly when it is not COMPLETED; a task
      advanced to COMPLETED stays where it was and can still be failed. */
  lemma CompletedDoesNotStick(calls: seq<Call>, t: nat, target: TaskState, id: nat, now: nat)
    requires Timely(calls + [AdvanceCall(t, target, id, now, false)])
    requires var s := Replay(EventsFor(DoAll(calls), t)); s.Some? && target in Allowed(s.value)
    ensures var (s, after) := (Replay(EventsFor(DoAll(calls), t)), DoAll(calls + [AdvanceCall(t, target, id, now, false)]));
      Replay(EventsFor(after, t)) == if target == Completed then s else Some(target)
    ensures target == Completed ==> Failed in Allowed(Replay(EventsFor(DoAll(calls), t)).value)
  {
    hide Lawful, InOrder, EventsFor, History, Fold, LastState, Sorted, AdvanceKind;
    var more := calls + [AdvanceCall(t, target, id, now, false)];
    assert more[..|calls|] == calls;
    TimelyFront(calls, more[|calls|]);
    RunLawful(calls, t);
    RunLawful(more, t);
    var before, after := DoAll(calls), DoAll(more);
    EventsForOrdered(before, t);
    EventsForOrdered(after, t);
    SortedIs(EventsFor(before, t));
    SortedIs(EventsFor(after, t));
    var e := Event(id, t, AdvanceKind(target), now);
    assert after == before + [e];
    EventsForGrow(before, e, t);
    AdvanceLawful(EventsFor(before, t), target, e);
  }

  lemma TimelyFront(calls: seq<Call>, c: Call)
    requires Timely(calls + [c])
    ensures Timely(calls)
  {
    var more := calls + [c];
    assert forall i :: 0 <= i < |calls| ==> calls[i] == more[i];
  }

  /** Appending this event without the guard leaves a walk: it gives no workflow state, or the last one again,
      or one that the table allows next. */
  predicate KeepsWalk(events: seq<Event>, e: Event) {
    var status, h := StatusAfter(e.kind, Fold(events)), History(events);
    !status.Workflow?
    || (if h == [] then status.state == Created else status.state == h[|h| - 1] || status.state in Allowed(h[|h| - 1]))
  }

  /** What one unguarded append does to a history that is a walk. */
  lemma RawAppend(events: seq<Event>, e: Event)
    ensures Walk(History(events + [e])) <==> Walk(History(events)) && KeepsWalk(events, e)
  {
    var more, h := events + [e], History(events);
    assert more[..|events|] == events;
    assert Fold(more) == StatusAfter(e.kind, Fold(events));
    var status := Fold(more);
    if status.Workflow? && (h == [] || h[|h| - 1] != status.state) {
      assert History(more) == h + [status.state];
      WalkGrows(h, status.state);
    }
  }

  lemma WalkGrows(h: seq<TaskState>, s: TaskState)
    ensures Walk(h + [s]) <==> Walk(h) && if h == [] then s == Created else s in Allowed(h[|h| - 1])
  {
    var longer := h + [s];
    assert forall i :: 0 <= i < |h| ==> longer[i] == h[i];
    if Walk(longer) {
      assert |h| > 0 ==> longer[|h|] in Allowed(longer[|h| - 1]);
      forall i | 0 < i < |h| ensures h[i] in Allowed(h[i - 1]) { assert longer[i] in Allowed(longer[i - 1]); }
    }
  }

  /** The history of a ledger that anyone appends to is a walk exactly when every event, appended to those before
      it, keeps it one.  Motion events are such appends; only register and advance are guarded. */
  lemma {:induction false} RawLedger(events: seq<Event>)
    ensures Walk(History(events)) <==> forall k :: 0 <= k < |events| ==> KeepsWalk(events[..k], events[k])
  {
    if events != [] {
      var front, last := events[..|events| - 1], events[|events| - 1];
      assert events == front + [last];
      RawLedger(front);
      RawAppend(front, last);
      hide History, KeepsWalk, Walk;
      forall k | 0 <= k < |front| ensures KeepsWalk(front[..k], front[k]) <==> KeepsWalk(events[..k], events[k]) {
        assert front[..k] == events[..k];
      }
      assert events[..|front|] == front;
    }
  }

  /** A motion event is appended without the guard: CREATED is followed by RUNNING, which is no transition. */
  lemma MotionBypassesGuard() returns (events: seq<Event>)
    ensures InOrder(events) && History(events) == [Created, Running] && !Walk(History(events))
  {
    var a, b := Event(1, 7, TaskCreated(Some(Workflow(Created))), 1), Event(2, 7, MotionEvent(Some(Workflow(Running))), 2);
    events := [a, b];
    assert events[..1] == [a] && [a][..0] == [];
    assert History([a]) == [Created];
    assert Fold(events) == Workflow(Running);
    assert History(events) == [Created, Running];
    assert History(events)[1] !in Allowed(History(events)[0]);
  }
}
