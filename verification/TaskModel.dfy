/** Tasks, their versioned state, and the list commands of the device task queue. */
module TaskModel {
  import opened Wrappers
  import opened Motion

  datatype TaskId = TaskId(number: nat)
  datatype DeviceId = DeviceId(name: string)

  /** A queued task. `stamp` is the `_dispatch_gen` key, absent until a pop adds it. */
  datatype Task = Task(id: TaskId, device: DeviceId, body: Body, enqueuedAt: real, stamp: Option<nat>)

  /** Status texts. `Other` is any text the store itself never writes. */
  datatype Status =
    | Created | Queued | Dispatching | Dispatched | Running | Processing | Progress | Accepted
    | Failed | Expired | DeadLetter | Unknown | Empty | Other(text: string)

  predicate Active(s: Status) {
    s in {Queued, Dispatching, Dispatched, Running, Processing, Progress, Accepted}
  }

  datatype Event = Event(phase: Status, payload: string)

  datatype TaskState = TaskState(
    task: Option<Task>,
    status: Status,
    events: seq<Event>,
    version: nat,
    retryCount: nat,
    dispatchGen: nat,
    startedAt: Option<real>,
    recoveredAt: Option<real>,
    rejected: bool)

  /** A state dictionary with only `task`, `status` and `events` set. */
  function Fresh(task: Option<Task>, status: Status, events: seq<Event>): TaskState {
    TaskState(task, status, events, 0, 0, 0, None, None, false)
  }

  /** What a compare-and-swap loop may start from when there is no state. */
  type FreshState = s: TaskState | s.version == 0 && s.events == [] witness Fresh(None, Created, [])

  /** The closures that the queue operations hand to the compare-and-swap loop. */
  datatype Mutator =
    | MEnqueue(task: Task)
    | MGateFailed
    | MDispatch(task: Task, now: real)
    | MRequeue(task: Task)
    | MDispatched
    | MRetry
    | MReset
    | MClearStarted
    | MExpire
    | MDeadLetter
    | MRecover(now: real)

  function Mutate(m: Mutator, s: TaskState): TaskState {
    match m
    case MEnqueue(t) => s.(task := Some(t), status := Queued)
    case MGateFailed => s.(status := Failed, rejected := true)
    case MDispatch(t, now) =>
      s.(task := Some(t), status := Dispatching, startedAt := Some(now), recoveredAt := None)
    case MRequeue(t) => s.(task := Some(t), status := Queued, startedAt := None)
    case MDispatched => s.(status := Dispatched)
    case MRetry => s.(retryCount := s.retryCount + 1)
    case MReset => s.(status := Queued, retryCount := s.retryCount + 1)
    case MClearStarted => s.(startedAt := None)
    case MExpire => if s.status == Queued then s.(status := Expired) else s
    case MDeadLetter => s.(status := DeadLetter, startedAt := None)
    case MRecover(now) =>
      s.(status := Queued, recoveredAt := Some(now), dispatchGen := s.dispatchGen + 1, startedAt := None)
  }

  /** One successful compare-and-swap: the mutator, then the version bump. */
  function Swap(m: Mutator, s: TaskState): TaskState {
    var s1 := Mutate(m, s);
    s1.(version := s1.version + 1)
  }

  /** The event-append script: the status is left alone when the phase is empty. */
  function AppendEvent(e: Event, s: TaskState): TaskState {
    s.(events := s.events + [e],
       status := if e.phase == Empty then s.status else e.phase,
       version := s.version + 1)
  }

  /** Redis lists, one per device; a missing key is an empty list. */
  type Lists = map<DeviceId, seq<Task>>

  function At(l: Lists, d: DeviceId): seq<Task> {
    if d in l then l[d] else []
  }

  function Ids(s: seq<Task>): set<TaskId> {
    if s == [] then {} else {s[0].id} + Ids(s[1..])
  }

  predicate Distinct(s: seq<Task>) {
    s == [] || (s[0].id !in Ids(s[1..]) && Distinct(s[1..]))
  }

  lemma {:induction false} IdAt(s: seq<Task>, i: nat)
    requires i < |s|
    ensures s[i].id in Ids(s)
  {
    if i > 0 { IdAt(s[1..], i - 1); }
  }

  lemma IdOf(s: seq<Task>, t: Task)
    requires t in s
    ensures t.id in Ids(s)
  {
    var i :| 0 <= i < |s| && s[i] == t;
    IdAt(s, i);
  }

  lemma {:induction false} IdWitness(s: seq<Task>, id: TaskId) returns (i: nat)
    requires id in Ids(s)
    ensures i < |s| && s[i].id == id
  {
    if s[0].id == id { i := 0; } else {
      i := IdWitness(s[1..], id);
      i := i + 1;
    }
  }

  lemma {:induction false} DistinctAt(s: seq<Task>, i: nat, j: nat)
    requires Distinct(s) && i < |s| && j < |s| && s[i].id == s[j].id
    ensures i == j
  {
    if i > 0 && j > 0 {
      DistinctAt(s[1..], i - 1, j - 1);
    } else if i != j {
      IdAt(s[1..], i + j - 1);
    }
  }

  lemma {:induction false} ConcatIds(a: seq<Task>, b: seq<Task>)
    ensures Ids(a + b) == Ids(a) + Ids(b)
    ensures Distinct(a + b) <==> Distinct(a) && Distinct(b) && Ids(a) !! Ids(b)
  {
    if a == [] {
      assert a + b == b;
    } else {
      assert (a + b)[1..] == a[1..] + b;
      ConcatIds(a[1..], b);
    }
  }

  lemma OneId(t: Task)
    ensures Ids([t]) == {t.id} && Distinct([t])
  {
    assert [t][1..] == [];
  }

  lemma AppendId(s: seq<Task>, t: Task)
    requires Distinct(s) && t.id !in Ids(s)
    ensures Distinct(s + [t]) && Ids(s + [t]) == Ids(s) + {t.id}
    ensures Distinct([t] + s) && Ids([t] + s) == Ids(s) + {t.id}
  {
    OneId(t);
    ConcatIds(s, [t]);
    ConcatIds([t], s);
  }

  /** LREM key 1 item: drop the first entry equal to `item`. */
  function RemoveFirst(s: seq<Task>, item: Task): (r: seq<Task>)
    ensures item !in s ==> r == s
    ensures |r| == if item in s then |s| - 1 else |s|
  {
    if s == [] then []
    else if s[0] == item then s[1..]
    else
      assert s == [s[0]] + s[1..];
      [s[0]] + RemoveFirst(s[1..], item)
  }

  /** LREM key 0 item: drop every entry equal to `item`. */
  function RemoveAll(s: seq<Task>, item: Task): (r: seq<Task>)
    ensures forall t :: t in r <==> t in s && t != item
  {
    if s == [] then []
    else (if s[0] == item then [] else [s[0]]) + RemoveAll(s[1..], item)
  }

  /** The first entry with this task id, as the LRANGE scans look for it. */
  function FindId(s: seq<Task>, id: TaskId): (r: Option<Task>)
    ensures r.Some? ==> r.value in s && r.value.id == id
    ensures r.Some? <==> id in Ids(s)
  {
    if s == [] then None
    else if s[0].id == id then Some(s[0])
    else FindId(s[1..], id)
  }

  lemma {:induction false} StaysIn(s: seq<Task>, item: Task, t: Task)
    requires t in s && t != item
    ensures t in RemoveFirst(s, item)
  {
    if s[0] != item && t != s[0] { StaysIn(s[1..], item, t); }
  }

  /** With distinct ids, removing an entry that is there removes exactly its id. */
  lemma {:induction false} RemoveFirstIds(s: seq<Task>, item: Task)
    requires Distinct(s) && item in s
    ensures Distinct(RemoveFirst(s, item)) && Ids(RemoveFirst(s, item)) == Ids(s) - {item.id}
  {
    if s[0] != item {
      IdOf(s[1..], item);
      RemoveFirstIds(s[1..], item);
      var r := RemoveFirst(s, item);
      assert r[1..] == RemoveFirst(s[1..], item);
    }
  }

  /** With distinct ids the two forms of LREM agree. */
  lemma {:induction false} RemoveAllIsFirst(s: seq<Task>, item: Task)
    requires Distinct(s)
    ensures RemoveAll(s, item) == RemoveFirst(s, item)
  {
    if s != [] {
      if s[0] == item {
        if item in s[1..] { IdOf(s[1..], item); }
        RemoveAllAbsent(s[1..], item);
      } else {
        RemoveAllIsFirst(s[1..], item);
      }
    }
  }

  lemma {:induction false} RemoveAllAbsent(s: seq<Task>, item: Task)
    requires item !in s
    ensures RemoveAll(s, item) == s
  {
    if s != [] {
      RemoveAllAbsent(s[1..], item);
      assert s == [s[0]] + s[1..];
    }
  }
}
