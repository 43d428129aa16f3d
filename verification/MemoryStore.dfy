/**
 The in-memory task store: the second implementation of the queue.  Its processing table is a Python
 dictionary, kept here as a list of entries in insertion order with one entry per task id.
 */
module MemoryStore {
  import opened Wrappers
  import opened Motion
  import opened TaskModel
  import opened RedisMachine

  datatype Entry = Entry(task: Task, startedAt: real)

  type Tables = map<DeviceId, seq<Entry>>

  function EntriesAt(p: Tables, d: DeviceId): seq<Entry> {
    if d in p then p[d] else []
  }

  datatype Memory = Memory(pending: Lists, processing: Tables, tasks: map<TaskId, TaskState>)

  // ---------------------------------------------------------------- the dictionary

  function Keys(es: seq<Entry>): set<TaskId> {
    if es == [] then {} else {es[0].task.id} + Keys(es[1..])
  }

  predicate OneEach(es: seq<Entry>) {
    es == [] || (es[0].task.id !in Keys(es[1..]) && OneEach(es[1..]))
  }

  /** d[id] = e : a present key keeps its position. */
  function SetEntry(es: seq<Entry>, e: Entry): seq<Entry> {
    if es == [] then [e]
    else if es[0].task.id == e.task.id then [e] + es[1..]
    else [es[0]] + SetEntry(es[1..], e)
  }

  /** A present key keeps its position. */
  lemma {:induction false} SetEntryAt(es: seq<Entry>, e: Entry, i: nat)
    requires i < |es| && es[i].task.id == e.task.id && e.task.id !in Keys(es[..i])
    ensures SetEntry(es, e) == es[i := e]
  {
    if i > 0 {
      assert es[..i][1..] == es[1..][..i - 1];
      SetEntryAt(es[1..], e, i - 1);
    }
  }

  /** d.pop(id, None) */
  function DropEntry(es: seq<Entry>, id: TaskId): seq<Entry> {
    if es == [] then []
    else if es[0].task.id == id then es[1..]
    else [es[0]] + DropEntry(es[1..], id)
  }

  /** A queue that became empty is deleted from the table. */
  function SetQueue(l: Lists, d: DeviceId, q: seq<Task>): Lists {
    if q == [] then l - {d} else l[d := q]
  }

  // ---------------------------------------------------------------- operations as functions

  function WithState(s: Memory, id: TaskId, st: TaskState): Memory {
    s.(tasks := s.tasks[id := st])
  }

  function StateOr(s: Memory, id: TaskId, default: TaskState): TaskState {
    if id in s.tasks then s.tasks[id] else default
  }

  function CreateM(s: Memory, t: Task, status: Status): Memory {
    WithState(s, t.id, Fresh(Some(t), status, []))
  }

  /** The phase becomes the status even when it is empty. */
  function RecordM(s: Memory, id: TaskId, e: Event): Memory {
    var st := StateOr(s, id, Fresh(None, Unknown, []));
    WithState(s, id, st.(status := e.phase, events := st.events + [e]))
  }

  function EnqueueM(s: Memory, d: DeviceId, t: Task, now: real): Memory {
    var t1 := t.(enqueuedAt := now);
    var st := StateOr(s, t1.id, Fresh(Some(t1), Created, []));
    WithState(s.(pending := s.pending[d := At(s.pending, d) + [t1]]), t1.id, st.(task := Some(t1), status := Queued))
  }

  function Stamped(s: Memory, t: Task): Task {
    t.(stamp := Some(StateOr(s, t.id, Fresh(Some(t), Queued, [])).dispatchGen))
  }

  /** One turn of the pop loop, for the head of a queue that is not empty. */
  function PopOneM(s: Memory, d: DeviceId, now: real): (Memory, Task)
    requires At(s.pending, d) != []
  {
    var t := At(s.pending, d)[0];
    var st := StateOr(s, t.id, Fresh(Some(t), Queued, []));
    var out := Stamped(s, t);
    (WithState(s.(pending := s.pending[d := At(s.pending, d)[1..]],
                  processing := s.processing[d := SetEntry(EntriesAt(s.processing, d), Entry(out, now))]),
               t.id, st.(status := Dispatching, startedAt := Some(now))), out)
  }

  function PopManyM(s: Memory, d: DeviceId, limit: nat, now: real): (Memory, seq<Task>)
    decreases limit
  {
    if limit == 0 || At(s.pending, d) == [] then (s, [])
    else
      var (s1, t) := PopOneM(s, d, now);
      var (s2, rest) := PopManyM(s1, d, limit - 1, now);
      (s2, [t] + rest)
  }

  lemma PopManyStep(s: Memory, d: DeviceId, limit: nat, now: real)
    requires limit > 0 && At(s.pending, d) != []
    ensures PopManyM(s, d, limit, now).0 == PopManyM(PopOneM(s, d, now).0, d, limit - 1, now).0
    ensures PopManyM(s, d, limit, now).1 == [PopOneM(s, d, now).1] + PopManyM(PopOneM(s, d, now).0, d, limit - 1, now).1
  {
  }

  function PopM(s: Memory, d: DeviceId, limit: nat, now: real): (Memory, seq<Task>) {
    if At(s.pending, d) == [] then (s, [])
    else
      var (s1, out) := PopManyM(s, d, limit, now);
      (s1.(pending := SetQueue(s1.pending, d, At(s1.pending, d))), out)
  }

  function RequeueM(s: Memory, d: DeviceId, tasks: seq<Task>): Memory
    decreases |tasks|
  {
    if tasks == [] then s.(pending := s.pending[d := At(s.pending, d)])
    else
      var t := tasks[|tasks| - 1];
      var st := StateOr(s, t.id, Fresh(Some(t), Created, []));
      RequeueM(WithState(s.(pending := s.pending[d := [t] + At(s.pending, d)]), t.id, st.(task := Some(t), status := Queued)),
               d, tasks[..|tasks| - 1])
  }

  function ChangeM(s: Memory, id: TaskId, m: Mutator): Memory {
    if id in s.tasks then WithState(s, id, Mutate(m, s.tasks[id])) else s
  }

  /** The requeue takes the last task first. */
  lemma RequeueNext(s: Memory, d: DeviceId, tasks: seq<Task>, i: nat)
    requires i <= |tasks|
    ensures RequeueM(s, d, tasks[..i])
         == if i == 0 then s.(pending := s.pending[d := At(s.pending, d)])
            else var t := tasks[i - 1];
                 var st := StateOr(s, t.id, Fresh(Some(t), Created, []));
                 RequeueM(WithState(s.(pending := s.pending[d := [t] + At(s.pending, d)]), t.id,
                                    st.(task := Some(t), status := Queued)), d, tasks[..i - 1])
  {
    if i > 0 { assert tasks[..i][..i - 1] == tasks[..i - 1]; }
  }

  function AckM(cfg: Config, s: Memory, d: DeviceId, id: TaskId, gen: Option<nat>): (Memory, bool) {
    if id in s.tasks && gen.Some? && gen.value != s.tasks[id].dispatchGen then (s, false)
    else if id in s.tasks && gen.None? && s.tasks[id].dispatchGen > 0 && cfg.strict then (s, false)
    else if id !in Keys(EntriesAt(s.processing, d)) then (s, false)
    else (ChangeM(s.(processing := s.processing[d := DropEntry(EntriesAt(s.processing, d), id)]), id, MClearStarted), true)
  }

  function AbandonM(s: Memory, d: DeviceId, id: TaskId): (Memory, bool) {
    if id !in Keys(EntriesAt(s.processing, d)) then (s, false)
    else (ChangeM(s.(processing := s.processing[d := DropEntry(EntriesAt(s.processing, d), id)]), id, MDeadLetter), true)
  }

  /** What a recovery writes; there is no `recovered_at` here. */
  function Recovered(st: TaskState): TaskState {
    st.(status := Queued, dispatchGen := st.dispatchGen + 1, startedAt := None)
  }

  function RecoverOneM(s: Memory, d: DeviceId, e: Entry, timeout: real, now: real): (Memory, nat) {
    if Stale(e.startedAt, now, timeout) then
      var s1 := s.(processing := s.processing[d := DropEntry(EntriesAt(s.processing, d), e.task.id)],
                   pending := s.pending[d := [e.task] + At(s.pending, d)]);
      (if e.task.id in s1.tasks then WithState(s1, e.task.id, Recovered(s1.tasks[e.task.id])) else s1, 1)
    else (s, 0)
  }

  function RecoverEntriesM(s: Memory, d: DeviceId, es: seq<Entry>, timeout: real, now: real): (Memory, nat)
    decreases |es|
  {
    if es == [] then (s, 0)
    else
      var (s1, k) := RecoverOneM(s, d, es[0], timeout, now);
      var (s2, rest) := RecoverEntriesM(s1, d, es[1..], timeout, now);
      (s2, k + rest)
  }

  function RecoverM(s: Memory, d: DeviceId, timeout: real, now: real): (Memory, nat) {
    if EntriesAt(s.processing, d) == [] then (s, 0)
    else RecoverEntriesM(s.(pending := s.pending[d := At(s.pending, d)]), d, EntriesAt(s.processing, d), timeout, now)
  }

  /** The expiry loop: what is kept, the states, and how many expired. */
  function ExpireLoopM(tasks: map<TaskId, TaskState>, q: seq<Task>, maxAge: real, now: real)
    : (seq<Task>, map<TaskId, TaskState>, nat)
    decreases |q|
  {
    if q == [] then ([], tasks, 0)
    else if Stale(q[0].enqueuedAt, now, maxAge) then
      var tasks1 := if q[0].id in tasks then tasks[q[0].id := Mutate(MExpire, tasks[q[0].id])] else tasks;
      var (kept, tasks2, n) := ExpireLoopM(tasks1, q[1..], maxAge, now);
      (kept, tasks2, n + 1)
    else
      var (kept, tasks2, n) := ExpireLoopM(tasks, q[1..], maxAge, now);
      ([q[0]] + kept, tasks2, n)
  }

  function ExpireM(s: Memory, d: DeviceId, maxAge: real, now: real): (Memory, nat) {
    if At(s.pending, d) == [] then (s, 0)
    else
      var (kept, tasks, n) := ExpireLoopM(s.tasks, At(s.pending, d), maxAge, now);
      (s.(pending := SetQueue(s.pending, d, kept), tasks := tasks), n)
  }

  function DropId(q: seq<Task>, id: TaskId): seq<Task> {
    if q == [] then [] else if q[0].id == id then q[1..] else [q[0]] + DropId(q[1..], id)
  }

  lemma DropNext(q: seq<Task>, i: nat, id: TaskId)
    requires i <= |q|
    ensures id in Ids(q[i..]) <==> i < |q| && (q[i].id == id || id in Ids(q[i + 1..]))
    ensures i < |q| ==>
      q[..i] + DropId(q[i..], id) == if q[i].id == id then q[..i] + q[i + 1..] else q[..i + 1] + DropId(q[i + 1..], id)
  {
    if i < |q| {
      assert q[i..][1..] == q[i + 1..];
      assert q[..i] + ([q[i]] + DropId(q[i + 1..], id)) == q[..i + 1] + DropId(q[i + 1..], id);
    }
  }

  function RemoveM(s: Memory, d: DeviceId, id: TaskId): (Memory, bool) {
    if id !in Ids(At(s.pending, d)) then (s, false)
    else (s.(pending := s.pending[d := DropId(At(s.pending, d), id)]), true)
  }

  // ---------------------------------------------------------------- the class

  class InMemoryDeviceTaskStore {
    var pending: Lists
    var processing: Tables
    var tasks: map<TaskId, TaskState>
    const cfg: Config

    constructor (cfg: Config)
      ensures this.cfg == cfg && View() == Memory(map[], map[], map[])
    {
      this.cfg := cfg;
      pending, processing, tasks := map[], map[], map[];
    }

    function View(): Memory
      reads this
    {
      Memory(pending, processing, tasks)
    }

    method Create(t: Task, status: Status)
      modifies this`tasks
      ensures View() == CreateM(old(View()), t, status)
      ensures tasks == old(tasks)[t.id := TaskState(Some(t), status, [], 0, 0, 0, None, None, false)]
    {
      tasks := tasks[t.id := Fresh(Some(t), status, [])];
    }

    method RecordMotionEvent(id: TaskId, e: Event) returns (eventCount: nat)
      modifies this`tasks
      ensures View() == RecordM(old(View()), id, e) && eventCount == |tasks[id].events|
      ensures tasks[id].status == e.phase
      ensures tasks[id].events == (if id in old(tasks) then old(tasks)[id].events else []) + [e]
    {
      var st := if id in tasks then tasks[id] else Fresh(None, Unknown, []);
      tasks := tasks[id := st.(status := e.phase, events := st.events + [e])];
      eventCount := |tasks[id].events|;
    }

    method Enqueue(d: DeviceId, t: Task, now: real) returns (depth: nat)
      modifies this
      ensures View() == EnqueueM(old(View()), d, t, now) && depth == |At(pending, d)|
      ensures At(pending, d) == old(At(pending, d)) + [t.(enqueuedAt := now)] && processing == old(processing)
      ensures t.id in old(tasks) ==>
        tasks == old(tasks)[t.id := old(tasks)[t.id].(task := Some(t.(enqueuedAt := now)), status := Queued)]
      ensures t.id !in old(tasks) ==>
        tasks == old(tasks)[t.id := TaskState(Some(t.(enqueuedAt := now)), Queued, [], 0, 0, 0, None, None, false)]
    {
      var t1 := t.(enqueuedAt := now);
      pending := pending[d := At(pending, d) + [t1]];
      var st := if t1.id in tasks then tasks[t1.id] else Fresh(Some(t1), Created, []);
      tasks := tasks[t1.id := st.(task := Some(t1), status := Queued)];
      depth := |pending[d]|;
    }

    /** The body of the pop loop. */
    method PopOne(d: DeviceId, now: real) returns (out: Task)
      requires At(pending, d) != []
      modifies this
      ensures (View(), out) == PopOneM(old(View()), d, now)
      ensures out.id in tasks && tasks[out.id].status == Dispatching && tasks[out.id].startedAt == Some(now)
      ensures out.id in old(tasks) ==> tasks[out.id] == old(tasks)[out.id].(status := Dispatching, startedAt := Some(now))
    {
      var t := At(pending, d)[0];
      var st := if t.id in tasks then tasks[t.id] else Fresh(Some(t), Queued, []);
      out := t.(stamp := Some(st.dispatchGen));
      pending := pending[d := At(pending, d)[1..]];
      processing := processing[d := SetEntry(EntriesAt(processing, d), Entry(out, now))];
      tasks := tasks[t.id := st.(status := Dispatching, startedAt := Some(now))];
    }

    method Pop(d: DeviceId, limit: nat, now: real) returns (out: seq<Task>)
      modifies this
      ensures (View(), out) == PopM(old(View()), d, limit, now)
    {
      hide PopOneM;
      out := [];
      if At(pending, d) == [] { return; }
      ghost var start := View();
      while At(pending, d) != [] && |out| < limit
        invariant |out| <= limit
        invariant PopManyM(start, d, limit, now).0 == PopManyM(View(), d, limit - |out|, now).0
        invariant PopManyM(start, d, limit, now).1 == out + PopManyM(View(), d, limit - |out|, now).1
        decreases limit - |out|
      {
        PopManyStep(View(), d, limit - |out|, now);
        var t := PopOne(d, now);
        ghost var rest := PopManyM(View(), d, limit - |out| - 1, now).1;
        assert out + ([t] + rest) == (out + [t]) + rest;
        out := out + [t];
      }
      assert PopManyM(View(), d, limit - |out|, now) == (View(), []) && out + [] == out;
      pending := SetQueue(pending, d, At(pending, d));
    }

    method Requeue(d: DeviceId, ts: seq<Task>) returns (depth: nat)
      modifies this
      ensures View() == RequeueM(old(View()), d, ts) && depth == |At(pending, d)|
    {
      hide RequeueM;
      ghost var start := View();
      assert ts[..|ts|] == ts;
      for i := |ts| downto 0
        invariant RequeueM(start, d, ts) == RequeueM(View(), d, ts[..i])
      {
        var t := ts[i];
        RequeueNext(View(), d, ts, i + 1);
        pending := pending[d := [t] + At(pending, d)];
        var st := if t.id in tasks then tasks[t.id] else Fresh(Some(t), Created, []);
        tasks := tasks[t.id := st.(task := Some(t), status := Queued)];
      }
      RequeueNext(View(), d, ts, 0);
      pending := pending[d := At(pending, d)];
      depth := |pending[d]|;
    }

    method MarkDispatched(id: TaskId)
      modifies this`tasks
      ensures View() == ChangeM(old(View()), id, MDispatched)
      ensures tasks == if id in old(tasks) then old(tasks)[id := old(tasks)[id].(status := Dispatched)] else old(tasks)
    {
      if id in tasks { tasks := tasks[id := tasks[id].(status := Dispatched)]; }
    }

    method IncrementRetry(id: TaskId) returns (count: nat)
      modifies this`tasks
      ensures View() == ChangeM(old(View()), id, MRetry)
      ensures count == if id in tasks then tasks[id].retryCount else 0
    {
      if id !in tasks { return 0; }
      count := tasks[id].retryCount + 1;
      tasks := tasks[id := tasks[id].(retryCount := count)];
    }

    method ResetForRetry(id: TaskId)
      modifies this`tasks
      ensures View() == ChangeM(old(View()), id, MReset)
      ensures id in old(tasks) ==>
        tasks == old(tasks)[id := old(tasks)[id].(status := Queued, retryCount := old(tasks)[id].retryCount + 1)]
    {
      if id in tasks { tasks := tasks[id := tasks[id].(status := Queued, retryCount := tasks[id].retryCount + 1)]; }
    }

    method Ack(d: DeviceId, id: TaskId, gen: Option<nat>) returns (ok: bool)
      modifies this
      ensures (View(), ok) == AckM(cfg, old(View()), d, id, gen)
      ensures tasks == if ok && id in old(tasks) then old(tasks)[id := old(tasks)[id].(startedAt := None)] else old(tasks)
    {
      if id in tasks {
        if gen.Some? {
          if gen.value != tasks[id].dispatchGen { return false; }
        } else if tasks[id].dispatchGen > 0 && cfg.strict {
          return false;
        }
      }
      var table := EntriesAt(processing, d);
      if id !in Keys(table) { return false; }
      processing := processing[d := DropEntry(table, id)];
      if id in tasks { tasks := tasks[id := tasks[id].(startedAt := None)]; }
      return true;
    }

    method Recover(d: DeviceId, timeout: real, now: real) returns (count: nat)
      modifies this
      ensures (View(), count) == RecoverM(old(View()), d, timeout, now)
    {
      count := 0;
      var es := EntriesAt(processing, d);
      if es == [] { return; }
      pending := pending[d := At(pending, d)];
      ghost var start := View();
      assert es[0..] == es;
      for i := 0 to |es|
        invariant RecoverEntriesM(start, d, es, timeout, now).0 == RecoverEntriesM(View(), d, es[i..], timeout, now).0
        invariant RecoverEntriesM(start, d, es, timeout, now).1
               == count + RecoverEntriesM(View(), d, es[i..], timeout, now).1
      {
        assert es[i..][1..] == es[i + 1..];
        var k := RecoverOne(d, es[i], timeout, now);
        count := count + k;
      }
    }

    /** The body of the recovery loop. */
    method RecoverOne(d: DeviceId, e: Entry, timeout: real, now: real) returns (moved: nat)
      modifies this
      ensures (View(), moved) == RecoverOneM(old(View()), d, e, timeout, now)
      ensures moved == 1 && e.task.id in old(tasks) ==>
        tasks == old(tasks)[e.task.id := old(tasks)[e.task.id].(
                              status := Queued, dispatchGen := old(tasks)[e.task.id].dispatchGen + 1, startedAt := None)]
    {
      moved := 0;
      if Stale(e.startedAt, now, timeout) {
        var id := e.task.id;
        processing := processing[d := DropEntry(EntriesAt(processing, d), id)];
        pending := pending[d := [e.task] + At(pending, d)];
        if id in tasks {
          tasks := tasks[id := tasks[id].(status := Queued, dispatchGen := tasks[id].dispatchGen + 1, startedAt := None)];
        }
        moved := 1;
      }
    }

    method ExpireStaleQueued(d: DeviceId, maxAge: real, now: real) returns (count: nat)
      modifies this
      ensures (View(), count) == ExpireM(old(View()), d, maxAge, now)
    {
      count := 0;
      var q := At(pending, d);
      if q == [] { return; }
      var kept: seq<Task> := [];
      ghost var tasks0 := tasks;
      assert q[0..] == q;
      for i := 0 to |q|
        invariant pending == old(pending) && processing == old(processing)
        invariant var (k, ts, n) := ExpireLoopM(tasks, q[i..], maxAge, now);
                  ExpireLoopM(tasks0, q, maxAge, now).1 == ts && ExpireLoopM(tasks0, q, maxAge, now).2 == count + n
                  && ExpireLoopM(tasks0, q, maxAge, now).0 == kept + k
      {
        var t := q[i];
        assert q[i..][1..] == q[i + 1..];
        if Stale(t.enqueuedAt, now, maxAge) {
          if t.id in tasks && tasks[t.id].status == Queued {
            tasks := tasks[t.id := tasks[t.id].(status := Expired)];
          } else if t.id in tasks {
            assert tasks == tasks[t.id := tasks[t.id]];
          }
          count := count + 1;
        } else {
          kept := kept + [t];
        }
      }
      assert kept + [] == kept;
      pending := SetQueue(pending, d, kept);
    }

    method RemovePending(d: DeviceId, id: TaskId) returns (ok: bool)
      modifies this`pending
      ensures (View(), ok) == RemoveM(old(View()), d, id)
    {
      hide DropId, Ids;
      var q := At(pending, d);
      assert q[0..] == q;
      assert q[..0] == [];
      for i := 0 to |q|
        invariant pending == old(pending)
        invariant DropId(q, id) == q[..i] + DropId(q[i..], id) && (id in Ids(q) <==> id in Ids(q[i..]))
      {
        DropNext(q, i, id);
        if q[i].id == id {
          pending := pending[d := q[..i] + q[i + 1..]];
          return true;
        }
      }
      DropNext(q, |q|, id);
      return false;
    }

    method Abandon(d: DeviceId, id: TaskId) returns (ok: bool)
      modifies this
      ensures (View(), ok) == AbandonM(old(View()), d, id)
      ensures tasks == if ok && id in old(tasks) then old(tasks)[id := old(tasks)[id].(status := DeadLetter, startedAt := None)]
                       else old(tasks)
    {
      var table := EntriesAt(processing, d);
      if id !in Keys(table) { return false; }
      processing := processing[d := DropEntry(table, id)];
      if id in tasks { tasks := tasks[id := tasks[id].(status := DeadLetter, startedAt := None)]; }
      return true;
    }
  }
}
