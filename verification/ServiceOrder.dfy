/**
 First come, first served: at which end tasks enter and leave, in both stores, and the order in which any run hands
 them out.
 */
module ServiceOrder {
  import opened Basics
  import opened Wrappers
  import opened Motion
  import opened TaskModel
  import opened RedisMachine
  import opened RedisStore
  import opened QueueSpec
  import opened Refinement
  import opened Generations
  import Fifo
  import MemoryStore
  import StoresAgree
  import Deadlines
  import R = RedisRefinement
  import M = MemoryRefinement

  // ---------------------------------------------------------------- enqueue

  /** A Redis enqueue puts the task, with its enqueue time, at the very end of the service order of its device. */
  lemma RedisEnqueueIsLast(s: Store, d: DeviceId, t: Task, now: real)
    ensures Fifo.Order(EnqueueS(s, d, t, now), d) == Fifo.Order(s, d) + [t.(enqueuedAt := now)]
    ensures forall x :: x != d ==> Fifo.Order(EnqueueS(s, d, t, now), x) == Fifo.Order(s, x)
  {
    hide Rev;
    var t1 := t.(enqueuedAt := now);
    assert Rev(At(s.processing, d)) + (At(s.pending, d) + [t1]) == Rev(At(s.processing, d)) + At(s.pending, d) + [t1];
  }

  /** The service order of a device in memory: the table in insertion order, then the queue. */
  function MemoryOrder(s: MemoryStore.Memory, d: DeviceId): seq<Task> {
    StoresAgree.TasksOf(MemoryStore.EntriesAt(s.processing, d)) + At(s.pending, d)
  }

  /** An in-memory enqueue does the same. */
  lemma MemoryEnqueueIsLast(s: MemoryStore.Memory, d: DeviceId, t: Task, now: real)
    ensures MemoryOrder(MemoryStore.EnqueueM(s, d, t, now), d) == MemoryOrder(s, d) + [t.(enqueuedAt := now)]
    ensures forall x :: x != d ==> MemoryOrder(MemoryStore.EnqueueM(s, d, t, now), x) == MemoryOrder(s, x)
  {
    var t1, table := t.(enqueuedAt := now), StoresAgree.TasksOf(MemoryStore.EntriesAt(s.processing, d));
    assert table + (At(s.pending, d) + [t1]) == table + At(s.pending, d) + [t1];
  }

  // ---------------------------------------------------------------- pop

  /** A Redis pop takes the first tasks of pending off it, as many as the limit allows; it answers, in that order and
      stamped, those that the gate accepts. */
  lemma RedisPopTakesFirst(cfg: Config, s: Store, d: DeviceId, limit: nat, now: real)
    ensures var (s', out) := PopS(cfg, s, d, limit, now);
      var k := if limit < |At(s.pending, d)| then limit else |At(s.pending, d)|;
      var good := Sifted(At(s.pending, d)[..k], cfg.gate, true);
      && At(s'.pending, d) == At(s.pending, d)[k..] && |out| == |good|
      && (forall i :: 0 <= i < |out| ==> out[i] == good[i].(stamp := out[i].stamp))
      && forall x :: x != d ==> At(s'.pending, x) == At(s.pending, x)
  {
    Fifo.MoveShape(s, d, limit);
    var (s1, raw) := MoveS(s, d, limit);
    GateSifts(cfg, s1, d, raw);
    var (s2, good) := GateS(cfg, s1, d, raw);
    Fifo.DispatchShape(s2, good, now);
  }

  lemma {:induction false} GateSifts(cfg: Config, s: Store, d: DeviceId, raw: seq<Task>)
    ensures var (s', good) := GateS(cfg, s, d, raw); good == Sifted(raw, cfg.gate, true) && s'.pending == s.pending
    decreases |raw|
  {
    if raw != [] {
      if cfg.gate(raw[0]) { GateSifts(cfg, s, d, raw[1..]); } else { GateSifts(cfg, DropS(s, d, raw[0]), d, raw[1..]); }
    }
  }

  /** An in-memory pop answers the first tasks of the queue, as many as the limit allows, in order and stamped, and
      leaves the rest queued. */
  lemma MemoryPopTakesFirst(s: MemoryStore.Memory, d: DeviceId, limit: nat, now: real)
    ensures var (s', out) := MemoryStore.PopM(s, d, limit, now);
      var k := if limit < |At(s.pending, d)| then limit else |At(s.pending, d)|;
      && At(s'.pending, d) == At(s.pending, d)[k..] && |out| == k
      && (forall i :: 0 <= i < k ==> out[i] == At(s.pending, d)[i].(stamp := out[i].stamp))
      && forall x :: x != d ==> At(s'.pending, x) == At(s.pending, x)
  {
    hide MemoryStore.PopManyM;
    if At(s.pending, d) != [] { PopManyQueue(s, d, limit, now); }
  }

  /** One turn of the pop loop: the head of the queue goes to the table. */
  lemma PopOneIs(s: MemoryStore.Memory, d: DeviceId, now: real)
    requires At(s.pending, d) != []
    ensures var ((s1, t), q) := (MemoryStore.PopOneM(s, d, now), At(s.pending, d));
      && t == q[0].(stamp := t.stamp) && At(s1.pending, d) == q[1..]
      && (forall x :: x != d ==> At(s1.pending, x) == At(s.pending, x))
      && MemoryStore.EntriesAt(s1.processing, d)
         == MemoryStore.SetEntry(MemoryStore.EntriesAt(s.processing, d), MemoryStore.Entry(t, now))
  {
    hide MemoryStore.SetEntry;
  }

  lemma {:induction false} PopManyQueue(s: MemoryStore.Memory, d: DeviceId, limit: nat, now: real)
    ensures var (s', out) := MemoryStore.PopManyM(s, d, limit, now);
      var k := if limit < |At(s.pending, d)| then limit else |At(s.pending, d)|;
      && At(s'.pending, d) == At(s.pending, d)[k..] && |out| == k
      && (forall i :: 0 <= i < k ==> out[i] == At(s.pending, d)[i].(stamp := out[i].stamp))
      && forall x :: x != d ==> At(s'.pending, x) == At(s.pending, x)
    decreases limit
  {
    hide MemoryStore.PopOneM;
    var q := At(s.pending, d);
    if limit > 0 && q != [] {
      var (s1, t) := MemoryStore.PopOneM(s, d, now);
      PopOneIs(s, d, now);
      PopManyQueue(s1, d, limit - 1, now);
      var k := if limit < |q| then limit else |q|;
      assert q[1..][k - 1..] == q[k..];
    }
  }

  /** The tasks move to the end of the table as they are popped, so the service order stays as it was. */
  lemma MemoryPopKeepsOrder(s: MemoryStore.Memory, d: DeviceId, limit: nat, now: real)
    requires Distinct(At(s.pending, d)) && Ids(At(s.pending, d)) !! MemoryStore.Keys(MemoryStore.EntriesAt(s.processing, d))
    ensures var (s', out) := MemoryStore.PopM(s, d, limit, now);
      |out| <= |At(s.pending, d)|
      && MemoryOrder(s', d) == StoresAgree.TasksOf(MemoryStore.EntriesAt(s.processing, d)) + (out + At(s.pending, d)[|out|..])
  {
    hide MemoryStore.PopManyM;
    MemoryPopTakesFirst(s, d, limit, now);
    var table := StoresAgree.TasksOf(MemoryStore.EntriesAt(s.processing, d));
    if At(s.pending, d) != [] {
      PopManyTable(s, d, limit, now);
      var (s', out) := MemoryStore.PopM(s, d, limit, now);
      assert table + out + At(s.pending, d)[|out|..] == table + (out + At(s.pending, d)[|out|..]);
    }
  }

  lemma {:induction false} PopManyTable(s: MemoryStore.Memory, d: DeviceId, limit: nat, now: real)
    requires Distinct(At(s.pending, d)) && Ids(At(s.pending, d)) !! MemoryStore.Keys(MemoryStore.EntriesAt(s.processing, d))
    ensures var (s', out) := MemoryStore.PopManyM(s, d, limit, now);
      StoresAgree.TasksOf(MemoryStore.EntriesAt(s'.processing, d))
      == StoresAgree.TasksOf(MemoryStore.EntriesAt(s.processing, d)) + out
    decreases limit
  {
    hide MemoryStore.SetEntry, MemoryStore.PopOneM, StoresAgree.TasksOf, MemoryStore.Keys;
    var q, es := At(s.pending, d), MemoryStore.EntriesAt(s.processing, d);
    if limit > 0 && q != [] {
      var (s1, t) := MemoryStore.PopOneM(s, d, now);
      PopOneIs(s, d, now);
      IdAt(q, 0);
      NewEntry(es, MemoryStore.Entry(t, now));
      PopManyTable(s1, d, limit - 1, now);
      var rest := MemoryStore.PopManyM(s1, d, limit - 1, now).1;
      assert StoresAgree.TasksOf(es) + [t] + rest == StoresAgree.TasksOf(es) + ([t] + rest);
    } else {
      assert StoresAgree.TasksOf(es) + [] == StoresAgree.TasksOf(es);
    }
  }

  /** A new key is added at the end of the table. */
  lemma {:induction false} NewEntry(es: seq<MemoryStore.Entry>, e: MemoryStore.Entry)
    requires e.task.id !in MemoryStore.Keys(es)
    ensures MemoryStore.Keys(MemoryStore.SetEntry(es, e)) == MemoryStore.Keys(es) + {e.task.id}
    ensures StoresAgree.TasksOf(MemoryStore.SetEntry(es, e)) == StoresAgree.TasksOf(es) + [e.task]
  {
    if es != [] {
      NewEntry(es[1..], e);
      var more := MemoryStore.SetEntry(es[1..], e);
      assert ([es[0]] + more)[1..] == more;
      assert [es[0].task] + (StoresAgree.TasksOf(es[1..]) + [e.task]) == [es[0].task] + StoresAgree.TasksOf(es[1..]) + [e.task];
    }
  }

  // ---------------------------------------------------------------- requeue

  /** A requeue on Redis: the tasks stand in front of pending in the order given. */
  lemma RedisRequeueInFront(s: Store, d: DeviceId, ts: seq<Task>)
    ensures At(RequeueS(s, d, ts).pending, d) == ts + At(s.pending, d)
    ensures forall x :: x != d ==> At(RequeueS(s, d, ts).pending, x) == At(s.pending, x)
  {
    if ts == [] {
      assert ts + At(s.pending, d) == At(s.pending, d);
    } else {
      TakeAllPending(s, d, ts);
      var s1 := TakeAllS(s, d, ts);
      Fifo.MarkKeepsLists(s1.(pending := s1.pending[d := ts + At(s1.pending, d)]), ts);
    }
  }

  lemma {:induction false} TakeAllPending(s: Store, d: DeviceId, ts: seq<Task>)
    ensures TakeAllS(s, d, ts).pending == s.pending && TakeAllS(s, d, ts).tasks == s.tasks
    decreases |ts|
  {
    if ts != [] { TakeAllPending(TakeS(s, d, ts[0].id).0, d, ts[1..]); }
  }

  /** In memory too; the table of the running tasks is left alone. */
  lemma {:induction false} MemoryRequeueInFront(s: MemoryStore.Memory, d: DeviceId, ts: seq<Task>)
    ensures At(MemoryStore.RequeueM(s, d, ts).pending, d) == ts + At(s.pending, d)
    ensures MemoryStore.RequeueM(s, d, ts).processing == s.processing
    ensures forall x :: x != d ==> At(MemoryStore.RequeueM(s, d, ts).pending, x) == At(s.pending, x)
    decreases |ts|
  {
    if ts == [] {
      assert ts + At(s.pending, d) == At(s.pending, d);
    } else {
      var t, front := ts[|ts| - 1], ts[..|ts| - 1];
      var st := MemoryStore.StateOr(s, t.id, Fresh(Some(t), Created, []));
      MemoryRequeueInFront(MemoryStore.WithState(s.(pending := s.pending[d := [t] + At(s.pending, d)]), t.id,
                                                 st.(task := Some(t), status := Queued)), d, front);
      assert ts == front + [t];
      assert front + ([t] + At(s.pending, d)) == front + [t] + At(s.pending, d);
    }
  }

  /** The state keeps the one of these tasks that has this id. */
  predicate Keeps(st: TaskState, id: TaskId, ts: seq<Task>) {
    st.task.Some? && st.task.value.id == id && st.task.value in ts
  }

  /** On Redis each requeued task that has a state is queued afterwards and has no start time; the other states, and
      the set of tasks that have one, stay as they are. */
  lemma {:induction false} RedisRequeueMarks(s: Store, ts: seq<Task>, id: TaskId)
    ensures var s' := MarkRequeuedS(s, ts);
      && (id in s'.tasks <==> id in s.tasks)
      && (id in s.tasks && id !in Ids(ts) ==> s'.tasks[id] == s.tasks[id])
      && (id in s.tasks && id in Ids(ts) ==> s'.tasks[id].status == Queued && s'.tasks[id].startedAt.None?)
      && (id in s.tasks && id in Ids(ts) ==> Keeps(s'.tasks[id], id, ts))
    decreases |ts|
  {
    if ts != [] { RedisRequeueMarks(UpdateIn(s, ts[0].id, MRequeue(ts[0])), ts[1..], id); }
  }

  /** In memory each requeued task has a queued state afterwards; the other states stay as they are. */
  lemma {:induction false} MemoryRequeueMarks(s: MemoryStore.Memory, d: DeviceId, ts: seq<Task>, id: TaskId)
    ensures var s' := MemoryStore.RequeueM(s, d, ts);
      && (id in Ids(ts) ==> id in s'.tasks && s'.tasks[id].status == Queued && Keeps(s'.tasks[id], id, ts))
      && (id !in Ids(ts) ==> (id in s'.tasks <==> id in s.tasks) && (id in s.tasks ==> s'.tasks[id] == s.tasks[id]))
    decreases |ts|
  {
    if ts != [] {
      var t, front := ts[|ts| - 1], ts[..|ts| - 1];
      var st := MemoryStore.StateOr(s, t.id, Fresh(Some(t), Created, []));
      var s1 := MemoryStore.WithState(s.(pending := s.pending[d := [t] + At(s.pending, d)]), t.id,
                                      st.(task := Some(t), status := Queued));
      MemoryRequeueMarks(s1, d, front, id);
      assert ts == front + [t];
      ConcatIds(front, [t]);
      OneId(t);
    }
  }

  // ---------------------------------------------------------------- first come, first served

  /** In this list no entry for `x` comes after an entry for `y`. */
  predicate NoneBehind(l: seq<Task>, x: TaskId, y: TaskId) {
    l == [] || ((l[0].id == y ==> x !in Ids(l)) && NoneBehind(l[1..], x, y))
  }

  lemma {:induction false} BehindAt(l: seq<Task>, x: TaskId, y: TaskId, i: nat, j: nat)
    requires NoneBehind(l, x, y) && i < |l| && j < |l| && l[i].id == x && l[j].id == y && x != y
    ensures i < j
  {
    if j == 0 {
      IdAt(l, i);
    } else if i > 0 {
      BehindAt(l[1..], x, y, i - 1, j - 1);
    }
  }

  lemma {:induction false} AppendBehind(l: seq<Task>, t: Task, x: TaskId, y: TaskId)
    requires NoneBehind(l, x, y) && t.id != x
    ensures NoneBehind(l + [t], x, y)
  {
    if l == [] {
      assert l + [t] == [t] && [t][1..] == [];
    } else {
      assert (l + [t])[1..] == l[1..] + [t];
      AppendBehind(l[1..], t, x, y);
      ConcatIds(l, [t]);
      OneId(t);
    }
  }

  lemma {:induction false} AbsentBehind(l: seq<Task>, x: TaskId, y: TaskId)
    requires y !in Ids(l)
    ensures NoneBehind(l, x, y)
  {
    if l != [] { AbsentBehind(l[1..], x, y); }
  }

  lemma {:induction false} RemoveFewer(l: seq<Task>, t: Task)
    ensures Ids(RemoveFirst(l, t)) <= Ids(l)
  {
    if l != [] && l[0] != t {
      RemoveFewer(l[1..], t);
      var rest := RemoveFirst(l[1..], t);
      assert ([l[0]] + rest)[1..] == rest;
    }
  }

  lemma {:induction false} RemoveBehind(l: seq<Task>, t: Task, x: TaskId, y: TaskId)
    requires NoneBehind(l, x, y)
    ensures NoneBehind(RemoveFirst(l, t), x, y)
  {
    if l != [] && l[0] != t {
      RemoveBehind(l[1..], t, x, y);
      RemoveFewer(l, t);
      var rest := RemoveFirst(l[1..], t);
      assert ([l[0]] + rest)[1..] == rest;
    }
  }

  lemma {:induction false} SiftFewer(l: seq<Task>, p: Task -> bool, want: bool)
    ensures Ids(Sifted(l, p, want)) <= Ids(l)
  {
    if l != [] {
      SiftFewer(l[1..], p, want);
      var rest := Sifted(l[1..], p, want);
      assert ([l[0]] + rest)[1..] == rest && [] + rest == rest;
    }
  }

  lemma {:induction false} SiftBehind(l: seq<Task>, p: Task -> bool, want: bool, x: TaskId, y: TaskId)
    requires NoneBehind(l, x, y)
    ensures NoneBehind(Sifted(l, p, want), x, y)
  {
    if l != [] {
      SiftBehind(l[1..], p, want, x, y);
      SiftFewer(l, p, want);
      var rest := Sifted(l[1..], p, want);
      assert ([l[0]] + rest)[1..] == rest && [] + rest == rest;
    }
  }

  lemma {:induction false} DropFewer(l: seq<Task>, id: TaskId)
    ensures Ids(MemoryStore.DropId(l, id)) <= Ids(l)
  {
    if l != [] && l[0].id != id {
      DropFewer(l[1..], id);
      var rest := MemoryStore.DropId(l[1..], id);
      assert ([l[0]] + rest)[1..] == rest;
    }
  }

  lemma {:induction false} DropBehind(l: seq<Task>, id: TaskId, x: TaskId, y: TaskId)
    requires NoneBehind(l, x, y)
    ensures NoneBehind(MemoryStore.DropId(l, id), x, y)
  {
    if l != [] && l[0].id != id {
      DropBehind(l[1..], id, x, y);
      DropFewer(l, id);
      var rest := MemoryStore.DropId(l[1..], id);
      assert ([l[0]] + rest)[1..] == rest;
    }
  }

  /** Cutting a list in two: both parts keep the order, and once the first part has a `y` the second has no `x`. */
  lemma {:induction false} CutBehind(l: seq<Task>, k: nat, x: TaskId, y: TaskId)
    requires NoneBehind(l, x, y) && k <= |l|
    ensures NoneBehind(l[..k], x, y) && NoneBehind(l[k..], x, y)
    ensures y in Ids(l[..k]) ==> x !in Ids(l[k..])
    ensures Ids(l[k..]) <= Ids(l) && Ids(l[..k]) <= Ids(l)
  {
    assert l == l[..k] + l[k..];
    ConcatIds(l[..k], l[k..]);
    if k > 0 {
      CutBehind(l[1..], k - 1, x, y);
      assert l[1..][..k - 1] == l[..k][1..] && l[1..][k - 1..] == l[k..];
    }
  }

  /** The operation can put an entry for `x` into the pending list of the device. */
  predicate Readds(op: Op, d: DeviceId, x: TaskId) {
    (op.OpEnqueue? && op.device == d && op.task.id == x)
    || (op.OpRequeue? && op.device == d)
    || (op.OpRecover? && op.device == d)
  }

  /** What any other operation leaves in pending: no `x` gets behind a `y`, and none comes from nowhere. */
  ghost predicate KeepsBehind(before: seq<Task>, after: seq<Task>, x: TaskId, y: TaskId) {
    (NoneBehind(before, x, y) ==> NoneBehind(after, x, y)) && (x !in Ids(before) ==> x !in Ids(after))
  }

  lemma AppendKeeps(q: seq<Task>, t: Task, x: TaskId, y: TaskId)
    requires t.id != x
    ensures KeepsBehind(q, q + [t], x, y)
  {
    if NoneBehind(q, x, y) { AppendBehind(q, t, x, y); }
    ConcatIds(q, [t]);
    OneId(t);
  }

  lemma CutKeeps(q: seq<Task>, k: nat, x: TaskId, y: TaskId)
    requires k <= |q|
    ensures KeepsBehind(q, q[k..], x, y)
  {
    if NoneBehind(q, x, y) { CutBehind(q, k, x, y); }
    assert q == q[..k] + q[k..];
    ConcatIds(q[..k], q[k..]);
  }

  lemma SiftKeeps(q: seq<Task>, p: Task -> bool, want: bool, x: TaskId, y: TaskId)
    ensures KeepsBehind(q, Sifted(q, p, want), x, y)
  {
    if NoneBehind(q, x, y) { SiftBehind(q, p, want, x, y); }
    SiftFewer(q, p, want);
  }

  lemma RemoveKeeps(q: seq<Task>, t: Task, x: TaskId, y: TaskId)
    ensures KeepsBehind(q, RemoveFirst(q, t), x, y)
  {
    if NoneBehind(q, x, y) { RemoveBehind(q, t, x, y); }
    RemoveFewer(q, t);
  }

  lemma DropKeeps(q: seq<Task>, id: TaskId, x: TaskId, y: TaskId)
    ensures KeepsBehind(q, MemoryStore.DropId(q, id), x, y)
  {
    if NoneBehind(q, x, y) { DropBehind(q, id, x, y); }
    DropFewer(q, id);
  }

  // ---------------------------------------------------------------- in every run of the Redis store

  lemma AckPending(cfg: Config, s: Store, d: DeviceId, id: TaskId, gen: Option<nat>)
    ensures AckS(cfg, s, d, id, gen).0.pending == s.pending
  {
    hide Judge, FindId;
  }

  lemma {:induction false} RecoverElsewhere(s: Store, d: DeviceId, items: seq<Task>, timeout: real, now: real, x: DeviceId)
    requires x != d
    ensures At(RecoverItemsS(s, d, items, timeout, now).0.pending, x) == At(s.pending, x)
    decreases |items|
  {
    hide Stale, StartOf;
    if items != [] { RecoverElsewhere(RecoverOneS(s, d, items[0], timeout, now).0, d, items[1..], timeout, now, x); }
  }

  lemma RedisStep(cfg: Config, s: Store, op: Op, d: DeviceId, x: TaskId, y: TaskId)
    requires !Readds(op, d, x)
    ensures KeepsBehind(At(s.pending, d), At(R.DoR(cfg, s, op).0.pending, d), x, y)
  {
    hide NoneBehind, PopS, RequeueS, ExpireS, RecoverItemsS, AckS;
    var q := At(s.pending, d);
    match op
    case OpEnqueue(e, t, now) => if e == d { AppendKeeps(q, t.(enqueuedAt := now), x, y); }
    case OpPop(e, limit, now) =>
      RedisPopTakesFirst(cfg, s, e, limit, now);
      CutKeeps(q, if limit < |q| then limit else |q|, x, y);
    case OpRequeue(e, ts) => RedisRequeueInFront(s, e, ts);
    case OpAck(e, id, gen) => AckPending(cfg, s, e, id, gen);
    case OpRecover(e, timeout, now) => RecoverElsewhere(s, e, At(s.processing, e), timeout, now, d);
    case OpExpire(e, maxAge, now) =>
      var late := (t: Task) => t.enqueuedAt > 0.0 && now - t.enqueuedAt > maxAge;
      Deadlines.RedisExpireRemoves(s, e, maxAge, now, late);
      SiftKeeps(q, late, false, x, y);
    case OpRemove(e, id) =>
      var found := FindId(At(s.pending, e), id);
      if found.Some? { RemoveKeeps(q, found.value, x, y); }
    case _ =>
  }

  /** Between two points of a run without a re-entry of `x`. */
  predicate NoneReadds(ops: seq<Op>, i: nat, j: nat, d: DeviceId, x: TaskId)
    requires j <= |ops|
  {
    forall k :: i <= k < j ==> !Readds(ops[k], d, x)
  }

  lemma {:induction false} RedisStays(cfg: Config, s: Store, ops: seq<Op>, i: nat, j: nat, d: DeviceId, x: TaskId, y: TaskId)
    requires i <= j <= |ops| && NoneReadds(ops, i, j, d, x)
    ensures KeepsBehind(At(StateR(cfg, s, ops, i).pending, d), At(StateR(cfg, s, ops, j).pending, d), x, y)
    decreases j - i
  {
    hide R.DoR, Readds, NoneBehind;
    if i < j {
      RedisStays(cfg, s, ops, i, j - 1, d, x, y);
      RedisStep(cfg, StateR(cfg, s, ops, j - 1), ops[j - 1], d, x, y);
    }
  }

  /** What a pop on a device answers, against its pending list before and after. */
  ghost predicate Served(before: seq<Task>, after: seq<Task>, served: seq<(TaskId, nat)>, x: TaskId, y: TaskId) {
    (forall p :: 0 <= p < |served| ==> served[p].0 in Ids(before))
    && (NoneBehind(before, x, y) ==>
          ((exists p :: 0 <= p < |served| && served[p].0 == y) ==> x !in Ids(after))
          && forall p, q :: 0 <= p < |served| && 0 <= q < |served| && served[p].0 == x && served[q].0 == y ==> p < q)
  }

  lemma ServedFront(before: seq<Task>, k: nat, good: seq<Task>, served: seq<(TaskId, nat)>, x: TaskId, y: TaskId)
    requires x != y && k <= |before| && |served| == |good| && forall p :: 0 <= p < |served| ==> served[p].0 == good[p].id
    requires Ids(good) <= Ids(before[..k]) && (NoneBehind(before[..k], x, y) ==> NoneBehind(good, x, y))
    ensures Served(before, before[k..], served, x, y)
  {
    assert before == before[..k] + before[k..];
    ConcatIds(before[..k], before[k..]);
    forall p | 0 <= p < |served| ensures served[p].0 in Ids(before[..k]) { IdAt(good, p); }
    if NoneBehind(before, x, y) {
      CutBehind(before, k, x, y);
      forall p, q | 0 <= p < |served| && 0 <= q < |served| && served[p].0 == x && served[q].0 == y ensures p < q {
        BehindAt(good, x, y, p, q);
      }
    }
  }

  lemma RedisServes(cfg: Config, s: Store, op: Op, x: TaskId, y: TaskId)
    requires op.OpPop? && x != y
    ensures var (s', r) := R.DoR(cfg, s, op);
      r.Popped? && Served(At(s.pending, op.device), At(s'.pending, op.device), r.tasks, x, y)
  {
    hide PopS, NoneBehind;
    var q := At(s.pending, op.device);
    var k := if op.limit < |q| then op.limit else |q|;
    var good := Sifted(q[..k], cfg.gate, true);
    RedisPopTakesFirst(cfg, s, op.device, op.limit, op.now);
    SiftFewer(q[..k], cfg.gate, true);
    if NoneBehind(q[..k], x, y) { SiftBehind(q[..k], cfg.gate, true, x, y); }
    ServedFront(q, k, good, R.DoR(cfg, s, op).1.tasks, x, y);
  }

  /** Redis, every run from any store, gate drops, removals and expiries included: let `y` be enqueued on a device
      where it was not pending, and let `x` not be enqueued, requeued or recovered there afterwards; then whenever
      pops of that device hand out both, `x` comes out before `y`, in an earlier pop or earlier in the same one. */
  lemma RedisFirstComeFirstServed(cfg: Config, s: Store, ops: seq<Op>, e: nat, k1: nat, p1: nat, k2: nat, p2: nat)
    requires e < k1 < |ops| && e < k2 < |ops| && ops[e].OpEnqueue? && ops[k1].OpPop? && ops[k2].OpPop?
    requires ops[e].device == ops[k1].device == ops[k2].device
    requires ops[e].task.id !in Ids(At(StateR(cfg, s, ops, e).pending, ops[e].device))
    requires var answers := R.RunR(cfg, s, ops).1;
      answers[k1].Popped? && p1 < |answers[k1].tasks| && answers[k2].Popped? && p2 < |answers[k2].tasks|
      && answers[k2].tasks[p2].0 == ops[e].task.id && answers[k1].tasks[p1].0 != ops[e].task.id
      && NoneReadds(ops, e + 1, k1, ops[e].device, answers[k1].tasks[p1].0)
    ensures k1 < k2 || (k1 == k2 && p1 < p2)
  {
    hide R.DoR, NoneReadds, StateR;
    var x, y, d := R.RunR(cfg, s, ops).1[k1].tasks[p1].0, ops[e].task.id, ops[e].device;
    RunStates(cfg, s, ops, k1);
    RunStates(cfg, s, ops, k2);
    RedisServes(cfg, StateR(cfg, s, ops, k1), ops[k1], x, y);
    RedisServes(cfg, StateR(cfg, s, ops, k2), ops[k2], x, y);
    if k2 <= k1 {
      RedisEnqueued(cfg, s, ops, e, x);
      Fewer(ops, e + 1, k1, e + 1, k2, d, x);
      RedisStays(cfg, s, ops, e + 1, k2, d, x, y);
      if k2 < k1 {
        OneOn(cfg, s, ops, k2);
        Fewer(ops, e + 1, k1, k2 + 1, k1, d, x);
        RedisStays(cfg, s, ops, k2 + 1, k1, d, x, y);
      }
    }
  }

  lemma Fewer(ops: seq<Op>, i: nat, j: nat, i1: nat, j1: nat, d: DeviceId, x: TaskId)
    requires i <= i1 && j1 <= j <= |ops| && NoneReadds(ops, i, j, d, x)
    ensures NoneReadds(ops, i1, j1, d, x)
  {
  }

  lemma OneOn(cfg: Config, s: Store, ops: seq<Op>, k: nat)
    requires k < |ops|
    ensures StateR(cfg, s, ops, k + 1) == R.DoR(cfg, StateR(cfg, s, ops, k), ops[k]).0
  {
  }

  /** Right after its enqueue nothing is behind a task that was not pending. */
  lemma RedisEnqueued(cfg: Config, s: Store, ops: seq<Op>, e: nat, x: TaskId)
    requires e < |ops| && ops[e].OpEnqueue? && x != ops[e].task.id
    requires ops[e].task.id !in Ids(At(StateR(cfg, s, ops, e).pending, ops[e].device))
    ensures NoneBehind(At(StateR(cfg, s, ops, e + 1).pending, ops[e].device), x, ops[e].task.id)
  {
    var q, t := At(StateR(cfg, s, ops, e).pending, ops[e].device), ops[e].task.(enqueuedAt := ops[e].now);
    AbsentBehind(q, x, t.id);
    AppendBehind(q, t, x, t.id);
  }

  // ---------------------------------------------------------------- in every run of the in-memory store

  lemma {:induction false} MemoryRecoverElsewhere(s: MemoryStore.Memory, d: DeviceId, es: seq<MemoryStore.Entry>, timeout: real,
                                                  now: real, x: DeviceId)
    requires x != d
    ensures At(MemoryStore.RecoverEntriesM(s, d, es, timeout, now).0.pending, x) == At(s.pending, x)
    decreases |es|
  {
    hide Stale;
    if es != [] {
      MemoryRecoverElsewhere(MemoryStore.RecoverOneM(s, d, es[0], timeout, now).0, d, es[1..], timeout, now, x);
    }
  }

  lemma MemoryStep(cfg: Config, s: MemoryStore.Memory, op: Op, d: DeviceId, x: TaskId, y: TaskId)
    requires !Readds(op, d, x)
    ensures KeepsBehind(At(s.pending, d), At(M.DoM(cfg, s, op).0.pending, d), x, y)
  {
    hide NoneBehind, MemoryStore.PopM, MemoryStore.RequeueM, MemoryStore.ExpireM, MemoryStore.RecoverEntriesM;
    var q := At(s.pending, d);
    match op
    case OpEnqueue(e, t, now) => if e == d { AppendKeeps(q, t.(enqueuedAt := now), x, y); }
    case OpPop(e, limit, now) =>
      MemoryPopTakesFirst(s, e, limit, now);
      CutKeeps(q, if limit < |q| then limit else |q|, x, y);
    case OpRequeue(e, ts) => MemoryRequeueInFront(s, e, ts);
    case OpRecover(e, timeout, now) =>
      var es := MemoryStore.EntriesAt(s.processing, e);
      MemoryRecoverElsewhere(s.(pending := s.pending[e := At(s.pending, e)]), e, es, timeout, now, d);
    case OpExpire(e, maxAge, now) =>
      var late := (t: Task) => t.enqueuedAt > 0.0 && now - t.enqueuedAt > maxAge;
      Deadlines.MemoryExpireRemoves(s, e, maxAge, now, late);
      SiftKeeps(q, late, false, x, y);
    case OpRemove(e, id) => DropKeeps(q, id, x, y);
    case _ =>
  }

  lemma {:induction false} MemoryStays(cfg: Config, s: MemoryStore.Memory, ops: seq<Op>, i: nat, j: nat, d: DeviceId, x: TaskId,
                                       y: TaskId)
    requires i <= j <= |ops| && NoneReadds(ops, i, j, d, x)
    ensures KeepsBehind(At(StateM(cfg, s, ops, i).pending, d), At(StateM(cfg, s, ops, j).pending, d), x, y)
    decreases j - i
  {
    hide M.DoM, Readds, NoneBehind;
    if i < j {
      MemoryStays(cfg, s, ops, i, j - 1, d, x, y);
      MemoryStep(cfg, StateM(cfg, s, ops, j - 1), ops[j - 1], d, x, y);
    }
  }

  lemma MemoryServes(cfg: Config, s: MemoryStore.Memory, op: Op, x: TaskId, y: TaskId)
    requires op.OpPop? && x != y
    ensures var (s', r) := M.DoM(cfg, s, op);
      r.Popped? && Served(At(s.pending, op.device), At(s'.pending, op.device), r.tasks, x, y)
  {
    hide MemoryStore.PopM, NoneBehind;
    var q := At(s.pending, op.device);
    var k := if op.limit < |q| then op.limit else |q|;
    MemoryPopTakesFirst(s, op.device, op.limit, op.now);
    ServedFront(q, k, q[..k], M.DoM(cfg, s, op).1.tasks, x, y);
  }

  lemma MemoryOneOn(cfg: Config, s: MemoryStore.Memory, ops: seq<Op>, k: nat)
    requires k < |ops|
    ensures StateM(cfg, s, ops, k + 1) == M.DoM(cfg, StateM(cfg, s, ops, k), ops[k]).0
  {
  }

  lemma MemoryEnqueued(cfg: Config, s: MemoryStore.Memory, ops: seq<Op>, e: nat, x: TaskId)
    requires e < |ops| && ops[e].OpEnqueue? && x != ops[e].task.id
    requires ops[e].task.id !in Ids(At(StateM(cfg, s, ops, e).pending, ops[e].device))
    ensures NoneBehind(At(StateM(cfg, s, ops, e + 1).pending, ops[e].device), x, ops[e].task.id)
  {
    var q, t := At(StateM(cfg, s, ops, e).pending, ops[e].device), ops[e].task.(enqueuedAt := ops[e].now);
    AbsentBehind(q, x, t.id);
    AppendBehind(q, t, x, t.id);
  }

  /** The same for every run of the in-memory store. */
  lemma MemoryFirstComeFirstServed(cfg: Config, s: MemoryStore.Memory, ops: seq<Op>, e: nat, k1: nat, p1: nat, k2: nat, p2: nat)
    requires e < k1 < |ops| && e < k2 < |ops| && ops[e].OpEnqueue? && ops[k1].OpPop? && ops[k2].OpPop?
    requires ops[e].device == ops[k1].device == ops[k2].device
    requires ops[e].task.id !in Ids(At(StateM(cfg, s, ops, e).pending, ops[e].device))
    requires var answers := M.RunM(cfg, s, ops).1;
      answers[k1].Popped? && p1 < |answers[k1].tasks| && answers[k2].Popped? && p2 < |answers[k2].tasks|
      && answers[k2].tasks[p2].0 == ops[e].task.id && answers[k1].tasks[p1].0 != ops[e].task.id
      && NoneReadds(ops, e + 1, k1, ops[e].device, answers[k1].tasks[p1].0)
    ensures k1 < k2 || (k1 == k2 && p1 < p2)
  {
    hide M.DoM, NoneReadds, StateM;
    var x, y, d := M.RunM(cfg, s, ops).1[k1].tasks[p1].0, ops[e].task.id, ops[e].device;
    MemoryRunStates(cfg, s, ops, k1);
    MemoryRunStates(cfg, s, ops, k2);
    MemoryServes(cfg, StateM(cfg, s, ops, k1), ops[k1], x, y);
    MemoryServes(cfg, StateM(cfg, s, ops, k2), ops[k2], x, y);
    if k2 <= k1 {
      MemoryEnqueued(cfg, s, ops, e, x);
      Fewer(ops, e + 1, k1, e + 1, k2, d, x);
      MemoryStays(cfg, s, ops, e + 1, k2, d, x, y);
      if k2 < k1 {
        MemoryOneOn(cfg, s, ops, k2);
        Fewer(ops, e + 1, k1, k2 + 1, k1, d, x);
        MemoryStays(cfg, s, ops, k2 + 1, k1, d, x, y);
      }
    }
  }
}
