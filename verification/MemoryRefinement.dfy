/**
 The in-memory store is the same abstract queue: every operation except requeue is a step of it with
 the same answer.
 */
module MemoryRefinement {
  import opened Wrappers
  import opened Motion
  import opened TaskModel
  import opened RedisMachine
  import opened MemoryStore
  import opened QueueSpec
  import opened Refinement

  /** Each operation on the stored queues and states, with its answer. */
  function DoM(cfg: Config, s: Memory, op: Op): (Memory, Answer) {
    match op
    case OpCreate(t, st) => (CreateM(s, t, st), Done)
    case OpRecord(id, e) => (RecordM(s, id, e), Done)
    case OpEnqueue(d, t, now) =>
      var s1 := EnqueueM(s, d, t, now);
      (s1, Count(|At(s1.pending, d)|))
    case OpPop(d, limit, now) =>
      var (s1, out) := PopM(s, d, limit, now);
      (s1, Popped(Stamps(out)))
    case OpRequeue(d, ts) =>
      var s1 := RequeueM(s, d, ts);
      (s1, Count(|At(s1.pending, d)|))
    case OpMark(id) => (ChangeM(s, id, MDispatched), Done)
    case OpRetry(id) => (ChangeM(s, id, MRetry), Count(if id in s.tasks then s.tasks[id].retryCount + 1 else 0))
    case OpReset(id) => (ChangeM(s, id, MReset), Done)
    case OpAck(d, id, gen) =>
      var (s1, ok) := AckM(cfg, s, d, id, gen);
      (s1, Flag(ok))
    case OpRecover(d, timeout, now) =>
      var (s1, n) := RecoverM(s, d, timeout, now);
      (s1, Count(n))
    case OpExpire(d, maxAge, now) =>
      var (s1, n) := ExpireM(s, d, maxAge, now);
      (s1, Count(n))
    case OpRemove(d, id) =>
      var (s1, ok) := RemoveM(s, d, id);
      (s1, Flag(ok))
    case OpAbandon(d, id) =>
      var (s1, ok) := AbandonM(s, d, id);
      (s1, Flag(ok))
  }

  /** Ids are created once and enqueued when they are in no queue, and requeue is not used. */
  ghost predicate Legal(s: Memory, op: Op) {
    match op
    case OpCreate(t, st) => t.id !in s.tasks
    case OpRecord(id, e) => id in s.tasks
    case OpEnqueue(d, t, now) =>
      t.id in s.tasks && forall x :: t.id !in Ids(At(s.pending, x)) && t.id !in Keys(EntriesAt(s.processing, x))
    case OpRequeue(d, ts) => false
    case _ => true
  }

  predicate WorksAs(a: Abs, d: DeviceId, e: MemoryStore.Entry) {
    e.task.id in a && a[e.task.id].where == AtWork(d, e.task.enqueuedAt, e.startedAt)
  }

  ghost predicate WorkOk(a: Abs, d: DeviceId, es: seq<MemoryStore.Entry>) {
    OneEach(es) && Keys(es) == WorkingAt(a, d) && forall e :: e in es ==> WorksAs(a, d, e)
  }

  ghost predicate DeviceOk(s: Memory, a: Abs, d: DeviceId) {
    PendingOk(a, d, At(s.pending, d)) && WorkOk(a, d, EntriesAt(s.processing, d))
  }

  /** The stored queues and states stand for the abstract queue `a`. */
  ghost predicate Rel(s: Memory, a: Abs) {
    StatesOk(s.tasks, a) && forall d :: DeviceOk(s, a, d)
  }

  // ---------------------------------------------------------------- the dictionary

  lemma {:induction false} KeyOf(es: seq<MemoryStore.Entry>, e: MemoryStore.Entry)
    requires e in es
    ensures e.task.id in Keys(es)
  {
    if es[0] != e { KeyOf(es[1..], e); }
  }

  lemma {:induction false} SetNew(es: seq<MemoryStore.Entry>, e: MemoryStore.Entry)
    requires OneEach(es) && e.task.id !in Keys(es)
    ensures OneEach(SetEntry(es, e)) && Keys(SetEntry(es, e)) == Keys(es) + {e.task.id}
    ensures forall x :: x in SetEntry(es, e) <==> x in es || x == e
  {
    if es != [] {
      SetNew(es[1..], e);
      var r := SetEntry(es, e);
      assert r[1..] == SetEntry(es[1..], e);
      assert es == [es[0]] + es[1..];
    } else {
      assert [e][1..] == [];
    }
  }

  lemma {:induction false} DropOne(es: seq<MemoryStore.Entry>, id: TaskId)
    requires OneEach(es)
    ensures OneEach(DropEntry(es, id)) && Keys(DropEntry(es, id)) == Keys(es) - {id}
    ensures forall x :: x in DropEntry(es, id) <==> x in es && x.task.id != id
  {
    if es != [] {
      assert es == [es[0]] + es[1..];
      if es[0].task.id == id {
        forall x | x in es[1..] ensures x.task.id != id { KeyOf(es[1..], x); }
      } else {
        DropOne(es[1..], id);
        var r := DropEntry(es, id);
        assert r[1..] == DropEntry(es[1..], id);
      }
    }
  }

  // ---------------------------------------------------------------- frames

  lemma DeviceFrame(s: Memory, s': Memory, a: Abs, b: Abs, x: DeviceId)
    requires DeviceOk(s, a, x) && SameAt(a, b, x)
    requires At(s'.pending, x) == At(s.pending, x) && EntriesAt(s'.processing, x) == EntriesAt(s.processing, x)
    ensures DeviceOk(s', b, x)
  {
    PendingFrame(a, b, x, At(s.pending, x));
    forall e | e in EntriesAt(s.processing, x) ensures WorksAs(b, x, e) {
      KeyOf(EntriesAt(s.processing, x), e);
      assert WorksAs(a, x, e);
    }
  }

  /** A change of one state that keeps its place. */
  lemma StateStep(s: Memory, a: Abs, id: TaskId, st: TaskState, i: Info)
    requires Rel(s, a) && StateOk(st, i) && if id in a then i.where == a[id].where else i.where.Nowhere?
    ensures Rel(WithState(s, id, st), a[id := i])
  {
    var s', b := WithState(s, id, st), a[id := i];
    forall x ensures DeviceOk(s', b, x) {
      assert DeviceOk(s, a, x);
      if id in a { PlaceSame(a, id, i, x); } else { ElsewhereSame(a, id, i, x); }
      DeviceFrame(s, s', a, b, x);
    }
  }

  predicate OnlyDevice(s: Memory, s': Memory, d: DeviceId, x: DeviceId) {
    x != d ==> At(s'.pending, x) == At(s.pending, x) && EntriesAt(s'.processing, x) == EntriesAt(s.processing, x)
  }

  /** The general step: the state of one task changes, and with it the queues of one device. */
  lemma OneTask(s: Memory, a: Abs, d: DeviceId, id: TaskId, s': Memory, i: Info)
    requires Rel(s, a) && id in a && (a[id].where.Nowhere? || a[id].where.device == d)
    requires (i.where.Nowhere? || i.where.device == d)
    requires id in s'.tasks && StateOk(s'.tasks[id], i) && s'.tasks == s.tasks[id := s'.tasks[id]]
    requires forall x :: OnlyDevice(s, s', d, x)
    requires DeviceOk(s', a[id := i], d)
    ensures Rel(s', a[id := i])
  {
    var b := a[id := i];
    forall x ensures DeviceOk(s', b, x) {
      if x != d {
        assert DeviceOk(s, a, x) && OnlyDevice(s, s', d, x);
        ElsewhereSame(a, id, i, x);
        DeviceFrame(s, s', a, b, x);
      }
    }
  }

  /** The table of a device after a task was added to it, dropped from it, or passed it by. */
  lemma WorkGains(a: Abs, d: DeviceId, es: seq<MemoryStore.Entry>, e: MemoryStore.Entry, i: Info)
    requires WorkOk(a, d, es) && e.task.id in a && !a[e.task.id].where.AtWork?
    requires i.where == AtWork(d, e.task.enqueuedAt, e.startedAt)
    ensures WorkOk(a[e.task.id := i], d, SetEntry(es, e))
  {
    var b := a[e.task.id := i];
    SetNew(es, e);
    assert WorkingAt(b, d) == WorkingAt(a, d) + {e.task.id};
    forall x | x in SetEntry(es, e) ensures WorksAs(b, d, x) {
      if x != e {
        KeyOf(es, x);
        assert WorksAs(a, d, x);
      }
    }
  }

  lemma WorkLoses(a: Abs, d: DeviceId, es: seq<MemoryStore.Entry>, id: TaskId, i: Info)
    requires WorkOk(a, d, es) && !i.where.AtWork?
    ensures WorkOk(a[id := i], d, DropEntry(es, id))
  {
    DropOne(es, id);
    assert WorkingAt(a[id := i], d) == WorkingAt(a, d) - {id};
    forall x | x in DropEntry(es, id) ensures WorksAs(a[id := i], d, x) {
      assert WorksAs(a, d, x);
    }
  }

  lemma WorkUntouched(a: Abs, d: DeviceId, es: seq<MemoryStore.Entry>, id: TaskId, i: Info)
    requires WorkOk(a, d, es) && id in a && !a[id].where.AtWork? && !i.where.AtWork?
    ensures WorkOk(a[id := i], d, es)
  {
    assert WorkingAt(a[id := i], d) == WorkingAt(a, d);
    forall x | x in es ensures WorksAs(a[id := i], d, x) {
      KeyOf(es, x);
      assert WorksAs(a, d, x);
    }
  }

  lemma PendingUntouched(a: Abs, d: DeviceId, l: seq<Task>, id: TaskId, i: Info)
    requires PendingOk(a, d, l) && id in a && !a[id].where.Waiting? && !i.where.Waiting?
    ensures PendingOk(a[id := i], d, l)
  {
    assert WaitingAt(a[id := i], d) == WaitingAt(a, d);
    forall t | t in l ensures WaitsAs(a[id := i], d, t) {
      IdOf(l, t);
      assert WaitsAs(a, d, t);
    }
  }

  // ---------------------------------------------------------------- enqueue, remove, expire

  lemma Unlisted(s: Memory, a: Abs, id: TaskId)
    requires Rel(s, a) && id in a
    requires forall x :: id !in Ids(At(s.pending, x)) && id !in Keys(EntriesAt(s.processing, x))
    ensures a[id].where.Nowhere?
  {
    forall x ensures id !in WaitingAt(a, x) && id !in WorkingAt(a, x) { assert DeviceOk(s, a, x); }
    var w := a[id].where;
    assert w.Waiting? ==> id in WaitingAt(a, w.device);
    assert w.AtWork? ==> id in WorkingAt(a, w.device);
  }

  lemma EnqueueStep(s: Memory, a: Abs, d: DeviceId, t: Task, now: real)
    requires Rel(s, a) && Legal(s, OpEnqueue(d, t, now))
    ensures var i := a[t.id].(where := Waiting(d, now), status := Queued);
      Rel(EnqueueM(s, d, t, now), a[t.id := i])
      && |At(EnqueueM(s, d, t, now).pending, d)| == |WaitingAt(a[t.id := i], d)|
  {
    var t1 := t.(enqueuedAt := now);
    var i := a[t.id].(where := Waiting(d, now), status := Queued);
    var s' := EnqueueM(s, d, t, now);
    Unlisted(s, a, t.id);
    assert DeviceOk(s, a, d);
    assert StateOk(s.tasks[t.id], a[t.id]);
    PendingGains(a, d, At(s.pending, d), t1, i);
    WorkUntouched(a, d, EntriesAt(s.processing, d), t.id, i);
    OneTask(s, a, d, t.id, s', i);
  }

  /** Deleting by id and deleting the entry with that id are the same. */
  lemma {:induction false} DropIdIsRemove(q: seq<Task>, t: Task)
    requires Distinct(q) && t in q
    ensures DropId(q, t.id) == RemoveFirst(q, t)
  {
    if q[0] != t {
      IdOf(q[1..], t);
      DropIdIsRemove(q[1..], t);
    }
  }

  lemma RemoveStep(s: Memory, a: Abs, d: DeviceId, id: TaskId)
    requires Rel(s, a)
    ensures var (s', ok) := RemoveM(s, d, id);
      ok == (id in WaitingAt(a, d)) && Rel(s', if ok then a[id := a[id].(where := Nowhere)] else a)
  {
    assert DeviceOk(s, a, d);
    var found := FindId(At(s.pending, d), id);
    if found.Some? {
      var t, i := found.value, a[id].(where := Nowhere);
      var s' := RemoveM(s, d, id).0;
      assert WaitsAs(a, d, t);
      assert StateOk(s.tasks[id], a[id]);
      DropIdIsRemove(At(s.pending, d), t);
      PendingLoses(a, d, At(s.pending, d), t, i);
      WorkUntouched(a, d, EntriesAt(s.processing, d), id, i);
      OneTask(s, a, d, id, s', i);
    }
  }

  /** One over-age entry: its state, and what that leaves for the entries after it. */
  lemma ExpireOneStep(tasks: map<TaskId, TaskState>, a: Abs, d: DeviceId, q: seq<Task>)
    requires StatesOk(tasks, a) && q != [] && Distinct(q) && forall t :: t in q ==> WaitsAs(a, d, t)
    ensures q[0].id in a && q[0].id in tasks
    ensures StatesOk(tasks[q[0].id := Mutate(MExpire, tasks[q[0].id])], a[q[0].id := QueueSpec.Expire(a[q[0].id])])
    ensures forall t :: t in q[1..] ==> WaitsAs(a[q[0].id := QueueSpec.Expire(a[q[0].id])], d, t)
  {
    var t := q[0];
    assert t in q && WaitsAs(a, d, t) && StateOk(tasks[t.id], a[t.id]);
    Others(q);
    forall u | u in q[1..] ensures u.id != t.id && WaitsAs(a, d, u) { IdOf(q[1..], u); }
  }

  lemma {:induction false} ExpireCounts(tasks: map<TaskId, TaskState>, q: seq<Task>, maxAge: real, now: real)
    ensures var (kept, _, n) := ExpireLoopM(tasks, q, maxAge, now); n + |kept| == |q|
    decreases |q|
  {
    if q != [] {
      ExpireCounts(tasks, q[1..], maxAge, now);
      if q[0].id in tasks {
        ExpireCounts(tasks[q[0].id := Mutate(MExpire, tasks[q[0].id])], q[1..], maxAge, now);
      }
    }
  }

  /** The expiry loop keeps exactly the entries that are not over age. */
  lemma {:induction false} ExpireKeeps(tasks: map<TaskId, TaskState>, a: Abs, d: DeviceId, q: seq<Task>, maxAge: real, now: real)
    requires Distinct(q) && forall t :: t in q ==> WaitsAs(a, d, t)
    ensures var kept := ExpireLoopM(tasks, q, maxAge, now).0;
      Distinct(kept) && Ids(kept) == Ids(q) - OverAge(a, d, maxAge, now) && forall t :: t in kept ==> t in q
    decreases |q|
  {
    if q != [] {
      var t := q[0];
      assert t in q && WaitsAs(a, d, t);
      Others(q);
      if Stale(t.enqueuedAt, now, maxAge) {
        ExpireKeeps(if t.id in tasks then tasks[t.id := Mutate(MExpire, tasks[t.id])] else tasks, a, d, q[1..], maxAge, now);
      } else {
        ExpireKeeps(tasks, a, d, q[1..], maxAge, now);
        AppendId(ExpireLoopM(tasks, q[1..], maxAge, now).0, t);
      }
    }
  }

  lemma OverAgeWaits(a: Abs, d: DeviceId, maxAge: real, now: real)
    ensures OverAge(a, d, maxAge, now) <= WaitingAt(a, d)
  {
  }

  lemma ExpireNumber(tasks: map<TaskId, TaskState>, a: Abs, d: DeviceId, q: seq<Task>, maxAge: real, now: real)
    requires PendingOk(a, d, q)
    ensures ExpireLoopM(tasks, q, maxAge, now).2 == |OverAge(a, d, maxAge, now)|
  {
    hide ExpireLoopM, Ids, Distinct, OverAge, WaitsAs, WaitingAt;
    var kept, gone := ExpireLoopM(tasks, q, maxAge, now).0, OverAge(a, d, maxAge, now);
    assert gone <= WaitingAt(a, d) by { OverAgeWaits(a, d, maxAge, now); }
    ExpireCounts(tasks, q, maxAge, now);
    ExpireKeeps(tasks, a, d, q, maxAge, now);
    IdsCount(q);
    IdsCount(kept);
    assert gone <= Ids(q) && Ids(q) == Ids(kept) + gone && Ids(kept) !! gone;
  }

  /** It marks exactly the over-age entries. */
  lemma {:induction false} ExpireMarks(tasks: map<TaskId, TaskState>, a: Abs, d: DeviceId, q: seq<Task>, maxAge: real, now: real)
    requires StatesOk(tasks, a) && Distinct(q) && forall t :: t in q ==> WaitsAs(a, d, t)
    ensures StatesOk(ExpireLoopM(tasks, q, maxAge, now).1, ExpireAll(a, Ids(q) * OverAge(a, d, maxAge, now)))
    decreases |q|
  {
    if q == [] {
      AllOfNone(a, now);
    } else {
      var t := q[0];
      assert t in q && WaitsAs(a, d, t);
      Others(q);
      if Stale(t.enqueuedAt, now, maxAge) {
        ExpireOneStep(tasks, a, d, q);
        var a1 := a[t.id := QueueSpec.Expire(a[t.id])];
        ExpireMarks(tasks[t.id := Mutate(MExpire, tasks[t.id])], a1, d, q[1..], maxAge, now);
        OverAgeSplit(a, d, q, maxAge, now);
        ExpireOneMore(a, t.id, Ids(q[1..]) * OverAge(a1, d, maxAge, now));
      } else {
        ExpireMarks(tasks, a, d, q[1..], maxAge, now);
        assert Ids(q) * OverAge(a, d, maxAge, now) == Ids(q[1..]) * OverAge(a, d, maxAge, now);
      }
    }
  }

  lemma KeptPending(a: Abs, d: DeviceId, q: seq<Task>, kept: seq<Task>, gone: set<TaskId>)
    requires PendingOk(a, d, q) && Distinct(kept) && Ids(kept) == Ids(q) - gone && forall t :: t in kept ==> t in q
    requires gone <= WaitingAt(a, d)
    ensures PendingOk(ExpireAll(a, gone), d, kept)
  {
    var b := ExpireAll(a, gone);
    assert WaitingAt(b, d) == WaitingAt(a, d) - gone;
    forall t | t in kept ensures WaitsAs(b, d, t) {
      IdOf(kept, t);
      assert WaitsAs(a, d, t);
    }
  }

  lemma ExpireStep(s: Memory, a: Abs, d: DeviceId, maxAge: real, now: real)
    requires Rel(s, a)
    ensures var (s', n) := ExpireM(s, d, maxAge, now);
      n == |OverAge(a, d, maxAge, now)| && Rel(s', ExpireAll(a, OverAge(a, d, maxAge, now)))
  {
    assert DeviceOk(s, a, d);
    var q, gone := At(s.pending, d), OverAge(a, d, maxAge, now);
    assert WaitingAt(a, d) * gone == gone;
    if q == [] {
      assert gone == {};
      AllOfNone(a, now);
    } else {
      ExpireNumber(s.tasks, a, d, q, maxAge, now);
      ExpireKeeps(s.tasks, a, d, q, maxAge, now);
      ExpireMarks(s.tasks, a, d, q, maxAge, now);
      var kept := ExpireLoopM(s.tasks, q, maxAge, now).0;
      KeptPending(a, d, q, kept, gone);
      ExpiredRel(s, ExpireM(s, d, maxAge, now).0, a, gone, d, kept);
    }
  }

  lemma ExpiredRel(s: Memory, s': Memory, a: Abs, gone: set<TaskId>, d: DeviceId, kept: seq<Task>)
    requires Rel(s, a) && gone <= WaitingAt(a, d) && StatesOk(s'.tasks, ExpireAll(a, gone)) && s'.processing == s.processing
    requires PendingOk(ExpireAll(a, gone), d, kept) && s'.pending == SetQueue(s.pending, d, kept)
    ensures Rel(s', ExpireAll(a, gone))
  {
    var b := ExpireAll(a, gone);
    forall x ensures DeviceOk(s', b, x) {
      assert DeviceOk(s, a, x) && OnlyDevice(s, s', d, x);
      ExpireFrame(s, s', a, gone, d, x);
    }
  }

  lemma ExpireFrame(s: Memory, s': Memory, a: Abs, gone: set<TaskId>, d: DeviceId, x: DeviceId)
    requires DeviceOk(s, a, x) && gone <= WaitingAt(a, d) && OnlyDevice(s, s', d, x)
    requires EntriesAt(s'.processing, x) == EntriesAt(s.processing, x)
    requires x == d ==> PendingOk(ExpireAll(a, gone), d, At(s'.pending, d))
    ensures DeviceOk(s', ExpireAll(a, gone), x)
  {
    var b, es := ExpireAll(a, gone), EntriesAt(s.processing, x);
    assert WorkingAt(b, x) == WorkingAt(a, x);
    forall e | e in es ensures WorksAs(b, x, e) { KeyOf(es, e); assert WorksAs(a, x, e); }
    if x != d {
      assert WaitingAt(b, x) == WaitingAt(a, x);
      forall t | t in At(s.pending, x) ensures WaitsAs(b, x, t) { IdOf(At(s.pending, x), t); assert WaitsAs(a, x, t); }
    }
  }

  // ---------------------------------------------------------------- ack, abandon, recover

  /** A task at work is finished with. */
  lemma FinishStep(s: Memory, a: Abs, d: DeviceId, id: TaskId, st: TaskState, i: Info)
    requires Rel(s, a) && WorksAt(a, d, id) && i.where.Nowhere? && StateOk(st, i)
    ensures Rel(WithState(s.(processing := s.processing[d := DropEntry(EntriesAt(s.processing, d), id)]), id, st), a[id := i])
  {
    var s' := WithState(s.(processing := s.processing[d := DropEntry(EntriesAt(s.processing, d), id)]), id, st);
    assert DeviceOk(s, a, d);
    WorkLoses(a, d, EntriesAt(s.processing, d), id, i);
    PendingUntouched(a, d, At(s.pending, d), id, i);
    OneTask(s, a, d, id, s', i);
  }

  lemma TableFinds(s: Memory, a: Abs, d: DeviceId, id: TaskId)
    requires Rel(s, a)
    ensures id in Keys(EntriesAt(s.processing, d)) <==> WorksAt(a, d, id)
    ensures s.tasks.Keys == a.Keys && (id in a ==> StateOk(s.tasks[id], a[id]))
  {
    assert DeviceOk(s, a, d);
    assert id in WorkingAt(a, d) <==> WorksAt(a, d, id);
  }

  lemma AckStep(cfg: Config, s: Memory, a: Abs, d: DeviceId, id: TaskId, gen: Option<nat>)
    requires Rel(s, a)
    ensures var (s', ok) := AckM(cfg, s, d, id, gen);
      ok == AckOk(a, d, id, gen, cfg.strict) && Rel(s', if ok then a[id := a[id].(where := Nowhere)] else a)
  {
    TableFinds(s, a, d, id);
    if AckOk(a, d, id, gen, cfg.strict) {
      FinishStep(s, a, d, id, Mutate(MClearStarted, s.tasks[id]), a[id].(where := Nowhere));
    }
  }

  lemma AbandonStep(s: Memory, a: Abs, d: DeviceId, id: TaskId)
    requires Rel(s, a)
    ensures var (s', ok) := AbandonM(s, d, id);
      ok == WorksAt(a, d, id) && Rel(s', if ok then a[id := a[id].(where := Nowhere, status := DeadLetter)] else a)
  {
    TableFinds(s, a, d, id);
    if WorksAt(a, d, id) {
      FinishStep(s, a, d, id, Mutate(MDeadLetter, s.tasks[id]), a[id].(where := Nowhere, status := DeadLetter));
    }
  }

  lemma ReturnStep(s: Memory, s': Memory, a: Abs, d: DeviceId, e: MemoryStore.Entry)
    requires Rel(s, a) && WorksAs(a, d, e) && e.task.id in s'.tasks
    requires s'.tasks == s.tasks[e.task.id := s'.tasks[e.task.id]] && StateOk(s'.tasks[e.task.id], Return(a[e.task.id]))
    requires EntriesAt(s'.processing, d) == DropEntry(EntriesAt(s.processing, d), e.task.id)
    requires At(s'.pending, d) == [e.task] + At(s.pending, d) && forall x :: OnlyDevice(s, s', d, x)
    ensures Rel(s', a[e.task.id := Return(a[e.task.id])])
  {
    var i := Return(a[e.task.id]);
    assert DeviceOk(s, a, d);
    WorkLoses(a, d, EntriesAt(s.processing, d), e.task.id, i);
    PendingGains(a, d, At(s.pending, d), e.task, i);
    OneTask(s, a, d, e.task.id, s', i);
  }

  /** One entry of a recovery: it goes back when it is stale, and the other entries stay. */
  lemma RecoverOneStep(s: Memory, a: Abs, d: DeviceId, e: MemoryStore.Entry, timeout: real, now: real)
    requires Rel(s, a) && e in EntriesAt(s.processing, d)
    ensures var (s1, n) := RecoverOneM(s, d, e, timeout, now);
      var due := e.task.id in StaleAt(a, d, timeout, now);
      e.task.id in a && n == (if due then 1 else 0) && Rel(s1, if due then a[e.task.id := Return(a[e.task.id])] else a)
      && forall u :: u in EntriesAt(s.processing, d) && u.task.id != e.task.id ==> u in EntriesAt(s1.processing, d)
  {
    var id, es := e.task.id, EntriesAt(s.processing, d);
    assert DeviceOk(s, a, d);
    assert WorksAs(a, d, e) && StateOk(s.tasks[id], a[id]);
    if Stale(e.startedAt, now, timeout) {
      var s1 := RecoverOneM(s, d, e, timeout, now).0;
      DropOne(es, id);
      ReturnStep(s, s1, a, d, e);
    }
  }

  lemma StaleSplit(a: Abs, d: DeviceId, es: seq<MemoryStore.Entry>, timeout: real, now: real)
    requires es != [] && OneEach(es) && es[0].task.id in StaleAt(a, d, timeout, now)
    ensures var id := es[0].task.id;
      var rest := Keys(es[1..]) * StaleAt(a[id := Return(a[id])], d, timeout, now);
      id !in rest && Keys(es) * StaleAt(a, d, timeout, now) == {id} + rest
  {
  }

  lemma {:induction false} RecoverSteps(s: Memory, a: Abs, d: DeviceId, es: seq<MemoryStore.Entry>, timeout: real, now: real)
    requires Rel(s, a) && OneEach(es) && forall e :: e in es ==> e in EntriesAt(s.processing, d)
    ensures var (s', n) := RecoverEntriesM(s, d, es, timeout, now);
      var back := Keys(es) * StaleAt(a, d, timeout, now);
      n == |back| && Rel(s', ReturnAll(a, back))
    decreases |es|
  {
    hide Rel, RecoverOneM, Return, Stale;
    if es == [] {
      AllOfNone(a, now);
    } else {
      var e := es[0];
      var id := e.task.id;
      assert e in es;
      RecoverOneStep(s, a, d, e, timeout, now);
      forall u | u in es[1..] ensures u in es && u.task.id != id { KeyOf(es[1..], u); }
      var s1 := RecoverOneM(s, d, e, timeout, now).0;
      if id in StaleAt(a, d, timeout, now) {
        var a1 := a[id := Return(a[id])];
        RecoverSteps(s1, a1, d, es[1..], timeout, now);
        StaleSplit(a, d, es, timeout, now);
        ReturnOne(a, id, Keys(es[1..]) * StaleAt(a1, d, timeout, now));
      } else {
        RecoverSteps(s1, a, d, es[1..], timeout, now);
        assert Keys(es) * StaleAt(a, d, timeout, now) == Keys(es[1..]) * StaleAt(a, d, timeout, now);
      }
    }
  }

  lemma RecoverStep(s: Memory, a: Abs, d: DeviceId, timeout: real, now: real)
    requires Rel(s, a)
    ensures var (s', n) := RecoverM(s, d, timeout, now);
      n == |StaleAt(a, d, timeout, now)| && Rel(s', ReturnAll(a, StaleAt(a, d, timeout, now)))
  {
    assert DeviceOk(s, a, d);
    var es, stale := EntriesAt(s.processing, d), StaleAt(a, d, timeout, now);
    assert WorkingAt(a, d) * stale == stale;
    if es == [] {
      assert stale == {};
      AllOfNone(a, now);
    } else {
      var s0 := s.(pending := s.pending[d := At(s.pending, d)]);
      SameQueues(s, s0, a, d);
      RecoverSteps(s0, a, d, es, timeout, now);
    }
  }

  /** Only the queues that can be read matter. */
  lemma SameQueues(s: Memory, s': Memory, a: Abs, d: DeviceId)
    requires Rel(s, a) && s'.tasks == s.tasks
    requires s'.processing == s.processing && (s'.pending == SetQueue(s.pending, d, At(s.pending, d))
                                               || s'.pending == s.pending[d := At(s.pending, d)])
    ensures Rel(s', a)
  {
    forall x ensures DeviceOk(s', a, x) {
      assert DeviceOk(s, a, x);
      assert At(s'.pending, x) == At(s.pending, x);
    }
  }

  // ---------------------------------------------------------------- pop

  lemma PopOneStep(s: Memory, a: Abs, d: DeviceId, now: real)
    requires Rel(s, a) && At(s.pending, d) != []
    ensures var (s1, out) := PopOneM(s, d, now);
      var t := At(s.pending, d)[0];
      t.id in a && a[t.id].where.Waiting? && Rel(s1, a[t.id := QueueSpec.Start(a[t.id], now)])
      && out.id == t.id && out.stamp == Some(a[t.id].gen)
      && At(s1.pending, d) == At(s.pending, d)[1..]
  {
    var l := At(s.pending, d);
    var t := l[0];
    var (s1, out) := PopOneM(s, d, now);
    assert DeviceOk(s, a, d) && t in l;
    assert WaitsAs(a, d, t) && StateOk(s.tasks[t.id], a[t.id]);
    var i := QueueSpec.Start(a[t.id], now);
    assert RemoveFirst(l, t) == l[1..];
    PendingLoses(a, d, l, t, i);
    WorkGains(a, d, EntriesAt(s.processing, d), MemoryStore.Entry(out, now), i);
    OneTask(s, a, d, t.id, s1, i);
  }

  function Taken(s: Memory, d: DeviceId, limit: nat): nat {
    if limit < |At(s.pending, d)| then limit else |At(s.pending, d)|
  }

  lemma PrefixIds(l: seq<Task>, k: nat)
    requires k <= |l|
    ensures Ids(l[..k]) <= Ids(l)
  {
    assert l == l[..k] + l[k..];
    ConcatIds(l[..k], l[k..]);
  }

  /** The first tasks of a list, without the very first. */
  lemma Shorter(l: seq<Task>, k: nat)
    requires 0 < k <= |l| && Distinct(l)
    ensures Ids(l[..k]) == {l[0].id} + Ids(l[1..][..k - 1]) && l[0].id !in Ids(l[1..][..k - 1])
  {
    var front, rest := l[..k], l[1..];
    assert front[1..] == rest[..k - 1] && front[0] == l[0];
    PrefixIds(rest, k - 1);
  }

  /** Starting the first task changes the generation of none of the others. */
  lemma FrontGrows(a: Abs, l: seq<Task>, now: real, first: Task, rest: seq<Task>)
    requires l != [] && Distinct(l) && l[0].id in a && first.id == l[0].id && first.stamp == Some(a[l[0].id].gen)
    requires StampedFront(a[l[0].id := QueueSpec.Start(a[l[0].id], now)], l[1..], rest)
    ensures StampedFront(a, l, [first] + rest)
  {
    var tail := l[1..];
    forall i | 0 < i < |rest| + 1
      ensures var t := l[i]; t == tail[i - 1] && t.id in a && rest[i - 1].id == t.id && rest[i - 1].stamp == Some(a[t.id].gen)
    {
      IdAt(tail, i - 1);
    }
  }

  lemma {:induction false} PopSteps(s: Memory, a: Abs, d: DeviceId, limit: nat, now: real)
    requires Rel(s, a)
    ensures var (s', out) := PopManyM(s, d, limit, now);
      var l, k := At(s.pending, d), Taken(s, d, limit);
      |out| == k && Rel(s', StartAll(a, Ids(l[..k]), now)) && StampedFront(a, l, out)
    decreases limit
  {
    hide StatesOk, PopOneM, WorkOk;
    var l, k := At(s.pending, d), Taken(s, d, limit);
    if limit == 0 || l == [] {
      AllOfNone(a, now);
    } else {
      var t := l[0];
      var (s1, _) := PopOneM(s, d, now);
      PopOneStep(s, a, d, now);
      var a1 := a[t.id := QueueSpec.Start(a[t.id], now)];
      PopSteps(s1, a1, d, limit - 1, now);
      assert DeviceOk(s, a, d);
      Shorter(l, k);
      FrontGrows(a, l, now, PopOneM(s, d, now).1, PopManyM(s1, d, limit - 1, now).1);
      StartOne(a, t.id, Ids(l[1..][..k - 1]), now);
    }
  }

  lemma PopStep(s: Memory, a: Abs, d: DeviceId, limit: nat, now: real)
    requires Rel(s, a)
    ensures var (s', out) := PopM(s, d, limit, now);
      PopChoice(a, d, limit, Stamps(out)) && Rel(s', StartAll(a, Firsts(Stamps(out)), now))
  {
    var l := At(s.pending, d);
    var (s', out) := PopM(s, d, limit, now);
    var (s1, out1) := PopManyM(s, d, limit, now);
    assert DeviceOk(s, a, d);
    PopSteps(s, a, d, limit, now);
    assert out1 == out;
    PrefixIsChoice(a, d, l, limit, out);
    SameQueues(s1, s', StartAll(a, Firsts(Stamps(out)), now), d);
  }

  // ---------------------------------------------------------------- every operation, every run

  /** An operation is a step of the abstract queue with the same answer. */
  lemma RefinesStep(cfg: Config, s: Memory, a: Abs, op: Op) returns (a': Abs)
    requires Rel(s, a) && Legal(s, op)
    ensures Next(cfg.strict, a, op, DoM(cfg, s, op).1, a') && Rel(DoM(cfg, s, op).0, a')
    ensures op.OpCreate? ==> op.task.id !in a
  {
    hide Rel, EnqueueM, PopM, RecoverM, ExpireM, AckM, RemoveM, AbandonM;
    hide PopChoice, StartAll, ReturnAll, ExpireAll, StaleAt, OverAge;
    SameTasks(s, a);
    match op
    case OpCreate(t, st) =>
      a' := a[t.id := Info(Nowhere, st, 0, 0)];
      StateStep(s, a, t.id, Fresh(Some(t), st, []), a'[t.id]);
    case OpRecord(id, e) =>
      a' := a[id := a[id].(status := e.phase)];
      RecordStep(s, a, id, e);
    case OpEnqueue(d, t, now) =>
      a' := a[t.id := a[t.id].(where := Waiting(d, now), status := Queued)];
      EnqueueStep(s, a, d, t, now);
    case OpPop(d, limit, now) =>
      PopStep(s, a, d, limit, now);
      a' := StartAll(a, Firsts(Stamps(PopM(s, d, limit, now).1)), now);
    case OpRequeue(d, ts) =>
    case OpMark(id) => a' := MutateStep(s, a, id, MDispatched);
    case OpRetry(id) => a' := MutateStep(s, a, id, MRetry);
    case OpReset(id) => a' := MutateStep(s, a, id, MReset);
    case OpAck(d, id, gen) =>
      a' := if AckOk(a, d, id, gen, cfg.strict) then a[id := a[id].(where := Nowhere)] else a;
      AckStep(cfg, s, a, d, id, gen);
    case OpRecover(d, timeout, now) =>
      a' := ReturnAll(a, StaleAt(a, d, timeout, now));
      RecoverStep(s, a, d, timeout, now);
    case OpExpire(d, maxAge, now) =>
      a' := ExpireAll(a, OverAge(a, d, maxAge, now));
      ExpireStep(s, a, d, maxAge, now);
    case OpRemove(d, id) =>
      a' := if id in WaitingAt(a, d) then a[id := a[id].(where := Nowhere)] else a;
      RemoveStep(s, a, d, id);
    case OpAbandon(d, id) =>
      a' := if WorksAt(a, d, id) then a[id := a[id].(where := Nowhere, status := DeadLetter)] else a;
      AbandonStep(s, a, d, id);
  }

  lemma SameTasks(s: Memory, a: Abs)
    requires Rel(s, a)
    ensures s.tasks.Keys == a.Keys
  {
  }

  lemma RecordStep(s: Memory, a: Abs, id: TaskId, e: Event)
    requires Rel(s, a) && id in s.tasks
    ensures id in a && Rel(RecordM(s, id, e), a[id := a[id].(status := e.phase)])
  {
    assert StateOk(s.tasks[id], a[id]);
    StateStep(s, a, id, RecordM(s, id, e).tasks[id], a[id].(status := e.phase));
  }

  lemma MutateStep(s: Memory, a: Abs, id: TaskId, m: Mutator) returns (a': Abs)
    requires Rel(s, a) && (m.MDispatched? || m.MRetry? || m.MReset?)
    ensures Rel(ChangeM(s, id, m), a')
    ensures id !in a ==> a' == a && id !in s.tasks
    ensures id in a ==> id in s.tasks && s.tasks[id].retryCount == a[id].retries && a' == a[id := Noted(m, a[id])]
  {
    a' := a;
    if id in a {
      assert StateOk(s.tasks[id], a[id]);
      StateStep(s, a, id, Mutate(m, s.tasks[id]), Noted(m, a[id]));
      a' := a[id := Noted(m, a[id])];
    }
  }

  function RunM(cfg: Config, s: Memory, ops: seq<Op>): (r: (Memory, seq<Answer>))
    ensures |r.1| == |ops|
    decreases |ops|
  {
    if ops == [] then (s, [])
    else
      var (s1, answer) := DoM(cfg, s, ops[0]);
      var (s2, rest) := RunM(cfg, s1, ops[1..]);
      (s2, [answer] + rest)
  }

  ghost predicate LegalRun(cfg: Config, s: Memory, ops: seq<Op>)
    decreases |ops|
  {
    ops == [] || (Legal(s, ops[0]) && LegalRun(cfg, DoM(cfg, s, ops[0]).0, ops[1..]))
  }

  /** Every legal run of the in-memory store is a run of the abstract queue, answer by answer. */
  lemma {:induction false} Refines(cfg: Config, s: Memory, a: Abs, ops: seq<Op>) returns (states: seq<Abs>)
    requires Rel(s, a) && LegalRun(cfg, s, ops)
    ensures var (s', answers) := RunM(cfg, s, ops);
      IsRun(cfg.strict, states, Log(ops, answers)) && states[0] == a && Rel(s', states[|ops|])
    decreases |ops|
  {
    if ops == [] {
      states := [a];
    } else {
      var a1 := RefinesStep(cfg, s, a, ops[0]);
      var (s1, answer) := DoM(cfg, s, ops[0]);
      var rest := Refines(cfg, s1, a1, ops[1..]);
      RunCons(cfg.strict, a, ops[0], answer, rest, ops[1..], RunM(cfg, s1, ops[1..]).1);
      assert ops == [ops[0]] + ops[1..];
      states := [a] + rest;
    }
  }

  const EMPTY: Memory := Memory(map[], map[], map[])

  lemma EmptyRel()
    ensures Rel(EMPTY, map[])
  {
    forall d ensures DeviceOk(EMPTY, map[], d) {
      assert WaitingAt(map[], d) == {} && WorkingAt(map[], d) == {};
    }
  }
}
