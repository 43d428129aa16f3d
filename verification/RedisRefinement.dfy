/**
 The Redis store, one method at a time, is the abstract queue: every operation except requeue is a
 step of it with the same answer.
 */
module RedisRefinement {
  import opened Basics
  import opened Wrappers
  import opened Motion
  import opened TaskModel
  import opened RedisMachine
  import opened RedisStore
  import opened QueueSpec
  import opened Refinement
  import opened Fifo

  /** Each operation on the stored lists and states, with its answer. */
  function DoR(cfg: Config, s: Store, op: Op): (Store, Answer) {
    match op
    case OpCreate(t, st) => (s.(tasks := s.tasks[t.id := Fresh(Some(t), st, [])]), Done)
    case OpRecord(id, e) => (RecordS(s, id, e), Done)
    case OpEnqueue(d, t, now) =>
      var s1 := EnqueueS(s, d, t, now);
      (s1, Count(|At(s1.pending, d)|))
    case OpPop(d, limit, now) =>
      var (s1, out) := PopS(cfg, s, d, limit, now);
      (s1, Popped(Stamps(out)))
    case OpRequeue(d, ts) =>
      var s1 := RequeueS(s, d, ts);
      (s1, Count(|At(s1.pending, d)|))
    case OpMark(id) => (UpdateIn(s, id, MDispatched), Done)
    case OpRetry(id) => (UpdateIn(s, id, MRetry), Count(if id in s.tasks then s.tasks[id].retryCount + 1 else 0))
    case OpReset(id) => (UpdateIn(s, id, MReset), Done)
    case OpAck(d, id, gen) =>
      var (s1, ok) := AckS(cfg, s, d, id, gen);
      (s1, Flag(ok))
    case OpRecover(d, timeout, now) =>
      var (s1, n) := RecoverS(s, d, timeout, now);
      (s1, Count(n))
    case OpExpire(d, maxAge, now) =>
      var (s1, n) := ExpireS(s, d, maxAge, now);
      (s1, Count(n))
    case OpRemove(d, id) =>
      var (s1, ok) := RemoveS(s, d, id);
      (s1, Flag(ok))
    case OpAbandon(d, id) =>
      var (s1, ok) := AbandonS(s, d, id);
      (s1, Flag(ok))
  }

  /** Ids are created once and enqueued when they are in no list, tasks are schema-valid, phases are
      not empty, the clock is not at zero, and requeue is not used. */
  ghost predicate Legal(cfg: Config, s: Store, op: Op) {
    match op
    case OpCreate(t, st) => t.id !in s.tasks
    case OpRecord(id, e) => id in s.tasks && e.phase != Empty
    case OpEnqueue(d, t, now) =>
      t.id in s.tasks && cfg.gate(t.(enqueuedAt := now))
      && forall x :: t.id !in Ids(At(s.pending, x)) && t.id !in Ids(At(s.processing, x))
    case OpPop(d, limit, now) => now != 0.0
    case OpRequeue(d, ts) => false
    case _ => true
  }

  /** A processing entry: the state has its start time and no mark of an earlier recovery. */
  predicate WorksAs(cfg: Config, tasks: map<TaskId, TaskState>, a: Abs, d: DeviceId, t: Task) {
    t.id in a && t.id in tasks && cfg.gate(t)
    && a[t.id].where.AtWork? && a[t.id].where.device == d && a[t.id].where.enqueuedAt == t.enqueuedAt
    && tasks[t.id].startedAt == Some(a[t.id].where.startedAt) && a[t.id].where.startedAt != 0.0
    && tasks[t.id].recoveredAt.None?
  }

  ghost predicate WorkOk(cfg: Config, tasks: map<TaskId, TaskState>, a: Abs, d: DeviceId, l: seq<Task>) {
    Distinct(l) && Ids(l) == WorkingAt(a, d) && forall t :: t in l ==> WorksAs(cfg, tasks, a, d, t)
  }

  predicate Gated(cfg: Config, l: seq<Task>) {
    forall t :: t in l ==> cfg.gate(t)
  }

  ghost predicate DeviceOk(cfg: Config, s: Store, a: Abs, d: DeviceId) {
    PendingOk(a, d, At(s.pending, d)) && Gated(cfg, At(s.pending, d))
    && WorkOk(cfg, s.tasks, a, d, At(s.processing, d))
  }

  /** The stored lists and states stand for the abstract queue `a`. */
  ghost predicate Rel(cfg: Config, s: Store, a: Abs) {
    StatesOk(s.tasks, a) && forall d :: DeviceOk(cfg, s, a, d)
  }

  // ---------------------------------------------------------------- frames

  /** The states of working tasks keep their start time and stay unrecovered. */
  ghost predicate SameWork(tasks: map<TaskId, TaskState>, after: map<TaskId, TaskState>, ids: set<TaskId>) {
    forall id :: id in ids && id in tasks ==> id in after && after[id].startedAt == tasks[id].startedAt
                                              && after[id].recoveredAt == tasks[id].recoveredAt
  }

  lemma WorkFrame(cfg: Config, tasks: map<TaskId, TaskState>, after: map<TaskId, TaskState>, a: Abs, b: Abs, x: DeviceId,
                  l: seq<Task>)
    requires WorkOk(cfg, tasks, a, x, l) && SameAt(a, b, x) && SameWork(tasks, after, WorkingAt(a, x))
    ensures WorkOk(cfg, after, b, x, l)
  {
    forall t | t in l ensures WorksAs(cfg, after, b, x, t) {
      IdOf(l, t);
      assert WorksAs(cfg, tasks, a, x, t);
    }
  }

  /** A device whose lists are untouched, for a change of the state of one task that is not at work there. */
  lemma DeviceFrame(cfg: Config, s: Store, s': Store, a: Abs, b: Abs, x: DeviceId)
    requires DeviceOk(cfg, s, a, x) && SameAt(a, b, x) && SameWork(s.tasks, s'.tasks, WorkingAt(a, x))
    requires At(s'.pending, x) == At(s.pending, x) && At(s'.processing, x) == At(s.processing, x)
    ensures DeviceOk(cfg, s', b, x)
  {
    PendingFrame(a, b, x, At(s.pending, x));
    WorkFrame(cfg, s.tasks, s'.tasks, a, b, x, At(s.processing, x));
  }

  // ---------------------------------------------------------------- operations on states only

  /** A change of one state that keeps its place, start time and recovery mark. */
  lemma StateStep(cfg: Config, s: Store, a: Abs, id: TaskId, st: TaskState, i: Info)
    requires Rel(cfg, s, a) && id in a && StateOk(st, i) && i.where == a[id].where
    requires st.startedAt == s.tasks[id].startedAt && st.recoveredAt == s.tasks[id].recoveredAt
    ensures Rel(cfg, s.(tasks := s.tasks[id := st]), a[id := i])
  {
    var s', b := s.(tasks := s.tasks[id := st]), a[id := i];
    forall x ensures DeviceOk(cfg, s', b, x) {
      assert DeviceOk(cfg, s, a, x);
      PlaceSame(a, id, i, x);
      DeviceFrame(cfg, s, s', a, b, x);
    }
  }

  lemma CreateStep(cfg: Config, s: Store, a: Abs, t: Task, status: Status)
    requires Rel(cfg, s, a) && t.id !in a
    ensures Rel(cfg, s.(tasks := s.tasks[t.id := Fresh(Some(t), status, [])]), a[t.id := Info(Nowhere, status, 0, 0)])
  {
    var s', b := s.(tasks := s.tasks[t.id := Fresh(Some(t), status, [])]), a[t.id := Info(Nowhere, status, 0, 0)];
    forall x ensures DeviceOk(cfg, s', b, x) {
      assert DeviceOk(cfg, s, a, x);
      ElsewhereSame(a, t.id, Info(Nowhere, status, 0, 0), x);
      DeviceFrame(cfg, s, s', a, b, x);
    }
  }

  // ---------------------------------------------------------------- one task moves

  /** The general step: the state of one task changes, and with it the lists of one device. */
  lemma OneTask(cfg: Config, s: Store, a: Abs, d: DeviceId, id: TaskId, s': Store, i: Info)
    requires Rel(cfg, s, a) && id in a && (a[id].where.Nowhere? || a[id].where.device == d)
    requires (i.where.Nowhere? || i.where.device == d)
    requires id in s'.tasks && StateOk(s'.tasks[id], i) && s'.tasks == s.tasks[id := s'.tasks[id]]
    requires forall x :: x != d ==> At(s'.pending, x) == At(s.pending, x) && At(s'.processing, x) == At(s.processing, x)
    requires DeviceOk(cfg, s', a[id := i], d)
    ensures Rel(cfg, s', a[id := i])
  {
    var b := a[id := i];
    forall x ensures DeviceOk(cfg, s', b, x) {
      if x != d {
        assert DeviceOk(cfg, s, a, x);
        ElsewhereSame(a, id, i, x);
        DeviceFrame(cfg, s, s', a, b, x);
      }
    }
  }

  lemma WaitingOnly(a: Abs, d: DeviceId, id: TaskId, i: Info)
    requires id in a && !a[id].where.AtWork? && !i.where.AtWork?
    ensures WorkingAt(a[id := i], d) == WorkingAt(a, d)
  {
  }

  lemma WorkUntouched(cfg: Config, s: Store, after: map<TaskId, TaskState>, a: Abs, d: DeviceId, id: TaskId, i: Info)
    requires WorkOk(cfg, s.tasks, a, d, At(s.processing, d)) && id in a && !a[id].where.AtWork? && !i.where.AtWork?
    requires id in after && after == s.tasks[id := after[id]]
    ensures WorkOk(cfg, after, a[id := i], d, At(s.processing, d))
  {
    WaitingOnly(a, d, id, i);
    forall t | t in At(s.processing, d) ensures WorksAs(cfg, after, a[id := i], d, t) {
      assert WorksAs(cfg, s.tasks, a, d, t);
    }
  }

  lemma WorkLoses(cfg: Config, s: Store, after: map<TaskId, TaskState>, a: Abs, d: DeviceId, t: Task, i: Info)
    requires WorkOk(cfg, s.tasks, a, d, At(s.processing, d)) && t in At(s.processing, d) && !i.where.AtWork?
    requires t.id in after && after == s.tasks[t.id := after[t.id]]
    ensures WorkOk(cfg, after, a[t.id := i], d, RemoveFirst(At(s.processing, d), t))
  {
    var l := At(s.processing, d);
    var r := RemoveFirst(l, t);
    RemoveFirstIds(l, t);
    assert WorkingAt(a[t.id := i], d) == WorkingAt(a, d) - {t.id};
    forall u | u in r ensures WorksAs(cfg, after, a[t.id := i], d, u) {
      RemoveFirstIn(l, t, u);
      IdOf(r, u);
      assert WorksAs(cfg, s.tasks, a, d, u);
    }
  }

  /** A pending list after a task of its device that was not waiting left the processing list. */
  lemma PendingUntouched(a: Abs, d: DeviceId, l: seq<Task>, id: TaskId, i: Info)
    requires PendingOk(a, d, l) && id in a && !a[id].where.Waiting? && !i.where.Waiting?
    ensures PendingOk(a[id := i], d, l)
  {
    assert WaitingAt(a[id := i], d) == WaitingAt(a, d);
    forall t | t in l ensures WaitsAs(a[id := i], d, t) {
      IdOf(l, t);
      assert WaitsAs(a, d, t);
    }
  }

  // ---------------------------------------------------------------- enqueue, remove, expire

  /** A task that is in no list has no place. */
  lemma Unlisted(cfg: Config, s: Store, a: Abs, id: TaskId)
    requires Rel(cfg, s, a) && id in a
    requires forall x :: id !in Ids(At(s.pending, x)) && id !in Ids(At(s.processing, x))
    ensures a[id].where.Nowhere?
  {
    forall x ensures id !in WaitingAt(a, x) && id !in WorkingAt(a, x) { assert DeviceOk(cfg, s, a, x); }
    var w := a[id].where;
    assert w.Waiting? ==> id in WaitingAt(a, w.device);
    assert w.AtWork? ==> id in WorkingAt(a, w.device);
  }

  lemma EnqueueStep(cfg: Config, s: Store, a: Abs, d: DeviceId, t: Task, now: real)
    requires Rel(cfg, s, a) && Legal(cfg, s, OpEnqueue(d, t, now))
    ensures var i := a[t.id].(where := Waiting(d, now), status := Queued);
      Rel(cfg, EnqueueS(s, d, t, now), a[t.id := i])
      && |At(EnqueueS(s, d, t, now).pending, d)| == |WaitingAt(a[t.id := i], d)|
  {
    var t1 := t.(enqueuedAt := now);
    var i := a[t.id].(where := Waiting(d, now), status := Queued);
    var s' := EnqueueS(s, d, t, now);
    Unlisted(cfg, s, a, t.id);
    assert DeviceOk(cfg, s, a, d);
    PendingGains(a, d, At(s.pending, d), t1, i);
    WorkingTogether(cfg, s, s', a, d, t.id, i);
    OneTask(cfg, s, a, d, t.id, s', i);
  }

  /** The working tasks of device `d` when a task that was not at work starts waiting. */
  lemma WorkingTogether(cfg: Config, s: Store, s': Store, a: Abs, d: DeviceId, id: TaskId, i: Info)
    requires DeviceOk(cfg, s, a, d) && id in a && !a[id].where.AtWork? && !i.where.AtWork?
    requires At(s'.processing, d) == At(s.processing, d)
    requires id in s'.tasks && s'.tasks == s.tasks[id := s'.tasks[id]]
    ensures WorkOk(cfg, s'.tasks, a[id := i], d, At(s'.processing, d))
  {
    WorkUntouched(cfg, s, s'.tasks, a, d, id, i);
  }

  /** A waiting task leaves its list. */
  lemma LeaveStep(cfg: Config, s: Store, a: Abs, d: DeviceId, t: Task, st: TaskState, i: Info)
    requires Rel(cfg, s, a) && t in At(s.pending, d) && i.where.Nowhere? && t.id in a && StateOk(st, i)
    ensures Rel(cfg, s.(pending := s.pending[d := RemoveFirst(At(s.pending, d), t)], tasks := s.tasks[t.id := st]), a[t.id := i])
  {
    var s' := s.(pending := s.pending[d := RemoveFirst(At(s.pending, d), t)], tasks := s.tasks[t.id := st]);
    assert DeviceOk(cfg, s, a, d);
    assert WaitsAs(a, d, t);
    PendingLoses(a, d, At(s.pending, d), t, i);
    forall u | u in At(s'.pending, d) ensures cfg.gate(u) { RemoveFirstIn(At(s.pending, d), t, u); }
    WorkingTogether(cfg, s, s', a, d, t.id, i);
    OneTask(cfg, s, a, d, t.id, s', i);
  }

  lemma RemoveStep(cfg: Config, s: Store, a: Abs, d: DeviceId, id: TaskId)
    requires Rel(cfg, s, a)
    ensures var (s', ok) := RemoveS(s, d, id);
      ok == (id in WaitingAt(a, d)) && Rel(cfg, s', if ok then a[id := a[id].(where := Nowhere)] else a)
  {
    assert DeviceOk(cfg, s, a, d);
    var found := FindId(At(s.pending, d), id);
    if found.Some? {
      var t := found.value;
      LeaveStep(cfg, s, a, d, t, s.tasks[id], a[id].(where := Nowhere));
      assert s.tasks[id := s.tasks[id]] == s.tasks;
    }
  }

  /** One entry of an expiry: it leaves when it is over age, and the other entries stay. */
  lemma ExpireOneStep(cfg: Config, s: Store, a: Abs, d: DeviceId, t: Task, maxAge: real, now: real)
    requires Rel(cfg, s, a) && t in At(s.pending, d)
    ensures var (s1, n) := ExpireOneS(s, d, t, maxAge, now);
      var due := t.id in OverAge(a, d, maxAge, now);
      t.id in a && n == (if due then 1 else 0) && Rel(cfg, s1, if due then a[t.id := QueueSpec.Expire(a[t.id])] else a)
      && forall u :: u in At(s.pending, d) && u != t ==> u in At(s1.pending, d)
  {
    assert DeviceOk(cfg, s, a, d);
    assert WaitsAs(a, d, t);
    if Stale(t.enqueuedAt, now, maxAge) {
      LeaveStep(cfg, s, a, d, t, Swap(MExpire, s.tasks[t.id]), QueueSpec.Expire(a[t.id]));
      forall u | u in At(s.pending, d) && u != t ensures u in RemoveFirst(At(s.pending, d), t) {
        StaysIn(At(s.pending, d), t, u);
      }
    }
  }

  lemma {:induction false} ExpireSteps(cfg: Config, s: Store, a: Abs, d: DeviceId, items: seq<Task>, maxAge: real, now: real)
    requires Rel(cfg, s, a) && Distinct(items) && forall t :: t in items ==> t in At(s.pending, d)
    ensures var (s', n) := ExpireItemsS(s, d, items, maxAge, now);
      var gone := Ids(items) * OverAge(a, d, maxAge, now);
      n == |gone| && Rel(cfg, s', ExpireAll(a, gone))
    decreases |items|
  {
    if items == [] {
      AllOfNone(a, now);
    } else {
      var t := items[0];
      assert t in items;
      ExpireOneStep(cfg, s, a, d, t, maxAge, now);
      Others(items);
      var s1 := ExpireOneS(s, d, t, maxAge, now).0;
      if t.id in OverAge(a, d, maxAge, now) {
        var a1 := a[t.id := QueueSpec.Expire(a[t.id])];
        ExpireSteps(cfg, s1, a1, d, items[1..], maxAge, now);
        OverAgeSplit(a, d, items, maxAge, now);
        ExpireOneMore(a, t.id, Ids(items[1..]) * OverAge(a1, d, maxAge, now));
      } else {
        ExpireSteps(cfg, s1, a, d, items[1..], maxAge, now);
        assert Ids(items) * OverAge(a, d, maxAge, now) == Ids(items[1..]) * OverAge(a, d, maxAge, now);
      }
    }
  }

  lemma ExpireStep(cfg: Config, s: Store, a: Abs, d: DeviceId, maxAge: real, now: real)
    requires Rel(cfg, s, a)
    ensures var (s', n) := ExpireS(s, d, maxAge, now);
      n == |OverAge(a, d, maxAge, now)| && Rel(cfg, s', ExpireAll(a, OverAge(a, d, maxAge, now)))
  {
    assert DeviceOk(cfg, s, a, d);
    ExpireSteps(cfg, s, a, d, At(s.pending, d), maxAge, now);
    assert WaitingAt(a, d) * OverAge(a, d, maxAge, now) == OverAge(a, d, maxAge, now);
  }

  // ---------------------------------------------------------------- ack, abandon, recover

  /** A task at work is finished with. */
  lemma FinishStep(cfg: Config, s: Store, a: Abs, d: DeviceId, t: Task, st: TaskState, i: Info)
    requires Rel(cfg, s, a) && t in At(s.processing, d) && t.id in a && i.where.Nowhere? && StateOk(st, i)
    ensures Rel(cfg, s.(processing := s.processing[d := RemoveFirst(At(s.processing, d), t)], tasks := s.tasks[t.id := st]),
                a[t.id := i])
  {
    var s' := s.(processing := s.processing[d := RemoveFirst(At(s.processing, d), t)], tasks := s.tasks[t.id := st]);
    assert DeviceOk(cfg, s, a, d);
    assert WorksAs(cfg, s.tasks, a, d, t);
    WorkLoses(cfg, s, s'.tasks, a, d, t, i);
    PendingUntouched(a, d, At(s.pending, d), t.id, i);
    OneTask(cfg, s, a, d, t.id, s', i);
  }

  /** TakeS finds exactly the tasks at work on this device. */
  lemma TakeFinds(cfg: Config, s: Store, a: Abs, d: DeviceId, id: TaskId)
    requires Rel(cfg, s, a)
    ensures TakeS(s, d, id).1 == WorksAt(a, d, id)
    ensures WorksAt(a, d, id) ==> (FindId(At(s.processing, d), id).Some?
                                   && WorksAs(cfg, s.tasks, a, d, FindId(At(s.processing, d), id).value))
  {
    assert DeviceOk(cfg, s, a, d);
    assert id in WorkingAt(a, d) <==> WorksAt(a, d, id);
  }

  lemma AckStep(cfg: Config, s: Store, a: Abs, d: DeviceId, id: TaskId, gen: Option<nat>)
    requires Rel(cfg, s, a)
    ensures var (s', ok) := AckS(cfg, s, d, id, gen);
      ok == AckOk(a, d, id, gen, cfg.strict) && Rel(cfg, s', if ok then a[id := a[id].(where := Nowhere)] else a)
  {
    TakeFinds(cfg, s, a, d, id);
    if WorksAt(a, d, id) && AckOk(a, d, id, gen, cfg.strict) {
      var t := FindId(At(s.processing, d), id).value;
      FinishStep(cfg, s, a, d, t, Swap(MClearStarted, s.tasks[id]), a[id].(where := Nowhere));
    }
  }

  lemma AbandonStep(cfg: Config, s: Store, a: Abs, d: DeviceId, id: TaskId)
    requires Rel(cfg, s, a)
    ensures var (s', ok) := AbandonS(s, d, id);
      ok == WorksAt(a, d, id)
      && Rel(cfg, s', if ok then a[id := a[id].(where := Nowhere, status := DeadLetter)] else a)
  {
    TakeFinds(cfg, s, a, d, id);
    if WorksAt(a, d, id) {
      var t := FindId(At(s.processing, d), id).value;
      FinishStep(cfg, s, a, d, t, Swap(MDeadLetter, s.tasks[id]), a[id].(where := Nowhere, status := DeadLetter));
    }
  }

  lemma ReturnedDevice(cfg: Config, s: Store, a: Abs, d: DeviceId, t: Task, l: seq<Task>)
    requires At(s.pending, d) == [t] + l && cfg.gate(t) && Gated(cfg, l)
    requires PendingOk(a, d, [t] + l) && WorkOk(cfg, s.tasks, a, d, At(s.processing, d))
    ensures DeviceOk(cfg, s, a, d)
  {
  }

  lemma ReturnStep(cfg: Config, s: Store, s': Store, a: Abs, d: DeviceId, t: Task)
    requires Rel(cfg, s, a) && t in At(s.processing, d) && t.id in a && t.id in s'.tasks
    requires s'.tasks == s.tasks[t.id := s'.tasks[t.id]] && StateOk(s'.tasks[t.id], Return(a[t.id]))
    requires At(s'.processing, d) == RemoveFirst(At(s.processing, d), t) && At(s'.pending, d) == [t] + At(s.pending, d)
    requires forall x :: x != d ==> At(s'.pending, x) == At(s.pending, x) && At(s'.processing, x) == At(s.processing, x)
    ensures Rel(cfg, s', a[t.id := Return(a[t.id])])
  {
    var i := Return(a[t.id]);
    assert DeviceOk(cfg, s, a, d);
    assert WorksAs(cfg, s.tasks, a, d, t);
    WorkLoses(cfg, s, s'.tasks, a, d, t, i);
    PendingGains(a, d, At(s.pending, d), t, i);
    ReturnedDevice(cfg, s', a[t.id := i], d, t, At(s.pending, d));
    OneTask(cfg, s, a, d, t.id, s', i);
  }

  /** A task at work has the state its place says. */
  lemma WorkerState(cfg: Config, s: Store, a: Abs, d: DeviceId, t: Task, now: real)
    requires Rel(cfg, s, a) && WorksAs(cfg, s.tasks, a, d, t)
    ensures StateOk(Swap(MRecover(now), s.tasks[t.id]), Return(a[t.id]))
    ensures StartOf(t, Some(s.tasks[t.id])) == a[t.id].where.startedAt
  {
    assert StateOk(s.tasks[t.id], a[t.id]);
  }

  /** One entry of a recovery: it goes back when it is stale, and the other entries stay. */
  lemma RecoverOneStep(cfg: Config, s: Store, a: Abs, d: DeviceId, t: Task, timeout: real, now: real)
    requires Rel(cfg, s, a) && t in At(s.processing, d)
    ensures var (s1, n) := RecoverOneS(s, d, t, timeout, now);
      var due := t.id in StaleAt(a, d, timeout, now);
      t.id in a && n == (if due then 1 else 0) && Rel(cfg, s1, if due then a[t.id := Return(a[t.id])] else a)
      && forall u :: u in At(s.processing, d) && u != t ==> u in At(s1.processing, d)
  {
    assert DeviceOk(cfg, s, a, d);
    assert WorksAs(cfg, s.tasks, a, d, t);
    WorkerState(cfg, s, a, d, t, now);
    if t.id in StaleAt(a, d, timeout, now) {
      RemoveAllIsFirst(At(s.processing, d), t);
      ReturnStep(cfg, s, RecoverOneS(s, d, t, timeout, now).0, a, d, t);
      forall u | u in At(s.processing, d) && u != t ensures u in RemoveFirst(At(s.processing, d), t) {
        StaysIn(At(s.processing, d), t, u);
      }
    }
  }

  lemma StaleSplit(a: Abs, d: DeviceId, items: seq<Task>, timeout: real, now: real)
    requires items != [] && Distinct(items) && items[0].id in StaleAt(a, d, timeout, now)
    ensures var id := items[0].id;
      var rest := Ids(items[1..]) * StaleAt(a[id := Return(a[id])], d, timeout, now);
      id !in rest && Ids(items) * StaleAt(a, d, timeout, now) == {id} + rest
  {
  }

  lemma {:induction false} RecoverSteps(cfg: Config, s: Store, a: Abs, d: DeviceId, items: seq<Task>, timeout: real, now: real)
    requires Rel(cfg, s, a) && Distinct(items) && forall t :: t in items ==> t in At(s.processing, d)
    ensures var (s', n) := RecoverItemsS(s, d, items, timeout, now);
      var back := Ids(items) * StaleAt(a, d, timeout, now);
      n == |back| && Rel(cfg, s', ReturnAll(a, back))
    decreases |items|
  {
    hide Rel, RecoverOneS, ReturnAll, Return;
    if items == [] {
      AllOfNone(a, now);
    } else {
      var t := items[0];
      assert t in items;
      RecoverOneStep(cfg, s, a, d, t, timeout, now);
      Others(items);
      var s1 := RecoverOneS(s, d, t, timeout, now).0;
      if t.id in StaleAt(a, d, timeout, now) {
        var a1 := a[t.id := Return(a[t.id])];
        RecoverSteps(cfg, s1, a1, d, items[1..], timeout, now);
        StaleSplit(a, d, items, timeout, now);
        ReturnOne(a, t.id, Ids(items[1..]) * StaleAt(a1, d, timeout, now));
      } else {
        RecoverSteps(cfg, s1, a, d, items[1..], timeout, now);
        assert Ids(items) * StaleAt(a, d, timeout, now) == Ids(items[1..]) * StaleAt(a, d, timeout, now);
      }
    }
  }

  lemma RecoverStep(cfg: Config, s: Store, a: Abs, d: DeviceId, timeout: real, now: real)
    requires Rel(cfg, s, a)
    ensures var (s', n) := RecoverS(s, d, timeout, now);
      n == |StaleAt(a, d, timeout, now)| && Rel(cfg, s', ReturnAll(a, StaleAt(a, d, timeout, now)))
  {
    assert DeviceOk(cfg, s, a, d);
    RecoverSteps(cfg, s, a, d, At(s.processing, d), timeout, now);
    assert WorkingAt(a, d) * StaleAt(a, d, timeout, now) == StaleAt(a, d, timeout, now);
  }

  // ---------------------------------------------------------------- pop

  /** What dispatching leaves in the states: each task of the batch started, the others untouched. */
  predicate Started(before: map<TaskId, TaskState>, after: map<TaskId, TaskState>, ids: set<TaskId>, now: real) {
    after.Keys == before.Keys
    && forall id :: id in before ==>
      if id in ids then
        after[id].status == Dispatching && after[id].startedAt == Some(now) && after[id].recoveredAt == None
        && after[id].dispatchGen == before[id].dispatchGen && after[id].retryCount == before[id].retryCount
      else after[id] == before[id]
  }

  lemma {:induction false} DispatchStates(s: Store, raw: seq<Task>, now: real)
    requires Distinct(raw) && Ids(raw) <= s.tasks.Keys
    ensures var (s', out) := DispatchS(s, raw, now);
      Started(s.tasks, s'.tasks, Ids(raw), now) && StampedFrom(s.tasks, raw, out)
    decreases |raw|
  {
    if raw != [] {
      var t := raw[0];
      var s1 := UpdateIn(s, t.id, MDispatch(t, now));
      DispatchStates(s1, raw[1..], now);
      StampMore(s.tasks, s1.tasks, raw, DispatchS(s1, raw[1..], now).1);
    }
  }

  /** Each task of the batch carries the generation of its state. */
  predicate StampedFrom(tasks: map<TaskId, TaskState>, raw: seq<Task>, out: seq<Task>) {
    |out| == |raw|
    && forall i :: 0 <= i < |raw| ==>
      raw[i].id in tasks && out[i].id == raw[i].id && out[i].stamp == Some(tasks[raw[i].id].dispatchGen)
  }

  lemma StampMore(tasks: map<TaskId, TaskState>, tasks1: map<TaskId, TaskState>, raw: seq<Task>, out: seq<Task>)
    requires raw != [] && raw[0].id in tasks && StampedFrom(tasks1, raw[1..], out)
    requires tasks1.Keys == tasks.Keys && forall id :: id in tasks ==> tasks1[id].dispatchGen == tasks[id].dispatchGen
    ensures StampedFrom(tasks, raw, [raw[0].(stamp := Some(tasks[raw[0].id].dispatchGen))] + out)
  {
    forall i | 0 <= i < |raw|
      ensures raw[i].id in tasks && (i > 0 ==> out[i - 1].id == raw[i].id && out[i - 1].stamp == Some(tasks[raw[i].id].dispatchGen))
    {
      if i > 0 { assert raw[i] == raw[1..][i - 1]; }
    }
  }

  lemma PopWork(cfg: Config, s: Store, s': Store, a: Abs, d: DeviceId, raw: seq<Task>, rest: seq<Task>, now: real)
    requires DeviceOk(cfg, s, a, d) && At(s.pending, d) == raw + rest && s.tasks.Keys == a.Keys && now != 0.0
    requires At(s'.processing, d) == Rev(raw) + At(s.processing, d) && Started(s.tasks, s'.tasks, Ids(raw), now)
    ensures WorkOk(cfg, s'.tasks, StartAll(a, Ids(raw), now), d, At(s'.processing, d))
  {
    var b := StartAll(a, Ids(raw), now);
    ConcatIds(raw, rest);
    RevIds(raw);
    ConcatIds(Rev(raw), At(s.processing, d));
    assert WorkingAt(b, d) == WorkingAt(a, d) + Ids(raw);
    forall t | t in Rev(raw) + At(s.processing, d) ensures WorksAs(cfg, s'.tasks, b, d, t) {
      if t in At(s.processing, d) {
        IdOf(At(s.processing, d), t);
        assert WorksAs(cfg, s.tasks, a, d, t);
      } else {
        RevIn(raw, t);
        IdOf(raw, t);
        assert t in raw + rest;
        assert WaitsAs(a, d, t);
      }
    }
  }

  lemma {:induction false} RevIn(s: seq<Task>, t: Task)
    requires t in Rev(s)
    ensures t in s
  {
    if s != [] && t != s[0] { RevIn(s[1..], t); }
  }

  lemma PopPending(cfg: Config, s: Store, a: Abs, d: DeviceId, raw: seq<Task>, rest: seq<Task>, now: real)
    requires DeviceOk(cfg, s, a, d) && At(s.pending, d) == raw + rest
    ensures PendingOk(StartAll(a, Ids(raw), now), d, rest) && Gated(cfg, rest)
  {
    var b := StartAll(a, Ids(raw), now);
    ConcatIds(raw, rest);
    assert WaitingAt(b, d) == WaitingAt(a, d) - Ids(raw);
    forall t | t in rest ensures WaitsAs(b, d, t) && cfg.gate(t) {
      IdOf(rest, t);
      assert t in raw + rest;
      assert WaitsAs(a, d, t);
    }
  }

  lemma StartElsewhere(a: Abs, d: DeviceId, ids: set<TaskId>, now: real, x: DeviceId)
    requires ids <= WaitingAt(a, d) && x != d
    ensures SameAt(a, StartAll(a, ids, now), x)
  {
  }

  /** A pop of schema-valid tasks in closed form. */
  lemma PopShape(cfg: Config, s: Store, d: DeviceId, limit: nat, now: real)
    requires Gated(cfg, At(s.pending, d)) && Distinct(At(s.pending, d)) && Ids(At(s.pending, d)) <= s.tasks.Keys
    ensures var (s', out) := PopS(cfg, s, d, limit, now);
      var l, k := At(s.pending, d), Taken(s, d, limit);
      && Started(s.tasks, s'.tasks, Ids(l[..k]), now) && |out| == k
      && At(s'.pending, d) == l[k..] && At(s'.processing, d) == Rev(l[..k]) + At(s.processing, d)
      && (forall x :: x != d ==> At(s'.pending, x) == At(s.pending, x) && At(s'.processing, x) == At(s.processing, x))
      && forall i :: 0 <= i < k ==>
        (l[i].id in s.tasks && out[i].id == l[i].id && out[i].stamp == Some(s.tasks[l[i].id].dispatchGen))
  {
    var l, k := At(s.pending, d), Taken(s, d, limit);
    assert l == l[..k] + l[k..];
    ConcatIds(l[..k], l[k..]);
    MoveShape(s, d, limit);
    var (s1, raw) := MoveS(s, d, limit);
    GateKeepsAll(cfg, s1, d, raw);
    DispatchStates(s1, raw, now);
    DispatchShape(s1, raw, now);
  }

  lemma PopStep(cfg: Config, s: Store, a: Abs, d: DeviceId, limit: nat, now: real)
    requires Rel(cfg, s, a) && now != 0.0
    ensures var (s', out) := PopS(cfg, s, d, limit, now);
      PopChoice(a, d, limit, Stamps(out)) && Rel(cfg, s', StartAll(a, Firsts(Stamps(out)), now))
  {
    var l, k := At(s.pending, d), Taken(s, d, limit);
    var (s', out) := PopS(cfg, s, d, limit, now);
    assert DeviceOk(cfg, s, a, d) && l == l[..k] + l[k..];
    PopShape(cfg, s, d, limit, now);
    forall i | 0 <= i < k ensures l[i].id in a && out[i].id == l[i].id && out[i].stamp == Some(a[l[i].id].gen) {
      assert StateOk(s.tasks[l[i].id], a[l[i].id]);
    }
    PrefixIsChoice(a, d, l, limit, out);
    ConcatIds(l[..k], l[k..]);
    PopWork(cfg, s, s', a, d, l[..k], l[k..], now);
    PopPending(cfg, s, a, d, l[..k], l[k..], now);
    PopRel(cfg, s, s', a, d, Ids(l[..k]), now);
  }

  lemma PopRel(cfg: Config, s: Store, s': Store, a: Abs, d: DeviceId, ids: set<TaskId>, now: real)
    requires Rel(cfg, s, a) && ids <= WaitingAt(a, d) && Started(s.tasks, s'.tasks, ids, now)
    requires DeviceOk(cfg, s', StartAll(a, ids, now), d)
    requires forall x :: x != d ==> At(s'.pending, x) == At(s.pending, x) && At(s'.processing, x) == At(s.processing, x)
    ensures Rel(cfg, s', StartAll(a, ids, now))
  {
    var b := StartAll(a, ids, now);
    forall x ensures DeviceOk(cfg, s', b, x) {
      if x != d {
        assert DeviceOk(cfg, s, a, x);
        StartElsewhere(a, d, ids, now, x);
        DeviceFrame(cfg, s, s', a, b, x);
      }
    }
    forall id | id in b ensures StateOk(s'.tasks[id], b[id]) {
      assert StateOk(s.tasks[id], a[id]);
    }
  }

  // ---------------------------------------------------------------- every operation, every run

  /** An operation is a step of the abstract queue with the same answer. */
  lemma RefinesStep(cfg: Config, s: Store, a: Abs, op: Op) returns (a': Abs)
    requires Rel(cfg, s, a) && Legal(cfg, s, op)
    ensures Next(cfg.strict, a, op, DoR(cfg, s, op).1, a') && Rel(cfg, DoR(cfg, s, op).0, a')
    ensures op.OpCreate? ==> op.task.id !in a
  {
    hide Rel, EnqueueS, PopS, RecoverS, ExpireS, AckS, RemoveS, AbandonS;
    hide PopChoice, StartAll, ReturnAll, ExpireAll, StaleAt, OverAge;
    SameTasks(cfg, s, a);
    match op
    case OpCreate(t, st) =>
      a' := a[t.id := Info(Nowhere, st, 0, 0)];
      CreateStep(cfg, s, a, t, st);
    case OpRecord(id, e) =>
      a' := a[id := a[id].(status := e.phase)];
      RecordStep(cfg, s, a, id, e);
    case OpEnqueue(d, t, now) =>
      a' := a[t.id := a[t.id].(where := Waiting(d, now), status := Queued)];
      EnqueueStep(cfg, s, a, d, t, now);
    case OpPop(d, limit, now) =>
      PopStep(cfg, s, a, d, limit, now);
      a' := StartAll(a, Firsts(Stamps(PopS(cfg, s, d, limit, now).1)), now);
    case OpRequeue(d, ts) =>
    case OpMark(id) => a' := MutateStep(cfg, s, a, id, MDispatched);
    case OpRetry(id) => a' := MutateStep(cfg, s, a, id, MRetry);
    case OpReset(id) => a' := MutateStep(cfg, s, a, id, MReset);
    case OpAck(d, id, gen) =>
      a' := if AckOk(a, d, id, gen, cfg.strict) then a[id := a[id].(where := Nowhere)] else a;
      AckStep(cfg, s, a, d, id, gen);
    case OpRecover(d, timeout, now) =>
      a' := ReturnAll(a, StaleAt(a, d, timeout, now));
      RecoverStep(cfg, s, a, d, timeout, now);
    case OpExpire(d, maxAge, now) =>
      a' := ExpireAll(a, OverAge(a, d, maxAge, now));
      ExpireStep(cfg, s, a, d, maxAge, now);
    case OpRemove(d, id) =>
      a' := if id in WaitingAt(a, d) then a[id := a[id].(where := Nowhere)] else a;
      RemoveStep(cfg, s, a, d, id);
    case OpAbandon(d, id) =>
      a' := if WorksAt(a, d, id) then a[id := a[id].(where := Nowhere, status := DeadLetter)] else a;
      AbandonStep(cfg, s, a, d, id);
  }

  lemma SameTasks(cfg: Config, s: Store, a: Abs)
    requires Rel(cfg, s, a)
    ensures s.tasks.Keys == a.Keys
  {
  }

  lemma RecordStep(cfg: Config, s: Store, a: Abs, id: TaskId, e: Event)
    requires Rel(cfg, s, a) && Legal(cfg, s, OpRecord(id, e))
    ensures id in a && Rel(cfg, RecordS(s, id, e), a[id := a[id].(status := e.phase)])
  {
    assert StateOk(s.tasks[id], a[id]);
    StateStep(cfg, s, a, id, AppendEvent(e, s.tasks[id]), a[id].(status := e.phase));
  }

  /** The three updates that change a state and no list. */
  lemma MutateStep(cfg: Config, s: Store, a: Abs, id: TaskId, m: Mutator) returns (a': Abs)
    requires Rel(cfg, s, a) && (m.MDispatched? || m.MRetry? || m.MReset?)
    ensures Rel(cfg, UpdateIn(s, id, m), a')
    ensures id !in a ==> a' == a && id !in s.tasks
    ensures id in a ==> id in s.tasks && s.tasks[id].retryCount == a[id].retries && a' == a[id := Noted(m, a[id])]
  {
    a' := a;
    if id in a {
      assert StateOk(s.tasks[id], a[id]);
      StateStep(cfg, s, a, id, Swap(m, s.tasks[id]), Noted(m, a[id]));
      a' := a[id := Noted(m, a[id])];
    }
  }

  function RunR(cfg: Config, s: Store, ops: seq<Op>): (r: (Store, seq<Answer>))
    ensures |r.1| == |ops|
    decreases |ops|
  {
    if ops == [] then (s, [])
    else
      var (s1, answer) := DoR(cfg, s, ops[0]);
      var (s2, rest) := RunR(cfg, s1, ops[1..]);
      (s2, [answer] + rest)
  }

  ghost predicate LegalRun(cfg: Config, s: Store, ops: seq<Op>)
    decreases |ops|
  {
    ops == [] || (Legal(cfg, s, ops[0]) && LegalRun(cfg, DoR(cfg, s, ops[0]).0, ops[1..]))
  }

  /** Every legal run of the Redis store is a run of the abstract queue, answer by answer. */
  lemma {:induction false} Refines(cfg: Config, s: Store, a: Abs, ops: seq<Op>) returns (states: seq<Abs>)
    requires Rel(cfg, s, a) && LegalRun(cfg, s, ops)
    ensures var (s', answers) := RunR(cfg, s, ops);
      IsRun(cfg.strict, states, Log(ops, answers)) && states[0] == a && Rel(cfg, s', states[|ops|])
    decreases |ops|
  {
    if ops == [] {
      states := [a];
    } else {
      var a1 := RefinesStep(cfg, s, a, ops[0]);
      var (s1, answer) := DoR(cfg, s, ops[0]);
      var rest := Refines(cfg, s1, a1, ops[1..]);
      RunCons(cfg.strict, a, ops[0], answer, rest, ops[1..], RunR(cfg, s1, ops[1..]).1);
      assert ops == [ops[0]] + ops[1..];
      states := [a] + rest;
    }
  }

  const EMPTY: Store := Store(map[], map[], map[])

  lemma EmptyRel(cfg: Config)
    ensures Rel(cfg, EMPTY, map[])
  {
    forall d ensures DeviceOk(cfg, EMPTY, map[], d) {
      assert WaitingAt(map[], d) == {} && WorkingAt(map[], d) == {};
    }
  }
}
