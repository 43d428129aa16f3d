/**
 When a task is overdue, in both stores: what a recovery moves back and what an expiry removes, in terms of the
 clock readings of the pop and of the enqueue.
 */
module Deadlines {
  import opened Basics
  import opened Wrappers
  import opened Motion
  import opened TaskModel
  import opened RedisMachine
  import opened RedisStore
  import opened QueueSpec
  import opened Refinement
  import opened Generations
  import Fifo
  import MemoryStore
  import StoresAgree
  import R = RedisRefinement
  import M = MemoryRefinement

  // ---------------------------------------------------------------- one operation, any store

  /** A Redis recovery moves exactly the entries whose start lies further back than the timeout; without a start
      time, or with one of zero, the enqueue time counts, and a time of zero is never overdue. */
  lemma RedisRecoverMoves(s: Store, d: DeviceId, timeout: real, now: real, t: Task)
    requires Distinct(At(s.processing, d)) && t in At(s.processing, d)
    ensures var s' := RecoverS(s, d, timeout, now).0;
      var started := if t.id in s.tasks then s.tasks[t.id].startedAt else None;
      var start := if started.Some? && started.value != 0.0 then started.value else t.enqueuedAt;
      && (t in At(s'.processing, d) <==> !(start > 0.0 && now - start > timeout))
      && (t !in At(s'.processing, d) ==> t in At(s'.pending, d))
  {
    var proc, late := At(s.processing, d), Fifo.Overdue(s.tasks, timeout, now);
    Fifo.RecoverResult(s, d, timeout, now);
    SiftedFrom(proc, late, true);
    SiftedFrom(proc, late, false);
    var moved := Sifted(proc, late, true);
    if t in moved {
      InRev(moved, t);
      assert t in Rev(moved) + At(s.pending, d);
    }
  }

  lemma {:induction false} InRev(l: seq<Task>, t: Task)
    requires t in l
    ensures t in Rev(l)
  {
    if l[0] != t { InRev(l[1..], t); }
  }

  /** An in-memory recovery moves exactly the entries whose start lies further back than the timeout. */
  lemma MemoryRecoverMoves(s: MemoryStore.Memory, d: DeviceId, timeout: real, now: real, e: MemoryStore.Entry)
    requires MemoryStore.OneEach(MemoryStore.EntriesAt(s.processing, d)) && e in MemoryStore.EntriesAt(s.processing, d)
    ensures var s' := MemoryStore.RecoverM(s, d, timeout, now).0;
      && (e in MemoryStore.EntriesAt(s'.processing, d) <==> !(e.startedAt > 0.0 && now - e.startedAt > timeout))
      && (e !in MemoryStore.EntriesAt(s'.processing, d) ==> e.task in At(s'.pending, d))
  {
    var es, late := MemoryStore.EntriesAt(s.processing, d), StoresAgree.Overdue(timeout, now);
    StoresAgree.MemoryRecoverReverses(s, d, timeout, now);
    SiftedFrom(es, late, true);
    SiftedFrom(es, late, false);
    var moved := Sifted(es, late, true);
    if e in moved {
      TaskIn(moved, e);
      InRev(StoresAgree.TasksOf(moved), e.task);
      assert e.task in Rev(StoresAgree.TasksOf(moved)) + At(s.pending, d);
    }
  }

  lemma {:induction false} TaskIn(es: seq<MemoryStore.Entry>, e: MemoryStore.Entry)
    requires e in es
    ensures e.task in StoresAgree.TasksOf(es)
  {
    if es[0] != e { TaskIn(es[1..], e); }
  }

  /** `late` holds of the tasks enqueued more than `maxAge` ago; a time of zero is never late. */
  ghost predicate TellsLate(late: Task -> bool, maxAge: real, now: real) {
    forall t :: late(t) <==> t.enqueuedAt > 0.0 && now - t.enqueuedAt > maxAge
  }

  /** A Redis expiry removes exactly the late entries, keeps the order of the others, and counts what it removes;
      of the removed tasks the queued ones become expired, and no other status changes. */
  lemma RedisExpireRemoves(s: Store, d: DeviceId, maxAge: real, now: real, late: Task -> bool)
    requires TellsLate(late, maxAge, now)
    ensures var (s', n) := ExpireS(s, d, maxAge, now);
      var gone := Sifted(At(s.pending, d), late, true);
      && At(s'.pending, d) == Sifted(At(s.pending, d), late, false) && n == |gone|
      && Expires(s.tasks, s'.tasks, Ids(gone)) && s'.processing == s.processing
      && forall x :: x != d ==> At(s'.pending, x) == At(s.pending, x)
  {
    hide Sifted, Expires, ExpireItemsS, TellsLate, Ids;
    assert [] + At(s.pending, d) == At(s.pending, d);
    ExpireItems(s, d, [], At(s.pending, d), maxAge, now, late);
    assert [] + Sifted(At(s.pending, d), late, false) == Sifted(At(s.pending, d), late, false);
  }

  predicate Expires(before: States, after: States, ids: set<TaskId>) {
    after.Keys == before.Keys
    && forall id :: id in before ==>
      after[id].status == if id in ids && before[id].status == Queued then Expired else before[id].status
  }

  lemma {:induction false} ExpireItems(s: Store, d: DeviceId, kept: seq<Task>, items: seq<Task>, maxAge: real, now: real,
                                       late: Task -> bool)
    requires TellsLate(late, maxAge, now) && At(s.pending, d) == kept + items
    requires forall t :: t in kept ==> !late(t)
    ensures var (s', n) := ExpireItemsS(s, d, items, maxAge, now);
      var gone := Sifted(items, late, true);
      && At(s'.pending, d) == kept + Sifted(items, late, false) && n == |gone|
      && Expires(s.tasks, s'.tasks, Ids(gone)) && s'.processing == s.processing
      && forall x :: x != d ==> At(s'.pending, x) == At(s.pending, x)
    decreases |items|
  {
    hide TellsLate, Expires, ExpireOneS, Sifted;
    if items == [] {
      NothingExpires(s.tasks, late);
      assert kept + [] == kept;
    } else {
      var t, rest := items[0], items[1..];
      var s1 := ExpireOneS(s, d, t, maxAge, now).0;
      ExpireOne(s, d, kept, items, maxAge, now, late);
      SiftedHead(items, late);
      var kept1 := if late(t) then kept else kept + [t];
      ExpireItems(s1, d, kept1, rest, maxAge, now, late);
      var gone := Sifted(rest, late, true);
      if late(t) {
        FirstId(t, gone);
        ExpiresMore(s.tasks, s1.tasks, ExpireItemsS(s1, d, rest, maxAge, now).0.tasks, t.id, Ids(gone));
      } else {
        assert kept + [t] + Sifted(rest, late, false) == kept + ([t] + Sifted(rest, late, false));
      }
    }
  }

  lemma NothingExpires(tasks: States, late: Task -> bool)
    ensures Sifted([], late, true) == [] && Sifted([], late, false) == [] && Expires(tasks, tasks, Ids([]))
  {
  }

  lemma FirstId(t: Task, rest: seq<Task>)
    ensures Ids([t] + rest) == {t.id} + Ids(rest)
  {
    assert ([t] + rest)[1..] == rest;
  }

  lemma ExpireOne(s: Store, d: DeviceId, kept: seq<Task>, items: seq<Task>, maxAge: real, now: real, late: Task -> bool)
    requires TellsLate(late, maxAge, now) && At(s.pending, d) == kept + items && items != []
    requires forall t :: t in kept ==> !late(t)
    ensures var (s1, n) := ExpireOneS(s, d, items[0], maxAge, now);
      && n == (if late(items[0]) then 1 else 0)
      && At(s1.pending, d) == (if late(items[0]) then kept else kept + [items[0]]) + items[1..]
      && s1.tasks == (if late(items[0]) then Update(s.tasks, items[0].id, MExpire) else s.tasks)
      && s1.processing == s.processing && forall x :: x != d ==> At(s1.pending, x) == At(s.pending, x)
  {
    var t := items[0];
    assert (kept + items)[|kept|] == t;
    if late(t) {
      RemoveAfter(kept, items);
    } else {
      assert kept + [t] + items[1..] == kept + items;
    }
  }

  lemma {:induction false} RemoveAfter(kept: seq<Task>, items: seq<Task>)
    requires items != [] && items[0] !in kept
    ensures RemoveFirst(kept + items, items[0]) == kept + items[1..]
  {
    if kept == [] {
      assert kept + items == items && kept + items[1..] == items[1..];
    } else {
      RemoveAfter(kept[1..], items);
      Fifo.RemoveFirstSkips(kept[0], kept[1..] + items, items[0]);
      assert kept == [kept[0]] + kept[1..];
      assert kept + items == [kept[0]] + (kept[1..] + items);
      assert kept + items[1..] == [kept[0]] + (kept[1..] + items[1..]);
    }
  }

  lemma ExpiresMore(a: States, b: States, c: States, id: TaskId, ids: set<TaskId>)
    requires b.Keys == a.Keys && (forall x :: x in a && x != id ==> b[x] == a[x]) && Expires(b, c, ids)
    requires id in a ==> b[id].status == if a[id].status == Queued then Expired else a[id].status
    ensures Expires(a, c, {id} + ids)
  {
    forall x | x in a
      ensures c[x].status == if x in {id} + ids && a[x].status == Queued then Expired else a[x].status
    {
      assert x != id ==> b[x] == a[x];
    }
  }

  /** The same for an in-memory expiry. */
  lemma MemoryExpireRemoves(s: MemoryStore.Memory, d: DeviceId, maxAge: real, now: real, late: Task -> bool)
    requires TellsLate(late, maxAge, now)
    ensures var (s', n) := MemoryStore.ExpireM(s, d, maxAge, now);
      var gone := Sifted(At(s.pending, d), late, true);
      && At(s'.pending, d) == Sifted(At(s.pending, d), late, false) && n == |gone|
      && Expires(s.tasks, s'.tasks, Ids(gone)) && s'.processing == s.processing
      && forall x :: x != d ==> At(s'.pending, x) == At(s.pending, x)
  {
    if At(s.pending, d) != [] { ExpireLoop(s.tasks, At(s.pending, d), maxAge, now, late); }
  }

  lemma {:induction false} ExpireLoop(tasks: States, q: seq<Task>, maxAge: real, now: real, late: Task -> bool)
    requires TellsLate(late, maxAge, now)
    ensures var (kept, tasks', n) := MemoryStore.ExpireLoopM(tasks, q, maxAge, now);
      && kept == Sifted(q, late, false) && n == |Sifted(q, late, true)|
      && Expires(tasks, tasks', Ids(Sifted(q, late, true)))
    decreases |q|
  {
    hide Expires, Sifted;
    if q == [] {
      NothingExpires(tasks, late);
    } else {
      var t, rest := q[0], q[1..];
      var tasks1 := if late(t) && t.id in tasks then tasks[t.id := Mutate(MExpire, tasks[t.id])] else tasks;
      SiftedHead(q, late);
      ExpireLoop(tasks1, rest, maxAge, now, late);
      var gone := Sifted(rest, late, true);
      if late(t) {
        FirstId(t, gone);
        ExpiresMore(tasks, tasks1, MemoryStore.ExpireLoopM(tasks1, rest, maxAge, now).1, t.id, Ids(gone));
      }
    }
  }

  // ---------------------------------------------------------------- runs of the abstract queue

  /** A task that stays at work keeps its start time. */
  lemma StartStays(strict: bool, a: Abs, op: Op, r: Answer, a': Abs, d: DeviceId, id: TaskId)
    requires Next(strict, a, op, r, a') && !op.OpRequeue? && WorksAt(a, d, id) && WorksAt(a', d, id)
    ensures a'[id].where == a[id].where
  {
  }

  predicate Has(a: Abs, d: DeviceId, id: TaskId) {
    id in a && !a[id].where.Nowhere? && a[id].where.device == d
  }

  /** A task that stays on its device, waiting or at work, keeps its enqueue time. */
  lemma EnqueueStays(strict: bool, a: Abs, op: Op, r: Answer, a': Abs, d: DeviceId, id: TaskId)
    requires Next(strict, a, op, r, a') && !op.OpRequeue? && !(op.OpEnqueue? && op.task.id == id)
    requires Has(a, d, id) && Has(a', d, id)
    ensures a'[id].where.enqueuedAt == a[id].where.enqueuedAt
  {
  }

  /** At each point from `i` to `j` the task is at work, or just on the device. */
  ghost predicate AlwaysWorks(states: seq<Abs>, i: nat, j: nat, d: DeviceId, id: TaskId)
    requires j < |states|
  {
    forall k :: i <= k <= j ==> WorksAt(states[k], d, id)
  }

  ghost predicate AlwaysHas(states: seq<Abs>, i: nat, j: nat, d: DeviceId, id: TaskId)
    requires j < |states|
  {
    forall k :: i <= k <= j ==> Has(states[k], d, id)
  }

  /** No operation from `i` up to `j` requeues, or enqueues this task. */
  predicate NoReentry(ops: seq<Op>, i: nat, j: nat, id: TaskId)
    requires j <= |ops|
  {
    forall k :: i <= k < j ==> !ops[k].OpRequeue? && !(ops[k].OpEnqueue? && ops[k].task.id == id)
  }

  lemma {:induction false} StartKept(strict: bool, states: seq<Abs>, run: seq<Entry>, i: nat, j: nat, d: DeviceId, id: TaskId)
    requires IsRun(strict, states, run) && i <= j <= |run|
    requires forall k :: i <= k <= j ==> WorksAt(states[k], d, id)
    requires forall k :: i <= k < j ==> !run[k].op.OpRequeue?
    ensures id in states[i] && id in states[j] && states[j][id].where == states[i][id].where
    decreases j - i
  {
    hide Next;
    if i < j {
      StartKept(strict, states, run, i, j - 1, d, id);
      assert WorksAt(states[j - 1], d, id) && WorksAt(states[j], d, id);
      StartStays(strict, states[j - 1], run[j - 1].op, run[j - 1].answer, states[j], d, id);
    }
  }

  lemma {:induction false} EnqueueKept(strict: bool, states: seq<Abs>, run: seq<Entry>, i: nat, j: nat, d: DeviceId, id: TaskId)
    requires IsRun(strict, states, run) && i <= j <= |run|
    requires forall k :: i <= k <= j ==> Has(states[k], d, id)
    requires forall k :: i <= k < j ==> !run[k].op.OpRequeue? && !(run[k].op.OpEnqueue? && run[k].op.task.id == id)
    ensures Has(states[i], d, id) && Has(states[j], d, id)
    ensures states[j][id].where.enqueuedAt == states[i][id].where.enqueuedAt
    decreases j - i
  {
    hide Next;
    if i < j {
      EnqueueKept(strict, states, run, i, j - 1, d, id);
      assert Has(states[j - 1], d, id) && Has(states[j], d, id);
      EnqueueStays(strict, states[j - 1], run[j - 1].op, run[j - 1].answer, states[j], d, id);
    }
  }

  lemma PoppedStarts(strict: bool, a: Abs, op: Op, r: Answer, a': Abs, q: nat)
    requires Next(strict, a, op, r, a') && op.OpPop? && q < |r.tasks|
    ensures var id := r.tasks[q].0; WorksAt(a', op.device, id) && a'[id].where.startedAt == op.now
  {
    assert r.tasks[q].0 in WaitingAt(a, op.device);
    assert r.tasks[q] in r.tasks;
  }

  /** Of the tasks at work a recovery returns exactly those that started longer ago than the timeout. */
  lemma Returned(strict: bool, a: Abs, op: Op, r: Answer, a': Abs, id: TaskId)
    requires Next(strict, a, op, r, a') && op.OpRecover? && WorksAt(a, op.device, id) && a[id].where.startedAt > 0.0
    ensures var late := op.now - a[id].where.startedAt > op.timeout;
      id in a' && (if late then id in WaitingAt(a', op.device) else a'[id].where == a[id].where)
  {
  }

  /** Of the waiting tasks an expiry removes exactly those that were enqueued longer ago than the allowed age. */
  lemma Removed(strict: bool, a: Abs, op: Op, r: Answer, a': Abs, id: TaskId)
    requires Next(strict, a, op, r, a') && op.OpExpire? && id in WaitingAt(a, op.device) && a[id].where.enqueuedAt > 0.0
    ensures var late := op.now - a[id].where.enqueuedAt > op.maxAge;
      id in a' && (if late then a'[id].where.Nowhere? else a'[id].where == a[id].where)
      && a'[id].status == if late && a[id].status == Queued then Expired else a[id].status
  {
  }

  /** A task that has been at work without a break since a pop handed it out is returned by a recovery exactly when
      the pop is further back than the timeout. */
  lemma WorkDeadline(strict: bool, states: seq<Abs>, ops: seq<Op>, answers: seq<Answer>, i: nat, j: nat, q: nat)
    requires |answers| == |ops| && |states| == |ops| + 1 && IsRun(strict, states, Log(ops, answers))
    requires i < j < |ops| && ops[i].OpPop? && ops[i].now > 0.0 && answers[i].Popped? && q < |answers[i].tasks|
    requires ops[j].OpRecover? && ops[j].device == ops[i].device
    requires AlwaysWorks(states, i + 1, j, ops[i].device, answers[i].tasks[q].0)
    requires NoReentry(ops, i + 1, j, answers[i].tasks[q].0)
    ensures var (id, d, late) := (answers[i].tasks[q].0, ops[i].device, ops[j].now - ops[i].now > ops[j].timeout);
      (id in WaitingAt(states[j + 1], d) <==> late) && (WorksAt(states[j + 1], d, id) <==> !late)
  {
    hide Next;
    var id, d, run := answers[i].tasks[q].0, ops[i].device, Log(ops, answers);
    PoppedStarts(strict, states[i], run[i].op, run[i].answer, states[i + 1], q);
    StartKept(strict, states, run, i + 1, j, d, id);
    assert WorksAt(states[j], d, id);
    Returned(strict, states[j], run[j].op, run[j].answer, states[j + 1], id);
  }

  lemma EnqueuedWaits(strict: bool, a: Abs, op: Op, r: Answer, a': Abs)
    requires Next(strict, a, op, r, a') && op.OpEnqueue?
    ensures op.task.id in a' && a'[op.task.id].where == Waiting(op.device, op.now)
  {
  }

  /** A task that has stayed on its device since it was enqueued, recovered or not, and is waiting, is removed by an
      expiry exactly when the enqueue is further back than the allowed age; a queued one becomes expired. */
  lemma WaitDeadline(strict: bool, states: seq<Abs>, ops: seq<Op>, answers: seq<Answer>, i: nat, j: nat)
    requires |answers| == |ops| && |states| == |ops| + 1 && IsRun(strict, states, Log(ops, answers))
    requires i < j < |ops| && ops[i].OpEnqueue? && ops[i].now > 0.0
    requires ops[j].OpExpire? && ops[j].device == ops[i].device
    requires AlwaysHas(states, i + 1, j, ops[i].device, ops[i].task.id) && NoReentry(ops, i + 1, j, ops[i].task.id)
    requires ops[i].task.id in WaitingAt(states[j], ops[i].device)
    ensures var (id, d, late) := (ops[i].task.id, ops[i].device, ops[j].now - ops[i].now > ops[j].maxAge);
      && (id in WaitingAt(states[j + 1], d) <==> !late) && id in states[j] && id in states[j + 1]
      && states[j + 1][id].status == if late && states[j][id].status == Queued then Expired else states[j][id].status
  {
    hide Next;
    var id, d, run := ops[i].task.id, ops[i].device, Log(ops, answers);
    EnqueuedWaits(strict, states[i], run[i].op, run[i].answer, states[i + 1]);
    EnqueueKept(strict, states, run, i + 1, j, d, id);
    Removed(strict, states[j], run[j].op, run[j].answer, states[j + 1], id);
  }

  // ---------------------------------------------------------------- runs of the Redis store

  /** The abstract states along a legal run. */
  lemma {:induction false} RedisStates(cfg: Config, s: Store, a: Abs, ops: seq<Op>) returns (states: seq<Abs>)
    requires R.Rel(cfg, s, a) && R.LegalRun(cfg, s, ops)
    ensures IsRun(cfg.strict, states, Log(ops, R.RunR(cfg, s, ops).1)) && |states| == |ops| + 1 && states[0] == a
    ensures forall k :: 0 <= k <= |ops| ==> R.Rel(cfg, StateR(cfg, s, ops, k), states[k])
    decreases |ops|
  {
    hide R.Rel, R.Legal, R.DoR, IsRun;
    if ops == [] {
      states := [a];
      NoSteps(cfg.strict, a);
    } else {
      var a1 := R.RefinesStep(cfg, s, a, ops[0]);
      var (s1, answer) := R.DoR(cfg, s, ops[0]);
      var rest := RedisStates(cfg, s1, a1, ops[1..]);
      Extend(cfg.strict, a, ops, answer, rest, R.RunR(cfg, s1, ops[1..]).1);
      states := [a] + rest;
      forall k | 0 <= k <= |ops| ensures R.Rel(cfg, StateR(cfg, s, ops, k), states[k]) {
        if k > 0 {
          StateShift(cfg, s, ops, k - 1);
          assert states[k] == rest[k - 1];
        }
      }
    }
  }

  lemma NoSteps(strict: bool, a: Abs)
    ensures IsRun(strict, [a], Log([], []))
  {
  }

  lemma Extend(strict: bool, a: Abs, ops: seq<Op>, answer: Answer, rest: seq<Abs>, answers: seq<Answer>)
    requires ops != [] && |answers| == |ops| - 1 && rest != [] && IsRun(strict, rest, Log(ops[1..], answers))
    requires Next(strict, a, ops[0], answer, rest[0]) && (ops[0].OpCreate? ==> ops[0].task.id !in a)
    ensures IsRun(strict, [a] + rest, Log(ops, [answer] + answers)) && |rest| == |ops|
  {
    RunCons(strict, a, ops[0], answer, rest, ops[1..], answers);
    assert ops == [ops[0]] + ops[1..];
  }

  lemma {:induction false} LegalAt(cfg: Config, s: Store, ops: seq<Op>, k: nat)
    requires R.LegalRun(cfg, s, ops) && k < |ops|
    ensures R.Legal(cfg, StateR(cfg, s, ops, k), ops[k])
    decreases |ops|
  {
    hide R.Legal, R.DoR;
    if k > 0 {
      LegalAt(cfg, R.DoR(cfg, s, ops[0]).0, ops[1..], k - 1);
      StateShift(cfg, s, ops, k - 1);
    }
  }

  /** A task that is on a device is enqueued by no legal operation, and nothing is requeued. */
  lemma RedisNoReentry(cfg: Config, ops: seq<Op>, i: nat, j: nat, d: DeviceId, id: TaskId)
    requires R.LegalRun(cfg, R.EMPTY, ops) && j <= |ops|
    requires forall k :: i <= k < j ==>
      id in Ids(At(StateR(cfg, R.EMPTY, ops, k).pending, d)) + Ids(At(StateR(cfg, R.EMPTY, ops, k).processing, d))
    ensures NoReentry(ops, i, j, id)
  {
    hide StateR, R.LegalRun, R.DoR;
    forall k | i <= k < j ensures !ops[k].OpRequeue? && !(ops[k].OpEnqueue? && ops[k].task.id == id) {
      LegalAt(cfg, R.EMPTY, ops, k);
    }
  }

  lemma RedisPlaces(cfg: Config, s: Store, a: Abs, d: DeviceId, id: TaskId)
    requires R.Rel(cfg, s, a)
    ensures id in Ids(At(s.processing, d)) <==> WorksAt(a, d, id)
    ensures id in Ids(At(s.pending, d)) <==> id in WaitingAt(a, d)
    ensures s.tasks.Keys == a.Keys && (id in a ==> s.tasks[id].status == a[id].status)
  {
    assert R.DeviceOk(cfg, s, a, d);
    if id in a { assert StateOk(s.tasks[id], a[id]); }
  }

  /** Redis, every legal run: a task that a pop at clock reading p handed out, and that has been in processing since,
      is moved back by a recovery exactly when its clock reading is more than the timeout after p. */
  lemma RedisRecoverDeadline(cfg: Config, ops: seq<Op>, i: nat, j: nat, q: nat)
    requires R.LegalRun(cfg, R.EMPTY, ops) && i < j < |ops| && ops[i].OpPop? && ops[i].now > 0.0
    requires R.RunR(cfg, R.EMPTY, ops).1[i].Popped? && q < |R.RunR(cfg, R.EMPTY, ops).1[i].tasks|
    requires ops[j].OpRecover? && ops[j].device == ops[i].device
    requires var id := R.RunR(cfg, R.EMPTY, ops).1[i].tasks[q].0;
      forall k :: i < k <= j ==> id in Ids(At(StateR(cfg, R.EMPTY, ops, k).processing, ops[i].device))
    ensures var (id, s') := (R.RunR(cfg, R.EMPTY, ops).1[i].tasks[q].0, StateR(cfg, R.EMPTY, ops, j + 1));
      var late := ops[j].now - ops[i].now > ops[j].timeout;
      && (id in Ids(At(s'.pending, ops[i].device)) <==> late)
      && (id in Ids(At(s'.processing, ops[i].device)) <==> !late)
  {
    var id, d, answers := R.RunR(cfg, R.EMPTY, ops).1[i].tasks[q].0, ops[i].device, R.RunR(cfg, R.EMPTY, ops).1;
    R.EmptyRel(cfg);
    var states := RedisStates(cfg, R.EMPTY, map[], ops);
    hide R.Rel, IsRun, R.DoR, StateR, R.LegalRun;
    assert AlwaysWorks(states, i + 1, j, d, id) by {
      forall k | i < k <= j ensures WorksAt(states[k], d, id) { RedisPlaces(cfg, StateR(cfg, R.EMPTY, ops, k), states[k], d, id); }
    }
    RedisNoReentry(cfg, ops, i + 1, j, d, id);
    WorkDeadline(cfg.strict, states, ops, answers, i, j, q);
    RedisPlaces(cfg, StateR(cfg, R.EMPTY, ops, j + 1), states[j + 1], d, id);
  }

  /** Redis, every legal run: a task enqueued at clock reading e that has been on its device since, in either list,
      and is in pending, is removed by an expiry exactly when its clock reading is more than the age after e. */
  lemma RedisExpireDeadline(cfg: Config, ops: seq<Op>, i: nat, j: nat)
    requires R.LegalRun(cfg, R.EMPTY, ops) && i < j < |ops| && ops[i].OpEnqueue? && ops[i].now > 0.0
    requires ops[j].OpExpire? && ops[j].device == ops[i].device
    requires forall k :: i < k <= j ==>
      ops[i].task.id in Ids(At(StateR(cfg, R.EMPTY, ops, k).pending, ops[i].device))
                        + Ids(At(StateR(cfg, R.EMPTY, ops, k).processing, ops[i].device))
    requires ops[i].task.id in Ids(At(StateR(cfg, R.EMPTY, ops, j).pending, ops[i].device))
    ensures var (id, s, s') := (ops[i].task.id, StateR(cfg, R.EMPTY, ops, j), StateR(cfg, R.EMPTY, ops, j + 1));
      var late := ops[j].now - ops[i].now > ops[j].maxAge;
      && (id in Ids(At(s'.pending, ops[i].device)) <==> !late) && id in s.tasks && id in s'.tasks
      && s'.tasks[id].status == if late && s.tasks[id].status == Queued then Expired else s.tasks[id].status
  {
    var id, d, answers := ops[i].task.id, ops[i].device, R.RunR(cfg, R.EMPTY, ops).1;
    R.EmptyRel(cfg);
    var states := RedisStates(cfg, R.EMPTY, map[], ops);
    hide R.Rel, IsRun, R.DoR, StateR, R.LegalRun;
    assert AlwaysHas(states, i + 1, j, d, id) by {
      forall k | i < k <= j ensures Has(states[k], d, id) { RedisPlaces(cfg, StateR(cfg, R.EMPTY, ops, k), states[k], d, id); }
    }
    RedisPlaces(cfg, StateR(cfg, R.EMPTY, ops, j), states[j], d, id);
    RedisNoReentry(cfg, ops, i + 1, j, d, id);
    WaitDeadline(cfg.strict, states, ops, answers, i, j);
    RedisPlaces(cfg, StateR(cfg, R.EMPTY, ops, j + 1), states[j + 1], d, id);
  }

  // ---------------------------------------------------------------- runs of the in-memory store

  lemma {:induction false} MemoryStates(cfg: Config, s: MemoryStore.Memory, a: Abs, ops: seq<Op>) returns (states: seq<Abs>)
    requires M.Rel(s, a) && M.LegalRun(cfg, s, ops)
    ensures IsRun(cfg.strict, states, Log(ops, M.RunM(cfg, s, ops).1)) && |states| == |ops| + 1 && states[0] == a
    ensures forall k :: 0 <= k <= |ops| ==> M.Rel(StateM(cfg, s, ops, k), states[k])
    decreases |ops|
  {
    hide M.Rel, M.Legal, M.DoM, IsRun;
    if ops == [] {
      states := [a];
      NoSteps(cfg.strict, a);
    } else {
      var a1 := M.RefinesStep(cfg, s, a, ops[0]);
      var (s1, answer) := M.DoM(cfg, s, ops[0]);
      var rest := MemoryStates(cfg, s1, a1, ops[1..]);
      Extend(cfg.strict, a, ops, answer, rest, M.RunM(cfg, s1, ops[1..]).1);
      states := [a] + rest;
      forall k | 0 <= k <= |ops| ensures M.Rel(StateM(cfg, s, ops, k), states[k]) {
        if k > 0 {
          MemoryShift(cfg, s, ops, k - 1);
          assert states[k] == rest[k - 1];
        }
      }
    }
  }

  lemma {:induction false} MemoryLegalAt(cfg: Config, s: MemoryStore.Memory, ops: seq<Op>, k: nat)
    requires M.LegalRun(cfg, s, ops) && k < |ops|
    ensures M.Legal(StateM(cfg, s, ops, k), ops[k])
    decreases |ops|
  {
    hide M.Legal, M.DoM;
    if k > 0 {
      MemoryLegalAt(cfg, M.DoM(cfg, s, ops[0]).0, ops[1..], k - 1);
      MemoryShift(cfg, s, ops, k - 1);
    }
  }

  lemma MemoryNoReentry(cfg: Config, ops: seq<Op>, i: nat, j: nat, d: DeviceId, id: TaskId)
    requires M.LegalRun(cfg, M.EMPTY, ops) && j <= |ops|
    requires forall k :: i <= k < j ==>
      id in Ids(At(StateM(cfg, M.EMPTY, ops, k).pending, d))
            + MemoryStore.Keys(MemoryStore.EntriesAt(StateM(cfg, M.EMPTY, ops, k).processing, d))
    ensures NoReentry(ops, i, j, id)
  {
    hide StateM, M.LegalRun, M.DoM;
    forall k | i <= k < j ensures !ops[k].OpRequeue? && !(ops[k].OpEnqueue? && ops[k].task.id == id) {
      MemoryLegalAt(cfg, M.EMPTY, ops, k);
    }
  }

  lemma MemoryPlaces(s: MemoryStore.Memory, a: Abs, d: DeviceId, id: TaskId)
    requires M.Rel(s, a)
    ensures id in MemoryStore.Keys(MemoryStore.EntriesAt(s.processing, d)) <==> WorksAt(a, d, id)
    ensures id in Ids(At(s.pending, d)) <==> id in WaitingAt(a, d)
    ensures s.tasks.Keys == a.Keys && (id in a ==> s.tasks[id].status == a[id].status)
  {
    assert M.DeviceOk(s, a, d);
    if id in a { assert StateOk(s.tasks[id], a[id]); }
  }

  /** The same deadline of a recovery in memory. */
  lemma MemoryRecoverDeadline(cfg: Config, ops: seq<Op>, i: nat, j: nat, q: nat)
    requires M.LegalRun(cfg, M.EMPTY, ops) && i < j < |ops| && ops[i].OpPop? && ops[i].now > 0.0
    requires M.RunM(cfg, M.EMPTY, ops).1[i].Popped? && q < |M.RunM(cfg, M.EMPTY, ops).1[i].tasks|
    requires ops[j].OpRecover? && ops[j].device == ops[i].device
    requires var id := M.RunM(cfg, M.EMPTY, ops).1[i].tasks[q].0;
      forall k :: i < k <= j ==>
        id in MemoryStore.Keys(MemoryStore.EntriesAt(StateM(cfg, M.EMPTY, ops, k).processing, ops[i].device))
    ensures var (id, s') := (M.RunM(cfg, M.EMPTY, ops).1[i].tasks[q].0, StateM(cfg, M.EMPTY, ops, j + 1));
      var late := ops[j].now - ops[i].now > ops[j].timeout;
      && (id in Ids(At(s'.pending, ops[i].device)) <==> late)
      && (id in MemoryStore.Keys(MemoryStore.EntriesAt(s'.processing, ops[i].device)) <==> !late)
  {
    var id, d, answers := M.RunM(cfg, M.EMPTY, ops).1[i].tasks[q].0, ops[i].device, M.RunM(cfg, M.EMPTY, ops).1;
    M.EmptyRel();
    var states := MemoryStates(cfg, M.EMPTY, map[], ops);
    hide M.Rel, IsRun, M.DoM, StateM, M.LegalRun;
    assert AlwaysWorks(states, i + 1, j, d, id) by {
      forall k | i < k <= j ensures WorksAt(states[k], d, id) { MemoryPlaces(StateM(cfg, M.EMPTY, ops, k), states[k], d, id); }
    }
    MemoryNoReentry(cfg, ops, i + 1, j, d, id);
    WorkDeadline(cfg.strict, states, ops, answers, i, j, q);
    MemoryPlaces(StateM(cfg, M.EMPTY, ops, j + 1), states[j + 1], d, id);
  }

  /** The same deadline of an expiry in memory. */
  lemma MemoryExpireDeadline(cfg: Config, ops: seq<Op>, i: nat, j: nat)
    requires M.LegalRun(cfg, M.EMPTY, ops) && i < j < |ops| && ops[i].OpEnqueue? && ops[i].now > 0.0
    requires ops[j].OpExpire? && ops[j].device == ops[i].device
    requires forall k :: i < k <= j ==>
      ops[i].task.id in Ids(At(StateM(cfg, M.EMPTY, ops, k).pending, ops[i].device))
                        + MemoryStore.Keys(MemoryStore.EntriesAt(StateM(cfg, M.EMPTY, ops, k).processing, ops[i].device))
    requires ops[i].task.id in Ids(At(StateM(cfg, M.EMPTY, ops, j).pending, ops[i].device))
    ensures var (id, s, s') := (ops[i].task.id, StateM(cfg, M.EMPTY, ops, j), StateM(cfg, M.EMPTY, ops, j + 1));
      var late := ops[j].now - ops[i].now > ops[j].maxAge;
      && (id in Ids(At(s'.pending, ops[i].device)) <==> !late) && id in s.tasks && id in s'.tasks
      && s'.tasks[id].status == if late && s.tasks[id].status == Queued then Expired else s.tasks[id].status
  {
    var id, d, answers := ops[i].task.id, ops[i].device, M.RunM(cfg, M.EMPTY, ops).1;
    M.EmptyRel();
    var states := MemoryStates(cfg, M.EMPTY, map[], ops);
    hide M.Rel, IsRun, M.DoM, StateM, M.LegalRun;
    assert AlwaysHas(states, i + 1, j, d, id) by {
      forall k | i < k <= j ensures Has(states[k], d, id) { MemoryPlaces(StateM(cfg, M.EMPTY, ops, k), states[k], d, id); }
    }
    MemoryPlaces(StateM(cfg, M.EMPTY, ops, j), states[j], d, id);
    MemoryNoReentry(cfg, ops, i + 1, j, d, id);
    WaitDeadline(cfg.strict, states, ops, answers, i, j);
    MemoryPlaces(StateM(cfg, M.EMPTY, ops, j + 1), states[j + 1], d, id);
  }
}
