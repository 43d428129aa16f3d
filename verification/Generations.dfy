/**
 Generation safety of both stores with their methods run one at a time: over every sequence of operations,
 requeues, gate drops and enqueues of listed ids included, the generation of a task counts its recoveries,
 and an ack with the generation that a pop stamped is refused exactly when the task was recovered since.
 */
module Generations {
  import opened Wrappers
  import opened Motion
  import opened TaskModel
  import opened RedisMachine
  import opened RedisStore
  import opened QueueSpec
  import opened Refinement
  import Fifo
  import MemoryStore
  import R = RedisRefinement
  import M = MemoryRefinement

  /** How many entries of a list are for this task. */
  function Entries(l: seq<Task>, id: TaskId): nat {
    if l == [] then 0 else (if l[0].id == id then 1 else 0) + Entries(l[1..], id)
  }

  lemma EntriesCons(t: Task, l: seq<Task>, id: TaskId)
    ensures Entries([t] + l, id) == (if t.id == id then 1 else 0) + Entries(l, id)
  {
    assert ([t] + l)[1..] == l;
  }

  /** How often an operation recovers a task: by how many the entries for it in the pending list grow. */
  function Recovered(op: Op, before: Lists, after: Lists, id: TaskId): int {
    if op.OpRecover? then Entries(At(after, op.device), id) - Entries(At(before, op.device), id) else 0
  }

  predicate Recreates(op: Op, id: TaskId) {
    op.OpCreate? && op.task.id == id
  }

  type States = map<TaskId, TaskState>

  /** The state of the task stays, its generation rises by `n`, and it is marked recovered only if n > 0. */
  predicate Rises(before: States, after: States, id: TaskId, n: int) {
    id in before ==>
      id in after && n >= 0 && after[id].dispatchGen == before[id].dispatchGen + n
      && (n == 0 && before[id].recoveredAt.None? ==> after[id].recoveredAt.None?)
  }

  lemma StaysPut(s: States, id: TaskId)
    ensures Rises(s, s, id, 0)
  {
  }

  lemma RisesTwice(a: States, b: States, c: States, id: TaskId, m: int, n: int)
    requires Rises(a, b, id, m) && Rises(b, c, id, n)
    ensures Rises(a, c, id, m + n)
  {
  }

  // ---------------------------------------------------------------- one operation of the Redis store

  lemma {:induction false} GateRises(cfg: Config, s: Store, d: DeviceId, raw: seq<Task>, id: TaskId)
    ensures Rises(s.tasks, GateS(cfg, s, d, raw).0.tasks, id, 0)
    decreases |raw|
  {
    if raw != [] {
      if cfg.gate(raw[0]) {
        GateRises(cfg, s, d, raw[1..], id);
      } else {
        GateRises(cfg, DropS(s, d, raw[0]), d, raw[1..], id);
      }
    }
  }

  lemma {:induction false} DispatchRises(s: Store, tasks: seq<Task>, now: real, id: TaskId)
    ensures Rises(s.tasks, DispatchS(s, tasks, now).0.tasks, id, 0)
    decreases |tasks|
  {
    if tasks != [] {
      DispatchRises(UpdateIn(s, tasks[0].id, MDispatch(tasks[0], now)), tasks[1..], now, id);
    }
  }

  /** The stamp is the generation of the state, and a dispatched state carries no mark of a recovery. */
  lemma {:induction false} DispatchStamps(s: Store, tasks: seq<Task>, now: real, p: nat)
    requires p < |DispatchS(s, tasks, now).1| && DispatchS(s, tasks, now).1[p].id in s.tasks
    ensures var (s', out) := DispatchS(s, tasks, now);
      out[p].id in s'.tasks && out[p].stamp == Some(s'.tasks[out[p].id].dispatchGen) && s'.tasks[out[p].id].recoveredAt.None?
    decreases |tasks|
  {
    var s1 := UpdateIn(s, tasks[0].id, MDispatch(tasks[0], now));
    DispatchRises(s1, tasks[1..], now, tasks[0].id);
    if p > 0 { DispatchStamps(s1, tasks[1..], now, p - 1); }
  }

  lemma PopRises(cfg: Config, s: Store, d: DeviceId, limit: nat, now: real, id: TaskId)
    ensures Rises(s.tasks, PopS(cfg, s, d, limit, now).0.tasks, id, 0)
  {
    Fifo.MoveShape(s, d, limit);
    var (s1, raw) := MoveS(s, d, limit);
    GateRises(cfg, s1, d, raw, id);
    var (s2, tasks) := GateS(cfg, s1, d, raw);
    DispatchRises(s2, tasks, now, id);
  }

  lemma PopStamps(cfg: Config, s: Store, d: DeviceId, limit: nat, now: real, p: nat)
    requires p < |PopS(cfg, s, d, limit, now).1| && PopS(cfg, s, d, limit, now).1[p].id in s.tasks
    ensures var (s', out) := PopS(cfg, s, d, limit, now);
      out[p].id in s'.tasks && out[p].stamp == Some(s'.tasks[out[p].id].dispatchGen) && s'.tasks[out[p].id].recoveredAt.None?
  {
    Fifo.MoveShape(s, d, limit);
    var (s1, raw) := MoveS(s, d, limit);
    GateRises(cfg, s1, d, raw, PopS(cfg, s, d, limit, now).1[p].id);
    var (s2, tasks) := GateS(cfg, s1, d, raw);
    DispatchStamps(s2, tasks, now, p);
  }

  lemma {:induction false} TakesRise(s: Store, d: DeviceId, ts: seq<Task>)
    ensures TakeAllS(s, d, ts).tasks == s.tasks
    decreases |ts|
  {
    if ts != [] { TakesRise(TakeS(s, d, ts[0].id).0, d, ts[1..]); }
  }

  lemma {:induction false} MarksRise(s: Store, ts: seq<Task>, id: TaskId)
    ensures Rises(s.tasks, MarkRequeuedS(s, ts).tasks, id, 0)
    decreases |ts|
  {
    if ts != [] { MarksRise(UpdateIn(s, ts[0].id, MRequeue(ts[0])), ts[1..], id); }
  }

  lemma {:induction false} ExpireRises(s: Store, d: DeviceId, items: seq<Task>, maxAge: real, now: real, id: TaskId)
    ensures Rises(s.tasks, ExpireItemsS(s, d, items, maxAge, now).0.tasks, id, 0)
    decreases |items|
  {
    if items != [] { ExpireRises(ExpireOneS(s, d, items[0], maxAge, now).0, d, items[1..], maxAge, now, id); }
  }

  lemma RecoverOneRises(s: Store, d: DeviceId, item: Task, timeout: real, now: real, id: TaskId)
    ensures var s' := RecoverOneS(s, d, item, timeout, now).0;
      Rises(s.tasks, s'.tasks, id, Entries(At(s'.pending, d), id) - Entries(At(s.pending, d), id))
  {
    hide Stale, StartOf;
    EntriesCons(item, At(s.pending, d), id);
  }

  lemma {:induction false} RecoverRises(s: Store, d: DeviceId, items: seq<Task>, timeout: real, now: real, id: TaskId)
    ensures var s' := RecoverItemsS(s, d, items, timeout, now).0;
      Rises(s.tasks, s'.tasks, id, Entries(At(s'.pending, d), id) - Entries(At(s.pending, d), id))
    decreases |items|
  {
    hide RecoverOneS, Entries, Rises;
    if items == [] {
      StaysPut(s.tasks, id);
    } else {
      var s1 := RecoverOneS(s, d, items[0], timeout, now).0;
      var s2 := RecoverItemsS(s1, d, items[1..], timeout, now).0;
      RecoverOneRises(s, d, items[0], timeout, now, id);
      RecoverRises(s1, d, items[1..], timeout, now, id);
      RisesTwice(s.tasks, s1.tasks, s2.tasks, id, Entries(At(s1.pending, d), id) - Entries(At(s.pending, d), id),
                 Entries(At(s2.pending, d), id) - Entries(At(s1.pending, d), id));
    }
  }

  /** Only a recovery of the task changes its generation, by one for each entry that goes back. */
  lemma RedisStepRises(cfg: Config, s: Store, op: Op, id: TaskId)
    requires !Recreates(op, id)
    ensures Rises(s.tasks, R.DoR(cfg, s, op).0.tasks, id, Recovered(op, s.pending, R.DoR(cfg, s, op).0.pending, id))
  {
    hide PopS, RequeueS, RecoverItemsS, ExpireItemsS, Entries, Rises;
    match op
    case OpPop(d, limit, now) => PopRises(cfg, s, d, limit, now, id);
    case OpRequeue(d, ts) => RequeueRises(s, d, ts, id);
    case OpRecover(d, timeout, now) => RecoverRises(s, d, At(s.processing, d), timeout, now, id);
    case OpExpire(d, maxAge, now) => ExpireRises(s, d, At(s.pending, d), maxAge, now, id);
    case _ => OneStateRises(cfg, s, op, id);
  }

  lemma RequeueRises(s: Store, d: DeviceId, ts: seq<Task>, id: TaskId)
    ensures Rises(s.tasks, RequeueS(s, d, ts).tasks, id, 0)
  {
    var s1 := TakeAllS(s, d, ts);
    TakesRise(s, d, ts);
    MarksRise(s1.(pending := s1.pending[d := ts + At(s1.pending, d)]), ts, id);
  }

  /** The operations that touch the state of one task. */
  predicate OnOneState(op: Op) {
    !op.OpPop? && !op.OpRequeue? && !op.OpRecover? && !op.OpExpire?
  }

  lemma OneStateRises(cfg: Config, s: Store, op: Op, id: TaskId)
    requires !Recreates(op, id) && OnOneState(op)
    ensures Rises(s.tasks, R.DoR(cfg, s, op).0.tasks, id, 0)
  {
    hide Judge, FindId, RemoveFirst;
    if op.OpAck? { AckRises(cfg, s, op.device, op.id, op.gen, id); }
  }

  lemma AckRises(cfg: Config, s: Store, d: DeviceId, x: TaskId, gen: Option<nat>, id: TaskId)
    ensures Rises(s.tasks, AckS(cfg, s, d, x, gen).0.tasks, id, 0)
  {
    hide Judge, FindId, RemoveFirst;
  }

  // ---------------------------------------------------------------- runs of the Redis store

  /** The store after the first `k` operations. */
  function StateR(cfg: Config, s: Store, ops: seq<Op>, k: nat): Store
    requires k <= |ops|
  {
    if k == 0 then s else R.DoR(cfg, StateR(cfg, s, ops, k - 1), ops[k - 1]).0
  }

  lemma {:induction false} StateShift(cfg: Config, s: Store, ops: seq<Op>, k: nat)
    requires k < |ops|
    ensures StateR(cfg, s, ops, k + 1) == StateR(cfg, R.DoR(cfg, s, ops[0]).0, ops[1..], k)
  {
    hide R.DoR;
    if k > 0 { StateShift(cfg, s, ops, k - 1); }
  }

  /** The states and answers of a run are those of its operations one after the other. */
  lemma {:induction false} RunStates(cfg: Config, s: Store, ops: seq<Op>, k: nat)
    requires k < |ops|
    ensures R.RunR(cfg, s, ops).1[k] == R.DoR(cfg, StateR(cfg, s, ops, k), ops[k]).1
    decreases |ops|
  {
    hide R.DoR;
    if k > 0 {
      RunStates(cfg, R.DoR(cfg, s, ops[0]).0, ops[1..], k - 1);
      StateShift(cfg, s, ops, k - 1);
    }
  }

  /** How often the operation at position `k` recovers the task. */
  function BackR(cfg: Config, s: Store, ops: seq<Op>, k: nat, id: TaskId): int
    requires k < |ops|
  {
    Recovered(ops[k], StateR(cfg, s, ops, k).pending, StateR(cfg, s, ops, k + 1).pending, id)
  }

  function RecoveriesR(cfg: Config, s: Store, ops: seq<Op>, i: nat, j: nat, id: TaskId): int
    requires i <= j <= |ops|
    decreases j - i
  {
    if i == j then 0 else RecoveriesR(cfg, s, ops, i, j - 1, id) + BackR(cfg, s, ops, j - 1, id)
  }

  predicate NotRecreated(ops: seq<Op>, i: nat, j: nat, id: TaskId)
    requires i <= j <= |ops|
  {
    forall k :: i <= k < j ==> !Recreates(ops[k], id)
  }

  /** Between any two points of any run the generation of a task rises by the number of its recoveries; a task
      without the mark of a recovery gets one only from a recovery. */
  lemma {:induction false} RedisGenerations(cfg: Config, s: Store, ops: seq<Op>, i: nat, j: nat, id: TaskId)
    requires i <= j <= |ops| && id in StateR(cfg, s, ops, i).tasks && NotRecreated(ops, i, j, id)
    ensures id in StateR(cfg, s, ops, j).tasks
    ensures StateR(cfg, s, ops, j).tasks[id].dispatchGen
         == StateR(cfg, s, ops, i).tasks[id].dispatchGen + RecoveriesR(cfg, s, ops, i, j, id)
    ensures RecoveriesR(cfg, s, ops, i, j, id) >= 0
    ensures RecoveriesR(cfg, s, ops, i, j, id) == 0 <==> forall k :: i <= k < j ==> BackR(cfg, s, ops, k, id) == 0
    ensures RecoveriesR(cfg, s, ops, i, j, id) == 0 && StateR(cfg, s, ops, i).tasks[id].recoveredAt.None? ==>
      StateR(cfg, s, ops, j).tasks[id].recoveredAt.None?
    decreases j - i
  {
    hide R.DoR, Recovered;
    if i < j {
      RedisGenerations(cfg, s, ops, i, j - 1, id);
      RedisStepRises(cfg, StateR(cfg, s, ops, j - 1), ops[j - 1], id);
      assert BackR(cfg, s, ops, j - 1, id) >= 0;
    }
  }

  /** Since its creation a task's generation is the number of its recoveries. */
  lemma RedisGenerationSinceCreation(cfg: Config, s: Store, ops: seq<Op>, i: nat, j: nat, id: TaskId)
    requires i < j <= |ops| && Recreates(ops[i], id) && NotRecreated(ops, i + 1, j, id)
    ensures id in StateR(cfg, s, ops, j).tasks
    ensures StateR(cfg, s, ops, j).tasks[id].dispatchGen == RecoveriesR(cfg, s, ops, i + 1, j, id)
  {
    hide R.DoR, RecoveriesR, NotRecreated;
    RedisCreation(cfg, StateR(cfg, s, ops, i), ops[i], id);
    RedisGenerations(cfg, s, ops, i + 1, j, id);
  }

  lemma RedisCreation(cfg: Config, s: Store, op: Op, id: TaskId)
    requires Recreates(op, id)
    ensures var s' := R.DoR(cfg, s, op).0; id in s'.tasks && s'.tasks[id].dispatchGen == 0
  {
  }

  /** The verdict on an ack whose generation was stamped when the state had no mark of a recovery. */
  lemma StampedVerdict(cfg: Config, s: Store, d: DeviceId, id: TaskId, gen: nat)
    requires id in s.tasks && (gen == s.tasks[id].dispatchGen ==> s.tasks[id].recoveredAt.None?)
    ensures var (s', ok) := AckS(cfg, s, d, id, Some(gen));
      ok == (id in Ids(At(s.processing, d)) && gen == s.tasks[id].dispatchGen) && (!ok ==> s' == s)
  {
  }

  /** In any run from any store: an ack with the generation that a pop stamped on an existing task is answered
      True exactly when the task is in the processing list of that device and no operation recovered it in
      between, the pop included; refused, it changes nothing. */
  lemma RedisStampedAck(cfg: Config, s: Store, ops: seq<Op>, i: nat, j: nat, p: nat)
    requires i < j < |ops| && ops[i].OpPop? && ops[j].OpAck?
    requires R.RunR(cfg, s, ops).1[i].Popped? && p < |R.RunR(cfg, s, ops).1[i].tasks|
    requires ops[j].gen.Some? && (ops[j].id, ops[j].gen.value) == R.RunR(cfg, s, ops).1[i].tasks[p]
    requires ops[j].id in StateR(cfg, s, ops, i).tasks && NotRecreated(ops, i, j, ops[j].id)
    ensures R.RunR(cfg, s, ops).1[j] == Flag(ops[j].id in Ids(At(StateR(cfg, s, ops, j).processing, ops[j].device))
                                             && forall k :: i <= k < j ==> BackR(cfg, s, ops, k, ops[j].id) == 0)
    ensures R.RunR(cfg, s, ops).1[j] == Flag(false) ==> StateR(cfg, s, ops, j + 1) == StateR(cfg, s, ops, j)
  {
    hide PopS, AckS, NotRecreated, Entries;
    var id, gen := ops[j].id, ops[j].gen.value;
    var si, pop := StateR(cfg, s, ops, i), ops[i];
    RunStates(cfg, s, ops, i);
    RunStates(cfg, s, ops, j);
    var out := PopS(cfg, si, pop.device, pop.limit, pop.now).1;
    assert out[p].id == id && out[p].stamp.GetOr(0) == gen;
    PopStamps(cfg, si, pop.device, pop.limit, pop.now, p);
    NotLess(ops, i, j, id);
    RedisGenerations(cfg, s, ops, i + 1, j, id);
    StampedVerdict(cfg, StateR(cfg, s, ops, j), ops[j].device, id, gen);
    assert BackR(cfg, s, ops, i, id) == 0;
  }

  lemma NotLess(ops: seq<Op>, i: nat, j: nat, id: TaskId)
    requires i < j <= |ops| && NotRecreated(ops, i, j, id)
    ensures NotRecreated(ops, i + 1, j, id)
  {
  }

  // ---------------------------------------------------------------- one operation of the in-memory store

  lemma {:induction false} MemoryPopRises(s: MemoryStore.Memory, d: DeviceId, limit: nat, now: real, id: TaskId)
    ensures Rises(s.tasks, MemoryStore.PopManyM(s, d, limit, now).0.tasks, id, 0)
    decreases limit
  {
    if limit > 0 && At(s.pending, d) != [] {
      MemoryPopRises(MemoryStore.PopOneM(s, d, now).0, d, limit - 1, now, id);
    }
  }

  lemma {:induction false} MemoryPopStamps(s: MemoryStore.Memory, d: DeviceId, limit: nat, now: real, p: nat)
    requires p < |MemoryStore.PopManyM(s, d, limit, now).1| && MemoryStore.PopManyM(s, d, limit, now).1[p].id in s.tasks
    ensures var (s', out) := MemoryStore.PopManyM(s, d, limit, now);
      out[p].id in s'.tasks && out[p].stamp == Some(s'.tasks[out[p].id].dispatchGen)
    decreases limit
  {
    var (s1, t) := MemoryStore.PopOneM(s, d, now);
    MemoryPopRises(s1, d, limit - 1, now, t.id);
    if p > 0 { MemoryPopStamps(s1, d, limit - 1, now, p - 1); }
  }

  lemma {:induction false} MemoryRequeueRises(s: MemoryStore.Memory, d: DeviceId, ts: seq<Task>, id: TaskId)
    ensures Rises(s.tasks, MemoryStore.RequeueM(s, d, ts).tasks, id, 0)
    decreases |ts|
  {
    if ts != [] {
      var t := ts[|ts| - 1];
      var st := MemoryStore.StateOr(s, t.id, Fresh(Some(t), Created, []));
      MemoryRequeueRises(
        MemoryStore.WithState(s.(pending := s.pending[d := [t] + At(s.pending, d)]), t.id, st.(task := Some(t), status := Queued)),
        d, ts[..|ts| - 1], id);
    }
  }

  lemma {:induction false} MemoryExpireRises(tasks: States, q: seq<Task>, maxAge: real, now: real, id: TaskId)
    ensures Rises(tasks, MemoryStore.ExpireLoopM(tasks, q, maxAge, now).1, id, 0)
    decreases |q|
  {
    if q != [] {
      MemoryExpireRises(tasks, q[1..], maxAge, now, id);
      if q[0].id in tasks {
        MemoryExpireRises(tasks[q[0].id := Mutate(MExpire, tasks[q[0].id])], q[1..], maxAge, now, id);
      }
    }
  }

  lemma {:induction false} MemoryRecoverRises(s: MemoryStore.Memory, d: DeviceId, es: seq<MemoryStore.Entry>, timeout: real,
                                              now: real, id: TaskId)
    ensures var s' := MemoryStore.RecoverEntriesM(s, d, es, timeout, now).0;
      Rises(s.tasks, s'.tasks, id, Entries(At(s'.pending, d), id) - Entries(At(s.pending, d), id))
    decreases |es|
  {
    hide MemoryStore.RecoverOneM, Entries, Rises;
    if es == [] {
      StaysPut(s.tasks, id);
    } else {
      var s1 := MemoryStore.RecoverOneM(s, d, es[0], timeout, now).0;
      var s2 := MemoryStore.RecoverEntriesM(s1, d, es[1..], timeout, now).0;
      MemoryRecoverOneRises(s, d, es[0], timeout, now, id);
      MemoryRecoverRises(s1, d, es[1..], timeout, now, id);
      RisesTwice(s.tasks, s1.tasks, s2.tasks, id, Entries(At(s1.pending, d), id) - Entries(At(s.pending, d), id),
                 Entries(At(s2.pending, d), id) - Entries(At(s1.pending, d), id));
    }
  }

  lemma MemoryRecoverOneRises(s: MemoryStore.Memory, d: DeviceId, e: MemoryStore.Entry, timeout: real, now: real, id: TaskId)
    ensures var s' := MemoryStore.RecoverOneM(s, d, e, timeout, now).0;
      Rises(s.tasks, s'.tasks, id, Entries(At(s'.pending, d), id) - Entries(At(s.pending, d), id))
  {
    hide Stale;
    EntriesCons(e.task, At(s.pending, d), id);
  }

  lemma MemoryStepRises(cfg: Config, s: MemoryStore.Memory, op: Op, id: TaskId)
    requires !Recreates(op, id)
    ensures Rises(s.tasks, M.DoM(cfg, s, op).0.tasks, id, Recovered(op, s.pending, M.DoM(cfg, s, op).0.pending, id))
  {
    hide MemoryStore.PopManyM, MemoryStore.RequeueM, MemoryStore.RecoverM, MemoryStore.ExpireLoopM, Entries;
    match op
    case OpPop(d, limit, now) => MemoryPopRises(s, d, limit, now, id);
    case OpRequeue(d, ts) => MemoryRequeueRises(s, d, ts, id);
    case OpRecover(d, timeout, now) => MemoryRecoveryRises(s, d, timeout, now, id);
    case OpExpire(d, maxAge, now) => MemoryExpireRises(s.tasks, At(s.pending, d), maxAge, now, id);
    case _ => MemoryOneStateRises(cfg, s, op, id);
  }

  lemma MemoryRecoveryRises(s: MemoryStore.Memory, d: DeviceId, timeout: real, now: real, id: TaskId)
    ensures var s' := MemoryStore.RecoverM(s, d, timeout, now).0;
      Rises(s.tasks, s'.tasks, id, Entries(At(s'.pending, d), id) - Entries(At(s.pending, d), id))
  {
    hide MemoryStore.RecoverEntriesM, Entries;
    var es := MemoryStore.EntriesAt(s.processing, d);
    if es != [] {
      MemoryRecoverRises(s.(pending := s.pending[d := At(s.pending, d)]), d, es, timeout, now, id);
    }
  }

  lemma MemoryOneStateRises(cfg: Config, s: MemoryStore.Memory, op: Op, id: TaskId)
    requires !Recreates(op, id) && OnOneState(op)
    ensures Rises(s.tasks, M.DoM(cfg, s, op).0.tasks, id, 0)
  {
  }

  // ---------------------------------------------------------------- runs of the in-memory store

  function StateM(cfg: Config, s: MemoryStore.Memory, ops: seq<Op>, k: nat): MemoryStore.Memory
    requires k <= |ops|
  {
    if k == 0 then s else M.DoM(cfg, StateM(cfg, s, ops, k - 1), ops[k - 1]).0
  }

  lemma {:induction false} MemoryShift(cfg: Config, s: MemoryStore.Memory, ops: seq<Op>, k: nat)
    requires k < |ops|
    ensures StateM(cfg, s, ops, k + 1) == StateM(cfg, M.DoM(cfg, s, ops[0]).0, ops[1..], k)
  {
    hide M.DoM;
    if k > 0 { MemoryShift(cfg, s, ops, k - 1); }
  }

  lemma {:induction false} MemoryRunStates(cfg: Config, s: MemoryStore.Memory, ops: seq<Op>, k: nat)
    requires k < |ops|
    ensures M.RunM(cfg, s, ops).1[k] == M.DoM(cfg, StateM(cfg, s, ops, k), ops[k]).1
    decreases |ops|
  {
    hide M.DoM;
    if k > 0 {
      MemoryRunStates(cfg, M.DoM(cfg, s, ops[0]).0, ops[1..], k - 1);
      MemoryShift(cfg, s, ops, k - 1);
    }
  }

  function BackM(cfg: Config, s: MemoryStore.Memory, ops: seq<Op>, k: nat, id: TaskId): int
    requires k < |ops|
  {
    Recovered(ops[k], StateM(cfg, s, ops, k).pending, StateM(cfg, s, ops, k + 1).pending, id)
  }

  function RecoveriesM(cfg: Config, s: MemoryStore.Memory, ops: seq<Op>, i: nat, j: nat, id: TaskId): int
    requires i <= j <= |ops|
    decreases j - i
  {
    if i == j then 0 else RecoveriesM(cfg, s, ops, i, j - 1, id) + BackM(cfg, s, ops, j - 1, id)
  }

  /** The same for the in-memory store. */
  lemma {:induction false} MemoryGenerations(cfg: Config, s: MemoryStore.Memory, ops: seq<Op>, i: nat, j: nat, id: TaskId)
    requires i <= j <= |ops| && id in StateM(cfg, s, ops, i).tasks && NotRecreated(ops, i, j, id)
    ensures id in StateM(cfg, s, ops, j).tasks
    ensures StateM(cfg, s, ops, j).tasks[id].dispatchGen
         == StateM(cfg, s, ops, i).tasks[id].dispatchGen + RecoveriesM(cfg, s, ops, i, j, id)
    ensures RecoveriesM(cfg, s, ops, i, j, id) >= 0
    ensures RecoveriesM(cfg, s, ops, i, j, id) == 0 <==> forall k :: i <= k < j ==> BackM(cfg, s, ops, k, id) == 0
    decreases j - i
  {
    hide M.DoM, Recovered;
    if i < j {
      MemoryGenerations(cfg, s, ops, i, j - 1, id);
      MemoryStepRises(cfg, StateM(cfg, s, ops, j - 1), ops[j - 1], id);
      assert BackM(cfg, s, ops, j - 1, id) >= 0;
    }
  }

  /** And since its creation a task's generation is the number of its recoveries. */
  lemma MemoryGenerationSinceCreation(cfg: Config, s: MemoryStore.Memory, ops: seq<Op>, i: nat, j: nat, id: TaskId)
    requires i < j <= |ops| && Recreates(ops[i], id) && NotRecreated(ops, i + 1, j, id)
    ensures id in StateM(cfg, s, ops, j).tasks
    ensures StateM(cfg, s, ops, j).tasks[id].dispatchGen == RecoveriesM(cfg, s, ops, i + 1, j, id)
  {
    hide M.DoM, RecoveriesM, NotRecreated;
    MemoryCreation(cfg, StateM(cfg, s, ops, i), ops[i], id);
    MemoryGenerations(cfg, s, ops, i + 1, j, id);
  }

  lemma MemoryCreation(cfg: Config, s: MemoryStore.Memory, op: Op, id: TaskId)
    requires Recreates(op, id)
    ensures var s' := M.DoM(cfg, s, op).0; id in s'.tasks && s'.tasks[id].dispatchGen == 0
  {
  }

  lemma MemoryStamps(s: MemoryStore.Memory, d: DeviceId, limit: nat, now: real, p: nat)
    requires p < |MemoryStore.PopM(s, d, limit, now).1| && MemoryStore.PopM(s, d, limit, now).1[p].id in s.tasks
    ensures var (s', out) := MemoryStore.PopM(s, d, limit, now);
      out[p].id in s'.tasks && out[p].stamp == Some(s'.tasks[out[p].id].dispatchGen)
  {
    hide MemoryStore.PopManyM;
    MemoryPopStamps(s, d, limit, now, p);
  }

  lemma MemoryVerdict(cfg: Config, s: MemoryStore.Memory, d: DeviceId, id: TaskId, gen: nat)
    requires id in s.tasks
    ensures var (s', ok) := MemoryStore.AckM(cfg, s, d, id, Some(gen));
      ok == (id in MemoryStore.Keys(MemoryStore.EntriesAt(s.processing, d)) && gen == s.tasks[id].dispatchGen)
      && (!ok ==> s' == s)
  {
  }

  /** In any run from any store the same holds in memory; there is no mark of a recovery there. */
  lemma MemoryStampedAck(cfg: Config, s: MemoryStore.Memory, ops: seq<Op>, i: nat, j: nat, p: nat)
    requires i < j < |ops| && ops[i].OpPop? && ops[j].OpAck?
    requires M.RunM(cfg, s, ops).1[i].Popped? && p < |M.RunM(cfg, s, ops).1[i].tasks|
    requires ops[j].gen.Some? && (ops[j].id, ops[j].gen.value) == M.RunM(cfg, s, ops).1[i].tasks[p]
    requires ops[j].id in StateM(cfg, s, ops, i).tasks && NotRecreated(ops, i, j, ops[j].id)
    ensures M.RunM(cfg, s, ops).1[j]
         == Flag(ops[j].id in MemoryStore.Keys(MemoryStore.EntriesAt(StateM(cfg, s, ops, j).processing, ops[j].device))
                 && forall k :: i <= k < j ==> BackM(cfg, s, ops, k, ops[j].id) == 0)
    ensures M.RunM(cfg, s, ops).1[j] == Flag(false) ==> StateM(cfg, s, ops, j + 1) == StateM(cfg, s, ops, j)
  {
    hide MemoryStore.PopM, MemoryStore.AckM, NotRecreated, Entries;
    var id, gen := ops[j].id, ops[j].gen.value;
    var si, pop := StateM(cfg, s, ops, i), ops[i];
    MemoryRunStates(cfg, s, ops, i);
    MemoryRunStates(cfg, s, ops, j);
    var out := MemoryStore.PopM(si, pop.device, pop.limit, pop.now).1;
    assert out[p].id == id && out[p].stamp.GetOr(0) == gen;
    MemoryStamps(si, pop.device, pop.limit, pop.now, p);
    NotLess(ops, i, j, id);
    MemoryGenerations(cfg, s, ops, i + 1, j, id);
    MemoryVerdict(cfg, StateM(cfg, s, ops, j), ops[j].device, id, gen);
    assert BackM(cfg, s, ops, i, id) == 0;
  }
}
