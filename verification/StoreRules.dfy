/**
 The rules of the two stores written out on lists and states: when an ack is accepted and what it leaves, and what
 a pop does to the tasks that its gate rejects.
 */
module StoreRules {
  import opened Basics
  import opened Wrappers
  import opened Motion
  import opened TaskModel
  import opened RedisMachine
  import opened RedisStore
  import Fifo
  import MemoryStore
  import Deadlines
  import ServiceOrder

  type States = map<TaskId, TaskState>

  // ---------------------------------------------------------------- acknowledgement

  /** The generation that an ack carries fits the state: the same one, or none where none is demanded. */
  predicate Fits(tasks: States, id: TaskId, gen: Option<nat>, strict: bool) {
    id in tasks ==>
      if gen.Some? then gen.value == tasks[id].dispatchGen else tasks[id].dispatchGen == 0 || !strict
  }

  /** Redis: an ack is accepted exactly when the task is in processing, its generation fits and its state carries no
      mark of a recovery. The entry leaves processing when the generation fits, with the mark too, and never otherwise;
      an accepted ack takes the start time off the state, and no other state changes. */
  lemma RedisAckRules(cfg: Config, s: Store, d: DeviceId, id: TaskId, gen: Option<nat>)
    ensures var (s', ok) := AckS(cfg, s, d, id, gen);
      var fits := Fits(s.tasks, id, gen, cfg.strict);
      && (ok <==> id in Ids(At(s.processing, d)) && fits && (id in s.tasks ==> s.tasks[id].recoveredAt.None?))
      && |At(s'.processing, d)| == (if fits && id in Ids(At(s.processing, d)) then |At(s.processing, d)| - 1 else |At(s.processing, d)|)
      && (!fits ==> s' == s)
      && s'.tasks.Keys == s.tasks.Keys && (ok && id in s.tasks ==> s'.tasks[id].startedAt.None?)
      && forall x :: x in s.tasks && (x != id || !ok) ==> s'.tasks[x] == s.tasks[x]
  {
  }

  /** In memory there is no such mark: an ack is accepted exactly when the task is in the table and its generation
      fits; only then does anything change. */
  lemma MemoryAckRules(cfg: Config, s: MemoryStore.Memory, d: DeviceId, id: TaskId, gen: Option<nat>)
    ensures var (s', ok) := MemoryStore.AckM(cfg, s, d, id, gen);
      && (ok <==> id in MemoryStore.Keys(MemoryStore.EntriesAt(s.processing, d)) && Fits(s.tasks, id, gen, cfg.strict))
      && (!ok ==> s' == s)
      && s'.tasks.Keys == s.tasks.Keys && (ok && id in s.tasks ==> s'.tasks[id].startedAt.None?)
      && forall x :: x in s.tasks && (x != id || !ok) ==> s'.tasks[x] == s.tasks[x]
  {
  }

  // ---------------------------------------------------------------- the gate of a pop

  lemma {:induction false} GateStates(cfg: Config, s: Store, d: DeviceId, raw: seq<Task>, id: TaskId)
    ensures var s' := GateS(cfg, s, d, raw).0;
      && (id in s'.tasks <==> id in s.tasks)
      && (id in s.tasks && id !in Ids(Sifted(raw, cfg.gate, false)) ==> s'.tasks[id] == s.tasks[id])
      && (id in s.tasks && id in Ids(Sifted(raw, cfg.gate, false)) ==>
            s'.tasks[id].status == Failed && s'.tasks[id].rejected && s'.tasks[id].startedAt == s.tasks[id].startedAt)
    decreases |raw|
  {
    if raw != [] {
      SiftedHead(raw, cfg.gate);
      var out := Sifted(raw[1..], cfg.gate, false);
      if cfg.gate(raw[0]) {
        GateStates(cfg, s, d, raw[1..], id);
      } else {
        GateStates(cfg, DropS(s, d, raw[0]), d, raw[1..], id);
        Deadlines.FirstId(raw[0], out);
      }
    }
  }

  lemma {:induction false} DispatchStates(s: Store, good: seq<Task>, now: real, id: TaskId)
    ensures var s' := DispatchS(s, good, now).0;
      && (id in s'.tasks <==> id in s.tasks)
      && (id in s.tasks && id !in Ids(good) ==> s'.tasks[id] == s.tasks[id])
      && (id in s.tasks && id in Ids(good) ==>
            s'.tasks[id].status == Dispatching && s'.tasks[id].startedAt == Some(now) && s'.tasks[id].recoveredAt.None?
            && s'.tasks[id].rejected == s.tasks[id].rejected && ServiceOrder.Keeps(s'.tasks[id], id, good))
    decreases |good|
  {
    if good != [] { DispatchStates(UpdateIn(s, good[0].id, MDispatch(good[0], now)), good[1..], now, id); }
  }

  /** The gate takes the rejected tasks out of processing and leaves the accepted ones in place. */
  lemma {:induction false} GateLists(cfg: Config, s: Store, d: DeviceId, raw: seq<Task>, rest: seq<Task>)
    requires At(s.processing, d) == Rev(raw) + rest && Distinct(raw)
    ensures At(GateS(cfg, s, d, raw).0.processing, d) == Rev(Sifted(raw, cfg.gate, true)) + rest
    decreases |raw|
  {
    if raw != [] {
      var t, later := raw[0], raw[1..];
      SiftedHead(raw, cfg.gate);
      var good := Sifted(later, cfg.gate, true);
      assert Rev(later) + [t] + rest == Rev(later) + ([t] + rest);
      if cfg.gate(t) {
        GateLists(cfg, s, d, later, [t] + rest);
        assert ([t] + good)[1..] == good;
        assert Rev(good) + [t] + rest == Rev(good) + ([t] + rest);
      } else {
        if t in Rev(later) { InReversed(later, t); IdOf(later, t); }
        Deadlines.RemoveAfter(Rev(later), [t] + rest);
        assert ([t] + rest)[1..] == rest;
        GateLists(cfg, DropS(s, d, t), d, later, rest);
      }
    }
  }

  lemma {:induction false} InReversed(l: seq<Task>, t: Task)
    requires t in Rev(l)
    ensures t in l
  {
    if t != l[0] { InReversed(l[1..], t); }
  }

  lemma {:induction false} SiftApart(raw: seq<Task>, p: Task -> bool)
    requires Distinct(raw)
    ensures Ids(Sifted(raw, p, true)) !! Ids(Sifted(raw, p, false))
    ensures Ids(Sifted(raw, p, true)) + Ids(Sifted(raw, p, false)) == Ids(raw)
  {
    if raw != [] {
      SiftedHead(raw, p);
      SiftApart(raw[1..], p);
      Deadlines.FirstId(raw[0], Sifted(raw[1..], p, true));
      Deadlines.FirstId(raw[0], Sifted(raw[1..], p, false));
    }
  }

  /** What a pop leaves of the state of a task it has moved: failed and rejected, or dispatching since now. */
  predicate Judged(accepted: bool, before: TaskState, after: TaskState, now: real) {
    if accepted
    then after.status == Dispatching && after.startedAt == Some(now) && after.recoveredAt.None? && after.rejected == before.rejected
    else after.status == Failed && after.rejected && after.startedAt == before.startedAt
  }

  /** With each id pending once on the device: of the tasks that a Redis pop moves the rejected ones are taken out of
      processing and their states are failed and rejected; the accepted ones stand at the head of processing, the last
      one first, and their states are dispatching; no other state changes. */
  lemma RedisPopJudges(cfg: Config, s: Store, d: DeviceId, limit: nat, now: real, id: TaskId)
    requires Distinct(At(s.pending, d))
    ensures var s' := PopS(cfg, s, d, limit, now).0;
      var raw := At(s.pending, d)[..if limit < |At(s.pending, d)| then limit else |At(s.pending, d)|];
      var good, bad := Sifted(raw, cfg.gate, true), Sifted(raw, cfg.gate, false);
      && At(s'.processing, d) == Rev(good) + At(s.processing, d)
      && (id in s'.tasks <==> id in s.tasks)
      && (id in s.tasks && id in Ids(good) ==>
            Judged(true, s.tasks[id], s'.tasks[id], now) && ServiceOrder.Keeps(s'.tasks[id], id, good))
      && (id in s.tasks && id in Ids(bad) ==> Judged(false, s.tasks[id], s'.tasks[id], now))
      && (id in s.tasks && id !in Ids(raw) ==> s'.tasks[id] == s.tasks[id])
  {
    hide Rev, GateS, DispatchS, MoveS, Distinct, Sifted, Ids;
    var q := At(s.pending, d);
    var k := if limit < |q| then limit else |q|;
    var raw := q[..k];
    Fifo.MoveShape(s, d, limit);
    assert q == raw + q[k..];
    ConcatIds(raw, q[k..]);
    var s1 := MoveS(s, d, limit).0;
    GateLists(cfg, s1, d, raw, At(s.processing, d));
    ServiceOrder.GateSifts(cfg, s1, d, raw);
    GateStates(cfg, s1, d, raw, id);
    SiftApart(raw, cfg.gate);
    var (s2, good) := GateS(cfg, s1, d, raw);
    Fifo.DispatchShape(s2, good, now);
    DispatchStates(s2, good, now, id);
  }
}
