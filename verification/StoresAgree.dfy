/**
 The two stores against each other: with the same choices at every pop they answer every operation
 alike, and where they differ.
 */
module StoresAgree {
  import opened Basics
  import opened Wrappers
  import opened Motion
  import opened TaskModel
  import opened RedisMachine
  import opened QueueSpec
  import opened Refinement
  import R = RedisRefinement
  import M = MemoryRefinement
  import RedisStore
  import MemoryStore

  /** Two runs of the abstract queue with the same operations and the same pops are the same run. */
  lemma {:induction false} SameRun(strict: bool, xs: seq<Abs>, ys: seq<Abs>, ops: seq<Op>, ra: seq<Answer>, rb: seq<Answer>, k: nat)
    requires |ops| == |ra| == |rb| && IsRun(strict, xs, Log(ops, ra)) && IsRun(strict, ys, Log(ops, rb))
    requires xs[0] == ys[0] && forall i :: 0 <= i < |ops| && ops[i].OpPop? ==> ra[i] == rb[i]
    requires forall i :: 0 <= i < |ops| ==> !ops[i].OpRequeue?
    requires k <= |ops|
    ensures xs[k] == ys[k] && forall i :: 0 <= i < k ==> ra[i] == rb[i]
  {
    if k > 0 {
      SameRun(strict, xs, ys, ops, ra, rb, k - 1);
      var a, b := Log(ops, ra)[k - 1], Log(ops, rb)[k - 1];
      assert Next(strict, xs[k - 1], a.op, a.answer, xs[k]);
      assert Next(strict, ys[k - 1], b.op, b.answer, ys[k]);
      if !ops[k - 1].OpPop? {
        Determined(strict, xs[k - 1], ops[k - 1], ra[k - 1], xs[k], rb[k - 1], ys[k]);
      }
    }
  }

  lemma {:induction false} NoRequeue(cfg: Config, s: MemoryStore.Memory, ops: seq<Op>)
    requires M.LegalRun(cfg, s, ops)
    ensures forall i :: 0 <= i < |ops| ==> !ops[i].OpRequeue?
    decreases |ops|
  {
    hide M.DoM;
    if ops != [] {
      NoRequeue(cfg, M.DoM(cfg, s, ops[0]).0, ops[1..]);
      assert forall i :: 0 < i < |ops| ==> ops[i] == ops[1..][i - 1];
    }
  }

  /** From empty, both stores give the same answers to the same operations as long as their pops choose
      alike, and they end in the same abstract queue. */
  lemma StoresAgree(cfg: Config, ops: seq<Op>) returns (a: Abs)
    requires R.LegalRun(cfg, R.EMPTY, ops) && M.LegalRun(cfg, M.EMPTY, ops)
    requires forall i :: 0 <= i < |ops| && ops[i].OpPop? ==>
      R.RunR(cfg, R.EMPTY, ops).1[i] == M.RunM(cfg, M.EMPTY, ops).1[i]
    ensures R.RunR(cfg, R.EMPTY, ops).1 == M.RunM(cfg, M.EMPTY, ops).1
    ensures R.Rel(cfg, R.RunR(cfg, R.EMPTY, ops).0, a) && M.Rel(M.RunM(cfg, M.EMPTY, ops).0, a)
  {
    R.EmptyRel(cfg);
    M.EmptyRel();
    var xs := R.Refines(cfg, R.EMPTY, map[], ops);
    var ys := M.Refines(cfg, M.EMPTY, map[], ops);
    NoRequeue(cfg, M.EMPTY, ops);
    SameRun(cfg.strict, xs, ys, ops, R.RunR(cfg, R.EMPTY, ops).1, M.RunM(cfg, M.EMPTY, ops).1, |ops|);
    a := xs[|ops|];
  }

  /** Their pops always hand out the same number of tasks. */
  lemma PopsEqually(cfg: Config, s: RedisStore.Store, m: MemoryStore.Memory, a: Abs, d: DeviceId, limit: nat, now: real)
    requires R.Rel(cfg, s, a) && M.Rel(m, a) && now != 0.0
    ensures |RedisStore.PopS(cfg, s, d, limit, now).1| == |MemoryStore.PopM(m, d, limit, now).1|
  {
    R.PopStep(cfg, s, a, d, limit, now);
    M.PopStep(m, a, d, limit, now);
  }

  // ---------------------------------------------------------------- where they differ

  /** An event with an empty phase leaves the status alone in Redis and clears it in memory. */
  lemma EmptyPhaseDiffers(s: RedisStore.Store, m: MemoryStore.Memory, id: TaskId, e: Event)
    requires id in s.tasks && id in m.tasks && s.tasks[id].status == m.tasks[id].status
    ensures RedisStore.RecordS(s, id, e).tasks[id].status == MemoryStore.RecordM(m, id, e).tasks[id].status
      <==> (e.phase != Empty || s.tasks[id].status == Empty)
  {
  }

  /** The entries that a recovery moves are those that started too long ago. */
  function Overdue(timeout: real, now: real): MemoryStore.Entry -> bool {
    (e: MemoryStore.Entry) => Stale(e.startedAt, now, timeout)
  }

  function TasksOf(es: seq<MemoryStore.Entry>): (r: seq<Task>)
    ensures |r| == |es|
  {
    if es == [] then [] else [es[0].task] + TasksOf(es[1..])
  }

  lemma {:induction false} DropAfter(kept: seq<MemoryStore.Entry>, es: seq<MemoryStore.Entry>, id: TaskId)
    requires es != [] && es[0].task.id == id && id !in MemoryStore.Keys(kept)
    ensures MemoryStore.DropEntry(kept + es, id) == kept + es[1..]
  {
    if kept == [] {
      assert kept + es == es && kept + es[1..] == es[1..];
    } else {
      assert (kept + es)[1..] == kept[1..] + es;
      DropAfter(kept[1..], es, id);
      assert [kept[0]] + (kept[1..] + es[1..]) == kept + es[1..];
    }
  }

  lemma {:induction false} ConcatKeys(a: seq<MemoryStore.Entry>, b: seq<MemoryStore.Entry>)
    ensures MemoryStore.Keys(a + b) == MemoryStore.Keys(a) + MemoryStore.Keys(b)
    ensures MemoryStore.OneEach(a + b)
      <==> MemoryStore.OneEach(a) && MemoryStore.OneEach(b) && MemoryStore.Keys(a) !! MemoryStore.Keys(b)
  {
    if a == [] {
      assert a + b == b;
    } else {
      assert (a + b)[1..] == a[1..] + b;
      ConcatKeys(a[1..], b);
    }
  }

  /** One entry of the recovery loop, after the fresh entries `kept`. */
  lemma RecoverOneLoop(s: MemoryStore.Memory, d: DeviceId, kept: seq<MemoryStore.Entry>, es: seq<MemoryStore.Entry>,
                       timeout: real, now: real)
    requires es != [] && MemoryStore.EntriesAt(s.processing, d) == kept + es && MemoryStore.OneEach(kept + es)
    ensures var s1 := MemoryStore.RecoverOneM(s, d, es[0], timeout, now).0;
      if Stale(es[0].startedAt, now, timeout) then
        MemoryStore.EntriesAt(s1.processing, d) == kept + es[1..] && At(s1.pending, d) == [es[0].task] + At(s.pending, d)
        && MemoryStore.OneEach(kept + es[1..])
      else s1 == s && kept + es == kept + [es[0]] + es[1..]
  {
    ConcatKeys(kept, es);
    ConcatKeys(kept, es[1..]);
    if Stale(es[0].startedAt, now, timeout) { DropAfter(kept, es, es[0].task.id); }
  }

  lemma Assoc<T>(a: seq<T>, b: seq<T>, c: seq<T>)
    ensures a + (b + c) == a + b + c
  {
  }

  /** The recovery loop, with `kept` the fresh entries it has already passed. */
  lemma {:induction false} RecoverLoop(s: MemoryStore.Memory, d: DeviceId, kept: seq<MemoryStore.Entry>,
                                       es: seq<MemoryStore.Entry>, timeout: real, now: real)
    requires MemoryStore.EntriesAt(s.processing, d) == kept + es && MemoryStore.OneEach(kept + es)
    ensures var s' := MemoryStore.RecoverEntriesM(s, d, es, timeout, now).0;
      MemoryStore.EntriesAt(s'.processing, d) == kept + Sifted(es, Overdue(timeout, now), false)
      && At(s'.pending, d) == Rev(TasksOf(Sifted(es, Overdue(timeout, now), true))) + At(s.pending, d)
    decreases |es|
  {
    if es == [] {
      assert kept + [] == kept;
      return;
    }
    hide MemoryStore.OneEach, MemoryStore.RecoverOneM, Rev, TasksOf, Sifted, Stale;
    var e, rest := es[0], es[1..];
    var stale, young, pend := Sifted(rest, Overdue(timeout, now), true), Sifted(rest, Overdue(timeout, now), false), At(s.pending, d);
    var s1 := MemoryStore.RecoverOneM(s, d, e, timeout, now).0;
    RecoverOneLoop(s, d, kept, es, timeout, now);
    SiftedHead(es, Overdue(timeout, now));
    if Stale(e.startedAt, now, timeout) {
      RecoverLoop(s1, d, kept, rest, timeout, now);
      FrontRev(e, stale);
      Assoc(Rev(TasksOf(stale)), [e.task], pend);
    } else {
      RecoverLoop(s1, d, kept + [e], rest, timeout, now);
      Assoc(kept, [e], young);
    }
  }

  lemma FrontRev(e: MemoryStore.Entry, rest: seq<MemoryStore.Entry>)
    ensures Rev(TasksOf([e] + rest)) == Rev(TasksOf(rest)) + [e.task]
  {
    assert ([e] + rest)[1..] == rest;
    var tasks := TasksOf([e] + rest);
    assert tasks[1..] == TasksOf(rest);
  }

  /** An in-memory recovery puts the stale tasks back in the reverse of the order they were dispatched. */
  lemma MemoryRecoverReverses(s: MemoryStore.Memory, d: DeviceId, timeout: real, now: real)
    requires MemoryStore.OneEach(MemoryStore.EntriesAt(s.processing, d))
    ensures var (es, s') := (MemoryStore.EntriesAt(s.processing, d), MemoryStore.RecoverM(s, d, timeout, now).0);
      MemoryStore.EntriesAt(s'.processing, d) == Sifted(es, Overdue(timeout, now), false)
      && At(s'.pending, d) == Rev(TasksOf(Sifted(es, Overdue(timeout, now), true))) + At(s.pending, d)
  {
    var es := MemoryStore.EntriesAt(s.processing, d);
    assert [] + es == es;
    if es != [] {
      var s0 := s.(pending := s.pending[d := At(s.pending, d)]);
      RecoverLoop(s0, d, [], es, timeout, now);
      assert [] + Sifted(es, Overdue(timeout, now), false) == Sifted(es, Overdue(timeout, now), false);
    }
  }

  /** What a recovery leaves: the fresh tasks in dispatch order, then the stale ones in reverse. */
  function Recovered(es: seq<MemoryStore.Entry>, timeout: real, now: real): seq<Task> {
    TasksOf(Sifted(es, Overdue(timeout, now), false)) + Rev(TasksOf(Sifted(es, Overdue(timeout, now), true)))
  }

  /** No entry is stale, or exactly one and it is the one dispatched last. */
  predicate AtMostLastStale(es: seq<MemoryStore.Entry>, timeout: real, now: real) {
    var stale := Sifted(es, Overdue(timeout, now), true);
    stale == [] || stale == [es[|es| - 1]]
  }

  /** The service order of a device survives an in-memory recovery exactly when no entry is stale, or exactly
      one and it is the one dispatched last. */
  lemma MemoryRecoverOrder(s: MemoryStore.Memory, d: DeviceId, timeout: real, now: real)
    requires MemoryStore.OneEach(MemoryStore.EntriesAt(s.processing, d))
    ensures var s' := MemoryStore.RecoverM(s, d, timeout, now).0;
      TasksOf(MemoryStore.EntriesAt(s'.processing, d)) + At(s'.pending, d)
        == TasksOf(MemoryStore.EntriesAt(s.processing, d)) + At(s.pending, d)
      <==> AtMostLastStale(MemoryStore.EntriesAt(s.processing, d), timeout, now)
  {
    var es, pend := MemoryStore.EntriesAt(s.processing, d), At(s.pending, d);
    MemoryRecoverReverses(s, d, timeout, now);
    RecoveredOrder(es, timeout, now);
    var young, back := TasksOf(Sifted(es, Overdue(timeout, now), false)), Rev(TasksOf(Sifted(es, Overdue(timeout, now), true)));
    SiftedCounts(es, Overdue(timeout, now));
    Assoc(young, back, pend);
    SameFront(young + back, TasksOf(es), pend);
  }

  lemma SameFront<T>(a: seq<T>, b: seq<T>, c: seq<T>)
    requires |a| == |b|
    ensures a + c == b + c <==> a == b
  {
    if a + c == b + c { assert a == (a + c)[..|a|] && b == (b + c)[..|b|]; }
  }

  lemma {:induction false} RecoveredOrder(es: seq<MemoryStore.Entry>, timeout: real, now: real)
    requires MemoryStore.OneEach(es)
    ensures Recovered(es, timeout, now) == TasksOf(es) <==> AtMostLastStale(es, timeout, now)
  {
    if es != [] {
      hide Stale, Rev, Sifted, TasksOf, AtMostLastStale;
      if Stale(es[0].startedAt, now, timeout) {
        HeadStale(es, timeout, now);
      } else {
        RecoveredOrder(es[1..], timeout, now);
        HeadYoung(es, timeout, now);
      }
    }
  }

  lemma TasksCons(e: MemoryStore.Entry, rest: seq<MemoryStore.Entry>)
    ensures TasksOf([e] + rest) == [e.task] + TasksOf(rest)
  {
    assert ([e] + rest)[1..] == rest;
  }

  /** The first entry is fresh: the question is that of the other entries. */
  lemma {:induction false} HeadYoung(es: seq<MemoryStore.Entry>, timeout: real, now: real)
    requires es != [] && MemoryStore.OneEach(es) && !Stale(es[0].startedAt, now, timeout)
    requires Recovered(es[1..], timeout, now) == TasksOf(es[1..]) <==> AtMostLastStale(es[1..], timeout, now)
    ensures Recovered(es, timeout, now) == TasksOf(es) <==> AtMostLastStale(es, timeout, now)
  {
    hide Stale, Rev, Sifted, TasksOf;
    var e, rest := es[0], es[1..];
    SiftedHead(es, Overdue(timeout, now));
    TasksCons(e, Sifted(rest, Overdue(timeout, now), false));
    TasksCons(e, rest);
    assert es == [e] + rest;
    assert Recovered(es, timeout, now) == [e.task] + Recovered(rest, timeout, now);
    if Recovered(es, timeout, now) == TasksOf(es) {
      assert Recovered(rest, timeout, now) == Recovered(es, timeout, now)[1..] == TasksOf(es)[1..] == TasksOf(rest);
    }
    SiftedFrom(es, Overdue(timeout, now), true);
    if rest == [] { assert Sifted(rest, Overdue(timeout, now), true) == [] by { SiftedCounts(rest, Overdue(timeout, now)); } }
  }

  /** The first entry is stale: what then comes first is another task, unless it is the only one. */
  lemma {:induction false} HeadStale(es: seq<MemoryStore.Entry>, timeout: real, now: real)
    requires es != [] && MemoryStore.OneEach(es) && Stale(es[0].startedAt, now, timeout)
    ensures Recovered(es, timeout, now) == TasksOf(es) <==> AtMostLastStale(es, timeout, now)
  {
    hide Stale, Rev, Sifted, TasksOf;
    var e, rest := es[0], es[1..];
    var stale, young := Sifted(es, Overdue(timeout, now), true), Sifted(es, Overdue(timeout, now), false);
    SiftedHead(es, Overdue(timeout, now));
    SiftedCounts(rest, Overdue(timeout, now));
    TasksCons(e, rest);
    assert es == [e] + rest;
    if rest == [] {
      OnlyOne(e);
    } else {
      var last := es[|es| - 1];
      LastOther(es);
      assert TasksOf(es)[0] == e.task && stale[0] == e;
      assert stale != [last];
      if young != [] {
        SiftedFrom(rest, Overdue(timeout, now), false);
        assert young[0] in rest;
        M.KeyOf(rest, young[0]);
        TasksCons(young[0], young[1..]);
        assert young == [young[0]] + young[1..];
        assert Recovered(es, timeout, now)[0] == young[0].task && young[0].task.id != e.task.id;
      } else {
        SiftedAll(es, Overdue(timeout, now), true);
        RevEnds(TasksOf(stale));
        LastTask(es);
        assert Recovered(es, timeout, now)[0] == last.task;
      }
    }
  }

  lemma OnlyOne(e: MemoryStore.Entry)
    ensures TasksOf([e]) == [e.task] && Rev([e.task]) == [e.task]
  {
    assert [e][1..] == [] && [e.task][1..] == [];
  }

  lemma LastOther(es: seq<MemoryStore.Entry>)
    requires |es| > 1 && MemoryStore.OneEach(es)
    ensures es[|es| - 1].task.id != es[0].task.id && es[0].task.id !in MemoryStore.Keys(es[1..])
  {
    M.KeyOf(es[1..], es[|es| - 1]);
  }

  lemma {:induction false} LastTask(es: seq<MemoryStore.Entry>)
    requires es != []
    ensures TasksOf(es)[|es| - 1] == es[|es| - 1].task
  {
    if |es| > 1 { LastTask(es[1..]); }
  }

  lemma RevEnds(s: seq<Task>)
    requires s != []
    ensures Rev(s)[0] == s[|s| - 1]
  {
    RevAt(s, 0);
  }
}
