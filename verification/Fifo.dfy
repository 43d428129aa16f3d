/**
 Queue order through dispatch, recovery and requeue.  Processing is filled from the left, so the
 service order of a device is the reversed processing list followed by the pending list.
 */
module Fifo {
  import opened Basics
  import opened Wrappers
  import opened Motion
  import opened TaskModel
  import opened RedisMachine
  import opened RedisStore

  /** The service order of a device. */
  function Order(s: Store, d: DeviceId): seq<Task> {
    Rev(At(s.processing, d)) + At(s.pending, d)
  }

  // ---------------------------------------------------------------- pop

  function Taken(s: Store, d: DeviceId, n: nat): nat {
    if n < |At(s.pending, d)| then n else |At(s.pending, d)|
  }

  lemma {:induction false} MoveShape(s: Store, d: DeviceId, n: nat)
    ensures var (s1, raw) := MoveS(s, d, n);
      var k := Taken(s, d, n);
      && raw == At(s.pending, d)[..k] && At(s1.pending, d) == At(s.pending, d)[k..]
      && At(s1.processing, d) == Rev(raw) + At(s.processing, d) && s1.tasks == s.tasks
      && forall x :: x != d ==> At(s1.pending, x) == At(s.pending, x) && At(s1.processing, x) == At(s.processing, x)
    decreases n
  {
    hide Rev;
    var list, proc := At(s.pending, d), At(s.processing, d);
    if n == 0 || list == [] {
      NoneMoved(list, proc);
    } else {
      var s1 := s.(pending := s.pending[d := list[1..]], processing := s.processing[d := [list[0]] + proc]);
      MoveShape(s1, d, n - 1);
      OneMoreMoved(list, proc, Taken(s1, d, n - 1));
    }
  }

  lemma NoneMoved(list: seq<Task>, proc: seq<Task>)
    ensures list[..0] == [] && list[0..] == list && Rev<Task>([]) + proc == proc
  {
  }

  lemma OneMoreMoved(list: seq<Task>, proc: seq<Task>, k: nat)
    requires k < |list|
    ensures list[..k + 1] == [list[0]] + list[1..][..k] && list[k + 1..] == list[1..][k..]
    ensures Rev(list[1..][..k]) + ([list[0]] + proc) == Rev([list[0]] + list[1..][..k]) + proc
  {
    var rest := list[1..][..k];
    assert ([list[0]] + rest)[1..] == rest;
    assert Rev(rest) + ([list[0]] + proc) == Rev(rest) + [list[0]] + proc;
  }

  lemma {:induction false} GateKeepsAll(cfg: Config, s: Store, d: DeviceId, raw: seq<Task>)
    requires forall t :: t in raw ==> cfg.gate(t)
    ensures GateS(cfg, s, d, raw) == (s, raw)
  {
    if raw != [] {
      GateKeepsAll(cfg, s, d, raw[1..]);
      assert raw == [raw[0]] + raw[1..];
    }
  }

  lemma {:induction false} DispatchShape(s: Store, tasks: seq<Task>, now: real)
    ensures var (s1, out) := DispatchS(s, tasks, now);
      && s1.pending == s.pending && s1.processing == s.processing && |out| == |tasks|
      && forall i :: 0 <= i < |out| ==> out[i] == tasks[i].(stamp := out[i].stamp) && out[i].stamp.Some?
    decreases |tasks|
  {
    if tasks != [] {
      DispatchShape(UpdateIn(s, tasks[0].id, MDispatch(tasks[0], now)), tasks[1..], now);
    }
  }

  /** A pop without gate drops keeps the service order, and hands out the first pending tasks. */
  lemma PopKeepsOrder(cfg: Config, s: Store, d: DeviceId, limit: nat, now: real)
    requires forall t :: t in At(s.pending, d)[..Taken(s, d, limit)] ==> cfg.gate(t)
    ensures var (s1, out) := PopS(cfg, s, d, limit, now);
      var k := Taken(s, d, limit);
      && Order(s1, d) == Order(s, d) && |out| == k
      && (forall i :: 0 <= i < k ==> out[i] == At(s.pending, d)[i].(stamp := out[i].stamp))
      && At(s1.pending, d) == At(s.pending, d)[k..]
      && At(s1.processing, d) == Rev(At(s.pending, d)[..k]) + At(s.processing, d)
  {
    MoveShape(s, d, limit);
    var (s1, raw) := MoveS(s, d, limit);
    GateKeepsAll(cfg, s1, d, raw);
    DispatchShape(s1, raw, now);
    MovedOrder(At(s.pending, d), At(s.processing, d), Taken(s, d, limit));
  }

  /** Moving a prefix of one list, reversed, to the front of the other. */
  lemma MovedOrder<T>(pend: seq<T>, proc: seq<T>, k: nat)
    requires k <= |pend|
    ensures Rev(Rev(pend[..k]) + proc) + pend[k..] == Rev(proc) + pend
  {
    var raw, rest := pend[..k], pend[k..];
    RevConcat(Rev(raw), proc);
    RevRev(raw);
    assert pend == raw + rest;
    assert (Rev(proc) + raw) + rest == Rev(proc) + (raw + rest);
  }

  // ---------------------------------------------------------------- recovery

  predicate IsStale(tasks: map<TaskId, TaskState>, item: Task, timeout: real, now: real) {
    Stale(StartOf(item, if item.id in tasks then Some(tasks[item.id]) else None), now, timeout)
  }

  /** The entries that a recovery moves are those that it finds stale. */
  function Overdue(tasks: map<TaskId, TaskState>, timeout: real, now: real): Task -> bool {
    (t: Task) => IsStale(tasks, t, timeout, now)
  }

  lemma {:induction false} SiftSame(a: map<TaskId, TaskState>, b: map<TaskId, TaskState>, items: seq<Task>,
                                    timeout: real, now: real, want: bool)
    requires forall id :: id in Ids(items) ==> (id in a <==> id in b) && (id in a ==> a[id] == b[id])
    ensures Sifted(items, Overdue(a, timeout, now), want) == Sifted(items, Overdue(b, timeout, now), want)
  {
    if items != [] {
      SiftSame(a, b, items[1..], timeout, now, want);
    }
  }

  lemma RemoveAllMiddle(kept: seq<Task>, items: seq<Task>)
    requires items != [] && Distinct(kept + items)
    ensures RemoveAll(kept + items, items[0]) == kept + items[1..] && Distinct(kept + items[1..])
  {
    ConcatIds(kept, items);
    IdAt(items, 0);
    RemoveAllIsFirst(kept + items, items[0]);
    RemoveFirstSuffix(kept, items);
    ConcatIds(kept, items[1..]);
  }

  lemma {:induction false} RemoveFirstSuffix(kept: seq<Task>, items: seq<Task>)
    requires items != [] && items[0].id !in Ids(kept)
    ensures RemoveFirst(kept + items, items[0]) == kept + items[1..]
  {
    if kept == [] {
      assert kept + items == items && kept + items[1..] == items[1..];
    } else {
      RemoveFirstSuffix(kept[1..], items);
      RemoveFirstSkips(kept[0], kept[1..] + items, items[0]);
      assert kept == [kept[0]] + kept[1..];
      assert kept + items == [kept[0]] + (kept[1..] + items);
      assert kept + items[1..] == [kept[0]] + (kept[1..] + items[1..]);
    }
  }

  lemma RemoveFirstSkips(head: Task, s: seq<Task>, item: Task)
    requires head != item
    ensures RemoveFirst([head] + s, item) == [head] + RemoveFirst(s, item)
  {
    assert ([head] + s)[1..] == s;
  }

  /** What one entry of a recovery does to lists and states. */
  lemma RecoverOneShape(s: Store, d: DeviceId, kept: seq<Task>, items: seq<Task>, timeout: real, now: real)
    requires items != [] && At(s.processing, d) == kept + items && Distinct(kept + items)
    ensures var (s1, k) := RecoverOneS(s, d, items[0], timeout, now);
      var stale := IsStale(s.tasks, items[0], timeout, now);
      && k == (if stale then 1 else 0)
      && At(s1.processing, d) == (if stale then kept else kept + [items[0]]) + items[1..]
      && At(s1.pending, d) == (if stale then [items[0]] + At(s.pending, d) else At(s.pending, d))
      && s1.tasks == (if stale then Update(s.tasks, items[0].id, MRecover(now)) else s.tasks)
      && Distinct((if stale then kept else kept + [items[0]]) + items[1..])
  {
    RemoveAllMiddle(kept, items);
    assert (kept + items)[|kept|] == items[0];
    assert kept + [items[0]] + items[1..] == kept + items;
  }

  /** The stale entries move to the front of pending, newest last; the others keep their order. */
  lemma {:induction false} RecoverShape(s: Store, d: DeviceId, kept: seq<Task>, items: seq<Task>, timeout: real, now: real)
    requires At(s.processing, d) == kept + items && Distinct(kept + items)
    ensures var (s1, n) := RecoverItemsS(s, d, items, timeout, now);
      var moved := Sifted(items, Overdue(s.tasks, timeout, now), true);
      && n == |moved|
      && At(s1.processing, d) == kept + Sifted(items, Overdue(s.tasks, timeout, now), false)
      && At(s1.pending, d) == Rev(moved) + At(s.pending, d)
    decreases |items|
  {
    if items == [] {
      assert Rev<Task>([]) + At(s.pending, d) == At(s.pending, d);
    } else {
      RecoverOneShape(s, d, kept, items, timeout, now);
      var (s1, k) := RecoverOneS(s, d, items[0], timeout, now);
      var stale := IsStale(s.tasks, items[0], timeout, now);
      var kept1 := if stale then kept else kept + [items[0]];
      RecoverShape(s1, d, kept1, items[1..], timeout, now);
      ConcatIds(kept, items);
      SiftSame(s.tasks, s1.tasks, items[1..], timeout, now, true);
      SiftSame(s.tasks, s1.tasks, items[1..], timeout, now, false);
      SiftStep(s.tasks, items, timeout, now, kept, At(s.pending, d));
    }
  }

  lemma SiftStep(tasks: map<TaskId, TaskState>, items: seq<Task>, timeout: real, now: real, kept: seq<Task>, pend: seq<Task>)
    requires items != []
    ensures var p := Overdue(tasks, timeout, now);
      var st, fr := Sifted(items[1..], p, true), Sifted(items[1..], p, false);
      var st1, fr1 := Sifted(items, p, true), Sifted(items, p, false);
      if IsStale(tasks, items[0], timeout, now)
      then |st1| == |st| + 1 && kept + fr1 == kept + fr && Rev(st1) + pend == Rev(st) + ([items[0]] + pend)
      else st1 == st && kept + fr1 == kept + [items[0]] + fr
  {
    hide Sifted, IsStale, Rev;
    var p := Overdue(tasks, timeout, now);
    var st, fr := Sifted(items[1..], p, true), Sifted(items[1..], p, false);
    SiftedHead(items, p);
    RevCons(items[0], st, pend);
    assert kept + ([items[0]] + fr) == kept + [items[0]] + fr;
  }

  lemma RevCons<T>(x: T, s: seq<T>, pend: seq<T>)
    ensures Rev([x] + s) + pend == Rev(s) + ([x] + pend)
  {
    assert ([x] + s)[1..] == s;
    assert (Rev(s) + [x]) + pend == Rev(s) + ([x] + pend);
  }

  lemma RecoverResult(s: Store, d: DeviceId, timeout: real, now: real)
    requires Distinct(At(s.processing, d))
    ensures var (s1, n) := RecoverS(s, d, timeout, now);
      var proc := At(s.processing, d);
      var moved := Sifted(proc, Overdue(s.tasks, timeout, now), true);
      && n == |moved|
      && At(s1.processing, d) == Sifted(proc, Overdue(s.tasks, timeout, now), false)
      && At(s1.pending, d) == Rev(moved) + At(s.pending, d)
  {
    var proc := At(s.processing, d);
    assert [] + proc == proc;
    RecoverShape(s, d, [], proc, timeout, now);
    var left := Sifted(proc, Overdue(s.tasks, timeout, now), false);
    assert [] + left == left;
  }

  /** The stale entries are the newest ones: nothing fresh was dispatched after a stale entry. */
  predicate StaleFirst(tasks: map<TaskId, TaskState>, items: seq<Task>, timeout: real, now: real) {
    forall i, j :: 0 <= i < j < |items| && IsStale(tasks, items[j], timeout, now) ==> IsStale(tasks, items[i], timeout, now)
  }

  lemma StaleFirstTail(tasks: map<TaskId, TaskState>, items: seq<Task>, timeout: real, now: real)
    requires items != []
    ensures StaleFirst(tasks, items, timeout, now)
      <==> if IsStale(tasks, items[0], timeout, now) then StaleFirst(tasks, items[1..], timeout, now)
           else Sifted(items[1..], Overdue(tasks, timeout, now), true) == []
  {
    var rest := items[1..];
    var st := Sifted(rest, Overdue(tasks, timeout, now), true);
    SiftedFrom(rest, Overdue(tasks, timeout, now), true);
    if IsStale(tasks, items[0], timeout, now) {
      forall i, j | StaleFirst(tasks, items, timeout, now) && 0 <= i < j < |rest| && IsStale(tasks, rest[j], timeout, now)
        ensures IsStale(tasks, rest[i], timeout, now) { assert rest[j] == items[j + 1] && rest[i] == items[i + 1]; }
      forall i, j | StaleFirst(tasks, rest, timeout, now) && 0 <= i < j < |items| && IsStale(tasks, items[j], timeout, now)
        ensures IsStale(tasks, items[i], timeout, now) {
        if i > 0 { assert rest[j - 1] == items[j] && rest[i - 1] == items[i]; }
      }
    } else if st != [] {
      assert st[0] in st;
      var j :| 0 <= j < |rest| && rest[j] == st[0];
      assert items[j + 1] == st[0] && IsStale(tasks, items[j + 1], timeout, now);
    } else {
      SiftNone(tasks, rest, timeout, now);
      forall j | 0 < j < |items| ensures !IsStale(tasks, items[j], timeout, now) { assert items[j] == rest[j - 1]; }
    }
  }

  lemma SameHead<T>(h: T, rest: seq<T>, st: seq<T>, fr: seq<T>)
    ensures [h] + rest == [h] + st + fr <==> rest == st + fr
  {
    assert [h] + st + fr == [h] + (st + fr);
    assert ([h] + (st + fr))[1..] == st + fr && ([h] + rest)[1..] == rest;
  }

  lemma OtherHead<T>(h: T, rest: seq<T>, st: seq<T>, fr: seq<T>)
    requires st != [] && st[0] != h
    ensures [h] + rest != st + fr
  {
    assert ([h] + rest)[0] != (st + fr)[0];
  }

  lemma {:induction false} SiftFirst(tasks: map<TaskId, TaskState>, items: seq<Task>, timeout: real, now: real)
    ensures StaleFirst(tasks, items, timeout, now)
      <==> items == Sifted(items, Overdue(tasks, timeout, now), true) + Sifted(items, Overdue(tasks, timeout, now), false)
  {
    if items == [] { return; }
    hide StaleFirst, IsStale, Sifted;
    var h, rest := items[0], items[1..];
    var st, fr := Sifted(rest, Overdue(tasks, timeout, now), true), Sifted(rest, Overdue(tasks, timeout, now), false);
    StaleFirstTail(tasks, items, timeout, now);
    SiftedHead(items, Overdue(tasks, timeout, now));
    assert items == [h] + rest;
    if IsStale(tasks, h, timeout, now) {
      SiftFirst(tasks, rest, timeout, now);
      SameHead(h, rest, st, fr);
    } else if st == [] {
      SiftNone(tasks, rest, timeout, now);
      assert st + ([h] + fr) == [h] + rest;
    } else {
      SiftedFrom(rest, Overdue(tasks, timeout, now), true);
      assert st[0] in st;
      OtherHead(h, rest, st, [h] + fr);
    }
  }

  lemma SiftNone(tasks: map<TaskId, TaskState>, items: seq<Task>, timeout: real, now: real)
    requires Sifted(items, Overdue(tasks, timeout, now), true) == []
    ensures Sifted(items, Overdue(tasks, timeout, now), false) == items
    ensures forall i :: 0 <= i < |items| ==> !IsStale(tasks, items[i], timeout, now)
  {
    var p := Overdue(tasks, timeout, now);
    SiftedAll(items, p, false);
    SiftedFrom(items, p, false);
    forall i | 0 <= i < |items| ensures !IsStale(tasks, items[i], timeout, now) { assert items[i] in items && !p(items[i]); }
  }

  /** A recovery keeps the service order exactly when the entries it moves are the newest ones; in
      particular when all entries are stale. */
  lemma RecoverOrder(s: Store, d: DeviceId, timeout: real, now: real)
    requires Distinct(At(s.processing, d))
    ensures Order(RecoverS(s, d, timeout, now).0, d) == Order(s, d)
      <==> StaleFirst(s.tasks, At(s.processing, d), timeout, now)
  {
    var proc := At(s.processing, d);
    var st, fr := Sifted(proc, Overdue(s.tasks, timeout, now), true), Sifted(proc, Overdue(s.tasks, timeout, now), false);
    RecoverResult(s, d, timeout, now);
    SiftFirst(s.tasks, proc, timeout, now);
    RevConcat(st, fr);
    var after := Rev(fr) + Rev(st);
    assert Order(RecoverS(s, d, timeout, now).0, d) == after + At(s.pending, d) by {
      assert Rev(fr) + (Rev(st) + At(s.pending, d)) == after + At(s.pending, d);
    }
    SiftedCounts(proc, Overdue(s.tasks, timeout, now));
    if after + At(s.pending, d) == Rev(proc) + At(s.pending, d) {
      assert after == (after + At(s.pending, d))[..|after|];
      assert Rev(proc) == (Rev(proc) + At(s.pending, d))[..|after|];
      RevRev(st + fr);
      RevRev(proc);
    }
  }

  // ---------------------------------------------------------------- requeue

  /** Equal up to the generation stamp. */
  predicate SameTasks(a: seq<Task>, b: seq<Task>) {
    |a| == |b| && forall i :: 0 <= i < |a| ==> a[i].(stamp := None) == b[i].(stamp := None)
  }

  lemma {:induction false} TakeAllPrefix(s: Store, d: DeviceId, popped: seq<Task>, raw: seq<Task>, proc: seq<Task>)
    requires SameTasks(popped, raw) && At(s.processing, d) == Rev(raw) + proc && Distinct(Rev(raw) + proc)
    ensures var s1 := TakeAllS(s, d, popped);
      At(s1.processing, d) == proc && s1.pending == s.pending && s1.tasks == s.tasks
    decreases |raw|
  {
    if popped == [] {
      assert Rev(raw) + proc == proc;
    } else {
      var front, last := Rev(raw[1..]), raw[0];
      assert popped[0].(stamp := None).id == raw[0].(stamp := None).id;
      var list := front + ([last] + proc);
      assert Rev(raw) + proc == list;
      ConcatIds(front, [last] + proc);
      IdAt([last] + proc, 0);
      FindAfter(front, [last] + proc, last.id);
      RemoveFirstSuffix(front, [last] + proc);
      assert ([last] + proc)[1..] == proc;
      ConcatIds(front, proc);
      assert SameTasks(popped[1..], raw[1..]);
      TakeAllPrefix(TakeS(s, d, popped[0].id).0, d, popped[1..], raw[1..], proc);
    }
  }

  lemma {:induction false} FindAfter(front: seq<Task>, rest: seq<Task>, id: TaskId)
    requires id !in Ids(front)
    ensures FindId(front + rest, id) == FindId(rest, id)
  {
    if front == [] {
      assert front + rest == rest;
    } else {
      assert (front + rest)[1..] == front[1..] + rest;
      FindAfter(front[1..], rest, id);
    }
  }

  lemma {:induction false} MarkKeepsLists(s: Store, tasks: seq<Task>)
    ensures MarkRequeuedS(s, tasks).pending == s.pending && MarkRequeuedS(s, tasks).processing == s.processing
    decreases |tasks|
  {
    if tasks != [] { MarkKeepsLists(UpdateIn(s, tasks[0].id, MRequeue(tasks[0])), tasks[1..]); }
  }

  /** Requeueing what a pop returned restores both lists, up to the generation stamps. */
  lemma PopThenRequeue(cfg: Config, s: Store, d: DeviceId, limit: nat, now: real)
    requires forall t :: t in At(s.pending, d)[..Taken(s, d, limit)] ==> cfg.gate(t)
    requires Distinct(At(s.pending, d)) && Distinct(At(s.processing, d)) && Ids(At(s.pending, d)) !! Ids(At(s.processing, d))
    ensures var (s1, out) := PopS(cfg, s, d, limit, now);
      var s2 := RequeueS(s1, d, out);
      At(s2.processing, d) == At(s.processing, d) && SameTasks(At(s2.pending, d), At(s.pending, d))
  {
    hide PopS, RequeueS, Ids, Distinct, Rev, SameTasks;
    var (s1, out) := PopS(cfg, s, d, limit, now);
    var k, pend, proc := Taken(s, d, limit), At(s.pending, d), At(s.processing, d);
    var raw, rest := pend[..k], pend[k..];
    assert pend == raw + rest;
    PoppedFront(cfg, s, d, limit, now);
    RevIds(raw);
    ConcatIds(raw, rest);
    ConcatIds(Rev(raw), proc);
    RequeueShape(s1, d, out, raw, proc);
    SameTasksBefore(out, raw, rest);
  }

  lemma PoppedFront(cfg: Config, s: Store, d: DeviceId, limit: nat, now: real)
    requires forall t :: t in At(s.pending, d)[..Taken(s, d, limit)] ==> cfg.gate(t)
    ensures var (s1, out) := PopS(cfg, s, d, limit, now);
      var k := Taken(s, d, limit);
      && SameTasks(out, At(s.pending, d)[..k]) && At(s1.pending, d) == At(s.pending, d)[k..]
      && At(s1.processing, d) == Rev(At(s.pending, d)[..k]) + At(s.processing, d)
  {
    hide PopS, Rev;
    PopKeepsOrder(cfg, s, d, limit, now);
  }

  lemma SameTasksBefore(a: seq<Task>, b: seq<Task>, rest: seq<Task>)
    requires SameTasks(a, b)
    ensures SameTasks(a + rest, b + rest)
  {
  }

  /** A requeue of the tasks at the front of processing takes them off it and puts them in front of pending. */
  lemma RequeueShape(s: Store, d: DeviceId, out: seq<Task>, raw: seq<Task>, proc: seq<Task>)
    requires SameTasks(out, raw) && At(s.processing, d) == Rev(raw) + proc && Distinct(Rev(raw) + proc)
    ensures At(RequeueS(s, d, out).processing, d) == proc
    ensures At(RequeueS(s, d, out).pending, d) == out + At(s.pending, d)
  {
    if out == [] {
      assert Rev(raw) + proc == proc && out + At(s.pending, d) == At(s.pending, d);
    } else {
      TakeAllPrefix(s, d, out, raw, proc);
      var s1 := TakeAllS(s, d, out);
      MarkKeepsLists(s1.(pending := s1.pending[d := out + At(s1.pending, d)]), out);
    }
  }

  lemma {:induction false} RevIds(s: seq<Task>)
    ensures Ids(Rev(s)) == Ids(s) && (Distinct(Rev(s)) <==> Distinct(s))
  {
    if s != [] {
      RevIds(s[1..]);
      ConcatIds(Rev(s[1..]), [s[0]]);
      OneId(s[0]);
    }
  }
}
