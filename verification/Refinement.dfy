/**
 What it means for stored lists and states to stand for an abstract queue, and how that is kept when
 one task changes its place.  Both stores use this.
 */
module Refinement {
  import opened Wrappers
  import opened Motion
  import opened TaskModel
  import opened RedisMachine
  import opened QueueSpec

  function WorkingAt(a: Abs, d: DeviceId): set<TaskId> {
    set id | id in a && a[id].where.AtWork? && a[id].where.device == d
  }

  predicate StateOk(st: TaskState, i: Info) {
    st.status == i.status && st.dispatchGen == i.gen && st.retryCount == i.retries
  }

  ghost predicate StatesOk(tasks: map<TaskId, TaskState>, a: Abs) {
    tasks.Keys == a.Keys && forall id :: id in a ==> StateOk(tasks[id], a[id])
  }

  predicate WaitsAs(a: Abs, d: DeviceId, t: Task) {
    t.id in a && a[t.id].where == Waiting(d, t.enqueuedAt)
  }

  /** A pending list holds each waiting task of its device once, with its enqueue time. */
  ghost predicate PendingOk(a: Abs, d: DeviceId, l: seq<Task>) {
    Distinct(l) && Ids(l) == WaitingAt(a, d) && forall t :: t in l ==> WaitsAs(a, d, t)
  }

  /** The answers of a pop: ids with their stamps. */
  function Stamps(out: seq<Task>): (r: seq<(TaskId, nat)>)
    ensures |r| == |out|
    ensures forall i :: 0 <= i < |out| ==> r[i] == (out[i].id, out[i].stamp.GetOr(0))
  {
    seq(|out|, i requires 0 <= i < |out| => (out[i].id, out[i].stamp.GetOr(0)))
  }

  lemma {:induction false} IdsCount(s: seq<Task>)
    requires Distinct(s)
    ensures |Ids(s)| == |s|
  {
    if s != [] { IdsCount(s[1..]); }
  }

  /** What the three updates that touch no list do to a task. */
  function Noted(m: Mutator, i: Info): Info {
    if m.MDispatched? then i.(status := Dispatched)
    else if m.MRetry? then i.(retries := i.retries + 1)
    else if m.MReset? then i.(status := Queued, retries := i.retries + 1)
    else i
  }

  // ---------------------------------------------------------------- frames

  /** Nothing on device `x` is placed differently. */
  ghost predicate SameAt(a: Abs, b: Abs, x: DeviceId) {
    WaitingAt(b, x) == WaitingAt(a, x) && WorkingAt(b, x) == WorkingAt(a, x)
    && forall id :: id in WaitingAt(a, x) || id in WorkingAt(a, x) ==> b[id].where == a[id].where
  }

  lemma PendingFrame(a: Abs, b: Abs, x: DeviceId, l: seq<Task>)
    requires PendingOk(a, x, l) && SameAt(a, b, x)
    ensures PendingOk(b, x, l)
  {
    forall t | t in l ensures WaitsAs(b, x, t) {
      IdOf(l, t);
      assert WaitsAs(a, x, t);
    }
  }

  predicate NotOn(w: Where, x: DeviceId) {
    w.Nowhere? || w.device != x
  }

  /** A task that is not on device `x`, before or after, changes nothing there. */
  lemma ElsewhereSame(a: Abs, id: TaskId, i: Info, x: DeviceId)
    requires NotOn(i.where, x) && (id in a ==> NotOn(a[id].where, x))
    ensures SameAt(a, a[id := i], x)
  {
  }

  /** A task that keeps its place changes nothing anywhere. */
  lemma PlaceSame(a: Abs, id: TaskId, i: Info, x: DeviceId)
    requires id in a && i.where == a[id].where
    ensures SameAt(a, a[id := i], x)
  {
  }

  // ---------------------------------------------------------------- a pending list changes

  lemma PendingGains(a: Abs, d: DeviceId, l: seq<Task>, t: Task, i: Info)
    requires PendingOk(a, d, l) && t.id in a && !a[t.id].where.Waiting? && i.where == Waiting(d, t.enqueuedAt)
    ensures PendingOk(a[t.id := i], d, l + [t]) && PendingOk(a[t.id := i], d, [t] + l)
    ensures |WaitingAt(a[t.id := i], d)| == |l| + 1
  {
    var b := a[t.id := i];
    assert t.id !in Ids(l);
    AppendId(l, t);
    assert WaitingAt(b, d) == WaitingAt(a, d) + {t.id};
    IdsCount(l + [t]);
    forall u | u in l || u == t ensures WaitsAs(b, d, u) {
      if u in l {
        IdOf(l, u);
        assert WaitsAs(a, d, u);
      }
    }
  }

  lemma {:induction false} RemoveFirstIn(s: seq<Task>, item: Task, t: Task)
    requires t in RemoveFirst(s, item)
    ensures t in s
  {
    if s[0] != item && t != s[0] { RemoveFirstIn(s[1..], item, t); }
  }

  lemma PendingLoses(a: Abs, d: DeviceId, l: seq<Task>, t: Task, i: Info)
    requires PendingOk(a, d, l) && t in l && !i.where.Waiting?
    ensures PendingOk(a[t.id := i], d, RemoveFirst(l, t))
  {
    var b, r := a[t.id := i], RemoveFirst(l, t);
    RemoveFirstIds(l, t);
    assert WaitingAt(b, d) == WaitingAt(a, d) - {t.id};
    forall u | u in r ensures WaitsAs(b, d, u) {
      RemoveFirstIn(l, t, u);
      IdOf(r, u);
      assert WaitsAs(a, d, u);
    }
  }

  // ---------------------------------------------------------------- the sets an operation works through

  lemma StartOne(a: Abs, id: TaskId, ids: set<TaskId>, now: real)
    requires id in a && id !in ids
    ensures StartAll(a[id := QueueSpec.Start(a[id], now)], ids, now) == StartAll(a, {id} + ids, now)
  {
  }

  lemma ReturnOne(a: Abs, id: TaskId, ids: set<TaskId>)
    requires id in a && id !in ids
    ensures ReturnAll(a[id := Return(a[id])], ids) == ReturnAll(a, {id} + ids)
  {
  }

  lemma ExpireOneMore(a: Abs, id: TaskId, ids: set<TaskId>)
    requires id in a && id !in ids
    ensures ExpireAll(a[id := Expire(a[id])], ids) == ExpireAll(a, {id} + ids)
  {
  }

  lemma AllOfNone(a: Abs, now: real)
    ensures StartAll(a, {}, now) == a && ReturnAll(a, {}) == a && ExpireAll(a, {}) == a
  {
  }

  lemma OverAgeSplit(a: Abs, d: DeviceId, items: seq<Task>, maxAge: real, now: real)
    requires items != [] && Distinct(items) && items[0].id in OverAge(a, d, maxAge, now)
    ensures var id := items[0].id;
      var rest := Ids(items[1..]) * OverAge(a[id := QueueSpec.Expire(a[id])], d, maxAge, now);
      id !in rest && Ids(items) * OverAge(a, d, maxAge, now) == {id} + rest
  {
  }

  lemma Others(items: seq<Task>)
    requires items != [] && Distinct(items)
    ensures forall u :: u in items[1..] ==> u in items && u != items[0]
  {
    forall u | u in items[1..] ensures u in items && u != items[0] { IdOf(items[1..], u); }
  }

  // ---------------------------------------------------------------- the choice of a pop

  /** `out` is the front of `l`, stamped with the current generations. */
  predicate StampedFront(a: Abs, l: seq<Task>, out: seq<Task>) {
    |out| <= |l| && forall i :: 0 <= i < |out| ==>
      l[i].id in a && out[i].id == l[i].id && out[i].stamp == Some(a[l[i].id].gen)
  }

  /** The first tasks of a pending list, stamped with their generations, are a choice a pop may make. */
  lemma PrefixIsChoice(a: Abs, d: DeviceId, l: seq<Task>, limit: nat, out: seq<Task>)
    requires PendingOk(a, d, l) && |out| == if limit < |l| then limit else |l|
    requires StampedFront(a, l, out)
    ensures PopChoice(a, d, limit, Stamps(out)) && Firsts(Stamps(out)) == Ids(l[..|out|])
  {
    var ids := Stamps(out);
    IdsCount(l);
    forall i, j | 0 <= i < j < |ids| ensures ids[i].0 != ids[j].0 {
      if l[i].id == l[j].id { DistinctAt(l, i, j); }
    }
    forall i | 0 <= i < |ids| ensures ids[i].0 in WaitingAt(a, d) && ids[i].1 == a[ids[i].0].gen {
      IdAt(l, i);
    }
    var front := l[..|out|];
    forall id | id in Firsts(ids) ensures id in Ids(front) {
      var p :| p in ids && p.0 == id;
      var i :| 0 <= i < |ids| && ids[i] == p;
      IdAt(front, i);
    }
    forall id | id in Ids(front) ensures id in Firsts(ids) {
      var i := IdWitness(front, id);
      assert ids[i] in ids;
    }
  }
}
