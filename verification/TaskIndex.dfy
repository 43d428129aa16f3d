/**
 The per-device index of task ids beside the hash of task states: the list it gives and the list that
 a full scan of the hash gives.
 */
module TaskIndex {
  import opened Wrappers
  import opened Motion
  import opened TaskModel

  type States = map<TaskId, TaskState>
  type Index = map<DeviceId, set<TaskId>>

  function Members(index: Index, d: DeviceId): set<TaskId> {
    if d in index then index[d] else {}
  }

  /** The task has an active state on this device. */
  predicate ActiveOn(tasks: States, d: DeviceId, id: TaskId) {
    id in tasks && tasks[id].task.Some? && tasks[id].task.value.device == d && Active(tasks[id].status)
  }

  /** The active tasks of a device among `ids`, in that order. */
  function Listed(tasks: States, d: DeviceId, ids: seq<TaskId>): seq<Task> {
    if ids == [] then []
    else (if ActiveOn(tasks, d, ids[0]) then [tasks[ids[0]].task.value] else []) + Listed(tasks, d, ids[1..])
  }

  lemma ListedFrom(tasks: States, d: DeviceId, ids: seq<TaskId>, i: nat)
    requires i <= |ids|
    ensures Listed(tasks, d, ids[i..])
         == if i == |ids| then []
            else (if ActiveOn(tasks, d, ids[i]) then [tasks[ids[i]].task.value] else []) + Listed(tasks, d, ids[i + 1..])
  {
    if i < |ids| { assert ids[i..][1..] == ids[i + 1..]; }
  }

  /** A listing shows exactly the tasks of the device whose status is one of the seven active ones. */
  lemma {:induction false} ListsActive(tasks: States, d: DeviceId, ids: seq<TaskId>, t: Task)
    ensures t in Listed(tasks, d, ids)
      <==> exists id :: id in ids && id in tasks && tasks[id].task == Some(t) && t.device == d
             && (tasks[id].status == Queued || tasks[id].status == Dispatching || tasks[id].status == Dispatched
                 || tasks[id].status == Running || tasks[id].status == Processing || tasks[id].status == Progress
                 || tasks[id].status == Accepted)
  {
    if ids != [] {
      ListsActive(tasks, d, ids[1..], t);
      assert forall id :: id in ids <==> id == ids[0] || id in ids[1..];
    }
  }

  /** The ids whose state names this device, active or not. */
  function Matching(tasks: States, d: DeviceId): set<TaskId> {
    set id | id in tasks && tasks[id].task.Some? && tasks[id].task.value.device == d
  }

  function Hits(tasks: States, d: DeviceId): set<TaskId> {
    set id | id in tasks && ActiveOn(tasks, d, id)
  }

  // ---------------------------------------------------------------- writes

  datatype Hash = Hash(tasks: States, index: Index)

  /** SADD to the index of the device that the state names, if it names one. */
  function IndexAdd(index: Index, id: TaskId, st: TaskState): Index {
    if st.task.Some? && st.task.value.device.name != ""
    then index[st.task.value.device := Members(index, st.task.value.device) + {id}] else index
  }

  datatype Step =
    | Blind(id: TaskId, state: TaskState)
    | CasWrite(id: TaskId, state: TaskState, expected: int)
    | Record(id: TaskId, event: Event)
    | Rebuild(device: DeviceId)

  function CasPasses(tasks: States, id: TaskId, expected: int): bool {
    if id in tasks then tasks[id].version == expected else expected < 0
  }

  function Written(h: Hash, id: TaskId, st: TaskState): Hash {
    Hash(h.tasks[id := st], IndexAdd(h.index, id, st))
  }

  function Apply(h: Hash, s: Step): Hash {
    match s
    case Blind(id, st) => Written(h, id, st)
    case CasWrite(id, st, expected) => if CasPasses(h.tasks, id, expected) then Written(h, id, st) else h
    case Record(id, e) =>
      if id in h.tasks then h.(tasks := h.tasks[id := AppendEvent(e, h.tasks[id])])
      else Written(h, id, Fresh(None, e.phase, [e]))
    case Rebuild(d) =>
      h.(index := if Matching(h.tasks, d) == {} then h.index - {d}
                  else h.index[d := Members(h.index, d) + Matching(h.tasks, d)])
  }

  function ApplyAll(h: Hash, steps: seq<Step>): Hash
    decreases |steps|
  {
    if steps == [] then h else ApplyAll(Apply(h, steps[0]), steps[1..])
  }

  /** Every task of a named device is in that device's index. */
  ghost predicate Covered(h: Hash) {
    forall d: DeviceId, id :: d.name != "" && id in Matching(h.tasks, d) ==> id in Members(h.index, d)
  }

  lemma StepCovers(h: Hash, s: Step)
    requires Covered(h)
    ensures Covered(Apply(h, s))
  {
    var h' := Apply(h, s);
    forall d: DeviceId, id | d.name != "" && id in Matching(h'.tasks, d) ensures id in Members(h'.index, d) {
      assert id in Matching(h.tasks, d) || !s.Rebuild?;
    }
  }

  lemma {:induction false} RunCovers(h: Hash, steps: seq<Step>)
    requires Covered(h)
    ensures Covered(ApplyAll(h, steps))
    decreases |steps|
  {
    if steps != [] {
      StepCovers(h, steps[0]);
      RunCovers(Apply(h, steps[0]), steps[1..]);
    }
  }

  // ---------------------------------------------------------------- the two lists

  /** `order` enumerates the set once, in any order: what SMEMBERS and HGETALL return. */
  predicate Enumerates(order: seq<TaskId>, ids: set<TaskId>) {
    multiset(order) == multiset(ids)
  }

  /** The ids that a listing keeps. */
  function Kept(tasks: States, d: DeviceId, ids: seq<TaskId>): seq<TaskId> {
    if ids == [] then [] else (if ActiveOn(tasks, d, ids[0]) then [ids[0]] else []) + Kept(tasks, d, ids[1..])
  }

  lemma {:induction false} KeptCount(tasks: States, d: DeviceId, ids: seq<TaskId>, id: TaskId)
    ensures multiset(Kept(tasks, d, ids))[id] == if ActiveOn(tasks, d, id) then multiset(ids)[id] else 0
    ensures |Kept(tasks, d, ids)| == |Listed(tasks, d, ids)|
  {
    if ids != [] {
      KeptCount(tasks, d, ids[1..], id);
      assert ids == [ids[0]] + ids[1..];
    }
  }

  lemma KeptBag(tasks: States, d: DeviceId, order: seq<TaskId>, ids: set<TaskId>)
    requires Enumerates(order, ids)
    ensures multiset(Kept(tasks, d, order)) == multiset(ids * Hits(tasks, d))
    ensures |Listed(tasks, d, order)| == |ids * Hits(tasks, d)|
  {
    forall id ensures multiset(Kept(tasks, d, order))[id] == multiset(ids * Hits(tasks, d))[id] {
      KeptCount(tasks, d, order, id);
      assert multiset(order)[id] == multiset(ids)[id];
    }
    KeptCount(tasks, d, order, TaskId(0));
    var kept, wanted := Kept(tasks, d, order), ids * Hits(tasks, d);
    assert multiset(kept) == multiset(wanted);
    assert |multiset(kept)| == |kept| && |multiset(wanted)| == |wanted|;
  }

  lemma {:induction false} ListedOfKept(tasks: States, d: DeviceId, ids: seq<TaskId>)
    ensures Listed(tasks, d, Kept(tasks, d, ids)) == Listed(tasks, d, ids)
  {
    if ids != [] {
      var rest := Kept(tasks, d, ids[1..]);
      ListedOfKept(tasks, d, ids[1..]);
      assert ([ids[0]] + rest)[1..] == rest;
      assert [] + rest == rest;
    }
  }

  lemma {:induction false} ListedConcat(tasks: States, d: DeviceId, a: seq<TaskId>, b: seq<TaskId>)
    ensures Listed(tasks, d, a + b) == Listed(tasks, d, a) + Listed(tasks, d, b)
  {
    if a == [] {
      assert a + b == b;
    } else {
      assert (a + b)[1..] == a[1..] + b;
      ListedConcat(tasks, d, a[1..], b);
    }
  }

  lemma Cancel(x: TaskId, p: multiset<TaskId>, q: multiset<TaskId>)
    requires p + multiset{x} == q + multiset{x}
    ensures p == q
  {
    assert p == p + multiset{x} - multiset{x};
    assert q == q + multiset{x} - multiset{x};
  }

  lemma BagWithout(ys: seq<TaskId>, i: nat)
    requires i < |ys|
    ensures multiset(ys) == multiset(ys[..i] + ys[i + 1..]) + multiset{ys[i]}
  {
    assert ys == ys[..i] + [ys[i]] + ys[i + 1..];
  }

  /** Taking one occurrence out of two equal bags. */
  lemma TakeOne(xs: seq<TaskId>, ys: seq<TaskId>) returns (i: nat)
    requires xs != [] && multiset(xs) == multiset(ys)
    ensures i < |ys| && ys[i] == xs[0] && multiset(xs[1..]) == multiset(ys[..i] + ys[i + 1..])
  {
    BagWithout(xs, 0);
    assert xs[..0] + xs[0 + 1..] == xs[1..];
    assert xs[0] in multiset(ys);
    i :| 0 <= i < |ys| && ys[i] == xs[0];
    BagWithout(ys, i);
    Cancel(xs[0], multiset(xs[1..]), multiset(ys[..i] + ys[i + 1..]));
  }

  lemma ListedAround(tasks: States, d: DeviceId, ys: seq<TaskId>, i: nat)
    requires i < |ys|
    ensures multiset(Listed(tasks, d, ys)) == multiset(Listed(tasks, d, [ys[i]])) + multiset(Listed(tasks, d, ys[..i] + ys[i + 1..]))
  {
    var a, b := ys[..i], ys[i + 1..];
    assert ys == a + ([ys[i]] + b);
    ListedConcat(tasks, d, a, [ys[i]] + b);
    ListedConcat(tasks, d, [ys[i]], b);
    ListedConcat(tasks, d, a, b);
  }

  /** A listing as a bag depends only on which ids are listed. */
  lemma {:induction false} ListedPermuted(tasks: States, d: DeviceId, xs: seq<TaskId>, ys: seq<TaskId>)
    requires multiset(xs) == multiset(ys)
    ensures multiset(Listed(tasks, d, xs)) == multiset(Listed(tasks, d, ys))
  {
    if xs == [] {
      assert |multiset(ys)| == 0;
    } else {
      var i := TakeOne(xs, ys);
      ListedPermuted(tasks, d, xs[1..], ys[..i] + ys[i + 1..]);
      ListedAround(tasks, d, ys, i);
      ListedAround(tasks, d, xs, 0);
      assert xs[..0] + xs[0 + 1..] == xs[1..];
    }
  }

  /** Listing by the members of an index and by a full scan give the same bag of tasks exactly when the
      index misses no active task of the device. */
  lemma AgreeIff(tasks: States, d: DeviceId, members: set<TaskId>, byIndex: seq<TaskId>, byScan: seq<TaskId>)
    requires Enumerates(byIndex, members) && Enumerates(byScan, tasks.Keys)
    ensures multiset(Listed(tasks, d, byIndex)) == multiset(Listed(tasks, d, byScan)) <==> Hits(tasks, d) <= members
  {
    KeptBag(tasks, d, byIndex, members);
    KeptBag(tasks, d, byScan, tasks.Keys);
    var hits := Hits(tasks, d);
    assert tasks.Keys * hits == hits;
    if hits <= members {
      assert members * hits == hits;
      ListedPermuted(tasks, d, Kept(tasks, d, byIndex), Kept(tasks, d, byScan));
      ListedOfKept(tasks, d, byIndex);
      ListedOfKept(tasks, d, byScan);
    } else {
      var id :| id in hits && id !in members;
      assert members * hits < hits;
      ProperSize(members * hits, hits);
      assert |multiset(Listed(tasks, d, byIndex))| < |multiset(Listed(tasks, d, byScan))|;
    }
  }

  lemma ProperSize(a: set<TaskId>, b: set<TaskId>)
    requires a < b
    ensures |a| < |b|
  {
    assert b == a + (b - a);
    assert |b| == |a| + |b - a|;
  }

  /** What the indexed query answers: with no member in the index it rebuilds and scans. */
  function IndexedAnswer(h: Hash, d: DeviceId, byIndex: seq<TaskId>, byScan: seq<TaskId>): seq<Task> {
    if Members(h.index, d) == {} then Listed(h.tasks, d, byScan) else Listed(h.tasks, d, byIndex)
  }

  const EMPTY: Hash := Hash(map[], map[])

  /** After any writes and rebuilds from an empty store, the indexed list of a named device is the bag
      that the full scan gives. */
  lemma IndexAgrees(steps: seq<Step>, d: DeviceId, byIndex: seq<TaskId>, byScan: seq<TaskId>)
    requires var h := ApplyAll(EMPTY, steps);
      d.name != "" && Enumerates(byIndex, Members(h.index, d)) && Enumerates(byScan, h.tasks.Keys)
    ensures var h := ApplyAll(EMPTY, steps);
      multiset(IndexedAnswer(h, d, byIndex, byScan)) == multiset(Listed(h.tasks, d, byScan))
  {
    var h := ApplyAll(EMPTY, steps);
    RunCovers(EMPTY, steps);
    forall id | id in Hits(h.tasks, d) ensures id in Members(h.index, d) {
      assert id in Matching(h.tasks, d);
    }
    AgreeIff(h.tasks, d, Members(h.index, d), byIndex, byScan);
  }

  lemma ThreeSteps(h: Hash, a: Step, b: Step, c: Step)
    ensures ApplyAll(h, [a, b, c]) == Apply(Apply(Apply(h, a), b), c)
  {
    hide Apply;
    assert [a, b, c][1..] == [b, c] && [b, c][1..] == [c] && [c][1..] == [];
    var h1 := Apply(h, a);
    var h2 := Apply(h1, b);
    assert ApplyAll(h2, [c]) == ApplyAll(Apply(h2, c), []);
    assert ApplyAll(h1, [b, c]) == ApplyAll(h2, [c]);
  }

  /** For the device with the empty name this fails: a rebuild indexes its tasks, a later write does not. */
  lemma EmptyNameMisses() returns (steps: seq<Step>, byIndex: seq<TaskId>, byScan: seq<TaskId>)
    ensures var (h, d) := (ApplyAll(EMPTY, steps), DeviceId(""));
      Enumerates(byIndex, Members(h.index, d)) && Enumerates(byScan, h.tasks.Keys)
      && multiset(IndexedAnswer(h, d, byIndex, byScan)) != multiset(Listed(h.tasks, d, byScan))
  {
    var d := DeviceId("");
    var t1 := Task(TaskId(1), d, Body(Home, map[]), 0.0, None);
    var t2 := t1.(id := TaskId(2));
    var s1, s2 := Fresh(Some(t1), Queued, []), Fresh(Some(t2), Queued, []);
    steps := [Blind(t1.id, s1), Rebuild(d), Blind(t2.id, s2)];
    byIndex, byScan := [t1.id], [t1.id, t2.id];
    var h1 := Apply(EMPTY, steps[0]);
    assert Matching(h1.tasks, d) == {t1.id};
    var h2 := Apply(h1, steps[1]);
    assert Members(h2.index, d) == {t1.id};
    var h3 := Apply(h2, steps[2]);
    ThreeSteps(EMPTY, steps[0], steps[1], steps[2]);
    assert h3.tasks.Keys == {t1.id, t2.id};
    assert t2.id in Hits(h3.tasks, d);
    AgreeIff(h3.tasks, d, Members(h3.index, d), byIndex, byScan);
  }

  // ---------------------------------------------------------------- command by command

  /** An index command that some client has yet to send: the SADD after a write, or what a rebuild decided on. */
  datatype Due = ToAdd(device: DeviceId, ids: set<TaskId>) | ToDelete(device: DeviceId)

  /** The stored hash and index, and the index commands under way. */
  datatype Live = Live(hash: Hash, due: seq<Due>)

  /** One Redis command: the write of a state (blind or compare-and-swap), the append script, the blind write of a
      stub, the scan of a rebuild, or an index command under way. */
  datatype Command =
    | Put(id: TaskId, state: TaskState, expected: Option<int>)
    | Append(id: TaskId, event: Event)
    | Stub(id: TaskId, event: Event)
    | Plan(device: DeviceId)
    | Finish(index: nat)

  function Owed(id: TaskId, st: TaskState): seq<Due> {
    if st.task.Some? && st.task.value.device.name != "" then [ToAdd(st.task.value.device, {id})] else []
  }

  function Without(due: seq<Due>, i: nat): seq<Due>
    requires i < |due|
  {
    due[..i] + due[i + 1..]
  }

  function Perform(index: Index, u: Due): Index {
    if u.ToAdd? then index[u.device := Members(index, u.device) + u.ids] else index - {u.device}
  }

  function Go(l: Live, c: Command): Live {
    var h := l.hash;
    match c
    case Put(id, st, expected) =>
      if expected.Some? && !CasPasses(h.tasks, id, expected.value) then l
      else Live(h.(tasks := h.tasks[id := st]), l.due + Owed(id, st))
    case Append(id, e) =>
      if id in h.tasks then l.(hash := h.(tasks := h.tasks[id := AppendEvent(e, h.tasks[id])])) else l
    case Stub(id, e) => l.(hash := h.(tasks := h.tasks[id := Fresh(None, e.phase, [e])]))
    case Plan(d) =>
      l.(due := l.due + [if Matching(h.tasks, d) == {} then ToDelete(d) else ToAdd(d, Matching(h.tasks, d))])
    case Finish(i) =>
      if i < |l.due| then Live(h.(index := Perform(h.index, l.due[i])), Without(l.due, i)) else l
  }

  function GoAll(l: Live, cs: seq<Command>): Live {
    if cs == [] then l else Go(GoAll(l, cs[..|cs| - 1]), cs[|cs| - 1])
  }

  predicate IsDue(due: seq<Due>, d: DeviceId, id: TaskId) {
    exists i :: 0 <= i < |due| && due[i].ToAdd? && due[i].device == d && id in due[i].ids
  }

  predicate InOrDue(l: Live, d: DeviceId, id: TaskId) {
    id in Members(l.hash.index, d) || IsDue(l.due, d, id)
  }

  /** Every task of a named device is in its index, or on the way there. */
  ghost predicate CoveredOrDue(l: Live) {
    forall d: DeviceId, id :: d.name != "" && id in Matching(l.hash.tasks, d) ==> InOrDue(l, d, id)
  }

  /** The DEL of a rebuild that found nothing, sent when a task of the device has been written and indexed since. */
  ghost predicate StaleDelete(l: Live, c: Command) {
    c.Finish? && c.index < |l.due| && l.due[c.index].ToDelete?
    && var d := l.due[c.index].device;
       d.name != "" && exists id :: id in Matching(l.hash.tasks, d) && !IsDue(Without(l.due, c.index), d, id)
  }

  lemma DueLater(due: seq<Due>, more: seq<Due>, d: DeviceId, id: TaskId)
    ensures IsDue(due + more, d, id) <==> IsDue(due, d, id) || IsDue(more, d, id)
  {
    if IsDue(due, d, id) {
      var i :| 0 <= i < |due| && due[i].ToAdd? && due[i].device == d && id in due[i].ids;
      assert (due + more)[i] == due[i];
    }
    if IsDue(more, d, id) {
      var i :| 0 <= i < |more| && more[i].ToAdd? && more[i].device == d && id in more[i].ids;
      assert (due + more)[|due| + i] == more[i];
    }
  }

  lemma DueWithout(due: seq<Due>, i: nat, d: DeviceId, id: TaskId)
    requires i < |due|
    ensures IsDue(due, d, id)
      <==> IsDue(Without(due, i), d, id) || (due[i].ToAdd? && due[i].device == d && id in due[i].ids)
  {
    assert due == due[..i] + ([due[i]] + due[i + 1..]);
    DueLater(due[..i], [due[i]] + due[i + 1..], d, id);
    DueLater([due[i]], due[i + 1..], d, id);
    DueLater(due[..i], due[i + 1..], d, id);
    assert [due[i]][0] == due[i];
  }

  /** One command keeps the index complete up to what is under way, unless it is a stale DEL, which never does. */
  lemma CommandCovers(l: Live, c: Command)
    requires CoveredOrDue(l)
    ensures CoveredOrDue(Go(l, c)) <==> !StaleDelete(l, c)
  {
    hide IsDue;
    var l' := Go(l, c);
    if StaleDelete(l, c) {
      var d := l.due[c.index].device;
      var id :| id in Matching(l.hash.tasks, d) && !IsDue(Without(l.due, c.index), d, id);
      assert id in Matching(l'.hash.tasks, d) && !InOrDue(l', d, id);
    } else {
      forall d: DeviceId, id | d.name != "" && id in Matching(l'.hash.tasks, d) ensures InOrDue(l', d, id) {
        CommandKeeps(l, c, d, id);
      }
    }
  }

  lemma CommandKeeps(l: Live, c: Command, d: DeviceId, id: TaskId)
    requires CoveredOrDue(l) && !StaleDelete(l, c) && d.name != "" && id in Matching(Go(l, c).hash.tasks, d)
    ensures InOrDue(Go(l, c), d, id)
  {
    match c
    case Put(x, st, expected) =>
      DueLater(l.due, Owed(x, st), d, id);
      if id == x && (expected.None? || CasPasses(l.hash.tasks, x, expected.value)) {
        assert Owed(x, st)[0] == ToAdd(d, {id});
        assert IsDue(Owed(x, st), d, id);
      } else {
        assert id in Matching(l.hash.tasks, d);
      }
    case Append(x, e) => assert id in Matching(l.hash.tasks, d);
    case Stub(x, e) => assert id in Matching(l.hash.tasks, d);
    case Plan(x) =>
      var u := if Matching(l.hash.tasks, x) == {} then ToDelete(x) else ToAdd(x, Matching(l.hash.tasks, x));
      DueLater(l.due, [u], d, id);
    case Finish(i) =>
      if i < |l.due| { DueWithout(l.due, i, d, id); }
  }

  const QUIET: Live := Live(EMPTY, [])

  ghost predicate AlwaysCovered(cs: seq<Command>) {
    CoveredOrDue(GoAll(QUIET, cs)) && (cs == [] || AlwaysCovered(cs[..|cs| - 1]))
  }

  ghost predicate NeverStale(cs: seq<Command>) {
    cs == [] || (NeverStale(cs[..|cs| - 1]) && !StaleDelete(GoAll(QUIET, cs[..|cs| - 1]), cs[|cs| - 1]))
  }

  /** On every schedule of commands from an empty store every task of a named device is, at each point, in its index
      or on the way there, exactly when no stale DEL was sent. */
  lemma {:induction false} ScheduleCovers(cs: seq<Command>)
    ensures AlwaysCovered(cs) <==> NeverStale(cs)
  {
    hide CoveredOrDue, StaleDelete, Go, GoAll, AlwaysCovered, NeverStale;
    if cs == [] {
      NothingYet();
    } else {
      var front := cs[..|cs| - 1];
      ScheduleCovers(front);
      LastCommand(cs);
      if AlwaysCovered(front) {
        CoveredNow(front);
        CommandCovers(GoAll(QUIET, front), cs[|front|]);
      }
    }
  }

  lemma NothingYet()
    ensures AlwaysCovered([]) && NeverStale([])
  {
  }

  lemma LastCommand(cs: seq<Command>)
    requires cs != []
    ensures var (front, c) := (cs[..|cs| - 1], cs[|cs| - 1]);
      && (AlwaysCovered(cs) <==> CoveredOrDue(Go(GoAll(QUIET, front), c)) && AlwaysCovered(front))
      && (NeverStale(cs) <==> NeverStale(front) && !StaleDelete(GoAll(QUIET, front), c))
  {
    hide CoveredOrDue, StaleDelete, Go;
  }

  lemma CoveredNow(cs: seq<Command>)
    requires AlwaysCovered(cs)
    ensures CoveredOrDue(GoAll(QUIET, cs))
  {
    hide CoveredOrDue;
  }

  /** A listing in the middle of a schedule without a stale DEL: the index gives the bag of the scan exactly when no
      active task of the device is still on its way into the index; so it does when no index command is under way.
      The indexed query, which scans when the index is empty, also gives it then. */
  lemma ListingAgrees(cs: seq<Command>, d: DeviceId, byIndex: seq<TaskId>, byScan: seq<TaskId>)
    requires d.name != "" && NeverStale(cs)
    requires var h := GoAll(QUIET, cs).hash;
      Enumerates(byIndex, Members(h.index, d)) && Enumerates(byScan, h.tasks.Keys)
    ensures var (h, due) := (GoAll(QUIET, cs).hash, GoAll(QUIET, cs).due);
      multiset(Listed(h.tasks, d, byIndex)) == multiset(Listed(h.tasks, d, byScan))
      <==> forall id :: id in Hits(h.tasks, d) && IsDue(due, d, id) ==> id in Members(h.index, d)
    ensures var (h, due) := (GoAll(QUIET, cs).hash, GoAll(QUIET, cs).due);
      due == [] ==> multiset(Listed(h.tasks, d, byIndex)) == multiset(Listed(h.tasks, d, byScan))
    ensures var (h, due) := (GoAll(QUIET, cs).hash, GoAll(QUIET, cs).due);
      multiset(IndexedAnswer(h, d, byIndex, byScan)) == multiset(Listed(h.tasks, d, byScan))
      <==> Members(h.index, d) == {}
           || forall id :: id in Hits(h.tasks, d) && IsDue(due, d, id) ==> id in Members(h.index, d)
  {
    ScheduleCovers(cs);
    CoveredNow(cs);
    var l := GoAll(QUIET, cs);
    AgreeIff(l.hash.tasks, d, Members(l.hash.index, d), byIndex, byScan);
    forall id | id in Hits(l.hash.tasks, d) ensures InOrDue(l, d, id) { assert id in Matching(l.hash.tasks, d); }
  }

  lemma GoSnoc(cs: seq<Command>, c: Command)
    ensures GoAll(QUIET, cs + [c]) == Go(GoAll(QUIET, cs), c)
  {
    assert (cs + [c])[..|cs|] == cs;
  }

  /** A rebuild scans an empty device; before its DEL a first task is written and indexed; then a second one is.  Nothing
      is under way any more, and the index gives the second task only. */
  lemma StaleDeleteHides(d: DeviceId, t1: Task, t2: Task) returns (cs: seq<Command>)
    requires d.name != "" && t1.device == d && t2.device == d && t1.id != t2.id
    ensures var l := GoAll(QUIET, cs);
      l.due == [] && t1.id in Hits(l.hash.tasks, d) && Members(l.hash.index, d) == {t2.id}
  {
    hide Go, GoAll;
    var s1, s2 := Fresh(Some(t1), Queued, []), Fresh(Some(t2), Queued, []);
    var c1, c2, c3, c4, c5, c6 := Plan(d), Put(t1.id, s1, None), Finish(1), Finish(0), Put(t2.id, s2, None), Finish(0);
    cs := [] + [c1] + [c2] + [c3] + [c4] + [c5] + [c6];
    GoSnoc([], c1);
    GoSnoc([] + [c1], c2);
    GoSnoc([] + [c1] + [c2], c3);
    GoSnoc([] + [c1] + [c2] + [c3], c4);
    GoSnoc([] + [c1] + [c2] + [c3] + [c4], c5);
    GoSnoc([] + [c1] + [c2] + [c3] + [c4] + [c5], c6);
    PlanNothing(d);
    WriteAndAdd(Live(EMPTY, [ToDelete(d)]), d, t1);
    var l3 := Live(Hash(map[t1.id := s1], map[d := {t1.id}]), [ToDelete(d)]);
    var l4 := Live(Hash(map[t1.id := s1], map[]), []);
    assert Members(EMPTY.index, d) + {t1.id} == {t1.id};
    FinishDelete(l3, l4, d);
    WriteAndAdd(l4, d, t2);
  }

  lemma PlanNothing(d: DeviceId)
    ensures GoAll(QUIET, []) == QUIET && Go(QUIET, Plan(d)) == Live(EMPTY, [ToDelete(d)])
  {
    assert Matching(EMPTY.tasks, d) == {};
  }

  lemma FinishDelete(l: Live, after: Live, d: DeviceId)
    requires l.due == [ToDelete(d)] && after == Live(l.hash.(index := l.hash.index - {d}), [])
    ensures Go(l, Finish(0)) == after
  {
  }

  /** A client writes a state and then indexes it. */
  lemma WriteAndAdd(l: Live, d: DeviceId, t: Task)
    requires d.name != "" && t.device == d
    ensures var st := Fresh(Some(t), Queued, []);
      Go(Go(l, Put(t.id, st, None)), Finish(|l.due|))
      == Live(Hash(l.hash.tasks[t.id := st], l.hash.index[d := Members(l.hash.index, d) + {t.id}]), l.due)
  {
    var due := l.due + [ToAdd(d, {t.id})];
    assert Without(due, |l.due|) == l.due;
  }

  // ---------------------------------------------------------------- the class

  class IndexedTaskHash {
    var tasks: States
    var index: Index

    constructor ()
      ensures View() == EMPTY
    {
      tasks, index := map[], map[];
    }

    function View(): Hash
      reads this
    {
      Hash(tasks, index)
    }

    /** Write a state, by overwriting or by compare-and-swap, and index it when it was written. */
    method WriteTaskState(id: TaskId, state: TaskState, expected: Option<int>) returns (ok: bool)
      modifies this
      ensures View() == Apply(old(View()), if expected.Some? then CasWrite(id, state, expected.value) else Blind(id, state))
      ensures ok == (expected.None? || CasPasses(old(tasks), id, expected.value))
      ensures old(Covered(View())) ==> Covered(View())
    {
      if Covered(View()) {
        StepCovers(View(), if expected.Some? then CasWrite(id, state, expected.value) else Blind(id, state));
      }
      ok := expected.None? || CasPasses(tasks, id, expected.value);
      if ok {
        tasks := tasks[id := state];
        index := IndexAdd(index, id, state);
      }
    }

    /** The full scan, in whatever order the hash is returned. */
    method ActiveTasksScan(d: DeviceId, order: seq<TaskId>) returns (active: seq<Task>)
      requires Enumerates(order, tasks.Keys)
      ensures active == Listed(tasks, d, order)
    {
      hide Listed;
      active := [];
      assert order[0..] == order;
      for i := 0 to |order|
        invariant Listed(tasks, d, order) == active + Listed(tasks, d, order[i..])
      {
        ListedFrom(tasks, d, order, i);
        assert order[i] in multiset(order);
        var st := tasks[order[i]];
        if st.task.Some? && st.task.value.device == d && Active(st.status) {
          active := active + [st.task.value];
        }
      }
      ListedFrom(tasks, d, order, |order|);
    }

    /** SADD every matching id, or delete the key when there is none. */
    method ReconcileDeviceIndex(d: DeviceId, order: seq<TaskId>) returns (count: nat)
      requires Enumerates(order, tasks.Keys)
      modifies this`index
      ensures View() == Apply(old(View()), Rebuild(d)) && count == |Matching(tasks, d)|
      ensures forall id :: id in tasks && tasks[id].task.Some? && tasks[id].task.value.device == d ==> id in Members(index, d)
      ensures if count == 0 then d !in index else old(Members(index, d)) <= Members(index, d)
      ensures index - {d} == old(index) - {d}
    {
      var matching: set<TaskId> := {};
      for i := 0 to |order|
        invariant matching == set id | id in order[..i] && id in Matching(tasks, d)
      {
        assert order[..i + 1] == order[..i] + [order[i]];
        assert order[i] in multiset(order);
        var st := tasks[order[i]];
        if st.task.Some? && st.task.value.device == d { matching := matching + {order[i]}; }
      }
      forall id | id in Matching(tasks, d) ensures id in matching {
        assert id in multiset(order);
        assert order[..|order|] == order;
      }
      assert matching == Matching(tasks, d);
      if matching == {} {
        index := index - {d};
        return 0;
      }
      index := index[d := Members(index, d) + matching];
      count := |matching|;
    }

    method ActiveTasksIndexed(d: DeviceId, byIndex: seq<TaskId>, byScan: seq<TaskId>) returns (active: seq<Task>)
      requires Enumerates(byIndex, Members(index, d)) && Enumerates(byScan, tasks.Keys)
      modifies this`index
      ensures active == old(IndexedAnswer(View(), d, byIndex, byScan))
      ensures View() == if old(Members(index, d)) == {} then Apply(old(View()), Rebuild(d)) else old(View())
    {
      hide Listed, Apply;
      if Members(index, d) == {} {
        var _ := ReconcileDeviceIndex(d, byScan);
        active := ActiveTasksScan(d, byScan);
        return;
      }
      active := [];
      assert byIndex[0..] == byIndex;
      for i := 0 to |byIndex|
        invariant index == old(index)
        invariant Listed(tasks, d, byIndex) == active + Listed(tasks, d, byIndex[i..])
      {
        var id := byIndex[i];
        ListedFrom(tasks, d, byIndex, i);
        if id in tasks && tasks[id].task.Some? && tasks[id].task.value.device == d && Active(tasks[id].status) {
          active := active + [tasks[id].task.value];
        }
      }
      ListedFrom(tasks, d, byIndex, |byIndex|);
    }
  }
}
