/**
 The Redis task store with its methods run one at a time: first each operation as a function on the
 stored lists and states, then the class whose loops compute those functions command by command.
 */
module RedisStore {
  import opened Wrappers
  import opened Motion
  import opened TaskModel
  import opened RedisMachine

  datatype Store = Store(pending: Lists, processing: Lists, tasks: map<TaskId, TaskState>)

  // ---------------------------------------------------------------- operations as functions

  /** A compare-and-swap update with nobody interfering; a missing state is never written. */
  function Update(tasks: map<TaskId, TaskState>, id: TaskId, m: Mutator): map<TaskId, TaskState> {
    if id in tasks then tasks[id := Swap(m, tasks[id])] else tasks
  }

  function UpdateIn(s: Store, id: TaskId, m: Mutator): Store {
    s.(tasks := Update(s.tasks, id, m))
  }

  function EnqueueS(s: Store, d: DeviceId, t: Task, now: real): Store {
    var t1 := t.(enqueuedAt := now);
    UpdateIn(s.(pending := s.pending[d := At(s.pending, d) + [t1]]), t1.id, MEnqueue(t1))
  }

  /** LMOVE LEFT LEFT, up to `n` times. */
  function MoveS(s: Store, d: DeviceId, n: nat): (Store, seq<Task>)
    decreases n
  {
    var list := At(s.pending, d);
    if n == 0 || list == [] then (s, [])
    else
      var s1 := s.(pending := s.pending[d := list[1..]], processing := s.processing[d := [list[0]] + At(s.processing, d)]);
      var (s2, rest) := MoveS(s1, d, n - 1);
      (s2, [list[0]] + rest)
  }

  function DropS(s: Store, d: DeviceId, t: Task): Store {
    UpdateIn(s.(processing := s.processing[d := RemoveFirst(At(s.processing, d), t)]), t.id, MGateFailed)
  }

  /** Drop what the gate rejects, keep the rest. */
  function GateS(cfg: Config, s: Store, d: DeviceId, raw: seq<Task>): (Store, seq<Task>)
    decreases |raw|
  {
    if raw == [] then (s, [])
    else if cfg.gate(raw[0]) then
      var (s1, rest) := GateS(cfg, s, d, raw[1..]);
      (s1, [raw[0]] + rest)
    else GateS(cfg, DropS(s, d, raw[0]), d, raw[1..])
  }

  function GenOf(tasks: map<TaskId, TaskState>, id: TaskId): nat {
    if id in tasks then tasks[id].dispatchGen else 0
  }

  /** Mark each task dispatching and stamp the generation its state then has. */
  function DispatchS(s: Store, tasks: seq<Task>, now: real): (Store, seq<Task>)
    decreases |tasks|
  {
    if tasks == [] then (s, [])
    else
      var t := tasks[0];
      var s1 := UpdateIn(s, t.id, MDispatch(t, now));
      var (s2, rest) := DispatchS(s1, tasks[1..], now);
      (s2, [t.(stamp := Some(GenOf(s1.tasks, t.id)))] + rest)
  }

  lemma DispatchNext(s: Store, tasks: seq<Task>, i: nat, now: real)
    requires i <= |tasks|
    ensures DispatchS(s, tasks[i..], now)
         == if i == |tasks| then (s, [])
            else var t := tasks[i];
                 var s1 := UpdateIn(s, t.id, MDispatch(t, now));
                 var (s2, rest) := DispatchS(s1, tasks[i + 1..], now);
                 (s2, [t.(stamp := Some(GenOf(s1.tasks, t.id)))] + rest)
  {
    hide UpdateIn;
    if i < |tasks| { assert tasks[i..][1..] == tasks[i + 1..]; }
  }

  function PopS(cfg: Config, s: Store, d: DeviceId, limit: nat, now: real): (Store, seq<Task>) {
    var (s1, raw) := MoveS(s, d, limit);
    var (s2, tasks) := GateS(cfg, s1, d, raw);
    DispatchS(s2, tasks, now)
  }

  /** Take the first processing entry with this id off the list. */
  function TakeS(s: Store, d: DeviceId, id: TaskId): (Store, bool) {
    var found := FindId(At(s.processing, d), id);
    if found.None? then (s, false)
    else (s.(processing := s.processing[d := RemoveFirst(At(s.processing, d), found.value)]), true)
  }

  function TakeAllS(s: Store, d: DeviceId, tasks: seq<Task>): Store
    decreases |tasks|
  {
    if tasks == [] then s else TakeAllS(TakeS(s, d, tasks[0].id).0, d, tasks[1..])
  }

  function MarkRequeuedS(s: Store, tasks: seq<Task>): Store
    decreases |tasks|
  {
    if tasks == [] then s else MarkRequeuedS(UpdateIn(s, tasks[0].id, MRequeue(tasks[0])), tasks[1..])
  }

  function RequeueS(s: Store, d: DeviceId, tasks: seq<Task>): Store {
    if tasks == [] then s
    else
      var s1 := TakeAllS(s, d, tasks);
      MarkRequeuedS(s1.(pending := s1.pending[d := tasks + At(s1.pending, d)]), tasks)
  }

  function AckS(cfg: Config, s: Store, d: DeviceId, id: TaskId, gen: Option<nat>): (Store, bool) {
    var state := if id in s.tasks then Some(s.tasks[id]) else None;
    var v := Judge(state, gen, cfg.strict);
    if v.Reject? then (s, false)
    else if v.CleanUpAndReject? then (TakeS(s, d, id).0, false)
    else
      var (s1, ok) := TakeS(s, d, id);
      (if ok then UpdateIn(s1, id, MClearStarted) else s1, ok)
  }

  function AbandonS(s: Store, d: DeviceId, id: TaskId): (Store, bool) {
    var (s1, ok) := TakeS(s, d, id);
    (if ok then UpdateIn(s1, id, MDeadLetter) else s1, ok)
  }

  function RemoveS(s: Store, d: DeviceId, id: TaskId): (Store, bool) {
    var found := FindId(At(s.pending, d), id);
    if found.None? then (s, false)
    else (s.(pending := s.pending[d := RemoveFirst(At(s.pending, d), found.value)]), true)
  }

  /** One processing entry of a recovery. */
  function RecoverOneS(s: Store, d: DeviceId, item: Task, timeout: real, now: real): (Store, nat) {
    var state := if item.id in s.tasks then Some(s.tasks[item.id]) else None;
    if Stale(StartOf(item, state), now, timeout) && item in At(s.processing, d) then
      (UpdateIn(s.(processing := s.processing[d := RemoveAll(At(s.processing, d), item)],
                   pending := s.pending[d := [item] + At(s.pending, d)]), item.id, MRecover(now)), 1)
    else (s, 0)
  }

  function RecoverItemsS(s: Store, d: DeviceId, items: seq<Task>, timeout: real, now: real): (Store, nat)
    decreases |items|
  {
    if items == [] then (s, 0)
    else
      var (s1, k) := RecoverOneS(s, d, items[0], timeout, now);
      var (s2, rest) := RecoverItemsS(s1, d, items[1..], timeout, now);
      (s2, k + rest)
  }

  function RecoverS(s: Store, d: DeviceId, timeout: real, now: real): (Store, nat) {
    RecoverItemsS(s, d, At(s.processing, d), timeout, now)
  }

  function ExpireOneS(s: Store, d: DeviceId, item: Task, maxAge: real, now: real): (Store, nat) {
    if Stale(item.enqueuedAt, now, maxAge) && item in At(s.pending, d) then
      (UpdateIn(s.(pending := s.pending[d := RemoveFirst(At(s.pending, d), item)]), item.id, MExpire), 1)
    else (s, 0)
  }

  function ExpireItemsS(s: Store, d: DeviceId, items: seq<Task>, maxAge: real, now: real): (Store, nat)
    decreases |items|
  {
    if items == [] then (s, 0)
    else
      var (s1, k) := ExpireOneS(s, d, items[0], maxAge, now);
      var (s2, rest) := ExpireItemsS(s1, d, items[1..], maxAge, now);
      (s2, k + rest)
  }

  function ExpireS(s: Store, d: DeviceId, maxAge: real, now: real): (Store, nat) {
    ExpireItemsS(s, d, At(s.pending, d), maxAge, now)
  }

  function RecordS(s: Store, id: TaskId, e: Event): Store {
    s.(tasks := s.tasks[id := if id in s.tasks then AppendEvent(e, s.tasks[id]) else Fresh(None, e.phase, [e])])
  }

  // ---------------------------------------------------------------- the class

  class RedisDeviceTaskStore {
    var pending: Lists
    var processing: Lists
    var tasks: map<TaskId, TaskState>
    const cfg: Config

    constructor (cfg: Config)
      ensures this.cfg == cfg && View() == Store(map[], map[], map[])
    {
      this.cfg := cfg;
      pending, processing, tasks := map[], map[], map[];
    }

    function View(): Store
      reads this
    {
      Store(pending, processing, tasks)
    }

    /** The compare-and-swap script: 1 written, 0 other version, 2 missing.  It creates a missing state
        only for an expected version below zero. */
    method CasScript(id: TaskId, state: TaskState, expected: int) returns (code: int)
      modifies this`tasks
      ensures code == if id !in old(tasks) then (if expected < 0 then 1 else 2)
                      else if old(tasks)[id].version == expected then 1 else 0
      ensures tasks == if code == 1 then old(tasks)[id := state] else old(tasks)
    {
      if id !in tasks {
        if expected < 0 {
          tasks := tasks[id := state];
          return 1;
        }
        return 2;
      }
      if tasks[id].version != expected { return 0; }
      tasks := tasks[id := state];
      return 1;
    }

    /** Read, mutate, compare-and-swap, up to three times.  Nobody else runs here, so an existing state
        is swapped at the first attempt; a default state is prepared but never written. */
    method CasUpdate(id: TaskId, m: Mutator, default: Option<TaskState>) returns (r: Option<TaskState>)
      modifies this`tasks
      ensures tasks == Update(old(tasks), id, m)
      ensures r == if id in old(tasks) then Some(Swap(m, old(tasks)[id])) else None
    {
      var attempts := 0;
      while attempts < MAX_RETRIES
        invariant tasks == old(tasks)
        invariant attempts > 0 ==> id !in tasks
      {
        if id !in tasks && default.None? { return None; }
        var state := if id in tasks then tasks[id] else default.value;
        var expected := state.version;
        var code := CasScript(id, Swap(m, state), expected);
        if code == 1 { return Some(Swap(m, state)); }
        attempts := attempts + 1;
      }
      return None;
    }

    method Create(t: Task, status: Status)
      modifies this`tasks
      ensures View() == old(View()).(tasks := old(tasks)[t.id := TaskState(Some(t), status, [], 0, 0, 0, None, None, false)])
    {
      tasks := tasks[t.id := Fresh(Some(t), status, [])];
    }

    /** The append script; when it finds no state, a stub is written. */
    method RecordMotionEvent(id: TaskId, e: Event) returns (eventCount: nat)
      modifies this`tasks
      ensures View() == RecordS(old(View()), id, e) && eventCount == |tasks[id].events|
      ensures tasks[id].events == (if id in old(tasks) then old(tasks)[id].events else []) + [e]
      ensures tasks[id].status == if e.phase == Empty && id in old(tasks) then old(tasks)[id].status else e.phase
    {
      if id in tasks {
        tasks := tasks[id := AppendEvent(e, tasks[id])];
      } else {
        tasks := tasks[id := Fresh(None, e.phase, [e])];
      }
      eventCount := |tasks[id].events|;
    }

    method Enqueue(d: DeviceId, t: Task, now: real) returns (depth: nat)
      modifies this
      ensures View() == EnqueueS(old(View()), d, t, now) && depth == |At(pending, d)|
      ensures At(pending, d) == old(At(pending, d)) + [t.(enqueuedAt := now)] && processing == old(processing)
      ensures tasks == if t.id in old(tasks) then old(tasks)[t.id := old(tasks)[t.id].(
                         task := Some(t.(enqueuedAt := now)), status := Queued, version := old(tasks)[t.id].version + 1)]
                       else old(tasks)
    {
      var t1 := t.(enqueuedAt := now);
      pending := pending[d := At(pending, d) + [t1]];
      depth := |pending[d]|;
      var _ := CasUpdate(t1.id, MEnqueue(t1), Some(Fresh(Some(t1), Created, [])));
    }

    /** Repeated LMOVE LEFT LEFT until the limit or an empty list. */
    method MoveMany(d: DeviceId, limit: nat) returns (results: seq<Task>)
      modifies this`pending, this`processing
      ensures (View(), results) == MoveS(old(View()), d, limit)
    {
      results := [];
      var n := limit;
      ghost var start := View();
      while n > 0
        invariant 0 <= n <= limit && tasks == old(tasks)
        invariant MoveS(start, d, limit).0 == MoveS(View(), d, n).0
        invariant MoveS(start, d, limit).1 == results + MoveS(View(), d, n).1
      {
        var list := At(pending, d);
        if list == [] { break; }
        pending := pending[d := list[1..]];
        processing := processing[d := [list[0]] + At(processing, d)];
        n := n - 1;
        results := results + [list[0]];
      }
      assert MoveS(View(), d, n) == (View(), []) && results + [] == results;
    }

    /** Drop what the gate rejects from processing and mark its state failed. */
    method GatePopped(d: DeviceId, raw: seq<Task>) returns (kept: seq<Task>)
      modifies this
      ensures (View(), kept) == GateS(cfg, old(View()), d, raw)
    {
      kept := [];
      ghost var start := View();
      assert raw[0..] == raw;
      for i := 0 to |raw|
        invariant GateS(cfg, start, d, raw).0 == GateS(cfg, View(), d, raw[i..]).0
        invariant GateS(cfg, start, d, raw).1 == kept + GateS(cfg, View(), d, raw[i..]).1
      {
        assert raw[i..][1..] == raw[i + 1..];
        if cfg.gate(raw[i]) {
          kept := kept + [raw[i]];
        } else {
          DropRejected(d, raw[i]);
        }
      }
      assert GateS(cfg, View(), d, raw[|raw|..]) == (View(), []) && kept + [] == kept;
    }

    method DropRejected(d: DeviceId, t: Task)
      modifies this
      ensures View() == DropS(old(View()), d, t)
      ensures tasks == if t.id in old(tasks) then old(tasks)[t.id := old(tasks)[t.id].(
                         status := Failed, rejected := true, version := old(tasks)[t.id].version + 1)]
                       else old(tasks)
    {
      processing := processing[d := RemoveFirst(At(processing, d), t)];
      var _ := CasUpdate(t.id, MGateFailed, None);
    }

    method Pop(d: DeviceId, limit: nat, now: real) returns (out: seq<Task>)
      modifies this
      ensures (View(), out) == PopS(cfg, old(View()), d, limit, now)
    {
      var raw := MoveMany(d, limit);
      var popped := GatePopped(d, raw);
      out := Dispatch(popped, now);
    }

    method Dispatch(popped: seq<Task>, now: real) returns (out: seq<Task>)
      modifies this`tasks
      ensures (View(), out) == DispatchS(old(View()), popped, now)
    {
      hide DispatchS, Mutate;
      out := [];
      ghost var start := View();
      assert popped[0..] == popped;
      for i := 0 to |popped|
        invariant pending == old(pending) && processing == old(processing)
        invariant DispatchS(start, popped, now).0 == DispatchS(View(), popped[i..], now).0
        invariant DispatchS(start, popped, now).1 == out + DispatchS(View(), popped[i..], now).1
      {
        var t := popped[i];
        DispatchNext(View(), popped, i, now);
        var state := CasUpdate(t.id, MDispatch(t, now), Some(Fresh(Some(t), Queued, [])));
        out := out + [t.(stamp := Some(if state.Some? then state.value.dispatchGen else 0))];
      }
      DispatchNext(View(), popped, |popped|, now);
      assert out + [] == out;
    }

    /** LRANGE of the processing list, then LREM of the first entry with this id. */
    method RemoveProcessing(d: DeviceId, id: TaskId) returns (ok: bool)
      modifies this`processing
      ensures (View(), ok) == TakeS(old(View()), d, id)
    {
      var list := At(processing, d);
      for i := 0 to |list|
        invariant FindId(list, id) == FindId(list[i..], id) && processing == old(processing)
      {
        assert list[i..][1..] == list[i + 1..];
        if list[i].id == id {
          processing := processing[d := RemoveFirst(list, list[i])];
          return true;
        }
      }
      return false;
    }

    method Requeue(d: DeviceId, ts: seq<Task>) returns (depth: nat)
      modifies this
      ensures View() == RequeueS(old(View()), d, ts) && depth == |At(pending, d)|
    {
      if ts == [] { return |At(pending, d)|; }
      ghost var s0 := View();
      assert ts[0..] == ts;
      for i := 0 to |ts|
        invariant TakeAllS(s0, d, ts) == TakeAllS(View(), d, ts[i..])
      {
        assert ts[i..][1..] == ts[i + 1..];
        var _ := RemoveProcessing(d, ts[i].id);
      }
      pending := pending[d := ts + At(pending, d)];
      depth := |pending[d]|;
      ghost var s1, p1 := View(), pending;
      for i := 0 to |ts|
        invariant MarkRequeuedS(s1, ts) == MarkRequeuedS(View(), ts[i..]) && pending == p1
      {
        assert ts[i..][1..] == ts[i + 1..];
        var _ := CasUpdate(ts[i].id, MRequeue(ts[i]), Some(Fresh(Some(ts[i]), Created, [])));
      }
    }

    method MarkDispatched(id: TaskId)
      modifies this`tasks
      ensures View() == UpdateIn(old(View()), id, MDispatched)
      ensures id in old(tasks) ==>
        tasks == old(tasks)[id := old(tasks)[id].(status := Dispatched, version := old(tasks)[id].version + 1)]
    {
      var _ := CasUpdate(id, MDispatched, None);
    }

    /** The count is the one computed from the state that was read. */
    method IncrementRetry(id: TaskId) returns (count: nat)
      modifies this`tasks
      ensures View() == UpdateIn(old(View()), id, MRetry)
      ensures count == if id in old(tasks) then old(tasks)[id].retryCount + 1 else 0
      ensures id in old(tasks) ==>
        tasks == old(tasks)[id := old(tasks)[id].(retryCount := count, version := old(tasks)[id].version + 1)]
    {
      count := if id in tasks then tasks[id].retryCount + 1 else 0;
      var _ := CasUpdate(id, MRetry, None);
    }

    method ResetForRetry(id: TaskId)
      modifies this`tasks
      ensures View() == UpdateIn(old(View()), id, MReset)
      ensures id in old(tasks) ==>
        tasks == old(tasks)[id := old(tasks)[id].(
                              status := Queued, retryCount := old(tasks)[id].retryCount + 1, version := old(tasks)[id].version + 1)]
    {
      var _ := CasUpdate(id, MReset, None);
    }

    method Ack(d: DeviceId, id: TaskId, gen: Option<nat>) returns (ok: bool)
      modifies this
      ensures (View(), ok) == AckS(cfg, old(View()), d, id, gen)
      ensures tasks == if ok && id in old(tasks)
                       then old(tasks)[id := old(tasks)[id].(startedAt := None, version := old(tasks)[id].version + 1)]
                       else old(tasks)
    {
      if id in tasks {
        var current := tasks[id].dispatchGen;
        if gen.Some? {
          if gen.value != current { return false; }
        } else if current > 0 && cfg.strict {
          return false;
        }
        if tasks[id].recoveredAt.Some? {
          var _ := RemoveProcessing(d, id);
          return false;
        }
      }
      ok := RemoveProcessing(d, id);
      if ok {
        var _ := CasUpdate(id, MClearStarted, None);
      }
    }

    method Recover(d: DeviceId, timeout: real, now: real) returns (count: nat)
      modifies this
      ensures (View(), count) == RecoverS(old(View()), d, timeout, now)
    {
      count := 0;
      var items := At(processing, d);
      ghost var start := View();
      assert items[0..] == items;
      for i := 0 to |items|
        invariant RecoverItemsS(start, d, items, timeout, now).0 == RecoverItemsS(View(), d, items[i..], timeout, now).0
        invariant RecoverItemsS(start, d, items, timeout, now).1
               == count + RecoverItemsS(View(), d, items[i..], timeout, now).1
      {
        assert items[i..][1..] == items[i + 1..];
        var k := RecoverOne(d, items[i], timeout, now);
        count := count + k;
      }
    }

    /** The body of the recovery loop: read the state, run the LREM+LPUSH script, bump the generation. */
    method RecoverOne(d: DeviceId, item: Task, timeout: real, now: real) returns (moved: nat)
      modifies this
      ensures (View(), moved) == RecoverOneS(old(View()), d, item, timeout, now)
      ensures moved == 1 && item.id in old(tasks) ==>
        tasks == old(tasks)[item.id := old(tasks)[item.id].(
                              status := Queued, recoveredAt := Some(now), dispatchGen := old(tasks)[item.id].dispatchGen + 1,
                              startedAt := None, version := old(tasks)[item.id].version + 1)]
    {
      var state := if item.id in tasks then Some(tasks[item.id]) else None;
      moved := 0;
      if Stale(StartOf(item, state), now, timeout) && item in At(processing, d) {
        processing := processing[d := RemoveAll(At(processing, d), item)];
        pending := pending[d := [item] + At(pending, d)];
        if state.Some? {
          var _ := CasUpdate(item.id, MRecover(now), None);
        }
        moved := 1;
      }
    }

    method ExpireStaleQueued(d: DeviceId, maxAge: real, now: real) returns (count: nat)
      modifies this
      ensures (View(), count) == ExpireS(old(View()), d, maxAge, now)
    {
      count := 0;
      var items := At(pending, d);
      ghost var start := View();
      assert items[0..] == items;
      for i := 0 to |items|
        invariant ExpireItemsS(start, d, items, maxAge, now).0 == ExpireItemsS(View(), d, items[i..], maxAge, now).0
        invariant ExpireItemsS(start, d, items, maxAge, now).1
               == count + ExpireItemsS(View(), d, items[i..], maxAge, now).1
      {
        assert items[i..][1..] == items[i + 1..];
        var k := ExpireOne(d, items[i], maxAge, now);
        count := count + k;
      }
    }

    /** The body of the expiry loop: LREM an over-age entry, then mark its state. */
    method ExpireOne(d: DeviceId, item: Task, maxAge: real, now: real) returns (expired: nat)
      modifies this
      ensures (View(), expired) == ExpireOneS(old(View()), d, item, maxAge, now)
    {
      expired := 0;
      if Stale(item.enqueuedAt, now, maxAge) && item in At(pending, d) {
        pending := pending[d := RemoveFirst(At(pending, d), item)];
        var _ := CasUpdate(item.id, MExpire, None);
        expired := 1;
      }
    }

    method RemovePending(d: DeviceId, id: TaskId) returns (ok: bool)
      modifies this`pending
      ensures (View(), ok) == RemoveS(old(View()), d, id)
    {
      var list := At(pending, d);
      for i := 0 to |list|
        invariant FindId(list, id) == FindId(list[i..], id) && pending == old(pending)
      {
        assert list[i..][1..] == list[i + 1..];
        if list[i].id == id {
          pending := pending[d := RemoveFirst(list, list[i])];
          return true;
        }
      }
      return false;
    }

    method Abandon(d: DeviceId, id: TaskId) returns (ok: bool)
      modifies this
      ensures (View(), ok) == AbandonS(old(View()), d, id)
      ensures tasks == if ok && id in old(tasks)
                       then old(tasks)[id := old(tasks)[id].(
                              status := DeadLetter, startedAt := None, version := old(tasks)[id].version + 1)]
                       else old(tasks)
    {
      ok := RemoveProcessing(d, id);
      if ok {
        var _ := CasUpdate(id, MDeadLetter, None);
      }
    }
  }
}
