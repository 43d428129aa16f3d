/**
 The task-state store is linearizable: whatever the interleaving, the stored states are the initial
 states with the committed mutators, appended events and creations applied in commit order.
 */
module Linearizability {
  import opened Wrappers
  import opened Motion
  import opened TaskModel
  import opened RedisMachine

  type States = map<TaskId, TaskState>

  /** The sequential meaning of one commit. */
  function Apply(s: States, k: Commit): States {
    match k.effect
    case Written(st) => s[k.id := st]
    case Mutated(m) => if k.id in s then s[k.id := Swap(m, s[k.id])] else s
    case Appended(e) => if k.id in s then s[k.id := AppendEvent(e, s[k.id])] else s
  }

  function Replay(s: States, log: seq<Commit>): States {
    if log == [] then s else Apply(Replay(s, log[..|log| - 1]), log[|log| - 1])
  }

  lemma ReplaySnoc(s: States, log: seq<Commit>, k: Commit)
    ensures Replay(s, log + [k]) == Apply(Replay(s, log), k)
  {
    assert (log + [k])[..|log|] == log;
  }

  /** Creations write a fresh state under an absent id; every other commit is on a present id. */
  ghost predicate GoodLog(s: States, log: seq<Commit>) {
    forall k :: 0 <= k < |log| ==> GoodCommit(Replay(s, log[..k]), log[k])
  }

  predicate GoodCommit(s: States, k: Commit) {
    if k.effect.Written? then k.id !in s && k.effect.state.version == 0 else k.id in s
  }

  lemma GoodLogSnoc(s: States, log: seq<Commit>, k: Commit)
    requires GoodLog(s, log) && GoodCommit(Replay(s, log), k)
    ensures GoodLog(s, log + [k])
  {
    forall i | 0 <= i < |log| + 1 ensures GoodCommit(Replay(s, (log + [k])[..i]), (log + [k])[i]) {
      assert (log + [k])[..i] == log[..i];
      assert log[..|log|] == log;
    }
  }

  /** The commit at a position of a good log, and the states right before and after it. */
  lemma CommitAt(s: States, log: seq<Commit>, j: nat)
    requires GoodLog(s, log) && j < |log|
    ensures GoodCommit(Replay(s, log[..j]), log[j])
    ensures Replay(s, log[..j + 1]) == Apply(Replay(s, log[..j]), log[j])
  {
    assert log[..j + 1] == log[..j] + [log[j]];
    ReplaySnoc(s, log[..j], log[j]);
  }

  // ---------------------------------------------------------------- legal runs

  /** The id that this instruction is about to HSET blindly, if it is a blind write. */
  function BlindWrite(i: Instr): Option<TaskId> {
    match i
    case Create(t, _) => Some(t.id)
    case Stub(id, _) => Some(id)
    case _ => None
  }

  /** A client is between the read and the script of an attempt that started from a default state. */
  predicate HoldsDefault(cl: Client, id: TaskId) {
    cl.held.Some? && cl.held.value.fromDefault && cl.code != [] && cl.code[0].Cas? && cl.code[0].id == id
  }

  /** Ids are created once: a blind write finds its id absent and nobody mid-attempt on a default. */
  predicate CreatesOnce(m: Machine, move: Move) {
    move.Step? && move.client in m.clients && m.clients[move.client].code != []
    && BlindWrite(m.clients[move.client].code[0]).Some? ==>
      var id := BlindWrite(m.clients[move.client].code[0]).value;
      id !in m.tasks && forall c :: c in m.clients ==> !HoldsDefault(m.clients[c], id)
  }

  predicate LegalRun(cfg: Config, m: Machine, moves: seq<Move>) {
    moves == [] ||
    (LegalRun(cfg, m, moves[..|moves| - 1])
     && CreatesOnce(Run(cfg, m, moves[..|moves| - 1]), moves[|moves| - 1]))
  }

  // ---------------------------------------------------------------- the invariant

  /** A held copy is older than the stored state or equal to it. */
  predicate HeldOk(tasks: States, cl: Client) {
    cl.held.Some? ==>
      cl.code != [] && cl.code[0].Cas? &&
      var id, h := cl.code[0].id, cl.held.value;
      if h.fromDefault then id !in tasks
      else id in tasks && h.copy.version <= tasks[id].version
           && (h.copy.version == tasks[id].version ==> h.copy == tasks[id])
  }

  function Mine(log: seq<Commit>, c: ClientId): seq<(TaskId, Mutator)> {
    if log == [] then []
    else
      var k := log[|log| - 1];
      Mine(log[..|log| - 1], c)
      + if k.client == c && k.effect.Mutated? then [(k.id, k.effect.m)] else []
  }

  function Wrote(results: seq<Result>): seq<(TaskId, Mutator)> {
    if results == [] then []
    else
      var r := results[|results| - 1];
      Wrote(results[..|results| - 1]) + if r.Swapped? then [(r.id, r.m)] else []
  }

  lemma MineSnoc(log: seq<Commit>, k: Commit, c: ClientId)
    ensures Mine(log + [k], c)
         == Mine(log, c) + if k.client == c && k.effect.Mutated? then [(k.id, k.effect.m)] else []
  {
    assert (log + [k])[..|log|] == log;
  }

  lemma WroteSnoc(results: seq<Result>, r: Result)
    ensures Wrote(results + [r]) == Wrote(results) + if r.Swapped? then [(r.id, r.m)] else []
  {
    assert (results + [r])[..|results|] == results;
  }

  /** A state that a client was told it wrote is the replayed state right after its commit. */
  ghost predicate Took(s: States, log: seq<Commit>, c: ClientId, r: Result)
    requires r.Swapped?
  {
    exists k :: 0 <= k < |log| && log[k] == Commit(c, r.id, Mutated(r.m))
      && r.id in Replay(s, log[..k + 1]) && Replay(s, log[..k + 1])[r.id] == r.written
  }

  lemma TookSnoc(s: States, log: seq<Commit>, x: Commit, c: ClientId, r: Result)
    requires r.Swapped? && Took(s, log, c, r)
    ensures Took(s, log + [x], c, r)
  {
    var k :| 0 <= k < |log| && log[k] == Commit(c, r.id, Mutated(r.m))
      && r.id in Replay(s, log[..k + 1]) && Replay(s, log[..k + 1])[r.id] == r.written;
    assert (log + [x])[..k + 1] == log[..k + 1];
    assert (log + [x])[k] == log[k];
  }

  ghost predicate ClientOk(s: States, m: Machine, c: ClientId) {
    var cl := ClientOf(m, c);
    HeldOk(m.tasks, cl) && Mine(m.log, c) == Wrote(cl.results)
    && forall i :: 0 <= i < |cl.results| && cl.results[i].Swapped? ==> Took(s, m.log, c, cl.results[i])
  }

  ghost predicate Inv(s: States, m: Machine) {
    m.tasks == Replay(s, m.log) && GoodLog(s, m.log) && forall c: ClientId :: ClientOk(s, m, c)
  }

  // ---------------------------------------------------------------- steps keep it

  /** How a step that writes no state may look: states, log and every held copy stay. */
  ghost predicate Quiet(m: Machine, m': Machine, c: ClientId) {
    m'.tasks == m.tasks && m'.log == m.log && Moved(m, m', c)
    && Silent(ClientOf(m, c).results, m'.clients[c].results)
  }

  /** At most one result more, and it is not about a write. */
  predicate Silent(before: seq<Result>, after: seq<Result>) {
    after == before || (|after| == |before| + 1 && after[..|before|] == before && !after[|before|].Swapped?)
  }

  lemma SilentWrote(before: seq<Result>, after: seq<Result>)
    requires Silent(before, after)
    ensures Wrote(after) == Wrote(before)
    ensures forall i :: 0 <= i < |after| && after[i].Swapped? ==> i < |before| && after[i] == before[i]
  {
    if after != before {
      assert after == before + [after[|before|]];
      WroteSnoc(before, after[|before|]);
    }
  }

  lemma QuietKeeps(s: States, m: Machine, m': Machine, c: ClientId)
    requires Inv(s, m) && Quiet(m, m', c) && HeldOk(m.tasks, m'.clients[c])
    ensures Inv(s, m')
  {
    forall x: ClientId ensures ClientOk(s, m', x) {
      assert ClientOk(s, m, x);
      if x == c { SilentWrote(ClientOf(m, c).results, m'.clients[c].results); }
    }
  }

  /** A committing step of client c on one id, which raises that id's version or creates the id. */
  lemma CommitKeeps(s: States, m: Machine, m': Machine, c: ClientId, k: Commit, out: seq<Result>)
    requires Inv(s, m) && c in m.clients && k.client == c
    requires GoodCommit(m.tasks, k)
    requires m'.log == m.log + [k] && m'.tasks == Apply(m.tasks, k)
    requires Moved(m, m', c) && m'.clients[c].held.None? && m'.clients[c].results == m.clients[c].results + out
    requires if k.effect.Mutated? then |out| == 1 && out[0].Swapped? && out[0].id == k.id && out[0].m == k.effect.m
                                       && out[0].written == m'.tasks[k.id]
             else out == []
    requires k.effect.Written? ==> forall x :: x in m.clients ==> !HoldsDefault(m.clients[x], k.id)
    ensures Inv(s, m')
  {
    ReplaySnoc(s, m.log, k);
    GoodLogSnoc(s, m.log, k);
    forall x: ClientId ensures ClientOk(s, m', x) {
      assert ClientOk(s, m, x);
      if x == c {
        CommitterOk(s, m, m', c, k, out);
      } else {
        BystanderOk(s, m, m', x, k);
      }
    }
  }

  lemma BystanderOk(s: States, m: Machine, m': Machine, x: ClientId, k: Commit)
    requires ClientOk(s, m, x) && k.client != x && GoodCommit(m.tasks, k)
    requires m'.log == m.log + [k] && m'.tasks == Apply(m.tasks, k)
    requires ClientOf(m', x) == ClientOf(m, x)
    requires k.effect.Written? ==> !HoldsDefault(ClientOf(m, x), k.id)
    ensures ClientOk(s, m', x)
  {
    MineSnoc(m.log, k, x);
    var rs := ClientOf(m, x).results;
    forall i | 0 <= i < |rs| && rs[i].Swapped? ensures Took(s, m'.log, x, rs[i]) {
      TookSnoc(s, m.log, k, x, rs[i]);
    }
  }

  lemma CommitterOk(s: States, m: Machine, m': Machine, c: ClientId, k: Commit, out: seq<Result>)
    requires c in m.clients && ClientOk(s, m, c) && k.client == c
    requires m'.log == m.log + [k] && m'.tasks == Replay(s, m'.log)
    requires c in m'.clients && m'.clients[c].held.None? && m'.clients[c].results == m.clients[c].results + out
    requires if k.effect.Mutated? then |out| == 1 && out[0].Swapped? && out[0].id == k.id && out[0].m == k.effect.m
                                       && k.id in m'.tasks && out[0].written == m'.tasks[k.id]
             else out == []
    ensures ClientOk(s, m', c)
  {
    hide Replay, Took, Mine, Wrote;
    MineSnoc(m.log, k, c);
    var before, rs := m.clients[c].results, m'.clients[c].results;
    if k.effect.Mutated? {
      assert out == [out[0]];
      WroteSnoc(before, out[0]);
      TookLast(s, m.log, k, out[0]);
    } else {
      assert rs == before;
    }
    TookAll(s, m.log, k, before, out);
  }

  lemma TookAll(s: States, log: seq<Commit>, k: Commit, before: seq<Result>, out: seq<Result>)
    requires forall i :: 0 <= i < |before| && before[i].Swapped? ==> Took(s, log, k.client, before[i])
    requires |out| <= 1 && forall i :: 0 <= i < |out| && out[i].Swapped? ==> Took(s, log + [k], k.client, out[i])
    ensures var rs := before + out;
            forall i :: 0 <= i < |rs| && rs[i].Swapped? ==> Took(s, log + [k], k.client, rs[i])
  {
    hide Took;
    var rs := before + out;
    forall i | 0 <= i < |rs| && rs[i].Swapped? ensures Took(s, log + [k], k.client, rs[i]) {
      if i < |before| {
        TookSnoc(s, log, k, k.client, before[i]);
      } else {
        assert rs[i] == out[0];
      }
    }
  }

  lemma TookLast(s: States, log: seq<Commit>, k: Commit, r: Result)
    requires r.Swapped? && k.effect == Mutated(r.m) && k.id == r.id
    requires r.id in Replay(s, log + [k]) && r.written == Replay(s, log + [k])[r.id]
    ensures Took(s, log + [k], k.client, r)
  {
    assert (log + [k])[..|log| + 1] == log + [k] && (log + [k])[|log|] == k;
  }

  lemma ContinueQuiet(m: Machine, c: ClientId, code: seq<Instr>, out: seq<Result>)
    requires c in m.clients && m.clients[c].code != []
    requires |out| == 0 || (|out| == 1 && !out[0].Swapped?)
    ensures Quiet(m, Continue(m, c, code, out), c) && Continue(m, c, code, out).clients[c].held.None?
  {
    assert m.clients[c].results + [] == m.clients[c].results;
  }

  lemma ReadKeeps(s: States, m: Machine, c: ClientId)
    requires Inv(s, m) && c in m.clients && m.clients[c].code != [] && m.clients[c].code[0].Cas?
    requires m.clients[c].held.None?
    ensures var i := m.clients[c].code[0]; Inv(s, TickRead(m, c, i.id, i.m, i.default))
  {
    var i := m.clients[c].code[0];
    ReadQuiet(m, c);
    QuietKeeps(s, m, TickRead(m, c, i.id, i.m, i.default), c);
  }

  lemma ReadQuiet(m: Machine, c: ClientId)
    requires c in m.clients && m.clients[c].code != [] && m.clients[c].code[0].Cas? && m.clients[c].held.None?
    ensures var i := m.clients[c].code[0]; var m' := TickRead(m, c, i.id, i.m, i.default);
            Quiet(m, m', c) && HeldOk(m.tasks, m'.clients[c])
  {
    var i := m.clients[c].code[0];
    if Lookup(m, i.id).None? && i.default.None? {
      ContinueQuiet(m, c, [], [Missing(i.id, i.m)]);
    }
  }

  lemma SwapKeeps(s: States, m: Machine, c: ClientId)
    requires Inv(s, m) && c in m.clients && m.clients[c].code != [] && m.clients[c].code[0].Cas?
    requires m.clients[c].held.Some?
    ensures var i := m.clients[c].code[0]; Inv(s, TickSwap(m, c, i.id, i.m, i.default, i.tries))
  {
    var cl := m.clients[c];
    var i := cl.code[0];
    assert ClientOk(s, m, c);
    if i.id in m.tasks && m.tasks[i.id].version == cl.held.value.copy.version {
      SwapCommits(s, m, c);
    } else {
      MissQuiet(m, c);
      hide Inv, Quiet, TickSwap;
      QuietKeeps(s, m, TickSwap(m, c, i.id, i.m, i.default, i.tries), c);
    }
  }

  lemma MissQuiet(m: Machine, c: ClientId)
    requires c in m.clients && m.clients[c].code != [] && m.clients[c].code[0].Cas? && m.clients[c].held.Some?
    requires var i := m.clients[c].code[0];
             !(i.id in m.tasks && m.tasks[i.id].version == m.clients[c].held.value.copy.version)
    ensures var i := m.clients[c].code[0]; var m' := TickSwap(m, c, i.id, i.m, i.default, i.tries);
            Quiet(m, m', c) && HeldOk(m.tasks, m'.clients[c])
  {
    var cl := m.clients[c];
    var i := cl.code[0];
    if i.tries <= 1 { ContinueQuiet(m, c, [], [GaveUp(i.id, i.m, cl.first)]); }
  }

  lemma SwapCommits(s: States, m: Machine, c: ClientId)
    requires Inv(s, m) && c in m.clients && m.clients[c].code != [] && m.clients[c].code[0].Cas?
    requires m.clients[c].held.Some? && m.clients[c].code[0].id in m.tasks
    requires m.tasks[m.clients[c].code[0].id].version == m.clients[c].held.value.copy.version
    ensures var i := m.clients[c].code[0]; Inv(s, TickSwap(m, c, i.id, i.m, i.default, i.tries))
  {
    var i := m.clients[c].code[0];
    assert m.clients[c].held.value.copy == m.tasks[i.id] by { assert ClientOk(s, m, c); }
    var st := Swap(i.m, m.tasks[i.id]);
    var out := [Swapped(i.id, i.m, st, m.clients[c].first)];
    CommitKeeps(s, m, Continue(m, c, [], out).(tasks := m.tasks[i.id := st],
                                               log := m.log + [Commit(c, i.id, Mutated(i.m))]),
                c, Commit(c, i.id, Mutated(i.m)), out);
  }

  lemma WriteKeeps(s: States, m: Machine, c: ClientId, id: TaskId, effect: Effect)
    requires Inv(s, m) && c in m.clients && m.clients[c].code != [] && !effect.Mutated?
    requires GoodCommit(m.tasks, Commit(c, id, effect))
    requires effect.Written? ==> forall x :: x in m.clients ==> !HoldsDefault(m.clients[x], id)
    ensures Inv(s, TickWrite(m, c, id, effect))
  {
    CommitKeeps(s, m, TickWrite(m, c, id, effect), c, Commit(c, id, effect), []);
  }

  lemma TakeQuiet(m: Machine, c: ClientId, p: Place, item: Task, kind: Kind, code: seq<Instr>, out: seq<Result>)
    requires c in m.clients && m.clients[c].code != [] && (p.Pending? || p.Working?)
    requires |out| == 0 || (|out| == 1 && !out[0].Swapped?)
    ensures var m' := TickTake(m, c, p, item, kind, code, out);
            Quiet(m, m', c) && m'.clients[c].held.None?
  {
    ContinueQuiet(m, c, code, out);
  }

  lemma MoveQuiet(cfg: Config, m: Machine, c: ClientId, d: DeviceId, left: nat, got: seq<Task>, now: real)
    requires c in m.clients && m.clients[c].code != []
    ensures var m' := TickMove(cfg, m, c, d, left, got, now); Quiet(m, m', c) && m'.clients[c].held.None?
  {
    hide Quiet, AfterMoves;
    var list := At(m.pending, d);
    var code := if list == [] then AfterMoves(cfg, d, got, now)
                else if left <= 1 then AfterMoves(cfg, d, got + [list[0]], now)
                else [MoveOne(d, left - 1, got + [list[0]], now)];
    ContinueQuiet(m, c, code, []);
    ListsQuiet(m, Continue(m, c, code, []), TickMove(cfg, m, c, d, left, got, now), c);
  }

  lemma RecoverQuiet(m: Machine, c: ClientId, d: DeviceId, item: Task, now: real, known: bool)
    requires c in m.clients && m.clients[c].code != []
    ensures var m' := TickRecover(m, c, d, item, now, known); Quiet(m, m', c) && m'.clients[c].held.None?
  {
    hide Quiet;
    var found := item in At(m.processing, d);
    var code := if found && known then [Swap3(item.id, MRecover(now), None)] else [];
    var out := if found then [MovedBack(item.id)] else [];
    ContinueQuiet(m, c, code, out);
    ListsQuiet(m, Continue(m, c, code, out), TickRecover(m, c, d, item, now, known), c);
  }

  /** What happens to the lists does not matter here. */
  lemma ListsQuiet(m: Machine, m1: Machine, m2: Machine, c: ClientId)
    requires Quiet(m, m1, c) && m2.clients == m1.clients && m2.tasks == m1.tasks && m2.log == m1.log
    ensures Quiet(m, m2, c)
  {
  }

  predicate WritesState(i: Instr) {
    i.Cas? || i.Create? || i.Stub? || i.Append?
  }

  lemma ListStepQuiet(cfg: Config, m: Machine, c: ClientId)
    requires c in m.clients && m.clients[c].code != [] && !WritesState(m.clients[c].code[0])
    ensures Quiet(m, Tick(cfg, m, c), c) && Tick(cfg, m, c).clients[c].held.None?
  {
    var i := m.clients[c].code[0];
    if Reads(i) {
      var code, out := ReadIsContinue(cfg, m, c);
      ContinueQuiet(m, c, code, out);
    } else if Takes(i) && !(i.Take? && i.purpose.ForRequeue?) {
      var p, kind, code, out := TakeIs(cfg, m, c);
      TakeQuiet(m, c, p, i.item, kind, code, out);
    } else {
      PushQuiet(cfg, m, c);
    }
  }

  lemma PushQuiet(cfg: Config, m: Machine, c: ClientId)
    requires c in m.clients && m.clients[c].code != []
    requires var i := m.clients[c].code[0]; i.PushNew? || i.MoveOne? || i.PushBack? || i.RecoverMove?
                                             || (i.Take? && i.purpose.ForRequeue?)
    ensures Quiet(m, Tick(cfg, m, c), c) && Tick(cfg, m, c).clients[c].held.None?
  {
    hide Quiet, TickMove, TickRecover, TickGrab, TickPushNew, TickPushBack;
    var i := m.clients[c].code[0];
    if i.MoveOne? {
      MoveQuiet(cfg, m, c, i.device, i.left, i.got, i.now);
    } else if i.RecoverMove? {
      RecoverQuiet(m, c, i.device, i.item, i.now, i.known);
    } else if i.Take? {
      GrabQuiet(m, c, i.device, i.item);
    } else if i.PushNew? {
      PushNewQuiet(m, c, i.device, i.task);
    } else {
      PushBackQuiet(m, c, i.device, i.tasks);
    }
  }

  lemma PushNewQuiet(m: Machine, c: ClientId, d: DeviceId, t: Task)
    requires c in m.clients && m.clients[c].code != []
    ensures var m' := TickPushNew(m, c, d, t); Quiet(m, m', c) && m'.clients[c].held.None?
  {
  }

  lemma PushBackQuiet(m: Machine, c: ClientId, d: DeviceId, tasks: seq<Task>)
    requires c in m.clients && m.clients[c].code != []
    ensures var m' := TickPushBack(m, c, d, tasks); Quiet(m, m', c) && m'.clients[c].held.None?
  {
    hide Ids;
  }

  lemma GrabQuiet(m: Machine, c: ClientId, d: DeviceId, item: Task)
    requires c in m.clients && m.clients[c].code != []
    ensures var m' := TickGrab(m, c, d, item); Quiet(m, m', c) && m'.clients[c].held.None?
  {
  }

  lemma StateStepKeeps(s: States, cfg: Config, m: Machine, c: ClientId)
    requires Inv(s, m) && c in m.clients && m.clients[c].code != [] && CreatesOnce(m, Step(c))
    requires WritesState(m.clients[c].code[0])
    ensures Inv(s, Tick(cfg, m, c))
  {
    match m.clients[c].code[0]
    case Cas(id, mu, default, tries) =>
      if m.clients[c].held.None? { ReadKeeps(s, m, c); } else { SwapKeeps(s, m, c); }
    case Create(t, st) => WriteKeeps(s, m, c, t.id, Written(Fresh(Some(t), st, [])));
    case Stub(id, e) => WriteKeeps(s, m, c, id, Written(Fresh(None, e.phase, [e])));
    case Append(id, e) =>
      if id in m.tasks { WriteKeeps(s, m, c, id, Appended(e)); }
      else {
        ContinueQuiet(m, c, [Stub(id, e)], []);
        QuietKeeps(s, m, Continue(m, c, [Stub(id, e)], []), c);
      }
  }

  lemma StepKeeps(s: States, cfg: Config, m: Machine, move: Move)
    requires Inv(s, m) && CreatesOnce(m, move)
    ensures Inv(s, Do(cfg, m, move))
  {
    match move
    case Begin(c, op) => StartKeeps(s, cfg, m, c, op);
    case Step(c) =>
      if c in m.clients && m.clients[c].code != [] {
        hide Quiet, Inv, CreatesOnce;
        if WritesState(m.clients[c].code[0]) {
          StateStepKeeps(s, cfg, m, c);
        } else {
          hide Tick;
          ListStepQuiet(cfg, m, c);
          QuietKeeps(s, m, Tick(cfg, m, c), c);
        }
      } else {
        IdleTick(cfg, m, c);
      }
  }

  lemma StartKeeps(s: States, cfg: Config, m: Machine, c: ClientId, op: Op)
    requires Inv(s, m)
    ensures Inv(s, Start(cfg, m, c, op))
  {
    hide Code;
    var m' := Start(cfg, m, c, op);
    if m' != m {
      assert ClientOk(s, m, c);
      QuietKeeps(s, m, m', c);
    }
  }

  lemma {:induction false} RunKeeps(cfg: Config, m: Machine, moves: seq<Move>)
    requires Initial(m) && LegalRun(cfg, m, moves)
    ensures Inv(m.tasks, Run(cfg, m, moves))
  {
    if moves != [] {
      RunKeeps(cfg, m, moves[..|moves| - 1]);
      StepKeeps(m.tasks, cfg, Run(cfg, m, moves[..|moves| - 1]), moves[|moves| - 1]);
    }
  }

  // ---------------------------------------------------------------- main results

  /** Every interleaving is equivalent to the commits one after the other, and every client was
      told of exactly its own commits, in order, with the state each one left. */
  lemma Linearizable(cfg: Config, m: Machine, moves: seq<Move>)
    requires Initial(m) && LegalRun(cfg, m, moves)
    ensures var m' := Run(cfg, m, moves);
      && m'.tasks == Replay(m.tasks, m'.log) && GoodLog(m.tasks, m'.log)
      && (forall c :: c in m'.clients ==> Mine(m'.log, c) == Wrote(m'.clients[c].results))
      && (forall c, i :: c in m'.clients && 0 <= i < |m'.clients[c].results| && m'.clients[c].results[i].Swapped?
            ==> Took(m.tasks, m'.log, c, m'.clients[c].results[i]))
  {
    RunKeeps(cfg, m, moves);
    var m' := Run(cfg, m, moves);
    forall c | c in m'.clients ensures ClientOk(m.tasks, m', c) && ClientOf(m', c) == m'.clients[c] {}
  }

  // What no interleaving can lose.

  function Swaps(log: seq<Commit>, id: TaskId): nat {
    if log == [] then 0
    else Swaps(log[..|log| - 1], id) + if log[|log| - 1].id == id && !log[|log| - 1].effect.Written? then 1 else 0
  }

  predicate CountsAsRetry(m: Mutator) { m.MRetry? || m.MReset? }

  function Retries(log: seq<Commit>, id: TaskId): nat {
    if log == [] then 0
    else
      var k := log[|log| - 1];
      Retries(log[..|log| - 1], id) + if k.id == id && k.effect.Mutated? && CountsAsRetry(k.effect.m) then 1 else 0
  }

  function Recoveries(log: seq<Commit>, id: TaskId): nat {
    if log == [] then 0
    else
      var k := log[|log| - 1];
      Recoveries(log[..|log| - 1], id) + if k.id == id && k.effect.Mutated? && k.effect.m.MRecover? then 1 else 0
  }

  function EventsFor(log: seq<Commit>, id: TaskId): seq<Event> {
    if log == [] then []
    else
      var k := log[|log| - 1];
      EventsFor(log[..|log| - 1], id) + if k.id == id && k.effect.Appended? then [k.effect.event] else []
  }

  /** The state an id started from: the initial one, or the one its creation wrote. */
  function Origin(s: States, log: seq<Commit>, id: TaskId): Option<TaskState> {
    if id in s then Some(s[id])
    else if log == [] then None
    else
      var o := Origin(s, log[..|log| - 1], id);
      if o.Some? then o
      else if log[|log| - 1].id == id && log[|log| - 1].effect.Written? then Some(log[|log| - 1].effect.state)
      else None
  }

  /** What a swap does to the four counted fields. */
  lemma SwapFields(m: Mutator, st: TaskState)
    ensures var r := Swap(m, st);
      && r.version == st.version + 1 && r.events == st.events
      && r.retryCount == st.retryCount + (if CountsAsRetry(m) then 1 else 0)
      && r.dispatchGen == st.dispatchGen + (if m.MRecover? then 1 else 0)
  {
  }

  /** The counted fields of `now`, measured from `origin` over `log`. */
  predicate Counted(origin: TaskState, now: TaskState, log: seq<Commit>, id: TaskId) {
    && now.version == origin.version + Swaps(log, id)
    && now.retryCount == origin.retryCount + Retries(log, id)
    && now.dispatchGen == origin.dispatchGen + Recoveries(log, id)
    && now.events == origin.events + EventsFor(log, id)
  }

  lemma CountedNext(origin: TaskState, now: TaskState, log: seq<Commit>, k: Commit)
    requires Counted(origin, now, log, k.id) && !k.effect.Written?
    ensures Counted(origin, if k.effect.Mutated? then Swap(k.effect.m, now) else AppendEvent(k.effect.event, now),
                    log + [k], k.id)
  {
    assert (log + [k])[..|log|] == log;
    if k.effect.Mutated? { SwapFields(k.effect.m, now); }
  }

  lemma CountsSkip(log: seq<Commit>, k: Commit, id: TaskId)
    requires k.id != id || k.effect.Written?
    ensures Swaps(log + [k], id) == Swaps(log, id) && Retries(log + [k], id) == Retries(log, id)
    ensures Recoveries(log + [k], id) == Recoveries(log, id) && EventsFor(log + [k], id) == EventsFor(log, id)
  {
    assert (log + [k])[..|log|] == log;
  }

  lemma OriginSnoc(s: States, log: seq<Commit>, k: Commit, id: TaskId)
    ensures var o := Origin(s, log, id);
            Origin(s, log + [k], id) == if o.Some? then o
                                        else if k.id == id && k.effect.Written? then Some(k.effect.state) else None
  {
    assert (log + [k])[..|log|] == log;
  }

  lemma GoodFront(s: States, log: seq<Commit>)
    requires GoodLog(s, log) && log != []
    ensures GoodLog(s, log[..|log| - 1])
    ensures GoodCommit(Replay(s, log[..|log| - 1]), log[|log| - 1])
  {
    var front := log[..|log| - 1];
    forall k | 0 <= k < |front| ensures GoodCommit(Replay(s, front[..k]), front[k]) {
      assert front[..k] == log[..k] && front[k] == log[k];
    }
  }

  /** Nothing has been counted for an id that does not exist; for the others, everything has. */
  lemma {:induction false} ReplayCounts(s: States, log: seq<Commit>, id: TaskId)
    requires GoodLog(s, log)
    ensures Origin(s, log, id).Some? <==> id in Replay(s, log)
    ensures id !in Replay(s, log) ==>
      Swaps(log, id) == Retries(log, id) == Recoveries(log, id) == 0 && EventsFor(log, id) == []
    ensures id in Replay(s, log) ==> Counted(Origin(s, log, id).value, Replay(s, log)[id], log, id)
  {
    if log != [] {
      var front, k := log[..|log| - 1], log[|log| - 1];
      assert log == front + [k];
      GoodFront(s, log);
      ReplayCounts(s, front, id);
      OriginSnoc(s, front, k, id);
      hide GoodLog, Origin, Swaps, Retries, Recoveries, EventsFor;
      if k.id == id && !k.effect.Written? {
        CountedNext(Origin(s, front, id).value, Replay(s, front)[id], front, k);
      } else {
        CountsSkip(front, k, id);
      }
    }
  }

  /** After any interleaving: the version has risen by one per commit, every committed retry, every
      committed recovery and every appended event is in the stored state, events in commit order. */
  lemma NothingLost(cfg: Config, m: Machine, moves: seq<Move>, id: TaskId)
    requires Initial(m) && LegalRun(cfg, m, moves) && id in m.tasks
    ensures var m' := Run(cfg, m, moves);
      && id in m'.tasks
      && m'.tasks[id].version == m.tasks[id].version + Swaps(m'.log, id)
      && m'.tasks[id].retryCount == m.tasks[id].retryCount + Retries(m'.log, id)
      && m'.tasks[id].dispatchGen == m.tasks[id].dispatchGen + Recoveries(m'.log, id)
      && m'.tasks[id].events == m.tasks[id].events + EventsFor(m'.log, id)
  {
    RunKeeps(cfg, m, moves);
    ReplayCounts(m.tasks, Run(cfg, m, moves).log, id);
  }

  /** A default state never reaches the store: an id that nobody created has no commit at all,
      although enqueue, pop and requeue all pass a default state for it. */
  lemma DefaultsNeverWritten(cfg: Config, m: Machine, moves: seq<Move>, id: TaskId)
    requires Initial(m) && LegalRun(cfg, m, moves) && id !in m.tasks
    requires forall k :: 0 <= k < |Run(cfg, m, moves).log| ==>
      var x := Run(cfg, m, moves).log[k]; x.id == id ==> !x.effect.Written?
    ensures id !in Run(cfg, m, moves).tasks
    ensures forall k :: 0 <= k < |Run(cfg, m, moves).log| ==> Run(cfg, m, moves).log[k].id != id
  {
    RunKeeps(cfg, m, moves);
    NoOrigin(m.tasks, Run(cfg, m, moves).log, id);
  }

  lemma {:induction false} NoOrigin(s: States, log: seq<Commit>, id: TaskId)
    requires GoodLog(s, log) && id !in s
    requires forall k :: 0 <= k < |log| ==> log[k].id == id ==> !log[k].effect.Written?
    ensures id !in Replay(s, log)
    ensures forall k :: 0 <= k < |log| ==> log[k].id != id
  {
    if log != [] {
      var front := log[..|log| - 1];
      GoodFront(s, log);
      NoOrigin(s, front, id);
      forall k | 0 <= k < |log| ensures log[k].id != id {
        if k < |front| { assert front[k].id != id; }
      }
    }
  }

  predicate IsRecovery(k: Commit, id: TaskId) {
    k.id == id && k.effect.Mutated? && k.effect.m.MRecover?
  }

  lemma ApplyGeneration(s: States, k: Commit, id: TaskId)
    requires id in s && GoodCommit(s, k)
    ensures id in Apply(s, k)
    ensures Apply(s, k)[id].dispatchGen == s[id].dispatchGen + if IsRecovery(k, id) then 1 else 0
  {
    if k.id == id && k.effect.Mutated? { SwapFields(k.effect.m, s[id]); }
  }

  lemma GrowsOnce(s: States, log: seq<Commit>, k: nat, id: TaskId)
    requires GoodLog(s, log) && k < |log| && id in Replay(s, log[..k])
    ensures id in Replay(s, log[..k + 1])
    ensures Replay(s, log[..k + 1])[id].dispatchGen
         == Replay(s, log[..k])[id].dispatchGen + if IsRecovery(log[k], id) then 1 else 0
  {
    CommitAt(s, log, k);
    ApplyGeneration(Replay(s, log[..k]), log[k], id);
  }

  /** How many recoveries of the task are committed between two points of the order. */
  function RecoveriesBetween(log: seq<Commit>, i: nat, j: nat, id: TaskId): nat
    requires i <= j <= |log|
    decreases j - i
  {
    if i == j then 0 else RecoveriesBetween(log, i, j - 1, id) + if IsRecovery(log[j - 1], id) then 1 else 0
  }

  lemma {:induction false} GenerationGrows(s: States, log: seq<Commit>, i: nat, j: nat, id: TaskId)
    requires GoodLog(s, log) && i <= j <= |log|
    requires id in Replay(s, log[..i])
    ensures id in Replay(s, log[..j])
    ensures Replay(s, log[..j])[id].dispatchGen
         == Replay(s, log[..i])[id].dispatchGen + RecoveriesBetween(log, i, j, id)
    decreases j - i
  {
    hide GoodLog, GoodCommit, Replay, Apply, IsRecovery;
    if i < j {
      GenerationGrows(s, log, i, j - 1, id);
      GrowsOnce(s, log, j - 1, id);
    }
  }

  lemma {:induction false} NoneBetween(log: seq<Commit>, i: nat, j: nat, id: TaskId)
    requires i <= j <= |log|
    ensures RecoveriesBetween(log, i, j, id) == 0 <==> forall k :: i <= k < j ==> !IsRecovery(log[k], id)
    decreases j - i
  {
    if i < j { NoneBetween(log, i, j - 1, id); }
  }

  /** Equal generations at two points of the commit order: no recovery of the task between them. */
  lemma SameGenerationNoRecovery(s: States, log: seq<Commit>, i: nat, j: nat, id: TaskId)
    requires GoodLog(s, log) && i <= j <= |log|
    requires id in Replay(s, log[..i])
    ensures id in Replay(s, log[..j])
    ensures Replay(s, log[..i])[id].dispatchGen == Replay(s, log[..j])[id].dispatchGen
      <==> forall k :: i <= k < j ==> !IsRecovery(log[k], id)
  {
    GenerationGrows(s, log, i, j, id);
    NoneBetween(log, i, j, id);
  }
}
