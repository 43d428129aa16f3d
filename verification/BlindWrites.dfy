/**
 Blind writes, the creations and stubs that set a state without looking at the stored one, on schedules of any
 kind: when a compare-and-swap writes over something else than it read, when a default state is written, and when
 recorded events are lost.
 */
module BlindWrites {
  import opened Wrappers
  import opened Motion
  import opened TaskModel
  import opened RedisMachine
  import L = Linearizability
  import A = RedisAnswers

  type States = L.States

  predicate IsBlind(k: Commit, id: TaskId) {
    k.id == id && k.effect.Written?
  }

  predicate NoBlindSince(log: seq<Commit>, at: nat, id: TaskId) {
    forall k :: at <= k < |log| ==> !IsBlind(log[k], id)
  }

  /** The last commit on a task. */
  function LastOn(log: seq<Commit>, id: TaskId): Option<Commit> {
    if log == [] then None
    else if log[|log| - 1].id == id then Some(log[|log| - 1])
    else LastOn(log[..|log| - 1], id)
  }

  lemma LastSnoc(log: seq<Commit>, k: Commit, id: TaskId)
    ensures LastOn(log + [k], id) == if k.id == id then Some(k) else LastOn(log, id)
  {
    assert (log + [k])[..|log|] == log;
  }

  lemma {:induction false} LastIn(log: seq<Commit>, id: TaskId)
    requires LastOn(log, id).Some?
    ensures LastOn(log, id).value in log && LastOn(log, id).value.id == id
  {
    if log[|log| - 1].id != id { LastIn(log[..|log| - 1], id); }
  }

  // ---------------------------------------------------------------- what one step commits

  /** The client is at the script of a compare-and-swap. */
  predicate AtScript(m: Machine, c: ClientId) {
    c in m.clients && m.clients[c].code != [] && m.clients[c].code[0].Cas? && m.clients[c].held.Some?
  }

  /** The script finds the version of the held copy. */
  predicate Wins(m: Machine, c: ClientId)
    requires AtScript(m, c)
  {
    var id := m.clients[c].code[0].id;
    id in m.tasks && m.tasks[id].version == m.clients[c].held.value.copy.version
  }

  /** Commit `k` of client `c` leaves its id in state `st`. */
  predicate Commits(m: Machine, c: ClientId, k: Commit, st: TaskState) {
    k.client == c
    && match k.effect
       case Written(w) => st == w && st.version == 0
       case Appended(e) => k.id in m.tasks && st == AppendEvent(e, m.tasks[k.id])
       case Mutated(mu) =>
         AtScript(m, c) && Wins(m, c) && m.clients[c].code[0].id == k.id && m.clients[c].code[0].m == mu
         && st == Swap(mu, m.clients[c].held.value.copy)
  }

  /** A step that commits `k`. */
  ghost predicate StepsWith(m: Machine, m': Machine, c: ClientId, k: Commit, st: TaskState) {
    Moved(m, m', c) && Commits(m, c, k, st) && m'.log == m.log + [k] && m'.tasks == m.tasks[k.id := st]
    && m'.clients[c].held.None?
  }

  ghost predicate StepsQuietly(m: Machine, m': Machine, c: ClientId) {
    Moved(m, m', c) && m'.log == m.log && m'.tasks == m.tasks
  }

  lemma WriteSteps(cfg: Config, m: Machine, c: ClientId) returns (k: Commit, st: TaskState)
    requires c in m.clients && m.clients[c].code != [] && L.WritesState(m.clients[c].code[0])
    requires var i := m.clients[c].code[0]; !i.Cas? && !(i.Append? && i.id !in m.tasks)
    ensures StepsWith(m, Tick(cfg, m, c), c, k, st) && !k.effect.Mutated?
    ensures k.effect.Written? <==> L.BlindWrite(m.clients[c].code[0]).Some?
    ensures k.effect.Written? ==> L.BlindWrite(m.clients[c].code[0]) == Some(k.id)
  {
    hide TickWrite, StepsWith;
    var id, effect;
    match m.clients[c].code[0] {
      case Create(t, s) => id, effect := t.id, Written(Fresh(Some(t), s, []));
      case Stub(x, e) => id, effect := x, Written(Fresh(None, e.phase, [e]));
      case Append(x, e) => id, effect := x, Appended(e);
    }
    assert Tick(cfg, m, c) == TickWrite(m, c, id, effect);
    k := Commit(c, id, effect);
    st := if effect.Appended? then AppendEvent(effect.event, m.tasks[id]) else effect.state;
    WriteStepsWith(m, c, id, effect);
  }

  lemma WriteStepsWith(m: Machine, c: ClientId, id: TaskId, effect: Effect)
    requires c in m.clients && m.clients[c].code != [] && !effect.Mutated?
    requires effect.Appended? ==> id in m.tasks
    requires effect.Written? ==> effect.state.version == 0
    ensures StepsWith(m, TickWrite(m, c, id, effect), c, Commit(c, id, effect),
                      if effect.Appended? then AppendEvent(effect.event, m.tasks[id]) else effect.state)
  {
  }

  lemma ScriptSteps(cfg: Config, m: Machine, c: ClientId)
    requires AtScript(m, c)
    ensures var i, m' := m.clients[c].code[0], Tick(cfg, m, c);
      if Wins(m, c) then
        StepsWith(m, m', c, Commit(c, i.id, Mutated(i.m)), Swap(i.m, m.clients[c].held.value.copy))
      else StepsQuietly(m, m', c) && m'.clients[c].held.None?
  {
    hide Tick, TickSwap, StepsWith, StepsQuietly;
    CasTick(cfg, m, c);
    if Wins(m, c) { WinSteps(m, c); } else { MissSteps(m, c); }
  }

  lemma WinSteps(m: Machine, c: ClientId)
    requires AtScript(m, c) && Wins(m, c)
    ensures var (i, copy) := (m.clients[c].code[0], m.clients[c].held.value.copy);
      StepsWith(m, TickSwap(m, c, i.id, i.m, i.default, i.tries), c, Commit(c, i.id, Mutated(i.m)), Swap(i.m, copy))
  {
    hide Swap;
  }

  lemma MissSteps(m: Machine, c: ClientId)
    requires AtScript(m, c) && !Wins(m, c)
    ensures var i := m.clients[c].code[0]; var m' := TickSwap(m, c, i.id, i.m, i.default, i.tries);
      StepsQuietly(m, m', c) && m'.clients[c].held.None?
  {
    hide Swap;
  }

  /** Every other step commits nothing. */
  lemma OtherSteps(cfg: Config, m: Machine, c: ClientId)
    requires c in m.clients && m.clients[c].code != [] && !AtScript(m, c)
    requires var i := m.clients[c].code[0]; !L.WritesState(i) || i.Cas? || (i.Append? && i.id !in m.tasks)
    ensures StepsQuietly(m, Tick(cfg, m, c), c)
  {
    var i := m.clients[c].code[0];
    if !L.WritesState(i) {
      L.ListStepQuiet(cfg, m, c);
    } else if i.Cas? {
      assert Tick(cfg, m, c) == TickRead(m, c, i.id, i.m, i.default);
      A.ReadMoves(m, c, i.id, i.m, i.default);
    } else {
      A.MissedTick(cfg, m, c);
    }
  }

  // ---------------------------------------------------------------- what every schedule keeps

  /** A held copy: a default is held only for an id that had no state, and while no blind write of the id was
      committed since the read, the copy is older than the stored state or equal to it. */
  predicate HeldSince(s: States, tasks: States, log: seq<Commit>, cl: Client) {
    cl.held.Some? ==>
      cl.code != [] && cl.code[0].Cas? && cl.held.value.at <= |log|
      && (cl.held.value.fromDefault ==> cl.code[0].id !in s && cl.code[0].default == Some(cl.held.value.copy))
      && (NoBlindSince(log, cl.held.value.at, cl.code[0].id) ==> L.HeldOk(tasks, cl))
  }

  /** A task without a commit is as it was; the version is zero exactly after a blind write. */
  predicate Dated(s: States, tasks: States, log: seq<Commit>, id: TaskId) {
    var last := LastOn(log, id);
    if last.None? then (id in tasks <==> id in s) && (id in s ==> tasks[id] == s[id])
    else id in tasks && (tasks[id].version == 0 <==> last.value.effect.Written?)
  }

  ghost predicate Inv(s: States, m: Machine) {
    (forall c: ClientId :: HeldSince(s, m.tasks, m.log, ClientOf(m, c))) && forall id :: Dated(s, m.tasks, m.log, id)
  }

  lemma CommitDates(s: States, m: Machine, m': Machine, c: ClientId, k: Commit, st: TaskState, id: TaskId)
    requires StepsWith(m, m', c, k, st) && Dated(s, m.tasks, m.log, id)
    ensures Dated(s, m'.tasks, m'.log, id)
  {
    LastSnoc(m.log, k, id);
  }

  /** A commit by somebody else. */
  lemma CommitPasses(s: States, m: Machine, m': Machine, c: ClientId, k: Commit, st: TaskState, x: ClientId)
    requires StepsWith(m, m', c, k, st) && x != c && HeldSince(s, m.tasks, m.log, ClientOf(m, x))
    ensures HeldSince(s, m'.tasks, m'.log, ClientOf(m', x))
  {
    var cl := ClientOf(m, x);
    if cl.held.Some? && NoBlindSince(m'.log, cl.held.value.at, cl.code[0].id) {
      BlindFront(m.log, k, cl.held.value.at, cl.code[0].id);
    }
  }

  lemma BlindFront(log: seq<Commit>, k: Commit, at: nat, id: TaskId)
    requires at <= |log| && NoBlindSince(log + [k], at, id)
    ensures NoBlindSince(log, at, id) && !IsBlind(k, id)
  {
    assert (log + [k])[|log|] == k;
    forall j | at <= j < |log| ensures !IsBlind(log[j], id) { assert (log + [k])[j] == log[j]; }
  }

  lemma CommitKeeps(s: States, m: Machine, m': Machine, c: ClientId, k: Commit, st: TaskState)
    requires Inv(s, m) && StepsWith(m, m', c, k, st)
    ensures Inv(s, m')
  {
    hide Commits;
    forall id ensures Dated(s, m'.tasks, m'.log, id) { CommitDates(s, m, m', c, k, st, id); }
    forall x: ClientId ensures HeldSince(s, m'.tasks, m'.log, ClientOf(m', x)) {
      if x != c { CommitPasses(s, m, m', c, k, st, x); }
    }
  }

  lemma QuietKeeps(s: States, m: Machine, m': Machine, c: ClientId)
    requires Inv(s, m) && StepsQuietly(m, m', c) && HeldSince(s, m.tasks, m.log, m'.clients[c])
    ensures Inv(s, m')
  {
    forall x: ClientId ensures HeldSince(s, m'.tasks, m'.log, ClientOf(m', x)) {
      assert HeldSince(s, m.tasks, m.log, ClientOf(m, x));
    }
  }

  /** A step that commits nothing leaves its client with nothing in hand, or with what it has just read. */
  lemma QuietHolds(s: States, cfg: Config, m: Machine, c: ClientId)
    requires c in m.clients && m.clients[c].code != [] && !AtScript(m, c) && forall id :: Dated(s, m.tasks, m.log, id)
    requires var i := m.clients[c].code[0]; !L.WritesState(i) || i.Cas? || (i.Append? && i.id !in m.tasks)
    ensures c in Tick(cfg, m, c).clients && HeldSince(s, m.tasks, m.log, Tick(cfg, m, c).clients[c])
  {
    hide Tick, TickRead, Dated;
    var i := m.clients[c].code[0];
    if !L.WritesState(i) {
      L.ListStepQuiet(cfg, m, c);
    } else if i.Cas? {
      CasTick(cfg, m, c);
      assert Dated(s, m.tasks, m.log, i.id);
      ReadHolds(s, m, c);
    } else {
      A.MissedTick(cfg, m, c);
    }
  }

  lemma ReadHolds(s: States, m: Machine, c: ClientId)
    requires c in m.clients && m.clients[c].code != [] && m.clients[c].code[0].Cas? && m.clients[c].held.None?
    requires Dated(s, m.tasks, m.log, m.clients[c].code[0].id)
    ensures var i := m.clients[c].code[0]; var m' := TickRead(m, c, i.id, i.m, i.default);
      c in m'.clients && HeldSince(s, m.tasks, m.log, m'.clients[c])
  {
    DatedBack(s, m.tasks, m.log, m.clients[c].code[0].id);
    hide Dated;
  }

  lemma DatedBack(s: States, tasks: States, log: seq<Commit>, id: TaskId)
    requires Dated(s, tasks, log, id)
    ensures id in s ==> id in tasks
  {
  }

  lemma StepKeeps(s: States, cfg: Config, m: Machine, move: Move)
    requires Inv(s, m)
    ensures Inv(s, Do(cfg, m, move))
  {
    hide Tick, HeldSince, Dated, Commits;
    match move
    case Begin(c, op) => BeginKeeps(s, cfg, m, c, op);
    case Step(c) =>
      if c in m.clients && m.clients[c].code != [] {
        var m', i := Tick(cfg, m, c), m.clients[c].code[0];
        if AtScript(m, c) {
          ScriptKeeps(s, cfg, m, c);
        } else if !L.WritesState(i) || i.Cas? || (i.Append? && i.id !in m.tasks) {
          OtherSteps(cfg, m, c);
          QuietHolds(s, cfg, m, c);
          QuietKeeps(s, m, m', c);
        } else {
          var k, st := WriteSteps(cfg, m, c);
          CommitKeeps(s, m, m', c, k, st);
        }
      } else {
        IdleTick(cfg, m, c);
      }
  }

  lemma BeginKeeps(s: States, cfg: Config, m: Machine, c: ClientId, op: Op)
    requires Inv(s, m)
    ensures Inv(s, Start(cfg, m, c, op))
  {
    hide Code;
    var m' := Start(cfg, m, c, op);
    if m' != m {
      assert HeldSince(s, m.tasks, m.log, ClientOf(m, c));
      QuietKeeps(s, m, m', c);
    }
  }

  lemma ScriptKeeps(s: States, cfg: Config, m: Machine, c: ClientId)
    requires Inv(s, m) && AtScript(m, c)
    ensures Inv(s, Tick(cfg, m, c))
  {
    hide Tick, Dated, Commits;
    var i := m.clients[c].code[0];
    ScriptSteps(cfg, m, c);
    if Wins(m, c) {
      CommitKeeps(s, m, Tick(cfg, m, c), c, Commit(c, i.id, Mutated(i.m)), Swap(i.m, m.clients[c].held.value.copy));
    } else {
      QuietKeeps(s, m, Tick(cfg, m, c), c);
    }
  }

  lemma {:induction false} RunKeeps(cfg: Config, m: Machine, moves: seq<Move>)
    requires Initial(m)
    ensures Inv(m.tasks, Run(cfg, m, moves))
  {
    if moves != [] {
      RunKeeps(cfg, m, moves[..|moves| - 1]);
      StepKeeps(m.tasks, cfg, Run(cfg, m, moves[..|moves| - 1]), moves[|moves| - 1]);
    }
  }

  // ---------------------------------------------------------------- what a winning script writes over

  /** On every schedule: a script that wins without a blind write of its id since its read writes over exactly the
      state that it read, which was no default. */
  lemma WinsOverWhatItRead(cfg: Config, m: Machine, moves: seq<Move>, c: ClientId)
    requires Initial(m) && AtScript(Run(cfg, m, moves), c) && Wins(Run(cfg, m, moves), c)
    requires var m' := Run(cfg, m, moves);
      NoBlindSince(m'.log, m'.clients[c].held.value.at, m'.clients[c].code[0].id)
    ensures var m' := Run(cfg, m, moves);
      !m'.clients[c].held.value.fromDefault && m'.clients[c].held.value.copy == m'.tasks[m'.clients[c].code[0].id]
  {
    RunKeeps(cfg, m, moves);
    WinnerOk(m.tasks, Run(cfg, m, moves), c);
  }

  lemma WinnerOk(s: States, m: Machine, c: ClientId)
    requires Inv(s, m) && AtScript(m, c) && Wins(m, c)
    requires NoBlindSince(m.log, m.clients[c].held.value.at, m.clients[c].code[0].id)
    ensures !m.clients[c].held.value.fromDefault && m.clients[c].held.value.copy == m.tasks[m.clients[c].code[0].id]
  {
    assert HeldSince(s, m.tasks, m.log, ClientOf(m, c));
  }

  /** On every schedule: a default state is written exactly when the last commit on its id is a blind write, which
      was then committed between the client's read and its script. */
  lemma DefaultWrittenIff(cfg: Config, m: Machine, moves: seq<Move>, c: ClientId)
    requires Initial(m) && AtScript(Run(cfg, m, moves), c) && Run(cfg, m, moves).clients[c].held.value.fromDefault
    ensures var m' := Run(cfg, m, moves);
      var last := LastOn(m'.log, m'.clients[c].code[0].id);
      Wins(m', c) <==> last.Some? && last.value.effect.Written?
    ensures var m' := Run(cfg, m, moves);
      Wins(m', c) ==> !NoBlindSince(m'.log, m'.clients[c].held.value.at, m'.clients[c].code[0].id)
  {
    RunKeeps(cfg, m, moves);
    DefaultIff(m.tasks, Run(cfg, m, moves), c);
  }

  lemma DefaultIff(s: States, m: Machine, c: ClientId)
    requires Inv(s, m) && AtScript(m, c) && m.clients[c].held.value.fromDefault
    ensures var last := LastOn(m.log, m.clients[c].code[0].id);
      Wins(m, c) <==> last.Some? && last.value.effect.Written?
    ensures Wins(m, c) ==> !NoBlindSince(m.log, m.clients[c].held.value.at, m.clients[c].code[0].id)
  {
    assert HeldSince(s, m.tasks, m.log, ClientOf(m, c));
    assert Dated(s, m.tasks, m.log, m.clients[c].code[0].id);
  }

  // ---------------------------------------------------------------- recorded events

  function EventsOf(tasks: States, id: TaskId): seq<Event> {
    if id in tasks then tasks[id].events else []
  }

  /** The events that commits on a task recorded: appended ones, and the one a stub starts with. */
  function Recorded(log: seq<Commit>, id: TaskId): seq<Event> {
    if log == [] then []
    else
      var k := log[|log| - 1];
      Recorded(log[..|log| - 1], id)
      + if k.id != id then []
        else match k.effect
             case Appended(e) => [e]
             case Written(st) => st.events
             case Mutated(_) => []
  }

  /** Every event that was recorded for the task is stored, in commit order. */
  predicate Kept(s: States, m: Machine, id: TaskId) {
    EventsOf(m.tasks, id) == EventsOf(s, id) + Recorded(m.log, id)
  }

  /** The step drops events: a blind write over a state that has some, or a winning script whose copy has others than
      the stored state. */
  predicate Drops(m: Machine, move: Move, id: TaskId) {
    move.Step? && move.client in m.clients && m.clients[move.client].code != []
    && var i := m.clients[move.client].code[0];
       (L.BlindWrite(i) == Some(id) && EventsOf(m.tasks, id) != [])
       || (AtScript(m, move.client) && i.id == id && Wins(m, move.client)
           && m.clients[move.client].held.value.copy.events != m.tasks[id].events)
  }

  lemma RecordedSnoc(log: seq<Commit>, k: Commit, id: TaskId)
    ensures Recorded(log + [k], id) == Recorded(log, id)
      + if k.id != id then []
        else match k.effect
             case Appended(e) => [e]
             case Written(st) => st.events
             case Mutated(_) => []
  {
    assert (log + [k])[..|log|] == log;
  }

  lemma SameEvents(a: seq<Event>, b: seq<Event>, c: seq<Event>)
    ensures a + (b + c) == a + b + c
    ensures a + b + [] == a + b
    ensures a + c == c <==> a == []
  {
    if a + c == c { assert |a| == 0; }
  }

  lemma SwapEvents(mu: Mutator, st: TaskState)
    ensures Swap(mu, st).events == st.events
  {
  }

  /** One commit keeps the recorded events exactly when it drops none. */
  lemma CommitEvents(s: States, m: Machine, m': Machine, c: ClientId, k: Commit, st: TaskState, id: TaskId)
    requires StepsWith(m, m', c, k, st) && Kept(s, m, id)
    ensures k.id != id ==> Kept(s, m', id)
    ensures k.id == id && k.effect.Appended? ==> Kept(s, m', id)
    ensures k.id == id && k.effect.Written? ==> (Kept(s, m', id) <==> EventsOf(m.tasks, id) == [])
    ensures k.id == id && k.effect.Mutated? ==>
      (Kept(s, m', id) <==> m.clients[c].held.value.copy.events == m.tasks[id].events)
  {
    RecordedSnoc(m.log, k, id);
    var before := EventsOf(s, id) + Recorded(m.log, id);
    SameEvents(EventsOf(s, id), Recorded(m.log, id), if k.id == id && k.effect.Appended? then [k.effect.event] else []);
    if k.id == id && k.effect.Written? {
      SameEvents(EventsOf(s, id), Recorded(m.log, id), k.effect.state.events);
      SameEvents(before, [], k.effect.state.events);
    }
    if k.effect.Mutated? { SwapEvents(k.effect.m, m.clients[c].held.value.copy); }
  }

  lemma StepEvents(s: States, cfg: Config, m: Machine, move: Move, id: TaskId)
    requires Kept(s, m, id)
    ensures Kept(s, Do(cfg, m, move), id) <==> !Drops(m, move, id)
  {
    hide Tick, Kept, EventsOf, Recorded;
    if move.Step? && move.client in m.clients && m.clients[move.client].code != [] {
      var c := move.client;
      var m', i := Tick(cfg, m, c), m.clients[c].code[0];
      if AtScript(m, c) {
        ScriptSteps(cfg, m, c);
        if Wins(m, c) {
          CommitEvents(s, m, m', c, Commit(c, i.id, Mutated(i.m)), Swap(i.m, m.clients[c].held.value.copy), id);
        } else {
          QuietEvents(s, m, m', id);
        }
      } else if !L.WritesState(i) || i.Cas? || (i.Append? && i.id !in m.tasks) {
        OtherSteps(cfg, m, c);
        QuietEvents(s, m, m', id);
      } else {
        var k, st := WriteSteps(cfg, m, c);
        CommitEvents(s, m, m', c, k, st, id);
      }
    } else {
      if move.Step? { IdleTick(cfg, m, move.client); }
      QuietEvents(s, m, Do(cfg, m, move), id);
    }
  }

  lemma QuietEvents(s: States, m: Machine, m': Machine, id: TaskId)
    requires Kept(s, m, id) && m'.log == m.log && m'.tasks == m.tasks
    ensures Kept(s, m', id)
  {
  }

  ghost predicate AlwaysKept(cfg: Config, m: Machine, moves: seq<Move>, id: TaskId) {
    Kept(m.tasks, Run(cfg, m, moves), id) && (moves == [] || AlwaysKept(cfg, m, moves[..|moves| - 1], id))
  }

  ghost predicate NeverDrops(cfg: Config, m: Machine, moves: seq<Move>, id: TaskId) {
    moves == []
    || (NeverDrops(cfg, m, moves[..|moves| - 1], id)
        && !Drops(Run(cfg, m, moves[..|moves| - 1]), moves[|moves| - 1], id))
  }

  /** On every schedule every recorded event of a task is stored at each point exactly when no blind write lands on a
      state with events and no script writes back a copy with other events than the stored ones. */
  lemma {:induction false} EventsKeptIff(cfg: Config, m: Machine, moves: seq<Move>, id: TaskId)
    requires Initial(m)
    ensures AlwaysKept(cfg, m, moves, id) <==> NeverDrops(cfg, m, moves, id)
  {
    hide Drops, Do, Kept, Run, AlwaysKept, NeverDrops;
    if moves == [] {
      NoEvents(cfg, m, id);
    } else {
      var front, last := moves[..|moves| - 1], moves[|moves| - 1];
      EventsKeptIff(cfg, m, front, id);
      LastEvents(cfg, m, moves, id);
      if AlwaysKept(cfg, m, front, id) {
        KeptNow(cfg, m, front, id);
        StepEvents(m.tasks, cfg, Run(cfg, m, front), last, id);
      }
    }
  }

  lemma NoEvents(cfg: Config, m: Machine, id: TaskId)
    requires Initial(m)
    ensures AlwaysKept(cfg, m, [], id) && NeverDrops(cfg, m, [], id)
  {
    assert EventsOf(m.tasks, id) + [] == EventsOf(m.tasks, id);
  }

  lemma LastEvents(cfg: Config, m: Machine, moves: seq<Move>, id: TaskId)
    requires moves != []
    ensures var (front, last) := (moves[..|moves| - 1], moves[|moves| - 1]);
      && (AlwaysKept(cfg, m, moves, id)
          <==> Kept(m.tasks, Do(cfg, Run(cfg, m, front), last), id) && AlwaysKept(cfg, m, front, id))
      && (NeverDrops(cfg, m, moves, id) <==> NeverDrops(cfg, m, front, id) && !Drops(Run(cfg, m, front), last, id))
  {
    hide Do, Kept, Drops;
  }

  lemma KeptNow(cfg: Config, m: Machine, moves: seq<Move>, id: TaskId)
    requires AlwaysKept(cfg, m, moves, id)
    ensures Kept(m.tasks, Run(cfg, m, moves), id)
  {
  }

  /** Such a script wins only because of a blind write of the id since its read. */
  lemma DropNeedsBlindWrite(cfg: Config, m: Machine, moves: seq<Move>, c: ClientId, id: TaskId)
    requires Initial(m) && Drops(Run(cfg, m, moves), Step(c), id)
    ensures var m' := Run(cfg, m, moves);
      (L.BlindWrite(m'.clients[c].code[0]) == Some(id) && EventsOf(m'.tasks, id) != [])
      || (AtScript(m', c) && !NoBlindSince(m'.log, m'.clients[c].held.value.at, id))
  {
    RunKeeps(cfg, m, moves);
    var m' := Run(cfg, m, moves);
    if AtScript(m', c) && NoBlindSince(m'.log, m'.clients[c].held.value.at, id) && m'.clients[c].code[0].id == id && Wins(m', c) {
      WinnerOk(m.tasks, m', c);
    }
  }

  // ---------------------------------------------------------------- replay

  /** A winning script that writes something else than the mutator makes of the stored state. */
  predicate Overwrites(m: Machine, move: Move) {
    move.Step? && AtScript(m, move.client) && Wins(m, move.client)
    && var cl := m.clients[move.client];
       Swap(cl.code[0].m, cl.held.value.copy) != Swap(cl.code[0].m, m.tasks[cl.code[0].id])
  }

  ghost predicate AlwaysReplay(cfg: Config, m: Machine, moves: seq<Move>) {
    var m' := Run(cfg, m, moves);
    m'.tasks == L.Replay(m.tasks, m'.log) && (moves == [] || AlwaysReplay(cfg, m, moves[..|moves| - 1]))
  }

  ghost predicate NeverOverwrites(cfg: Config, m: Machine, moves: seq<Move>) {
    moves == []
    || (NeverOverwrites(cfg, m, moves[..|moves| - 1])
        && !Overwrites(Run(cfg, m, moves[..|moves| - 1]), moves[|moves| - 1]))
  }

  lemma CommitReplays(s: States, m: Machine, m': Machine, c: ClientId, k: Commit, st: TaskState)
    requires StepsWith(m, m', c, k, st) && m.tasks == L.Replay(s, m.log)
    ensures m'.tasks == L.Replay(s, m'.log)
      <==> (k.effect.Mutated? ==> st == Swap(k.effect.m, m.tasks[k.id]))
  {
    L.ReplaySnoc(s, m.log, k);
    hide Swap, L.Replay;
    if k.effect.Mutated? {
      assert m'.tasks[k.id] == st && L.Apply(m.tasks, k)[k.id] == Swap(k.effect.m, m.tasks[k.id]);
    }
  }

  lemma StepReplays(s: States, cfg: Config, m: Machine, move: Move)
    requires m.tasks == L.Replay(s, m.log)
    ensures Do(cfg, m, move).tasks == L.Replay(s, Do(cfg, m, move).log) <==> !Overwrites(m, move)
  {
    hide Tick, L.Replay, Swap;
    if move.Step? && move.client in m.clients && m.clients[move.client].code != [] {
      var c := move.client;
      var m', i := Tick(cfg, m, c), m.clients[c].code[0];
      if AtScript(m, c) {
        ScriptSteps(cfg, m, c);
        if Wins(m, c) {
          CommitReplays(s, m, m', c, Commit(c, i.id, Mutated(i.m)), Swap(i.m, m.clients[c].held.value.copy));
        }
      } else if !L.WritesState(i) || i.Cas? || (i.Append? && i.id !in m.tasks) {
        OtherSteps(cfg, m, c);
      } else {
        var k, st := WriteSteps(cfg, m, c);
        CommitReplays(s, m, m', c, k, st);
      }
    } else if move.Step? {
      IdleTick(cfg, m, move.client);
    }
  }

  /** On every schedule the stored states are the replayed ones at each point exactly when no winning script writes
      something else than its mutator makes of the stored state, as only a blind write since its read allows. */
  lemma {:induction false} ReplayIff(cfg: Config, m: Machine, moves: seq<Move>)
    requires Initial(m)
    ensures AlwaysReplay(cfg, m, moves) <==> NeverOverwrites(cfg, m, moves)
  {
    hide Overwrites, Do, L.Replay, Run, AlwaysReplay, NeverOverwrites;
    if moves == [] {
      NoReplay(cfg, m);
    } else {
      var front, last := moves[..|moves| - 1], moves[|moves| - 1];
      ReplayIff(cfg, m, front);
      LastReplay(cfg, m, moves);
      if AlwaysReplay(cfg, m, front) {
        ReplayNow(cfg, m, front);
        StepReplays(m.tasks, cfg, Run(cfg, m, front), last);
      }
    }
  }

  lemma NoReplay(cfg: Config, m: Machine)
    requires Initial(m)
    ensures AlwaysReplay(cfg, m, []) && NeverOverwrites(cfg, m, [])
  {
  }

  lemma LastReplay(cfg: Config, m: Machine, moves: seq<Move>)
    requires moves != []
    ensures var (front, last) := (moves[..|moves| - 1], moves[|moves| - 1]);
      var m' := Do(cfg, Run(cfg, m, front), last);
      && (AlwaysReplay(cfg, m, moves) <==> m'.tasks == L.Replay(m.tasks, m'.log) && AlwaysReplay(cfg, m, front))
      && (NeverOverwrites(cfg, m, moves) <==> NeverOverwrites(cfg, m, front) && !Overwrites(Run(cfg, m, front), last))
  {
    hide Do, L.Replay, Overwrites;
  }

  lemma ReplayNow(cfg: Config, m: Machine, moves: seq<Move>)
    requires AlwaysReplay(cfg, m, moves)
    ensures Run(cfg, m, moves).tasks == L.Replay(m.tasks, Run(cfg, m, moves).log)
  {
  }
}
