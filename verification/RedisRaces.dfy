/**
 What the guarantees do not cover: from every state of a simple shape there is a schedule on which the
 store loses, duplicates or mis-acknowledges a task.  Each shows that a side condition of the theorems
 in Linearizability and Conservation cannot be dropped.
 */
module RedisRaces {
  import opened Wrappers
  import opened Motion
  import opened TaskModel
  import opened RedisMachine
  import Linearizability

  // ---------------------------------------------------------------- schedules

  /** Some schedule leads from one machine to the other. */
  ghost predicate Reaches(cfg: Config, m: Machine, m': Machine) {
    exists moves: seq<Move> :: Run(cfg, m, moves) == m'
  }

  lemma RunSnoc(cfg: Config, m: Machine, moves: seq<Move>, x: Move)
    ensures Run(cfg, m, moves + [x]) == Do(cfg, Run(cfg, m, moves), x)
  {
    assert (moves + [x])[..|moves|] == moves;
  }

  /** One more move. */
  lemma Then(cfg: Config, m: Machine, m1: Machine, x: Move)
    requires Reaches(cfg, m, m1)
    ensures Reaches(cfg, m, Do(cfg, m1, x))
  {
    var moves: seq<Move> :| Run(cfg, m, moves) == m1;
    RunSnoc(cfg, m, moves, x);
  }

  lemma Here(cfg: Config, m: Machine)
    ensures Reaches(cfg, m, m)
  {
    assert Run(cfg, m, []) == m;
  }

  predicate Free(m: Machine, c: ClientId) {
    ClientOf(m, c).code == [] && ClientOf(m, c).held.None? && ClientOf(m, c).first.None?
  }

  /** The machine with one client replaced. */
  function With(m: Machine, c: ClientId, cl: Client): Machine {
    m.(clients := m.clients[c := cl])
  }

  /** Only `c` has changed among the clients. */
  ghost predicate OthersSame(m: Machine, m': Machine, c: ClientId) {
    forall x :: x != c ==> ClientOf(m', x) == ClientOf(m, x)
  }

  lemma Begins(cfg: Config, m: Machine, c: ClientId, op: Op) returns (m': Machine)
    requires Free(m, c)
    ensures m' == Do(cfg, m, Begin(c, op)) == With(m, c, ClientOf(m, c).(code := Code(cfg, op)))
    ensures OthersSame(m, m', c) && Reaches(cfg, m, m')
  {
    m' := Do(cfg, m, Begin(c, op));
    Here(cfg, m);
    Then(cfg, m, m, Begin(c, op));
  }

  // ---------------------------------------------------------------- requeue

  /** A requeue of a task that is not (any more) in processing pushes it all the same: when the task
      is already pending, as after a recovery, it is then pending twice. */
  lemma RequeueDuplicates(cfg: Config, m: Machine, c: ClientId, d: DeviceId, t: Task) returns (m': Machine)
    requires Free(m, c) && t.id in Ids(At(m.pending, d)) && t.id !in Ids(At(m.processing, d))
    ensures Reaches(cfg, m, m')
    ensures At(m'.pending, d) == [t] + At(m.pending, d) && !Distinct(At(m'.pending, d))
  {
    var code := Code(cfg, OpRequeue(d, [t]));
    assert code[0] == Scan(d, t.id, ForRequeue) && code[1] == PushBack(d, [t]);
    var m1 := Begins(cfg, m, c, OpRequeue(d, [t]));
    var m2 := Do(cfg, m1, Step(c));
    Then(cfg, m, m1, Step(c));
    m' := Do(cfg, m2, Step(c));
    Then(cfg, m, m2, Step(c));
    hide Reaches, Run, Code;
    RequeueMisses(cfg, m1, c, d, t);
    RequeuePushes(cfg, m2, c, d, t);
    ConcatIds([t], At(m.pending, d));
    OneId(t);
  }

  lemma RequeueMisses(cfg: Config, m: Machine, c: ClientId, d: DeviceId, t: Task)
    requires c in m.clients && |m.clients[c].code| > 1 && t.id !in Ids(At(m.processing, d))
    requires m.clients[c].code[0] == Scan(d, t.id, ForRequeue)
    ensures var m' := Do(cfg, m, Step(c));
      c in m'.clients && m'.clients[c].code == m.clients[c].code[1..] && m'.pending == m.pending
  {
    assert [] + m.clients[c].code[1..] == m.clients[c].code[1..];
  }

  lemma RequeuePushes(cfg: Config, m: Machine, c: ClientId, d: DeviceId, t: Task)
    requires c in m.clients && m.clients[c].code != [] && m.clients[c].code[0] == PushBack(d, [t])
    ensures At(Do(cfg, m, Step(c)).pending, d) == [t] + At(m.pending, d)
  {
  }

  // ---------------------------------------------------------------- acknowledgement

  /** The first two steps of a pop of one task: it begins and moves the head. */
  lemma PopMoves(cfg: Config, m0: Machine, m: Machine, c: ClientId, d: DeviceId, now: real) returns (m': Machine)
    requires Reaches(cfg, m0, m) && Free(m, c) && At(m.pending, d) != []
    ensures Reaches(cfg, m0, m')
    ensures At(m'.pending, d) == At(m.pending, d)[1..] && At(m'.processing, d) == [At(m.pending, d)[0]] + At(m.processing, d)
    ensures m'.tasks == m.tasks && m'.removals == m.removals && m'.log == m.log && OthersSame(m, m', c)
  {
    var m1 := Begins(cfg, m, c, OpPop(d, 1, now));
    Then(cfg, m0, m, Begin(c, OpPop(d, 1, now)));
    m' := Do(cfg, m1, Step(c));
    Then(cfg, m0, m1, Step(c));
    hide Reaches, Run, AfterMoves;
    PopMoveStep(cfg, m1, c, d, now);
  }

  lemma PopMoveStep(cfg: Config, m: Machine, c: ClientId, d: DeviceId, now: real)
    requires c in m.clients && m.clients[c].code == Code(cfg, OpPop(d, 1, now))
    requires m.clients[c].held.None? && m.clients[c].first.None?
    ensures Do(cfg, m, Step(c)) == TickMove(cfg, m, c, d, 1, [], now)
  {
    assert m.clients[c].code[0] == MoveOne(d, 1, [], now);
  }

  /** The first four steps of an ack that is not rejected for its generation and finds `t`. */
  lemma AckTakes(cfg: Config, m0: Machine, m: Machine, a: ClientId, d: DeviceId, t: Task, gen: Option<nat>)
    returns (m': Machine)
    requires Reaches(cfg, m0, m) && Free(m, a) && At(m.processing, d) != [] && At(m.processing, d)[0] == t
    requires !Judge(Lookup(m, t.id), gen, cfg.strict).Reject?
    ensures Reaches(cfg, m0, m') && m'.pending == m.pending && At(m'.processing, d) == At(m.processing, d)[1..]
    ensures var ok := Judge(Lookup(m, t.id), gen, cfg.strict).Proceed?;
      && ClientOf(m', a).results == ClientOf(m, a).results + [AckReply(t.id, ok, gen, |m.log|)]
      && m'.removals == m.removals + [Removal(t.id, a, if ok then ByAck else ByRejectedAck)]
    ensures OthersSame(m, m', a)
  {
    hide Reaches, Judge, Tick;
    var purpose := AckPurpose(Judge(Lookup(m, t.id), gen, cfg.strict), gen, |m.log|);
    var m1 := Begins(cfg, m, a, OpAck(d, t.id, gen));
    Then(cfg, m0, m, Begin(a, OpAck(d, t.id, gen)));
    AckScans(cfg, m1, a, d, t.id, gen);
    var m2 := Do(cfg, m1, Step(a));
    Then(cfg, m0, m1, Step(a));
    ScanFinds(cfg, m2, a, d, t, purpose);
    var m3 := Do(cfg, m2, Step(a));
    Then(cfg, m0, m2, Step(a));
    AckEnds(cfg, m3, a, d, t, purpose);
    m' := Do(cfg, m3, Step(a));
    Then(cfg, m0, m3, Step(a));
  }

  lemma AckScans(cfg: Config, m: Machine, a: ClientId, d: DeviceId, id: TaskId, gen: Option<nat>)
    requires a in m.clients && m.clients[a].code == [AckRead(d, id, gen)]
    requires m.clients[a].held.None? && m.clients[a].first.None?
    requires !Judge(Lookup(m, id), gen, cfg.strict).Reject?
    ensures var v := Judge(Lookup(m, id), gen, cfg.strict);
      Tick(cfg, m, a) == With(m, a, m.clients[a].(code := [Scan(d, id, AckPurpose(v, gen, |m.log|))]))
  {
    var v := Judge(Lookup(m, id), gen, cfg.strict);
    var next := Scan(d, id, AckPurpose(v, gen, |m.log|));
    assert [next] + m.clients[a].code[1..] == [next];
  }

  lemma ScanFinds(cfg: Config, m: Machine, a: ClientId, d: DeviceId, t: Task, purpose: Purpose)
    requires a in m.clients && m.clients[a].code == [Scan(d, t.id, purpose)]
    requires m.clients[a].held.None? && m.clients[a].first.None?
    requires At(m.processing, d) != [] && At(m.processing, d)[0] == t
    ensures Tick(cfg, m, a) == With(m, a, m.clients[a].(code := [Take(d, t, purpose)]))
  {
    assert [Take(d, t, purpose)] + m.clients[a].code[1..] == [Take(d, t, purpose)];
  }

  lemma AckEnds(cfg: Config, m: Machine, a: ClientId, d: DeviceId, t: Task, purpose: Purpose)
    requires a in m.clients && m.clients[a].code == [Take(d, t, purpose)] && (purpose.ForAck? || purpose.ForRejectedAck?)
    requires At(m.processing, d) != [] && At(m.processing, d)[0] == t
    ensures var m' := Tick(cfg, m, a);
      && ClientOf(m', a).results == m.clients[a].results + [AckReply(t.id, purpose.ForAck?, purpose.gen, purpose.seen)]
      && m'.pending == m.pending && At(m'.processing, d) == At(m.processing, d)[1..]
      && m'.removals == m.removals + [Removal(t.id, a, if purpose.ForAck? then ByAck else ByRejectedAck)]
      && OthersSame(m, m', a)
  {
    assert RemoveFirst(At(m.processing, d), t) == At(m.processing, d)[1..];
  }

  /** A pop is two steps, the move and the state update that forgets `recovered_at`.  An ack that
      falls between them is rejected, and yet it takes the task off the processing list: the task is
      then in no list, although no operation reported a removal. */
  lemma RejectedAckLosesTask(cfg: Config, m: Machine, c: ClientId, a: ClientId, d: DeviceId, now: real)
    returns (m': Machine)
    requires Free(m, c) && Free(m, a) && c != a && At(m.pending, d) != []
    requires var id := At(m.pending, d)[0].id;
      id in m.tasks && m.tasks[id].recoveredAt.Some? && id !in Ids(At(m.processing, d))
      && id !in Ids(At(m.pending, d)[1..])
    ensures Reaches(cfg, m, m')
    ensures var id := At(m.pending, d)[0].id;
      && id !in Ids(At(m'.pending, d)) && id !in Ids(At(m'.processing, d))
      && ClientOf(m', a).results == ClientOf(m, a).results + [AckReply(id, false, Some(m.tasks[id].dispatchGen), |m.log|)]
      && m'.removals == m.removals + [Removal(id, a, ByRejectedAck)]
  {
    var t := At(m.pending, d)[0];
    Here(cfg, m);
    var m1 := PopMoves(cfg, m, m, c, d, now);
    assert ClientOf(m1, a) == ClientOf(m, a);
    assert At(m1.processing, d)[1..] == At(m.processing, d);
    m' := AckTakes(cfg, m, m1, a, d, t, Some(m.tasks[t.id].dispatchGen));
  }

  /** The move of a recovery and its generation bump are two steps.  Between them the task can be
      popped again, and an ack of the worker that was given up, with the generation it was given,
      succeeds and takes the new dispatch off the processing list. */
  lemma AckBetweenMoveAndBump(cfg: Config, m: Machine, r: ClientId, c: ClientId, a: ClientId, d: DeviceId, t: Task, now: real)
    returns (m': Machine)
    requires Free(m, c) && Free(m, a) && r in m.clients && r != c && r != a && c != a
    requires m.clients[r].code == [RecoverMove(d, t, now, true)]
    requires At(m.processing, d) == [t] && At(m.pending, d) == []
    requires t.id in m.tasks && m.tasks[t.id].recoveredAt.None?
    ensures Reaches(cfg, m, m')
    ensures ClientOf(m', r).code == [Swap3(t.id, MRecover(now), None)]
    ensures ClientOf(m', a).results == ClientOf(m, a).results + [AckReply(t.id, true, Some(m.tasks[t.id].dispatchGen), |m.log|)]
    ensures At(m'.pending, d) == [] && At(m'.processing, d) == []
  {
    Here(cfg, m);
    var m1 := Do(cfg, m, Step(r));
    Then(cfg, m, m, Step(r));
    RecoverMoves(cfg, m, r, d, t, now);
    assert ClientOf(m1, a) == ClientOf(m, a) && ClientOf(m1, c) == ClientOf(m, c);
    var m2 := PopMoves(cfg, m, m1, c, d, now);
    assert ClientOf(m2, a) == ClientOf(m1, a) && ClientOf(m2, r) == ClientOf(m1, r);
    m' := AckTakes(cfg, m, m2, a, d, t, Some(m.tasks[t.id].dispatchGen));
    assert ClientOf(m', r) == ClientOf(m2, r);
  }

  lemma RecoverMoves(cfg: Config, m: Machine, r: ClientId, d: DeviceId, t: Task, now: real)
    requires r in m.clients && m.clients[r].code == [RecoverMove(d, t, now, true)]
    requires At(m.processing, d) == [t] && At(m.pending, d) == []
    ensures var m' := Do(cfg, m, Step(r));
      && ClientOf(m', r).code == [Swap3(t.id, MRecover(now), None)]
      && At(m'.pending, d) == [t] && At(m'.processing, d) == [] && m'.tasks == m.tasks && m'.log == m.log && OthersSame(m, m', r)
  {
    assert RemoveAll([t], t) == [] by { assert [t][1..] == []; }
  }

  /** The bump of a recovery, read and written without a conflict. */
  lemma BumpCommits(cfg: Config, m0: Machine, m: Machine, r: ClientId, id: TaskId, now: real) returns (m': Machine)
    requires Reaches(cfg, m0, m) && r in m.clients && id in m.tasks
    requires m.clients[r].code == [Swap3(id, MRecover(now), None)] && m.clients[r].held.None?
    ensures Reaches(cfg, m0, m') && m'.tasks == m.tasks[id := Swap(MRecover(now), m.tasks[id])] && OthersSame(m, m', r)
    ensures m'.pending == m.pending && m'.processing == m.processing && m'.removals == m.removals && |m'.log| == |m.log| + 1
  {
    var m1 := Do(cfg, m, Step(r));
    Then(cfg, m0, m, Step(r));
    BumpReads(cfg, m, r, id, now);
    m' := Do(cfg, m1, Step(r));
    Then(cfg, m0, m1, Step(r));
    hide Reaches, Run;
    BumpWrites(cfg, m1, r, id, now);
  }

  lemma BumpReads(cfg: Config, m: Machine, r: ClientId, id: TaskId, now: real)
    requires r in m.clients && id in m.tasks
    requires m.clients[r].code == [Swap3(id, MRecover(now), None)] && m.clients[r].held.None?
    ensures Do(cfg, m, Step(r)) == TickRead(m, r, id, MRecover(now), None)
  {
    assert m.clients[r].code[0] == Swap3(id, MRecover(now), None);
  }

  lemma BumpWrites(cfg: Config, m: Machine, r: ClientId, id: TaskId, now: real)
    requires r in m.clients && id in m.tasks && m.clients[r].held.Some? && m.clients[r].held.value.copy == m.tasks[id]
    requires m.clients[r].code == [Swap3(id, MRecover(now), None)]
    ensures Do(cfg, m, Step(r)) == TickSwap(m, r, id, MRecover(now), None, MAX_RETRIES)
  {
    assert m.clients[r].code[0] == Swap3(id, MRecover(now), None);
  }

  /** A recovery has moved the task, a pop has dispatched it again and written its state, and only then the bump is
      committed: from now on an ack without a generation is rejected, and takes the task off the processing list.
      It was read after the pop's update. */
  lemma LateBumpLosesTask(cfg: Config, m: Machine, r: ClientId, a: ClientId, d: DeviceId, t: Task, now: real)
    returns (m': Machine)
    requires Free(m, a) && r in m.clients && r != a && !cfg.strict
    requires m.clients[r].code == [Swap3(t.id, MRecover(now), None)] && m.clients[r].held.None?
    requires At(m.processing, d) == [t] && At(m.pending, d) == [] && t.id in m.tasks && m.tasks[t.id].recoveredAt.None?
    ensures Reaches(cfg, m, m') && At(m'.pending, d) == [] && At(m'.processing, d) == []
    ensures ClientOf(m', a).results == ClientOf(m, a).results + [AckReply(t.id, false, None, |m.log| + 1)]
    ensures m'.removals == m.removals + [Removal(t.id, a, ByRejectedAck)]
  {
    Here(cfg, m);
    var m1 := BumpCommits(cfg, m, m, r, t.id, now);
    assert ClientOf(m1, a) == ClientOf(m, a);
    m' := AckTakes(cfg, m, m1, a, d, t, None);
  }

  /** An ack reads the mark of a recovery while the task waits; before its search of the processing list a pop moves
      the task there, and the clean-up takes it off. */
  lemma EarlyReadLosesTask(cfg: Config, m: Machine, c: ClientId, a: ClientId, d: DeviceId, now: real)
    returns (m': Machine)
    requires Free(m, c) && Free(m, a) && c != a && !cfg.strict && At(m.pending, d) != []
    requires var id := At(m.pending, d)[0].id; id in m.tasks && m.tasks[id].recoveredAt.Some?
    ensures Reaches(cfg, m, m')
    ensures At(m'.pending, d) == At(m.pending, d)[1..] && At(m'.processing, d) == At(m.processing, d)
    ensures m'.removals == m.removals + [Removal(At(m.pending, d)[0].id, a, ByRejectedAck)]
  {
    var t := At(m.pending, d)[0];
    var purpose := ForRejectedAck(None, |m.log|);
    var m1 := Begins(cfg, m, a, OpAck(d, t.id, None));
    AckScans(cfg, m1, a, d, t.id, None);
    var m2 := Do(cfg, m1, Step(a));
    Then(cfg, m, m1, Step(a));
    assert ClientOf(m2, c) == ClientOf(m, c);
    var m3 := PopMoves(cfg, m, m2, c, d, now);
    assert ClientOf(m3, a) == ClientOf(m2, a);
    EarlyEnd(cfg, m3, a, d, t, purpose);
    var m4 := Do(cfg, m3, Step(a));
    Then(cfg, m, m3, Step(a));
    m' := Do(cfg, m4, Step(a));
    Then(cfg, m, m4, Step(a));
    assert ([t] + At(m.processing, d))[1..] == At(m.processing, d);
  }

  /** The search and the LREM of an ack that has been rejected. */
  lemma EarlyEnd(cfg: Config, m: Machine, a: ClientId, d: DeviceId, t: Task, purpose: Purpose)
    requires a in m.clients && m.clients[a].code == [Scan(d, t.id, purpose)] && purpose.ForRejectedAck?
    requires m.clients[a].held.None? && m.clients[a].first.None?
    requires At(m.processing, d) != [] && At(m.processing, d)[0] == t
    ensures var m' := Do(cfg, Do(cfg, m, Step(a)), Step(a));
      m'.pending == m.pending && At(m'.processing, d) == At(m.processing, d)[1..]
      && m'.removals == m.removals + [Removal(t.id, a, ByRejectedAck)]
  {
    ScanFinds(cfg, m, a, d, t, purpose);
    AckEnds(cfg, With(m, a, m.clients[a].(code := [Take(d, t, purpose)])), a, d, t, purpose);
  }

  // ---------------------------------------------------------------- task states

  lemma AppendMisses(cfg: Config, m0: Machine, m: Machine, a: ClientId, id: TaskId, e: Event) returns (m': Machine)
    requires Reaches(cfg, m0, m) && Free(m, a) && id !in m.tasks
    ensures Reaches(cfg, m0, m') && m'.tasks == m.tasks && OthersSame(m, m', a)
    ensures a in m'.clients && ClientOf(m', a).code == [Stub(id, e)]
  {
    hide Reaches;
    var m1 := Begins(cfg, m, a, OpRecord(id, e));
    Then(cfg, m0, m, Begin(a, OpRecord(id, e)));
    m' := Do(cfg, m1, Step(a));
    Then(cfg, m0, m1, Step(a));
  }

  lemma StubWrites(cfg: Config, m0: Machine, m: Machine, a: ClientId, id: TaskId, e: Event) returns (m': Machine)
    requires Reaches(cfg, m0, m) && a in m.clients && ClientOf(m, a).code == [Stub(id, e)]
    ensures Reaches(cfg, m0, m') && m'.tasks == m.tasks[id := Fresh(None, e.phase, [e])] && OthersSame(m, m', a)
  {
    m' := Do(cfg, m, Step(a));
    Then(cfg, m0, m, Step(a));
  }

  /** Two events recorded at the same time for a task that has no state: both clients find it missing,
      both write a stub, and the first event is gone. */
  lemma StubLosesEvent(cfg: Config, m: Machine, a: ClientId, b: ClientId, id: TaskId, e1: Event, e2: Event)
    returns (m': Machine)
    requires Free(m, a) && Free(m, b) && a != b && id !in m.tasks
    ensures Reaches(cfg, m, m') && id in m'.tasks && m'.tasks[id].events == [e2]
  {
    Here(cfg, m);
    var m1 := AppendMisses(cfg, m, m, a, id, e1);
    assert ClientOf(m1, b) == ClientOf(m, b);
    var m2 := AppendMisses(cfg, m, m1, b, id, e2);
    assert ClientOf(m2, a) == ClientOf(m1, a) && ClientOf(m2, a).code != [];
    var m3 := StubWrites(cfg, m, m2, a, id, e1);
    assert ClientOf(m3, b) == ClientOf(m2, b) && ClientOf(m3, b).code != [];
    m' := StubWrites(cfg, m, m3, b, id, e2);
  }

  /** A client in the middle of a retry increment that has read `copy`; its first count was `first`. */
  predicate Retrying(m: Machine, c: ClientId, id: TaskId, tries: nat, copy: TaskState, first: First) {
    var cl := ClientOf(m, c);
    cl.code == [Cas(id, MRetry, None, tries)] && cl.held.Some? && cl.held.value.copy == copy && cl.first == Some(first)
  }

  lemma RetryReads(cfg: Config, m0: Machine, m: Machine, c: ClientId, id: TaskId) returns (m': Machine)
    requires Reaches(cfg, m0, m) && Free(m, c) && id in m.tasks
    ensures Reaches(cfg, m0, m') && m'.tasks == m.tasks && m'.log == m.log && OthersSame(m, m', c)
    ensures Retrying(m', c, id, 3, m.tasks[id], First(m.tasks[id].retryCount + 1, |m.log|))
    ensures ClientOf(m', c).results == ClientOf(m, c).results
  {
    hide Reaches, Run, Tick;
    var m1 := Begins(cfg, m, c, OpRetry(id));
    Then(cfg, m0, m, Begin(c, OpRetry(id)));
    m' := Do(cfg, m1, Step(c));
    Then(cfg, m0, m1, Step(c));
    RetryReadStep(cfg, m1, c, id);
  }

  lemma RetryReadStep(cfg: Config, m: Machine, c: ClientId, id: TaskId)
    requires c in m.clients && m.clients[c].code == Code(cfg, OpRetry(id)) && id in m.tasks
    requires m.clients[c].held.None? && m.clients[c].first.None?
    ensures Do(cfg, m, Step(c)) == TickRead(m, c, id, MRetry, None)
  {
    assert m.clients[c].code[0] == Swap3(id, MRetry, None);
  }

  lemma RetryWins(cfg: Config, m0: Machine, m: Machine, c: ClientId, id: TaskId, tries: nat, copy: TaskState, first: First)
    returns (m': Machine)
    requires Reaches(cfg, m0, m) && id in m.tasks && Retrying(m, c, id, tries, copy, first)
    requires copy.version == m.tasks[id].version
    ensures Reaches(cfg, m0, m') && m'.tasks == m.tasks[id := Swap(MRetry, copy)] && OthersSame(m, m', c)
    ensures m'.log == m.log + [Commit(c, id, Mutated(MRetry))]
    ensures ClientOf(m', c).results == ClientOf(m, c).results + [Swapped(id, MRetry, Swap(MRetry, copy), Some(first))]
  {
    m' := Do(cfg, m, Step(c));
    Then(cfg, m0, m, Step(c));
    var cl := m.clients[c];
    assert cl.code[0].Cas? && m' == TickSwap(m, c, id, MRetry, None, tries);
  }

  /** A failed attempt reads again, and keeps the count of the first attempt. */
  lemma RetryReadsAgain(cfg: Config, m0: Machine, m: Machine, c: ClientId, id: TaskId, tries: nat, copy: TaskState, first: First)
    returns (m': Machine)
    requires Reaches(cfg, m0, m) && id in m.tasks && Retrying(m, c, id, tries, copy, first) && tries > 1
    requires copy.version != m.tasks[id].version
    ensures Reaches(cfg, m0, m') && m'.tasks == m.tasks && OthersSame(m, m', c)
    ensures Retrying(m', c, id, tries - 1, m.tasks[id], first) && ClientOf(m', c).results == ClientOf(m, c).results
  {
    var cl := m.clients[c];
    var m1 := Do(cfg, m, Step(c));
    assert [Cas(id, MRetry, None, tries - 1)] + cl.code[1..] == [Cas(id, MRetry, None, tries - 1)];
    assert m1 == With(m, c, cl.(held := None, code := [Cas(id, MRetry, None, tries - 1)]));
    Then(cfg, m0, m, Step(c));
    m' := Do(cfg, m1, Step(c));
    Then(cfg, m0, m1, Step(c));
  }

  lemma CreateWrites(cfg: Config, m0: Machine, m: Machine, b: ClientId, t: Task) returns (m': Machine)
    requires Reaches(cfg, m0, m) && Free(m, b)
    ensures Reaches(cfg, m0, m') && m'.tasks == m.tasks[t.id := Fresh(Some(t), Created, [])] && OthersSame(m, m', b)
    ensures m'.log == m.log + [Commit(b, t.id, Written(Fresh(Some(t), Created, [])))]
  {
    var m1 := Begins(cfg, m, b, OpCreate(t, Created));
    Then(cfg, m0, m, Begin(b, OpCreate(t, Created)));
    m' := Do(cfg, m1, Step(b));
    Then(cfg, m0, m1, Step(b));
  }

  /** Re-creating an existing task resets its version, so an attempt that read the old version 0 still
      wins and its stale copy replaces the new state: the stored states are not the replayed ones. */
  lemma BlindCreateBreaksReplay(cfg: Config, m: Machine, a: ClientId, b: ClientId, t: Task) returns (m': Machine)
    requires Free(m, a) && Free(m, b) && a != b && m.log == []
    requires t.id in m.tasks && m.tasks[t.id].version == 0 && m.tasks[t.id].retryCount > 0
    ensures Reaches(cfg, m, m') && m'.tasks != Linearizability.Replay(m.tasks, m'.log)
  {
    var s0 := m.tasks[t.id];
    Here(cfg, m);
    var m1 := RetryReads(cfg, m, m, a, t.id);
    assert ClientOf(m1, b) == ClientOf(m, b);
    var m2 := CreateWrites(cfg, m, m1, b, t);
    assert ClientOf(m2, a) == ClientOf(m1, a);
    m' := RetryWins(cfg, m, m2, a, t.id, 3, s0, First(s0.retryCount + 1, |m.log|));
    TwoCommits(m.tasks, Commit(b, t.id, Written(Fresh(Some(t), Created, []))), Commit(a, t.id, Mutated(MRetry)));
    assert m'.tasks[t.id].retryCount == s0.retryCount + 1;
  }

  lemma DefaultReads(cfg: Config, m: Machine, a: ClientId, id: TaskId, mu: Mutator, default: FreshState, tries: nat)
    requires a in m.clients && m.clients[a].code == [Cas(id, mu, Some(default), tries)] && m.clients[a].held.None?
    requires id !in m.tasks
    ensures var m' := Do(cfg, m, Step(a));
      m'.tasks == m.tasks && OthersSame(m, m', a) && a in m'.clients && m'.clients[a].code == m.clients[a].code
      && m'.clients[a].held == Some(Held(default, true, |m.log|))
  {
    assert Do(cfg, m, Step(a)) == TickRead(m, a, id, mu, Some(default));
  }

  lemma DefaultWrites(cfg: Config, m: Machine, a: ClientId, id: TaskId, mu: Mutator, default: FreshState, tries: nat)
    requires a in m.clients && m.clients[a].code == [Cas(id, mu, Some(default), tries)]
    requires m.clients[a].held.Some? && m.clients[a].held.value.copy == default && id in m.tasks && m.tasks[id].version == 0
    ensures Do(cfg, m, Step(a)).tasks == m.tasks[id := Swap(mu, default)]
  {
    hide Swap;
    assert Do(cfg, m, Step(a)) == TickSwap(m, a, id, mu, Some(default), tries);
  }

  /** A client reads that a task has no state and holds its default; the task is created; the script finds version
      zero, and the mutated default replaces what was created. */
  lemma DefaultReplacesCreation(cfg: Config, m: Machine, a: ClientId, b: ClientId, t: Task, mu: Mutator, default: FreshState,
                                tries: nat) returns (m': Machine)
    requires a in m.clients && m.clients[a].code == [Cas(t.id, mu, Some(default), tries)] && m.clients[a].held.None?
    requires Free(m, b) && a != b && t.id !in m.tasks
    ensures Reaches(cfg, m, m') && m'.tasks == m.tasks[t.id := Swap(mu, default)]
  {
    hide Swap, Tick;
    Here(cfg, m);
    var m1 := Do(cfg, m, Step(a));
    Then(cfg, m, m, Step(a));
    DefaultReads(cfg, m, a, t.id, mu, default, tries);
    assert ClientOf(m1, b) == ClientOf(m, b);
    var m2 := CreateWrites(cfg, m, m1, b, t);
    assert ClientOf(m2, a) == ClientOf(m1, a) && a in m2.clients;
    m' := Do(cfg, m2, Step(a));
    Then(cfg, m, m2, Step(a));
    DefaultWrites(cfg, m2, a, t.id, mu, default, tries);
  }

  lemma TwoCommits(s: Linearizability.States, k1: Commit, k2: Commit)
    ensures Linearizability.Replay(s, [] + [k1] + [k2]) == Linearizability.Apply(Linearizability.Apply(s, k1), k2)
  {
    Linearizability.ReplaySnoc(s, [] + [k1], k2);
    Linearizability.ReplaySnoc(s, [], k1);
  }

  /** increment_retry_count answers with the count of its first attempt: two clients that retry the
      same task at once are both told n + 1, while the stored count is n + 2. */
  lemma RetryAnswerIsStale(cfg: Config, m: Machine, a: ClientId, b: ClientId, id: TaskId) returns (m': Machine)
    requires Free(m, a) && Free(m, b) && a != b && id in m.tasks
    ensures Reaches(cfg, m, m') && id in m'.tasks
    ensures var n, s1 := m.tasks[id].retryCount, Swap(MRetry, m.tasks[id]);
      && m'.tasks[id].retryCount == n + 2
      && ClientOf(m', a).results == ClientOf(m, a).results + [Swapped(id, MRetry, m'.tasks[id], Some(First(n + 1, |m.log|)))]
      && ClientOf(m', b).results == ClientOf(m, b).results + [Swapped(id, MRetry, s1, Some(First(n + 1, |m.log|)))]
  {
    var s0, n := m.tasks[id], m.tasks[id].retryCount;
    var s1 := Swap(MRetry, s0);
    Here(cfg, m);
    var m1 := RetryReads(cfg, m, m, a, id);
    assert ClientOf(m1, b) == ClientOf(m, b);
    var m2 := RetryReads(cfg, m, m1, b, id);
    assert ClientOf(m2, a) == ClientOf(m1, a);
    var m3 := RetryWins(cfg, m, m2, b, id, 3, s0, First(n + 1, |m.log|));
    assert ClientOf(m3, a) == ClientOf(m2, a);
    var m4 := RetryReadsAgain(cfg, m, m3, a, id, 3, s0, First(n + 1, |m.log|));
    assert ClientOf(m4, b) == ClientOf(m3, b);
    m' := RetryWins(cfg, m, m4, a, id, 2, s1, First(n + 1, |m.log|));
    assert ClientOf(m', b) == ClientOf(m4, b);
  }
}
