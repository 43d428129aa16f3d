/**
 When conservation is clean: no task leaves the queue through an ack that is answered False, so that every
 removal is a success reported to somebody, an expiry or a gate drop.
 */
module CleanRuns {
  import opened Wrappers
  import opened Motion
  import opened TaskModel
  import opened RedisMachine
  import L = Linearizability
  import C = Conservation
  import A = RedisAnswers

  // ---------------------------------------------------------------- exactly when a task is lost

  /** The LREM of an ack that took the clean-up branch, with the entry still in the processing list. */
  predicate CleansUp(m: Machine, move: Move) {
    move.Step? && move.client in m.clients && m.clients[move.client].code != []
    && var i := m.clients[move.client].code[0];
       i.Take? && i.purpose.ForRejectedAck? && i.item in At(m.processing, i.device)
  }

  predicate Loses(removals: seq<Removal>) {
    exists j :: 0 <= j < |removals| && removals[j].kind.ByRejectedAck?
  }

  lemma LosesSnoc(removals: seq<Removal>, r: Removal)
    ensures Loses(removals + [r]) <==> Loses(removals) || r.kind.ByRejectedAck?
  {
    var more := removals + [r];
    assert more[|removals|] == r;
    if Loses(removals) {
      var j :| 0 <= j < |removals| && removals[j].kind.ByRejectedAck?;
      assert more[j] == removals[j];
    }
  }

  lemma TakeLoses(m: Machine, c: ClientId, p: Place, item: Task, kind: Kind, code: seq<Instr>, out: seq<Result>)
    requires c in m.clients && m.clients[c].code != [] && (p.Pending? || p.Working?)
    ensures Loses(TickTake(m, c, p, item, kind, code, out).removals)
      <==> Loses(m.removals) || (kind.ByRejectedAck? && item in Holds(m, p))
  {
    LosesSnoc(m.removals, Removal(item.id, c, kind));
  }

  lemma PurposeLoses(m: Machine, c: ClientId, d: DeviceId, item: Task, purpose: Purpose)
    requires c in m.clients && m.clients[c].code != []
    ensures Loses(TickPurpose(m, c, d, item, purpose).removals)
      <==> Loses(m.removals) || (purpose.ForRejectedAck? && item in At(m.processing, d))
  {
    var ok := item in At(m.processing, d);
    hide Loses, TickTake;
    match purpose
    case ForAck(gen, seen) =>
      TakeLoses(m, c, Working(d), item, ByAck, if ok then [Swap3(item.id, MClearStarted, None)] else [],
                [AckReply(item.id, ok, gen, seen)]);
    case ForRejectedAck(gen, seen) => TakeLoses(m, c, Working(d), item, ByRejectedAck, [], [AckReply(item.id, false, gen, seen)]);
    case ForAbandon =>
      TakeLoses(m, c, Working(d), item, ByAbandon, if ok then [Swap3(item.id, MDeadLetter, None)] else [],
                [AbandonReply(item.id, ok)]);
    case ForRequeue => GrabRemoves(m, c, d, item);
  }

  lemma GrabRemoves(m: Machine, c: ClientId, d: DeviceId, item: Task)
    requires c in m.clients && m.clients[c].code != []
    ensures TickGrab(m, c, d, item).removals == m.removals
  {
  }

  lemma TickLoses(cfg: Config, m: Machine, c: ClientId)
    requires c in m.clients && m.clients[c].code != []
    ensures Loses(Tick(cfg, m, c).removals) <==> Loses(m.removals) || CleansUp(m, Step(c))
  {
    hide Loses, TickTake, TickPurpose;
    match m.clients[c].code[0]
    case Take(d, item, purpose) => PurposeLoses(m, c, d, item, purpose);
    case GateDrop(d, item) => TakeLoses(m, c, Working(d), item, ByGate, [], []);
    case ExpireTake(d, item) =>
      var ok := item in At(m.pending, d);
      TakeLoses(m, c, Pending(d), item, ByExpire, if ok then [Swap3(item.id, MExpire, None)] else [],
                if ok then [AgedOut(item.id)] else []);
    case RemoveTake(d, item) =>
      TakeLoses(m, c, Pending(d), item, ByRemove, [], [RemoveReply(item.id, item in At(m.pending, d))]);
    case _ => OtherRemoves(cfg, m, c);
  }

  lemma OtherRemoves(cfg: Config, m: Machine, c: ClientId)
    requires c in m.clients && m.clients[c].code != [] && !Takes(m.clients[c].code[0])
    ensures Tick(cfg, m, c).removals == m.removals
  {
    var i := m.clients[c].code[0];
    if i.Cas? {
      CasRemoves(cfg, m, c);
    } else if Reads(i) {
      var code, out := ReadIsContinue(cfg, m, c);
    } else if i.MoveOne? {
      MoveRemoves(cfg, m, c, i.device, i.left, i.got, i.now);
    } else {
      hide TickMove, TickRead, TickSwap;
    }
  }

  lemma CasRemoves(cfg: Config, m: Machine, c: ClientId)
    requires c in m.clients && m.clients[c].code != [] && m.clients[c].code[0].Cas?
    ensures Tick(cfg, m, c).removals == m.removals
  {
    hide Tick, Swap;
    CasTick(cfg, m, c);
  }

  lemma MoveRemoves(cfg: Config, m: Machine, c: ClientId, d: DeviceId, left: nat, got: seq<Task>, now: real)
    requires c in m.clients && m.clients[c].code != []
    ensures TickMove(cfg, m, c, d, left, got, now).removals == m.removals
  {
  }

  lemma DoLoses(cfg: Config, m: Machine, move: Move)
    ensures Loses(Do(cfg, m, move).removals) <==> Loses(m.removals) || CleansUp(m, move)
  {
    hide Loses;
    if move.Step? && move.client in m.clients && m.clients[move.client].code != [] { TickLoses(cfg, m, move.client); }
  }

  /** On every schedule a task leaves the queue through an ack answered False exactly when some ack that took the
      clean-up branch finds its entry in the processing list at its LREM. */
  lemma {:induction false} LostExactlyByCleanUp(cfg: Config, m: Machine, moves: seq<Move>)
    requires Initial(m)
    ensures Loses(Run(cfg, m, moves).removals)
      <==> exists k :: 0 <= k < |moves| && CleansUp(Run(cfg, m, moves[..k]), moves[k])
  {
    hide CleansUp, Run, Do;
    if moves == [] {
      RunNone(cfg, m);
    } else {
      var front, last := moves[..|moves| - 1], moves[|moves| - 1];
      LostExactlyByCleanUp(cfg, m, front);
      DoLoses(cfg, Run(cfg, m, front), last);
      RunLast(cfg, m, moves);
      hide Loses;
      forall k | 0 <= k < |front|
        ensures CleansUp(Run(cfg, m, front[..k]), front[k]) <==> CleansUp(Run(cfg, m, moves[..k]), moves[k])
      {
        assert front[..k] == moves[..k];
      }
      SplitLast(cfg, m, moves);
    }
  }

  lemma SplitLast(cfg: Config, m: Machine, moves: seq<Move>)
    requires moves != []
    requires forall k :: 0 <= k < |moves| - 1 ==>
      (CleansUp(Run(cfg, m, moves[..|moves| - 1][..k]), moves[k]) <==> CleansUp(Run(cfg, m, moves[..k]), moves[k]))
    ensures (exists k :: 0 <= k < |moves| && CleansUp(Run(cfg, m, moves[..k]), moves[k]))
      <==> (exists k :: 0 <= k < |moves| - 1 && CleansUp(Run(cfg, m, moves[..|moves| - 1][..k]), moves[k]))
           || CleansUp(Run(cfg, m, moves[..|moves| - 1]), moves[|moves| - 1])
  {
    hide CleansUp, Run;
  }

  // ---------------------------------------------------------------- acks with a stamp lose nothing

  /** An instruction of an ack that took the clean-up branch. */
  predicate Cleaning(i: Instr) {
    (i.Scan? || i.Take?) && i.purpose.ForRejectedAck?
  }

  predicate NoCleaning(code: seq<Instr>) {
    forall j :: 0 <= j < |code| ==> !Cleaning(code[j])
  }

  ghost predicate NobodyCleans(m: Machine) {
    forall c: ClientId :: NoCleaning(ClientOf(m, c).code)
  }

  /** The generation that an ack carries was stamped by the committed update of some pop of the task. */
  ghost predicate Stamped(s: L.States, log: seq<Commit>, id: TaskId, gen: Option<nat>) {
    exists k: nat :: k < |log| && A.Dispatches(log[k], id) && StampIs(s, log, k, id, gen)
  }

  predicate StampIs(s: L.States, log: seq<Commit>, k: nat, id: TaskId, gen: Option<nat>)
    requires k < |log|
  {
    A.Seen(s, log, k + 1, id).Some? && gen == Some(A.Seen(s, log, k + 1, id).value.dispatchGen)
  }

  /** Every ack that reads its state carries a stamp. */
  ghost predicate AcksStamped(s: L.States, m: Machine, move: Move) {
    move.Step? && move.client in m.clients && m.clients[move.client].code != [] && m.clients[move.client].code[0].AckRead? ==>
      Stamped(s, m.log, m.clients[move.client].code[0].id, m.clients[move.client].code[0].gen)
  }

  ghost predicate StampedRun(cfg: Config, m: Machine, moves: seq<Move>) {
    forall k :: 0 <= k < |moves| ==> AcksStamped(m.tasks, Run(cfg, m, moves[..k]), moves[k])
  }

  /** An ack with a stamp never takes the clean-up branch. */
  lemma StampedReads(cfg: Config, s: L.States, m: Machine, id: TaskId, gen: Option<nat>)
    requires L.Inv(s, m) && Stamped(s, m.log, id, gen)
    ensures !Judge(Lookup(m, id), gen, cfg.strict).CleanUpAndReject?
  {
    var k: nat :| k < |m.log| && A.Dispatches(m.log[k], id) && StampIs(s, m.log, k, id, gen);
    A.SeenNow(s, m, id);
    if k + 1 == |m.log| { assert m.log[..k + 1] == m.log; }
    StampedNow(cfg, s, m.log, k, id);
  }

  lemma StampedNow(cfg: Config, s: L.States, log: seq<Commit>, k: nat, id: TaskId)
    requires L.GoodLog(s, log) && k < |log| && A.Dispatches(log[k], id) && A.Seen(s, log, k + 1, id).Some?
    ensures !Judge(A.Seen(s, log, |log|, id), Some(A.Seen(s, log, k + 1, id).value.dispatchGen), cfg.strict).CleanUpAndReject?
  {
    if k + 1 < |log| {
      A.StampedVerdict(cfg, s, log, k, |log|, id);
    } else {
      assert log[..k + 1] == log[..k] + [log[k]];
      L.ReplaySnoc(s, log[..k], log[k]);
      assert L.GoodCommit(L.Replay(s, log[..k]), log[k]);
    }
  }

  lemma GoesOnClean(cl: Client, after: Client, code: seq<Instr>, out: seq<Result>)
    requires NoCleaning(cl.code) && A.GoesOn(cl, after, code, out) && NoCleaning(code)
    ensures NoCleaning(after.code)
  {
    forall j | 0 <= j < |after.code| ensures !Cleaning(after.code[j]) {
      if j < |code| { assert after.code[j] == code[j]; } else { assert after.code[j] == cl.code[j - |code| + 1]; }
    }
  }

  lemma ContinueClean(m: Machine, c: ClientId, code: seq<Instr>, out: seq<Result>)
    requires c in m.clients && m.clients[c].code != [] && |out| <= 1 && NoCleaning(m.clients[c].code) && NoCleaning(code)
    ensures NoCleaning(Continue(m, c, code, out).clients[c].code)
  {
    A.ContinueGoesOn(m, c, code, out);
    GoesOnClean(m.clients[c], Continue(m, c, code, out).clients[c], code, out);
  }

  /** A list command of a client plans no clean-up unless it is the read of an ack that found the mark. */
  lemma ListClean(cfg: Config, m: Machine, c: ClientId)
    requires c in m.clients && m.clients[c].code != [] && !L.WritesState(m.clients[c].code[0]) && NoCleaning(m.clients[c].code)
    requires var i := m.clients[c].code[0]; i.AckRead? ==> !Judge(Lookup(m, i.id), i.gen, cfg.strict).CleanUpAndReject?
    ensures c in Tick(cfg, m, c).clients && NoCleaning(Tick(cfg, m, c).clients[c].code)
  {
    hide Judge;
    var i := m.clients[c].code[0];
    L.ListStepQuiet(cfg, m, c);
    if i.AckRead? {
      var v := Judge(Lookup(m, i.id), i.gen, cfg.strict);
      ContinueClean(m, c, [], [AckReply(i.id, false, i.gen, |m.log|)]);
      if v.Proceed? { ContinueClean(m, c, [Scan(i.device, i.id, ForAck(i.gen, |m.log|))], []); }
    } else if i.Scan? {
      assert !Cleaning(i);
      var found := FindId(At(m.processing, i.device), i.id);
      if found.Some? { ContinueClean(m, c, [Take(i.device, found.value, i.purpose)], []); }
      else { ContinueClean(m, c, [], NotFound(i.id, i.purpose)); }
    } else if i.Take? {
      var code, out := A.TakeGoesOn(cfg, m, c);
      GoesOnClean(m.clients[c], Tick(cfg, m, c).clients[c], code, out);
    } else {
      var code, out := A.ListGoesOn(cfg, m, c);
      GoesOnClean(m.clients[c], Tick(cfg, m, c).clients[c], code, out);
    }
  }

  /** A command on task states leaves the rest of the code. */
  lemma StateTail(cfg: Config, m: Machine, c: ClientId) returns (code: seq<Instr>)
    requires c in m.clients && m.clients[c].code != [] && L.WritesState(m.clients[c].code[0])
    ensures Moved(m, Tick(cfg, m, c), c) && Tick(cfg, m, c).clients[c].code == code + m.clients[c].code[1..]
    ensures code == [] || (|code| == 1 && L.WritesState(code[0]))
    ensures var i := m.clients[c].code[0];
      i.Cas? ==> code == [] || (code[0].Cas? && code[0].id == i.id && code[0].m == i.m)
    ensures !m.clients[c].code[0].Cas? ==> code == [] || code[0].Stub?
  {
    hide Tick;
    var i := m.clients[c].code[0];
    code := [];
    if i.Cas? {
      code := CasTail(cfg, m, c);
    } else if i.Append? && i.id !in m.tasks {
      A.MissedTick(cfg, m, c);
      code := [Stub(i.id, i.event)];
    } else {
      var id, effect := A.WriteTick(cfg, m, c);
    }
  }

  lemma CasTail(cfg: Config, m: Machine, c: ClientId) returns (code: seq<Instr>)
    requires c in m.clients && m.clients[c].code != [] && m.clients[c].code[0].Cas?
    ensures Moved(m, Tick(cfg, m, c), c) && Tick(cfg, m, c).clients[c].code == code + m.clients[c].code[1..]
    ensures var i := m.clients[c].code[0]; code == [] || (|code| == 1 && code[0].Cas? && code[0].id == i.id && code[0].m == i.m)
  {
    hide Tick, TickRead, TickSwap;
    CasTick(cfg, m, c);
    if m.clients[c].held.None? { code := ReadTail(m, c); } else { code := SwapTail(m, c); }
  }

  lemma ReadTail(m: Machine, c: ClientId) returns (code: seq<Instr>)
    requires c in m.clients && m.clients[c].code != [] && m.clients[c].code[0].Cas?
    ensures var i := m.clients[c].code[0]; var m' := TickRead(m, c, i.id, i.m, i.default);
      Moved(m, m', c) && m'.clients[c].code == code + m.clients[c].code[1..] && (code == [] || code == [i])
  {
    var cl := m.clients[c];
    var i := cl.code[0];
    code := [];
    if Lookup(m, i.id).Some? || i.default.Some? {
      code := [i];
      assert cl.code == [i] + cl.code[1..];
    }
  }

  lemma SwapTail(m: Machine, c: ClientId) returns (code: seq<Instr>)
    requires c in m.clients && m.clients[c].code != [] && m.clients[c].code[0].Cas? && m.clients[c].held.Some?
    ensures var i := m.clients[c].code[0]; var m' := TickSwap(m, c, i.id, i.m, i.default, i.tries);
      Moved(m, m', c) && m'.clients[c].code == code + m.clients[c].code[1..]
      && (code == [] || (i.tries > 1 && code == [Cas(i.id, i.m, i.default, i.tries - 1)]))
  {
    hide Swap;
    var cl := m.clients[c];
    var i := cl.code[0];
    code := [];
    var same := i.id in m.tasks && m.tasks[i.id].version == cl.held.value.copy.version;
    if !same && i.tries > 1 { code := [Cas(i.id, i.m, i.default, i.tries - 1)]; }
  }

  lemma StepClean(cfg: Config, s: L.States, m: Machine, move: Move)
    requires L.Inv(s, m) && NobodyCleans(m) && AcksStamped(s, m, move)
    ensures NobodyCleans(Do(cfg, m, move))
  {
    var m', c := Do(cfg, m, move), move.client;
    hide Tick, L.Inv, Judge;
    assert NoCleaning(ClientOf(m, c).code);
    if move.Begin? {
      OpClean(cfg, move.op);
    } else if c in m.clients && m.clients[c].code != [] {
      var i := m.clients[c].code[0];
      if L.WritesState(i) {
        var code := StateTail(cfg, m, c);
        TailClean(m.clients[c].code, code);
      } else {
        if i.AckRead? { StampedReads(cfg, s, m, i.id, i.gen); }
        ListClean(cfg, m, c);
        L.ListStepQuiet(cfg, m, c);
      }
    } else {
      IdleTick(cfg, m, c);
    }
    forall x: ClientId ensures NoCleaning(ClientOf(m', x).code) {
      assert NoCleaning(ClientOf(m, x).code);
    }
  }

  lemma TailClean(before: seq<Instr>, code: seq<Instr>)
    requires before != [] && NoCleaning(before) && (code == [] || (|code| == 1 && L.WritesState(code[0])))
    ensures NoCleaning(code + before[1..])
  {
    var after := code + before[1..];
    forall j | 0 <= j < |after| ensures !Cleaning(after[j]) {
      if j < |code| { assert after[j] == code[j]; } else { assert after[j] == before[j - |code| + 1]; }
    }
  }

  lemma OpClean(cfg: Config, op: Op)
    ensures NoCleaning(Code(cfg, op))
  {
    A.OpSimple(cfg, op);
    SimpleCleansNothing(Code(cfg, op));
  }

  lemma {:induction false} StampedKeeps(cfg: Config, m: Machine, moves: seq<Move>)
    requires Initial(m) && L.LegalRun(cfg, m, moves) && StampedRun(cfg, m, moves)
    ensures NobodyCleans(Run(cfg, m, moves)) && !Loses(Run(cfg, m, moves).removals)
  {
    if moves != [] {
      var front, last := moves[..|moves| - 1], moves[|moves| - 1];
      forall k | 0 <= k < |front| ensures AcksStamped(m.tasks, Run(cfg, m, front[..k]), front[k]) {
        assert front[..k] == moves[..k] && front[k] == moves[k];
      }
      StampedKeeps(cfg, m, front);
      L.RunKeeps(cfg, m, front);
      var m1 := Run(cfg, m, front);
      assert AcksStamped(m.tasks, Run(cfg, m, moves[..|front|]), moves[|front|]);
      StepClean(cfg, m.tasks, m1, last);
      StepLosesNothing(cfg, m1, last);
    }
  }

  lemma StepLosesNothing(cfg: Config, m: Machine, move: Move)
    requires !Loses(m.removals) && (NobodyCleans(m) || !CleansUp(m, move))
    ensures !Loses(Do(cfg, m, move).removals)
  {
    assert NoCleaning(ClientOf(m, move.client).code) || !CleansUp(m, move);
    DoLoses(cfg, m, move);
  }

  /** A removal that somebody was told of, or an expiry, or a gate drop. */
  predicate Accounted(m: Machine, r: Removal) {
    r.kind.ByExpire? || r.kind.ByGate? || r in C.Successes(r.client, ClientOf(m, r.client).results)
  }

  lemma {:induction false} ReportedHas(removals: seq<Removal>, r: Removal)
    requires r in removals && Reported(r.kind)
    ensures r in C.ReportedBy(removals, r.client)
  {
    var front, last := removals[..|removals| - 1], removals[|removals| - 1];
    assert removals == front + [last];
    if r != last { ReportedHas(front, r); }
  }

  /** When nothing is lost, every removal is accounted for. */
  lemma NothingLostAccounts(cfg: Config, m: Machine, moves: seq<Move>)
    requires Initial(m) && C.FairRun(cfg, m, moves)
    ensures var m' := Run(cfg, m, moves);
      !Loses(m'.removals) <==> forall r :: r in m'.removals ==> Accounted(m', r)
  {
    C.RunKeeps(cfg, m, moves);
    var m' := Run(cfg, m, moves);
    forall r | r in m'.removals ensures r.kind.ByRejectedAck? <==> !Accounted(m', r) {
      assert C.ReportsOk(m'.removals, r.client, ClientOf(m', r.client).results);
      if Reported(r.kind) { ReportedHas(m'.removals, r); } else { SuccessesReport(r.client, ClientOf(m', r.client).results); }
    }
    if Loses(m'.removals) {
      var j :| 0 <= j < |m'.removals| && m'.removals[j].kind.ByRejectedAck?;
      assert m'.removals[j] in m'.removals;
    }
  }

  lemma {:induction false} SuccessesReport(c: ClientId, results: seq<Result>)
    ensures forall r :: r in C.Successes(c, results) ==> Reported(r.kind)
  {
    if results != [] { SuccessesReport(c, results[..|results| - 1]); }
  }

  /** When every ack carries a generation that a pop's committed update stamped, then on every interleaving each task
      leaves the queue through a success that was reported, an expiry or a gate drop. */
  lemma StampedAcksLoseNothing(cfg: Config, m: Machine, moves: seq<Move>)
    requires Initial(m) && L.LegalRun(cfg, m, moves) && C.FairRun(cfg, m, moves) && StampedRun(cfg, m, moves)
    ensures var m' := Run(cfg, m, moves); forall r :: r in m'.removals ==> Accounted(m', r)
  {
    StampedKeeps(cfg, m, moves);
    NothingLostAccounts(cfg, m, moves);
  }

  // ---------------------------------------------------------------- schedules that lose nothing, for any ack

  /** A pop that moved the task and has not yet written its state. */
  predicate Popping(i: Instr, id: TaskId) {
    (i.MoveOne? && id in Ids(i.got)) || (i.GateDrop? && i.item.id == id) || (i.Cas? && i.m.MDispatch? && i.id == id)
  }

  /** A recovery that moved the task and has not yet written its state. */
  predicate Bumping(i: Instr, id: TaskId) {
    i.Cas? && i.m.MRecover? && i.id == id
  }

  /** An ack of the task that took the clean-up branch and is not done. */
  predicate CleaningOf(i: Instr, id: TaskId) {
    Cleaning(i) && id == if i.Scan? then i.id else i.item.id
  }

  predicate PoppingAt(m: Machine, c: ClientId, j: nat, id: TaskId) {
    c in m.clients && j < |m.clients[c].code| && Popping(m.clients[c].code[j], id)
  }

  predicate BumpingAt(m: Machine, c: ClientId, j: nat, id: TaskId) {
    c in m.clients && j < |m.clients[c].code| && Bumping(m.clients[c].code[j], id)
  }

  predicate CleaningAt(m: Machine, c: ClientId, j: nat, id: TaskId) {
    c in m.clients && j < |m.clients[c].code| && CleaningOf(m.clients[c].code[j], id)
  }

  /** The step moves this task from pending to processing. */
  predicate Pops(m: Machine, i: Instr, id: TaskId) {
    i.MoveOne? && At(m.pending, i.device) != [] && At(m.pending, i.device)[0].id == id
  }

  /** The step is the last failed attempt of a pop to write the state of a task that has one. */
  predicate GivesUpPop(m: Machine, c: ClientId, i: Instr)
    requires c in m.clients
  {
    i.Cas? && i.m.MDispatch? && i.tries <= 1 && m.clients[c].held.Some? && i.id in m.tasks
    && m.tasks[i.id].version != m.clients[c].held.value.copy.version
  }

  /** No ack of a task is read between a pop's move of it and that pop's state update, no pop moves a task between
      a recovery's move of it and its bump or while an ack is cleaning it up, and no pop gives its state update up. */
  ghost predicate Calm(m: Machine, move: Move) {
    move.Step? && move.client in m.clients && m.clients[move.client].code != [] ==>
      var i := m.clients[move.client].code[0];
      (i.AckRead? ==> forall c: ClientId, j: nat :: !PoppingAt(m, c, j, i.id))
      && (forall c: ClientId, j: nat, id :: Pops(m, i, id) ==> !BumpingAt(m, c, j, id) && !CleaningAt(m, c, j, id))
      && !GivesUpPop(m, move.client, i)
  }

  ghost predicate CalmRun(cfg: Config, m: Machine, moves: seq<Move>) {
    forall k :: 0 <= k < |moves| ==> Calm(Run(cfg, m, moves[..k]), moves[k])
  }

  /** The task is in some processing list. */
  predicate Busy(m: Machine, id: TaskId) {
    id in m.place && m.place[id].Working?
  }

  predicate Marked(m: Machine, id: TaskId) {
    id in m.tasks && m.tasks[id].recoveredAt.Some?
  }

  /** The pop that this instruction belongs to moved the entry that is in processing. */
  predicate Covers(m: Machine, i: Instr, id: TaskId) {
    (i.MoveOne? && exists t :: t in i.got && t.id == id && t in At(m.processing, i.device))
    || (i.GateDrop? && i.item.id == id && i.item in At(m.processing, i.device))
    || (i.Cas? && i.m.MDispatch? && i.id == id)
  }

  predicate CoversAt(m: Machine, c: ClientId, j: nat, id: TaskId) {
    c in m.clients && j < |m.clients[c].code| && Covers(m, m.clients[c].code[j], id)
  }

  /** A marked task in processing is in the hands of a pop; a task that is being bumped or cleaned up is not in
      processing. */
  ghost predicate Tidy(m: Machine) {
    (forall id :: Marked(m, id) && Busy(m, id) ==> exists c: ClientId, j: nat :: CoversAt(m, c, j, id))
    && (forall c: ClientId, j: nat, id :: BumpingAt(m, c, j, id) || CleaningAt(m, c, j, id) ==> !Busy(m, id))
  }

  // ---------------------------------------------------------------- how a step changes lists and marks

  /** A task in processing after the step was there before, with all its entries. */
  ghost predicate Stays(m: Machine, m': Machine, id: TaskId) {
    Busy(m', id) ==>
      Busy(m, id) && forall d, t: Task :: t.id == id && t in At(m.processing, d) ==> t in At(m'.processing, d)
  }

  lemma TakeStays(m: Machine, c: ClientId, p: Place, item: Task, kind: Kind, code: seq<Instr>, out: seq<Result>, id: TaskId)
    requires c in m.clients && m.clients[c].code != [] && (p.Pending? || p.Working?)
    ensures Stays(m, TickTake(m, c, p, item, kind, code, out), id)
  {
    var m' := TickTake(m, c, p, item, kind, code, out);
    forall d, t: Task | item.id != id && t.id == id && t in At(m.processing, d) ensures t in At(m'.processing, d) {
      if item in Holds(m, p) && p == Working(d) { StaysIn(At(m.processing, d), item, t); }
    }
  }

  lemma GrabStays(m: Machine, c: ClientId, d: DeviceId, item: Task, id: TaskId)
    requires c in m.clients && m.clients[c].code != []
    ensures Stays(m, TickGrab(m, c, d, item), id)
  {
    var m' := TickGrab(m, c, d, item);
    forall x, t: Task | item.id != id && t.id == id && t in At(m.processing, x) ensures t in At(m'.processing, x) {
      if item in At(m.processing, d) && x == d { StaysIn(At(m.processing, d), item, t); }
    }
  }

  lemma RecoverStays(m: Machine, c: ClientId, d: DeviceId, item: Task, now: real, known: bool, id: TaskId)
    requires c in m.clients && m.clients[c].code != []
    ensures Stays(m, TickRecover(m, c, d, item, now, known), id)
    ensures item in At(m.processing, d) ==> !Busy(TickRecover(m, c, d, item, now, known), item.id)
  {
  }

  lemma MoveStays(cfg: Config, m: Machine, c: ClientId, id: TaskId)
    requires c in m.clients && m.clients[c].code != [] && m.clients[c].code[0].MoveOne? && !Pops(m, m.clients[c].code[0], id)
    ensures Stays(m, Tick(cfg, m, c), id)
  {
    var i := m.clients[c].code[0];
    assert Tick(cfg, m, c) == TickMove(cfg, m, c, i.device, i.left, i.got, i.now);
  }

  lemma PushBackStays(m: Machine, c: ClientId, d: DeviceId, tasks: seq<Task>, id: TaskId)
    requires c in m.clients && m.clients[c].code != []
    ensures Stays(m, TickPushBack(m, c, d, tasks), id)
  {
  }

  lemma PurposeStays(m: Machine, c: ClientId, d: DeviceId, item: Task, purpose: Purpose, id: TaskId)
    requires c in m.clients && m.clients[c].code != []
    ensures Stays(m, TickPurpose(m, c, d, item, purpose), id)
  {
    hide Stays, TickTake;
    if purpose.ForRequeue? {
      GrabStays(m, c, d, item, id);
    } else {
      var p, kind, code, out := PurposeIs(m, c, d, item, purpose);
      TakeStays(m, c, p, item, kind, code, out, id);
    }
  }

  lemma StateStays(cfg: Config, m: Machine, c: ClientId, id: TaskId)
    requires c in m.clients && m.clients[c].code != [] && (L.WritesState(m.clients[c].code[0]) || Reads(m.clients[c].code[0]))
    ensures Stays(m, Tick(cfg, m, c), id)
  {
    if Reads(m.clients[c].code[0]) { var code, out := ReadIsContinue(cfg, m, c); }
  }

  lemma ListsStay(cfg: Config, m: Machine, c: ClientId, id: TaskId)
    requires c in m.clients && m.clients[c].code != [] && !Pops(m, m.clients[c].code[0], id)
    ensures Stays(m, Tick(cfg, m, c), id)
  {
    hide Stays, TickTake;
    var i := m.clients[c].code[0];
    if L.WritesState(i) || Reads(i) {
      StateStays(cfg, m, c, id);
    } else if i.MoveOne? {
      MoveStays(cfg, m, c, id);
    } else if i.RecoverMove? {
      RecoverStays(m, c, i.device, i.item, i.now, i.known, id);
    } else if i.Take? {
      PurposeStays(m, c, i.device, i.item, i.purpose, id);
    } else if i.PushBack? {
      PushBackStays(m, c, i.device, i.tasks, id);
    } else if i.PushNew? {
      PushNewStays(m, c, i.device, i.task, id);
    } else {
      var p, kind, code, out := TakeIs(cfg, m, c);
      TakeStays(m, c, p, i.item, kind, code, out, id);
    }
  }

  lemma PushNewStays(m: Machine, c: ClientId, d: DeviceId, t: Task, id: TaskId)
    requires c in m.clients && m.clients[c].code != []
    ensures Stays(m, TickPushNew(m, c, d, t), id)
  {
  }

  /** Only the bump of a recovery marks a task, and the committed update of a pop takes the mark away. */
  lemma MarksStay(cfg: Config, s: L.States, m: Machine, c: ClientId, id: TaskId)
    requires L.Inv(s, m) && c in m.clients && m.clients[c].code != []
    ensures Marked(Tick(cfg, m, c), id) ==> Marked(m, id) || Bumping(m.clients[c].code[0], id)
  {
    var i := m.clients[c].code[0];
    if i.Cas? {
      assert L.ClientOk(s, m, c);
      CasMarks(cfg, m, c, id);
    } else if !L.WritesState(i) {
      L.ListStepQuiet(cfg, m, c);
    }
  }

  lemma CasMarks(cfg: Config, m: Machine, c: ClientId, id: TaskId)
    requires c in m.clients && m.clients[c].code != [] && m.clients[c].code[0].Cas? && L.HeldOk(m.tasks, m.clients[c])
    ensures Marked(Tick(cfg, m, c), id) ==> Marked(m, id) || Bumping(m.clients[c].code[0], id)
  {
    hide Tick, Swap;
    CasTick(cfg, m, c);
    if m.clients[c].held.Some? { MutateMarks(m.clients[c].code[0].m, m.clients[c].held.value.copy); }
  }

  lemma MutateMarks(mu: Mutator, st: TaskState)
    ensures Swap(mu, st).recoveredAt.Some? ==> st.recoveredAt.Some? || mu.MRecover?
    ensures mu.MDispatch? ==> Swap(mu, st).recoveredAt.None?
  {
  }

  /** A pop's update ends by a commit, which takes the mark away, or on a task without a state. */
  lemma DispatchEnds(cfg: Config, m: Machine, c: ClientId, code: seq<Instr>)
    requires c in m.clients && m.clients[c].code != [] && m.clients[c].code[0].Cas? && m.clients[c].code[0].m.MDispatch?
    requires !GivesUpPop(m, c, m.clients[c].code[0]) && c in Tick(cfg, m, c).clients
    requires Tick(cfg, m, c).clients[c].code == m.clients[c].code[1..]
    ensures !Marked(Tick(cfg, m, c), m.clients[c].code[0].id)
  {
    hide Tick, TickRead, TickSwap;
    CasTick(cfg, m, c);
    if m.clients[c].held.None? { ReadEnds(m, c); } else { SwapEnds(m, c); }
  }

  lemma ReadEnds(m: Machine, c: ClientId)
    requires c in m.clients && m.clients[c].code != [] && m.clients[c].code[0].Cas?
    requires var i := m.clients[c].code[0]; TickRead(m, c, i.id, i.m, i.default).clients[c].code == m.clients[c].code[1..]
    ensures var i := m.clients[c].code[0]; !Marked(TickRead(m, c, i.id, i.m, i.default), i.id)
  {
  }

  lemma SwapEnds(m: Machine, c: ClientId)
    requires c in m.clients && m.clients[c].code != [] && m.clients[c].code[0].Cas? && m.clients[c].code[0].m.MDispatch?
    requires m.clients[c].held.Some? && !GivesUpPop(m, c, m.clients[c].code[0])
    requires var i := m.clients[c].code[0];
      TickSwap(m, c, i.id, i.m, i.default, i.tries).clients[c].code == m.clients[c].code[1..]
    ensures var i := m.clients[c].code[0]; !Marked(TickSwap(m, c, i.id, i.m, i.default, i.tries), i.id)
  {
    MutateMarks(m.clients[c].code[0].m, m.clients[c].held.value.copy);
    hide Swap;
  }

  // ---------------------------------------------------------------- pops cover what they moved

  lemma {:induction false} GateHas(cfg: Config, d: DeviceId, got: seq<Task>, t: Task) returns (j: nat)
    requires t in got && !cfg.gate(t)
    ensures j < |GateCode(cfg, d, got)| && GateCode(cfg, d, got)[j] == GateDrop(d, t)
  {
    var rest := GateCode(cfg, d, got[1..]);
    if got[0] == t { j := 0; } else {
      var k := GateHas(cfg, d, got[1..], t);
      j := |GateCode(cfg, d, got)| - |rest| + k;
    }
  }

  lemma {:induction false} DispatchHas(cfg: Config, got: seq<Task>, now: real, t: Task) returns (j: nat)
    requires t in got && cfg.gate(t)
    ensures j < |DispatchCode(cfg, got, now)|
    ensures var i := DispatchCode(cfg, got, now)[j]; i.Cas? && i.m.MDispatch? && i.id == t.id
  {
    var rest := DispatchCode(cfg, got[1..], now);
    if got[0] == t { j := 0; } else {
      var k := DispatchHas(cfg, got[1..], now, t);
      j := |DispatchCode(cfg, got, now)| - |rest| + k;
    }
  }

  lemma AfterMovesCovers(cfg: Config, m: Machine, d: DeviceId, got: seq<Task>, now: real, t: Task) returns (j: nat)
    requires t in got && t in At(m.processing, d)
    ensures j < |AfterMoves(cfg, d, got, now)| && Covers(m, AfterMoves(cfg, d, got, now)[j], t.id)
  {
    if cfg.gate(t) {
      var k := DispatchHas(cfg, got, now, t);
      j := |GateCode(cfg, d, got)| + k;
    } else {
      j := GateHas(cfg, d, got, t);
    }
  }

  /** What a pop has moved, the entry it moves now included. */
  function GotAfter(m: Machine, i: Instr): seq<Task>
    requires i.MoveOne?
  {
    if At(m.pending, i.device) == [] then i.got else i.got + [At(m.pending, i.device)[0]]
  }

  lemma MoveCovers(cfg: Config, m: Machine, c: ClientId, t: Task) returns (j: nat)
    requires c in m.clients && m.clients[c].code != [] && m.clients[c].code[0].MoveOne?
    requires t in GotAfter(m, m.clients[c].code[0]) && t in At(Tick(cfg, m, c).processing, m.clients[c].code[0].device)
    ensures CoversAt(Tick(cfg, m, c), c, j, t.id)
  {
    var i := m.clients[c].code[0];
    var m' := Tick(cfg, m, c);
    hide Tick, AfterMoves;
    MoveCode(cfg, m, c);
    var got := GotAfter(m, i);
    if At(m.pending, i.device) == [] || i.left <= 1 {
      hide Covers;
      j := AfterMovesCovers(cfg, m', i.device, got, i.now, t);
    } else {
      j := 0;
    }
  }

  lemma MoveCode(cfg: Config, m: Machine, c: ClientId)
    requires c in m.clients && m.clients[c].code != [] && m.clients[c].code[0].MoveOne?
    ensures var (i, m') := (m.clients[c].code[0], Tick(cfg, m, c));
      c in m'.clients && m'.clients[c].code
         == (if At(m.pending, i.device) == [] || i.left <= 1 then AfterMoves(cfg, i.device, GotAfter(m, i), i.now)
             else [MoveOne(i.device, i.left - 1, GotAfter(m, i), i.now)]) + m.clients[c].code[1..]
  {
    hide Tick, AfterMoves;
    MoveTick(cfg, m, c);
  }

  lemma MovedIn(cfg: Config, m: Machine, c: ClientId)
    requires c in m.clients && m.clients[c].code != [] && m.clients[c].code[0].MoveOne?
    requires At(m.pending, m.clients[c].code[0].device) != []
    ensures var i := m.clients[c].code[0]; At(m.pending, i.device)[0] in At(Tick(cfg, m, c).processing, i.device)
  {
    var i := m.clients[c].code[0];
    assert Tick(cfg, m, c) == TickMove(cfg, m, c, i.device, i.left, i.got, i.now);
  }

  lemma CoversPops(m: Machine, i: Instr, id: TaskId)
    requires Covers(m, i, id)
    ensures Popping(i, id)
  {
    if i.MoveOne? {
      var t :| t in i.got && t.id == id && t in At(m.processing, i.device);
      IdOf(i.got, t);
    }
  }

  lemma CoversLater(m: Machine, m': Machine, i: Instr, id: TaskId)
    requires Covers(m, i, id) && Stays(m, m', id) && Busy(m', id)
    ensures Covers(m', i, id)
  {
  }

  // ---------------------------------------------------------------- every step keeps it tidy

  /** The read of an ack that finds the mark of a recovery. */
  predicate AckFinds(m: Machine, i: Instr, id: TaskId) {
    i.AckRead? && i.id == id && Marked(m, id)
  }

  /** After its step a client has new code in front of the rest. */
  lemma TailOf(cfg: Config, m: Machine, c: ClientId) returns (code: seq<Instr>)
    requires c in m.clients && m.clients[c].code != []
    ensures Moved(m, Tick(cfg, m, c), c) && Tick(cfg, m, c).clients[c].code == code + m.clients[c].code[1..]
    ensures forall j, id :: 0 <= j < |code| && Bumping(code[j], id) ==>
      Bumping(m.clients[c].code[0], id)
      || (m.clients[c].code[0].RecoverMove? && m.clients[c].code[0].item.id == id
          && m.clients[c].code[0].item in At(m.processing, m.clients[c].code[0].device))
    ensures forall j, id :: 0 <= j < |code| && CleaningOf(code[j], id) ==>
      CleaningOf(m.clients[c].code[0], id) || AckFinds(m, m.clients[c].code[0], id)
    ensures m.clients[c].code[0].Cas? ==>
      code == [] || (code[0].Cas? && code[0].id == m.clients[c].code[0].id && code[0].m == m.clients[c].code[0].m)
  {
    hide Tick, Judge;
    var i := m.clients[c].code[0];
    if L.WritesState(i) {
      code := StateTail(cfg, m, c);
      assert forall j :: 0 <= j < |code| ==> !Cleaning(code[j]);
    } else {
      L.ListStepQuiet(cfg, m, c);
      if i.AckRead? {
        code := AckTail(cfg, m, c);
      } else if i.Scan? {
        code := ScanTail(cfg, m, c);
      } else if i.Take? {
        var out;
        code, out := A.TakeGoesOn(cfg, m, c);
        SimpleCleansNothing(code);
      } else {
        var out;
        code, out := A.ListGoesOn(cfg, m, c);
        SimpleCleansNothing(code);
      }
    }
  }

  lemma AckTail(cfg: Config, m: Machine, c: ClientId) returns (code: seq<Instr>)
    requires c in m.clients && m.clients[c].code != [] && m.clients[c].code[0].AckRead?
    ensures Tick(cfg, m, c).clients[c].code == code + m.clients[c].code[1..] && A.BumpFree(code)
    ensures forall j, id :: 0 <= j < |code| && CleaningOf(code[j], id) ==> AckFinds(m, m.clients[c].code[0], id)
  {
    var i := m.clients[c].code[0];
    var v := Judge(Lookup(m, i.id), i.gen, cfg.strict);
    code := if v.Reject? then [] else [Scan(i.device, i.id, AckPurpose(v, i.gen, |m.log|))];
  }

  lemma ScanTail(cfg: Config, m: Machine, c: ClientId) returns (code: seq<Instr>)
    requires c in m.clients && m.clients[c].code != [] && m.clients[c].code[0].Scan?
    ensures Tick(cfg, m, c).clients[c].code == code + m.clients[c].code[1..] && A.BumpFree(code)
    ensures forall j, id :: 0 <= j < |code| && CleaningOf(code[j], id) ==> CleaningOf(m.clients[c].code[0], id)
  {
    var i := m.clients[c].code[0];
    var found := FindId(At(m.processing, i.device), i.id);
    code := if found.Some? then [Take(i.device, found.value, i.purpose)] else [];
  }

  lemma HeadBumps(m: Machine, c: ClientId, id: TaskId)
    requires c in m.clients && m.clients[c].code != []
    ensures Bumping(m.clients[c].code[0], id) ==> BumpingAt(m, c, 0, id)
  {
  }

  lemma CoverStep(cfg: Config, s: L.States, m: Machine, c: ClientId, id: TaskId)
    requires L.Inv(s, m) && Tidy(m) && Calm(m, Step(c)) && c in m.clients && m.clients[c].code != []
    requires Marked(Tick(cfg, m, c), id) && Busy(Tick(cfg, m, c), id)
    ensures exists x: ClientId, j: nat :: CoversAt(Tick(cfg, m, c), x, j, id)
  {
    hide Tick, L.Inv;
    var i, m' := m.clients[c].code[0], Tick(cfg, m, c);
    if Pops(m, i, id) {
      MovedIn(cfg, m, c);
      var j := MoveCovers(cfg, m, c, At(m.pending, i.device)[0]);
      assert CoversAt(m', c, j, id);
    } else {
      ListsStay(cfg, m, c, id);
      MarksStay(cfg, s, m, c, id);
      HeadBumps(m, c, id);
      var x: ClientId, j: nat :| CoversAt(m, x, j, id);
      var code := TailOf(cfg, m, c);
      if x != c {
        CoversLater(m, m', m.clients[x].code[j], id);
        assert ClientOf(m', x) == ClientOf(m, x);
        assert CoversAt(m', x, j, id);
      } else if j > 0 {
        CoversLater(m, m', m.clients[c].code[j], id);
        assert m'.clients[c].code[|code| + j - 1] == m.clients[c].code[j];
        assert CoversAt(m', c, |code| + j - 1, id);
      } else {
        HeadCovers(cfg, m, c, code, id);
      }
    }
  }

  /** The instruction that was executed covered the task: its successors do, or the mark is gone. */
  lemma HeadCovers(cfg: Config, m: Machine, c: ClientId, code: seq<Instr>, id: TaskId)
    requires c in m.clients && m.clients[c].code != [] && Covers(m, m.clients[c].code[0], id) && Calm(m, Step(c))
    requires Marked(Tick(cfg, m, c), id) && Busy(Tick(cfg, m, c), id) && Stays(m, Tick(cfg, m, c), id)
    requires c in Tick(cfg, m, c).clients && Tick(cfg, m, c).clients[c].code == code + m.clients[c].code[1..]
    requires m.clients[c].code[0].Cas? ==>
      code == [] || (code[0].Cas? && code[0].id == m.clients[c].code[0].id && code[0].m == m.clients[c].code[0].m)
    ensures exists x: ClientId, j: nat :: CoversAt(Tick(cfg, m, c), x, j, id)
  {
    hide Tick;
    var i, m' := m.clients[c].code[0], Tick(cfg, m, c);
    if i.MoveOne? {
      var t :| t in i.got && t.id == id && t in At(m.processing, i.device);
      var j := MoveCovers(cfg, m, c, t);
      assert CoversAt(m', c, j, id);
    } else if i.GateDrop? {
      DropLeaves(cfg, m, c);
      assert false;
    } else if code == [] {
      assert [] + m.clients[c].code[1..] == m.clients[c].code[1..];
      DispatchEnds(cfg, m, c, code);
      assert false;
    } else {
      assert m'.clients[c].code[0] == code[0];
      assert CoversAt(m', c, 0, id);
    }
  }

  lemma DropLeaves(cfg: Config, m: Machine, c: ClientId)
    requires c in m.clients && m.clients[c].code != [] && m.clients[c].code[0].GateDrop?
    requires m.clients[c].code[0].item in At(m.processing, m.clients[c].code[0].device)
    ensures !Busy(Tick(cfg, m, c), m.clients[c].code[0].item.id)
  {
    var i := m.clients[c].code[0];
    assert Tick(cfg, m, c) == TickTake(m, c, Working(i.device), i.item, ByGate, [], []);
  }

  /** A task that is being bumped or cleaned up stays out of processing. */
  lemma AwayStays(cfg: Config, m: Machine, c: ClientId, x: ClientId, j: nat, id: TaskId)
    requires Tidy(m) && Calm(m, Step(c)) && c in m.clients && m.clients[c].code != []
    requires BumpingAt(m, x, j, id) || CleaningAt(m, x, j, id)
    ensures !Busy(Tick(cfg, m, c), id)
  {
    hide Tick;
    ListsStay(cfg, m, c, id);
  }

  lemma AwayStep(cfg: Config, m: Machine, c: ClientId, x: ClientId, j: nat, id: TaskId)
    requires Tidy(m) && Calm(m, Step(c)) && c in m.clients && m.clients[c].code != []
    requires BumpingAt(Tick(cfg, m, c), x, j, id) || CleaningAt(Tick(cfg, m, c), x, j, id)
    ensures !Busy(Tick(cfg, m, c), id)
  {
    hide Tick, Tidy, Calm, Busy;
    var i, m' := m.clients[c].code[0], Tick(cfg, m, c);
    var code := TailOf(cfg, m, c);
    if x != c {
      assert ClientOf(m', x) == ClientOf(m, x);
      AwayStays(cfg, m, c, x, j, id);
    } else if j >= |code| {
      assert m'.clients[c].code[j] == m.clients[c].code[j - |code| + 1];
      AwayStays(cfg, m, c, c, j - |code| + 1, id);
    } else {
      assert m'.clients[c].code[j] == code[j];
      if Bumping(i, id) || CleaningOf(i, id) {
        AwayStays(cfg, m, c, c, 0, id);
      } else if BumpingAt(m', x, j, id) {
        RecoverTick(cfg, m, c);
        RecoverStays(m, c, i.device, i.item, i.now, i.known, id);
      } else {
        AckAway(cfg, m, c, id);
      }
    }
  }

  /** An ack that finds the mark finds the task out of processing. */
  lemma AckAway(cfg: Config, m: Machine, c: ClientId, id: TaskId)
    requires Tidy(m) && Calm(m, Step(c)) && c in m.clients && m.clients[c].code != []
    requires AckFinds(m, m.clients[c].code[0], id)
    ensures !Busy(Tick(cfg, m, c), id)
  {
    hide Tick;
    CoveredIsPopped(m, id);
    ListsStay(cfg, m, c, id);
  }

  lemma CoveredIsPopped(m: Machine, id: TaskId)
    ensures forall x: ClientId, j: nat :: CoversAt(m, x, j, id) ==> PoppingAt(m, x, j, id)
  {
    forall x: ClientId, j: nat | CoversAt(m, x, j, id) ensures PoppingAt(m, x, j, id) {
      CoversPops(m, m.clients[x].code[j], id);
    }
  }

  lemma TickTidy(cfg: Config, s: L.States, m: Machine, c: ClientId)
    requires L.Inv(s, m) && Tidy(m) && Calm(m, Step(c)) && c in m.clients && m.clients[c].code != []
    ensures Tidy(Tick(cfg, m, c))
  {
    var m' := Tick(cfg, m, c);
    forall id | Marked(m', id) && Busy(m', id) ensures exists x: ClientId, j: nat :: CoversAt(m', x, j, id) {
      CoverStep(cfg, s, m, c, id);
    }
    forall x: ClientId, j: nat, id | BumpingAt(m', x, j, id) || CleaningAt(m', x, j, id) ensures !Busy(m', id) {
      AwayStep(cfg, m, c, x, j, id);
    }
  }

  lemma BeginTidy(cfg: Config, m: Machine, c: ClientId, op: Op)
    requires Tidy(m)
    ensures Tidy(Start(cfg, m, c, op))
  {
    var m' := Start(cfg, m, c, op);
    if m' == m { return; }
    OpQuiet(cfg, op);
    forall id | Marked(m', id) && Busy(m', id) ensures exists x: ClientId, j: nat :: CoversAt(m', x, j, id) {
      assert Marked(m, id) && Busy(m, id);
      var x: ClientId, j: nat :| CoversAt(m, x, j, id);
      assert CoversAt(m', x, j, id);
    }
    forall x: ClientId, j: nat, id | BumpingAt(m', x, j, id) || CleaningAt(m', x, j, id) ensures !Busy(m', id) {
      assert x != c;
      assert BumpingAt(m, x, j, id) || CleaningAt(m, x, j, id);
    }
  }

  lemma OpQuiet(cfg: Config, op: Op)
    ensures forall j, id :: 0 <= j < |Code(cfg, op)| ==> !Bumping(Code(cfg, op)[j], id) && !CleaningOf(Code(cfg, op)[j], id)
  {
    hide Code;
    A.OpSimple(cfg, op);
    SimpleCleansNothing(Code(cfg, op));
  }

  lemma SimpleCleansNothing(code: seq<Instr>)
    requires A.AllSimple(code)
    ensures forall j :: 0 <= j < |code| ==> !Cleaning(code[j])
  {
    forall j | 0 <= j < |code| ensures !Cleaning(code[j]) { assert A.Simple(code[j]); }
  }

  /** In a tidy machine no ack cleans up an entry that is in processing. */
  lemma TidyLosesNothing(m: Machine, move: Move)
    requires C.Inv(m) && Tidy(m)
    ensures !CleansUp(m, move)
  {
    if CleansUp(m, move) {
      var i := m.clients[move.client].code[0];
      C.Leaves(m, Working(i.device), i.item);
      assert CleaningAt(m, move.client, 0, i.item.id);
      assert false;
    }
  }

  lemma {:induction false} CalmKeeps(cfg: Config, m: Machine, moves: seq<Move>)
    requires Initial(m) && L.LegalRun(cfg, m, moves) && C.FairRun(cfg, m, moves) && CalmRun(cfg, m, moves)
    ensures Tidy(Run(cfg, m, moves)) && !Loses(Run(cfg, m, moves).removals)
  {
    if moves != [] {
      var front, last := moves[..|moves| - 1], moves[|moves| - 1];
      forall k | 0 <= k < |front| ensures Calm(Run(cfg, m, front[..k]), front[k]) {
        assert front[..k] == moves[..k] && front[k] == moves[k];
      }
      CalmKeeps(cfg, m, front);
      L.RunKeeps(cfg, m, front);
      C.RunKeeps(cfg, m, front);
      var m1 := Run(cfg, m, front);
      assert Calm(Run(cfg, m, moves[..|front|]), moves[|front|]);
      TidyLosesNothing(m1, last);
      StepLosesNothing(cfg, m1, last);
      StepTidy(cfg, m.tasks, m1, last);
    }
  }

  lemma StepTidy(cfg: Config, s: L.States, m: Machine, move: Move)
    requires L.Inv(s, m) && Tidy(m) && Calm(m, move)
    ensures Tidy(Do(cfg, m, move))
  {
    hide Tick, Tidy, L.Inv, Calm;
    match move
    case Begin(c, op) => BeginTidy(cfg, m, c, op);
    case Step(c) =>
      if c in m.clients && m.clients[c].code != [] { TickTidy(cfg, s, m, c); } else { IdleTick(cfg, m, c); }
  }

  /** On every calm schedule each task leaves the queue through a success that was reported, an expiry or a gate
      drop, whatever generations the acks carry. */
  lemma CalmRunsLoseNothing(cfg: Config, m: Machine, moves: seq<Move>)
    requires Initial(m) && L.LegalRun(cfg, m, moves) && C.FairRun(cfg, m, moves) && CalmRun(cfg, m, moves)
    ensures var m' := Run(cfg, m, moves); forall r :: r in m'.removals ==> Accounted(m', r)
  {
    CalmKeeps(cfg, m, moves);
    NothingLostAccounts(cfg, m, moves);
  }
}
