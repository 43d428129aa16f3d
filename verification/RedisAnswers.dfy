/**
 What an answer says about the commit order, under every interleaving: how the count that a retry increment
 answers relates to the stored one, and what an accepted ack proves about recoveries.
 */
module RedisAnswers {
  import opened Wrappers
  import opened Motion
  import opened TaskModel
  import opened RedisMachine
  import L = Linearizability

  type States = L.States

  /** The state of a task after the first `at` commits. */
  function Seen(s: States, log: seq<Commit>, at: nat, id: TaskId): Option<TaskState>
    requires at <= |log|
  {
    var tasks := L.Replay(s, log[..at]);
    if id in tasks then Some(tasks[id]) else None
  }

  lemma SeenSnoc(s: States, log: seq<Commit>, k: Commit, at: nat, id: TaskId)
    requires at <= |log|
    ensures Seen(s, log + [k], at, id) == Seen(s, log, at, id)
  {
    assert (log + [k])[..at] == log[..at];
  }

  lemma SeenNow(s: States, m: Machine, id: TaskId)
    requires m.tasks == L.Replay(s, m.log)
    ensures Seen(s, m.log, |m.log|, id) == Lookup(m, id)
  {
    assert m.log[..|m.log|] == m.log;
  }

  // ---------------------------------------------------------------- what clients carry

  /** The count was computed from the state at that position of the log. */
  predicate FirstOk(s: States, log: seq<Commit>, f: First, id: TaskId) {
    f.at <= |log| && Seen(s, log, f.at, id).Some? && f.count == Seen(s, log, f.at, id).value.retryCount + 1
  }

  /** The ack rules let the ack pass on the state that it read. */
  predicate Passed(cfg: Config, s: States, log: seq<Commit>, id: TaskId, gen: Option<nat>, seen: nat) {
    seen <= |log| && Judge(Seen(s, log, seen, id), gen, cfg.strict).Proceed?
  }

  predicate InstrOk(cfg: Config, s: States, log: seq<Commit>, i: Instr) {
    (i.Cas? && i.m.MRetry? ==> i.default.None?)
    && (i.Scan? && i.purpose.ForAck? ==> Passed(cfg, s, log, i.id, i.purpose.gen, i.purpose.seen))
    && (i.Scan? && i.purpose.ForRejectedAck? ==> i.purpose.seen <= |log|)
    && (i.Take? && i.purpose.ForAck? ==> Passed(cfg, s, log, i.item.id, i.purpose.gen, i.purpose.seen))
    && (i.Take? && i.purpose.ForRejectedAck? ==> i.purpose.seen <= |log|)
  }

  predicate CodeOk(cfg: Config, s: States, log: seq<Commit>, code: seq<Instr>) {
    forall j :: 0 <= j < |code| ==> InstrOk(cfg, s, log, code[j])
  }

  /** In a loop the first read is on record; for a retry increment the count comes from it. */
  predicate LoopOk(s: States, log: seq<Commit>, cl: Client) {
    (cl.held.Some? ==> cl.first.Some?)
    && (cl.first.Some? ==> cl.code != [] && cl.code[0].Cas?
                           && (cl.code[0].m.MRetry? ==> FirstOk(s, log, cl.first.value, cl.code[0].id)))
  }

  /** The write that a result reports is commit `k`. */
  predicate CommittedAt(s: States, log: seq<Commit>, c: ClientId, r: Result, k: nat)
    requires r.Swapped?
  {
    k < |log| && log[k] == Commit(c, r.id, Mutated(r.m)) && Seen(s, log, k + 1, r.id) == Some(r.written)
  }

  ghost predicate RetryOk(s: States, log: seq<Commit>, c: ClientId, r: Result)
    requires r.Swapped?
  {
    r.first.Some? && FirstOk(s, log, r.first.value, r.id)
    && exists k: nat :: r.first.value.at <= k && CommittedAt(s, log, c, r, k)
  }

  ghost predicate ResultOk(cfg: Config, s: States, log: seq<Commit>, c: ClientId, r: Result) {
    (r.Swapped? && r.m.MRetry? ==> RetryOk(s, log, c, r))
    && (r.GaveUp? && r.m.MRetry? ==> r.first.Some? && FirstOk(s, log, r.first.value, r.id))
    && (r.AckReply? ==> r.seen <= |log| && (r.ok ==> Passed(cfg, s, log, r.id, r.gen, r.seen)))
  }

  ghost predicate ClientOk(cfg: Config, s: States, log: seq<Commit>, c: ClientId, cl: Client) {
    CodeOk(cfg, s, log, cl.code) && LoopOk(s, log, cl)
    && forall i :: 0 <= i < |cl.results| ==> ResultOk(cfg, s, log, c, cl.results[i])
  }

  ghost predicate Inv(cfg: Config, s: States, m: Machine) {
    L.Inv(s, m) && forall c: ClientId :: ClientOk(cfg, s, m.log, c, ClientOf(m, c))
  }

  // ---------------------------------------------------------------- the log grows

  lemma ResultLater(cfg: Config, s: States, log: seq<Commit>, k: Commit, c: ClientId, r: Result)
    requires ResultOk(cfg, s, log, c, r)
    ensures ResultOk(cfg, s, log + [k], c, r)
  {
    if r.AckReply? { SeenSnoc(s, log, k, r.seen, r.id); }
    if (r.Swapped? || r.GaveUp?) && r.m.MRetry? {
      SeenSnoc(s, log, k, r.first.value.at, r.id);
      if r.Swapped? {
        var i: nat :| r.first.value.at <= i && CommittedAt(s, log, c, r, i);
        SeenSnoc(s, log, k, i + 1, r.id);
        assert CommittedAt(s, log + [k], c, r, i);
      }
    }
  }

  lemma InstrLater(cfg: Config, s: States, log: seq<Commit>, k: Commit, i: Instr)
    requires InstrOk(cfg, s, log, i)
    ensures InstrOk(cfg, s, log + [k], i)
  {
    hide Judge;
    if i.Scan? && i.purpose.ForAck? { SeenSnoc(s, log, k, i.purpose.seen, i.id); }
    if i.Take? && i.purpose.ForAck? { SeenSnoc(s, log, k, i.purpose.seen, i.item.id); }
  }

  lemma ClientLater(cfg: Config, s: States, log: seq<Commit>, k: Commit, c: ClientId, cl: Client)
    requires ClientOk(cfg, s, log, c, cl)
    ensures ClientOk(cfg, s, log + [k], c, cl)
  {
    forall j | 0 <= j < |cl.code| ensures InstrOk(cfg, s, log + [k], cl.code[j]) { InstrLater(cfg, s, log, k, cl.code[j]); }
    if cl.first.Some? && cl.code[0].m.MRetry? { SeenSnoc(s, log, k, cl.first.value.at, cl.code[0].id); }
    forall i | 0 <= i < |cl.results| ensures ResultOk(cfg, s, log + [k], c, cl.results[i]) {
      ResultLater(cfg, s, log, k, c, cl.results[i]);
    }
  }

  // ---------------------------------------------------------------- a client goes on

  /** An instruction that carries nothing to check. */
  predicate Simple(i: Instr) {
    !(i.Cas? && i.m.MRetry? && i.default.Some?)
    && !((i.Scan? || i.Take?) && (i.purpose.ForAck? || i.purpose.ForRejectedAck?))
  }

  predicate AllSimple(code: seq<Instr>) {
    forall j :: 0 <= j < |code| ==> Simple(code[j])
  }

  /** No generation bump of a recovery. */
  predicate BumpFree(code: seq<Instr>) {
    forall j :: 0 <= j < |code| ==> !(code[j].Cas? && code[j].m.MRecover?)
  }

  lemma SimpleOk(cfg: Config, s: States, log: seq<Commit>, code: seq<Instr>)
    requires AllSimple(code)
    ensures CodeOk(cfg, s, log, code)
  {
  }

  lemma {:induction false} GateSimple(cfg: Config, d: DeviceId, got: seq<Task>)
    ensures AllSimple(GateCode(cfg, d, got)) && BumpFree(GateCode(cfg, d, got))
  {
    if got != [] { GateSimple(cfg, d, got[1..]); }
  }

  lemma {:induction false} DispatchSimple(cfg: Config, got: seq<Task>, now: real)
    ensures AllSimple(DispatchCode(cfg, got, now)) && BumpFree(DispatchCode(cfg, got, now))
  {
    if got != [] { DispatchSimple(cfg, got[1..], now); }
  }

  lemma {:induction false} ExpireSimple(d: DeviceId, items: seq<Task>, maxAge: real, now: real)
    ensures AllSimple(ExpireCode(d, items, maxAge, now)) && BumpFree(ExpireCode(d, items, maxAge, now))
  {
    if items != [] { ExpireSimple(d, items[1..], maxAge, now); }
  }

  lemma OpSimple(cfg: Config, op: Op)
    ensures AllSimple(Code(cfg, op)) && BumpFree(Code(cfg, op))
  {
  }

  /** After its head instruction the client has this code in front and this result more. */
  predicate GoesOn(cl: Client, after: Client, code: seq<Instr>, out: seq<Result>) {
    cl.code != [] && after.code == code + cl.code[1..] && after.held.None? && after.first.None? && |out| <= 1
    && after.results == cl.results + out
  }

  lemma GoesOnOk(cfg: Config, s: States, log: seq<Commit>, c: ClientId, cl: Client, after: Client, code: seq<Instr>,
                 out: seq<Result>)
    requires ClientOk(cfg, s, log, c, cl) && GoesOn(cl, after, code, out) && CodeOk(cfg, s, log, code)
    requires out != [] ==> ResultOk(cfg, s, log, c, out[0])
    ensures ClientOk(cfg, s, log, c, after)
  {
    forall j | 0 <= j < |after.code| ensures InstrOk(cfg, s, log, after.code[j]) {
      if j < |code| { assert after.code[j] == code[j]; } else { assert after.code[j] == cl.code[j - |code| + 1]; }
    }
  }

  lemma ContinueGoesOn(m: Machine, c: ClientId, code: seq<Instr>, out: seq<Result>)
    requires c in m.clients && m.clients[c].code != [] && |out| <= 1
    ensures c in Continue(m, c, code, out).clients
    ensures GoesOn(m.clients[c], Continue(m, c, code, out).clients[c], code, out)
  {
    assert m.clients[c].results + [] == m.clients[c].results;
  }

  /** The search that begins an ack, and its refusal. */
  lemma AckReadOk(cfg: Config, s: States, m: Machine, c: ClientId)
    requires Inv(cfg, s, m) && c in m.clients && m.clients[c].code != [] && m.clients[c].code[0].AckRead?
    ensures c in Tick(cfg, m, c).clients && ClientOk(cfg, s, m.log, c, Tick(cfg, m, c).clients[c])
  {
    var i := m.clients[c].code[0];
    var v := Judge(Lookup(m, i.id), i.gen, cfg.strict);
    assert ClientOk(cfg, s, m.log, c, ClientOf(m, c));
    SeenNow(s, m, i.id);
    hide Judge;
    var code, out := [], [];
    if v.Reject? { out := [AckReply(i.id, false, i.gen, |m.log|)]; }
    else { code := [Scan(i.device, i.id, AckPurpose(v, i.gen, |m.log|))]; }
    ContinueGoesOn(m, c, code, out);
    GoesOnOk(cfg, s, m.log, c, m.clients[c], Tick(cfg, m, c).clients[c], code, out);
  }

  lemma ScanOk(cfg: Config, s: States, m: Machine, c: ClientId)
    requires Inv(cfg, s, m) && c in m.clients && m.clients[c].code != [] && m.clients[c].code[0].Scan?
    ensures c in Tick(cfg, m, c).clients && ClientOk(cfg, s, m.log, c, Tick(cfg, m, c).clients[c])
  {
    hide Judge, L.Inv, Seen, Continue, FindId, GoesOn;
    var i := m.clients[c].code[0];
    var found := FindId(At(m.processing, i.device), i.id);
    assert ClientOk(cfg, s, m.log, c, ClientOf(m, c));
    assert InstrOk(cfg, s, m.log, i);
    var code, out := [], [];
    if found.Some? { code := [Take(i.device, found.value, i.purpose)]; } else { out := NotFound(i.id, i.purpose); }
    ContinueGoesOn(m, c, code, out);
    assert Tick(cfg, m, c) == Continue(m, c, code, out);
    GoesOnOk(cfg, s, m.log, c, m.clients[c], Tick(cfg, m, c).clients[c], code, out);
  }

  lemma TakeOk(cfg: Config, s: States, m: Machine, c: ClientId)
    requires Inv(cfg, s, m) && c in m.clients && m.clients[c].code != [] && m.clients[c].code[0].Take?
    ensures c in Tick(cfg, m, c).clients
    ensures ClientOk(cfg, s, m.log, c, Tick(cfg, m, c).clients[c])
  {
    hide Judge, Tick, L.Inv, Seen;
    var i := m.clients[c].code[0];
    assert ClientOk(cfg, s, m.log, c, ClientOf(m, c));
    assert InstrOk(cfg, s, m.log, i);
    var code, out := TakeGoesOn(cfg, m, c);
    SimpleOk(cfg, s, m.log, code);
    GoesOnOk(cfg, s, m.log, c, m.clients[c], Tick(cfg, m, c).clients[c], code, out);
  }

  lemma TakeGoesOn(cfg: Config, m: Machine, c: ClientId) returns (code: seq<Instr>, out: seq<Result>)
    requires c in m.clients && m.clients[c].code != [] && m.clients[c].code[0].Take?
    ensures c in Tick(cfg, m, c).clients
    ensures GoesOn(m.clients[c], Tick(cfg, m, c).clients[c], code, out) && AllSimple(code) && BumpFree(code)
    ensures var i := m.clients[c].code[0];
      out != [] && out[0].AckReply? ==>
        (i.purpose.ForAck? || i.purpose.ForRejectedAck?) && out[0].id == i.item.id && out[0].gen == i.purpose.gen
        && out[0].seen == i.purpose.seen && (out[0].ok ==> i.purpose.ForAck?)
    ensures out != [] ==> !out[0].Swapped? && !out[0].GaveUp?
  {
    var i := m.clients[c].code[0];
    var ok := i.item in At(m.processing, i.device);
    var p := Working(i.device);
    hide GoesOn, TickTake, TickGrab;
    code, out := [], [];
    match i.purpose
    case ForAck(gen, seen) =>
      code := if ok then [Swap3(i.item.id, MClearStarted, None)] else [];
      out := [AckReply(i.item.id, ok, gen, seen)];
      TakingGoesOn(m, c, p, i.item, ByAck, code, out);
    case ForRejectedAck(gen, seen) =>
      out := [AckReply(i.item.id, false, gen, seen)];
      TakingGoesOn(m, c, p, i.item, ByRejectedAck, code, out);
    case ForAbandon =>
      code := if ok then [Swap3(i.item.id, MDeadLetter, None)] else [];
      out := [AbandonReply(i.item.id, ok)];
      TakingGoesOn(m, c, p, i.item, ByAbandon, code, out);
    case ForRequeue => GrabGoesOn(m, c, i.device, i.item);
  }

  lemma GrabGoesOn(m: Machine, c: ClientId, d: DeviceId, item: Task)
    requires c in m.clients && m.clients[c].code != []
    ensures c in TickGrab(m, c, d, item).clients && GoesOn(m.clients[c], TickGrab(m, c, d, item).clients[c], [], [])
  {
    hide RemoveFirst;
    ContinueGoesOn(m, c, [], []);
  }

  /** A result that carries nothing to check. */
  predicate Quiet(out: seq<Result>) {
    |out| <= 1 && (out != [] ==> !out[0].Swapped? && !out[0].GaveUp? && !out[0].AckReply?)
  }

  /** What a recovery goes on with when it has moved the entry. */
  predicate Bumps(m: Machine, i: Instr, code: seq<Instr>)
    requires i.RecoverMove?
  {
    code == [Swap3(i.item.id, MRecover(i.now), None)] && i.item in At(m.processing, i.device)
  }

  /** Every other command on the lists. */
  predicate OnLists(i: Instr) {
    i.Length? || i.PushNew? || i.PushBack? || i.MoveOne? || i.GateDrop? || i.RecoverScan? || i.RecoverRead?
    || i.RecoverMove? || i.ExpireScan? || i.ExpireTake? || i.RemoveScan? || i.RemoveTake?
  }

  lemma ListGoesOn(cfg: Config, m: Machine, c: ClientId) returns (code: seq<Instr>, out: seq<Result>)
    requires c in m.clients && m.clients[c].code != [] && OnLists(m.clients[c].code[0])
    ensures c in Tick(cfg, m, c).clients
    ensures GoesOn(m.clients[c], Tick(cfg, m, c).clients[c], code, out) && AllSimple(code) && Quiet(out)
    ensures var i := m.clients[c].code[0]; BumpFree(code) || (i.RecoverMove? && Bumps(m, i, code))
  {
    hide Tick, Continue, AllSimple, BumpFree;
    out := [];
    var i := m.clients[c].code[0];
    if i.MoveOne? {
      code := MoveGoesOn(cfg, m, c);
    } else if i.ExpireScan? || i.RecoverScan? {
      code := PlanGoesOn(cfg, m, c);
    } else {
      code, out := PlainGoesOn(cfg, m, c);
    }
  }

  lemma PlanGoesOn(cfg: Config, m: Machine, c: ClientId) returns (code: seq<Instr>)
    requires c in m.clients && m.clients[c].code != []
    requires m.clients[c].code[0].ExpireScan? || m.clients[c].code[0].RecoverScan?
    ensures c in Tick(cfg, m, c).clients
    ensures GoesOn(m.clients[c], Tick(cfg, m, c).clients[c], code, []) && AllSimple(code) && BumpFree(code)
  {
    match m.clients[c].code[0]
    case ExpireScan(d, maxAge, now) =>
      code := ExpireCode(d, At(m.pending, d), maxAge, now);
      ExpireSimple(d, At(m.pending, d), maxAge, now);
      ContinueGoesOn(m, c, code, []);
    case RecoverScan(d, timeout, now) =>
      code := RecoverCode(d, At(m.processing, d), timeout, now);
      ContinueGoesOn(m, c, code, []);
  }

  lemma MoveGoesOn(cfg: Config, m: Machine, c: ClientId) returns (code: seq<Instr>)
    requires c in m.clients && m.clients[c].code != [] && m.clients[c].code[0].MoveOne?
    ensures c in Tick(cfg, m, c).clients
    ensures GoesOn(m.clients[c], Tick(cfg, m, c).clients[c], code, []) && AllSimple(code) && BumpFree(code)
  {
    var i := m.clients[c].code[0];
    hide TickMove, GoesOn;
    code := MovingGoesOn(cfg, m, c, i.device, i.left, i.got, i.now);
  }

  lemma MovingGoesOn(cfg: Config, m: Machine, c: ClientId, d: DeviceId, left: nat, got: seq<Task>, now: real)
    returns (code: seq<Instr>)
    requires c in m.clients && m.clients[c].code != []
    ensures c in TickMove(cfg, m, c, d, left, got, now).clients && AllSimple(code) && BumpFree(code)
    ensures GoesOn(m.clients[c], TickMove(cfg, m, c, d, left, got, now).clients[c], code, [])
  {
    var list := At(m.pending, d);
    var all := if list == [] then got else got + [list[0]];
    GateSimple(cfg, d, all);
    DispatchSimple(cfg, all, now);
    hide Continue, GoesOn, GateCode, DispatchCode;
    code := if list == [] || left <= 1 then AfterMoves(cfg, d, all, now) else [MoveOne(d, left - 1, all, now)];
    ContinueGoesOn(m, c, code, []);
  }

  lemma PlainGoesOn(cfg: Config, m: Machine, c: ClientId) returns (code: seq<Instr>, out: seq<Result>)
    requires c in m.clients && m.clients[c].code != [] && OnLists(m.clients[c].code[0])
    requires !m.clients[c].code[0].MoveOne? && !m.clients[c].code[0].ExpireScan? && !m.clients[c].code[0].RecoverScan?
    ensures c in Tick(cfg, m, c).clients
    ensures GoesOn(m.clients[c], Tick(cfg, m, c).clients[c], code, out) && AllSimple(code) && Quiet(out)
    ensures BumpFree(code) || (m.clients[c].code[0].RecoverMove? && Bumps(m, m.clients[c].code[0], code))
  {
    hide Stale, StartOf;
    var i := m.clients[c].code[0];
    if i.RecoverRead? || i.RecoverMove? {
      code, out := RecoverGoesOn(cfg, m, c);
    } else if i.ExpireTake? || i.RemoveScan? || i.RemoveTake? {
      code, out := PendingGoesOn(cfg, m, c);
    } else {
      code := [];
      out := PushGoesOn(cfg, m, c);
    }
  }

  lemma RecoverGoesOn(cfg: Config, m: Machine, c: ClientId) returns (code: seq<Instr>, out: seq<Result>)
    requires c in m.clients && m.clients[c].code != []
    requires m.clients[c].code[0].RecoverRead? || m.clients[c].code[0].RecoverMove?
    ensures c in Tick(cfg, m, c).clients
    ensures GoesOn(m.clients[c], Tick(cfg, m, c).clients[c], code, out) && AllSimple(code) && Quiet(out)
    ensures BumpFree(code) || (m.clients[c].code[0].RecoverMove? && Bumps(m, m.clients[c].code[0], code))
  {
    hide Stale, StartOf, Continue, GoesOn, TickRecover;
    code, out := [], [];
    match m.clients[c].code[0]
    case RecoverRead(d, item, timeout, now) =>
      var state := Lookup(m, item.id);
      code := if Stale(StartOf(item, state), now, timeout) then [RecoverMove(d, item, now, state.Some?)] else [];
      ContinueGoesOn(m, c, code, out);
    case RecoverMove(d, item, now, known) => code, out := RecoveryGoesOn(m, c, d, item, now, known);
  }

  lemma RecoveryGoesOn(m: Machine, c: ClientId, d: DeviceId, item: Task, now: real, known: bool)
    returns (code: seq<Instr>, out: seq<Result>)
    requires c in m.clients && m.clients[c].code != []
    ensures c in TickRecover(m, c, d, item, now, known).clients
    ensures GoesOn(m.clients[c], TickRecover(m, c, d, item, now, known).clients[c], code, out)
    ensures AllSimple(code) && Quiet(out) && (BumpFree(code) || Bumps(m, RecoverMove(d, item, now, known), code))
  {
    hide Continue, GoesOn, RemoveAll;
    code, out := [], [];
    if item in At(m.processing, d) {
      code := if known then [Swap3(item.id, MRecover(now), None)] else [];
      out := [MovedBack(item.id)];
    }
    ContinueGoesOn(m, c, code, out);
  }

  lemma PendingGoesOn(cfg: Config, m: Machine, c: ClientId) returns (code: seq<Instr>, out: seq<Result>)
    requires c in m.clients && m.clients[c].code != []
    requires var i := m.clients[c].code[0]; i.ExpireTake? || i.RemoveScan? || i.RemoveTake?
    ensures c in Tick(cfg, m, c).clients
    ensures GoesOn(m.clients[c], Tick(cfg, m, c).clients[c], code, out) && AllSimple(code) && Quiet(out) && BumpFree(code)
  {
    hide Continue, GoesOn, TickTake, TickRemoveScan;
    code, out := [], [];
    match m.clients[c].code[0]
    case ExpireTake(d, item) =>
      if item in At(m.pending, d) { code, out := [Swap3(item.id, MExpire, None)], [AgedOut(item.id)]; }
      TakingGoesOn(m, c, Pending(d), item, ByExpire, code, out);
    case RemoveScan(d, id) => code, out := RemoveScanGoesOn(m, c, d, id);
    case RemoveTake(d, item) =>
      out := [RemoveReply(item.id, item in At(m.pending, d))];
      TakingGoesOn(m, c, Pending(d), item, ByRemove, code, out);
  }

  lemma TakingGoesOn(m: Machine, c: ClientId, p: Place, item: Task, kind: Kind, code: seq<Instr>, out: seq<Result>)
    requires c in m.clients && m.clients[c].code != [] && (p.Pending? || p.Working?) && |out| <= 1
    ensures c in TickTake(m, c, p, item, kind, code, out).clients
    ensures GoesOn(m.clients[c], TickTake(m, c, p, item, kind, code, out).clients[c], code, out)
  {
    hide Continue, GoesOn, RemoveFirst;
    ContinueGoesOn(m, c, code, out);
  }

  lemma RemoveScanGoesOn(m: Machine, c: ClientId, d: DeviceId, id: TaskId) returns (code: seq<Instr>, out: seq<Result>)
    requires c in m.clients && m.clients[c].code != []
    ensures c in TickRemoveScan(m, c, d, id).clients
    ensures GoesOn(m.clients[c], TickRemoveScan(m, c, d, id).clients[c], code, out)
    ensures AllSimple(code) && Quiet(out) && BumpFree(code)
  {
    hide Continue, GoesOn, FindId;
    code, out := [], [];
    var found := FindId(At(m.pending, d), id);
    if found.Some? { code := [RemoveTake(d, found.value)]; } else { out := [RemoveReply(id, false)]; }
    ContinueGoesOn(m, c, code, out);
  }

  lemma PushGoesOn(cfg: Config, m: Machine, c: ClientId) returns (out: seq<Result>)
    requires c in m.clients && m.clients[c].code != []
    requires var i := m.clients[c].code[0]; i.Length? || i.PushNew? || i.PushBack? || i.GateDrop?
    ensures c in Tick(cfg, m, c).clients
    ensures GoesOn(m.clients[c], Tick(cfg, m, c).clients[c], [], out) && Quiet(out)
  {
    out := [];
    match m.clients[c].code[0]
    case Length(d) => out := [Depth(|At(m.pending, d)|)]; ContinueGoesOn(m, c, [], out);
    case PushNew(d, t) => out := [Depth(|At(m.pending, d)| + 1)]; ContinueGoesOn(m, c, [], out);
    case PushBack(d, tasks) => out := [Depth(|tasks + At(m.pending, d)|)]; ContinueGoesOn(m, c, [], out);
    case GateDrop(d, item) => ContinueGoesOn(m, c, [], out);
  }

  lemma OnListsOk(cfg: Config, s: States, m: Machine, c: ClientId)
    requires Inv(cfg, s, m) && c in m.clients && m.clients[c].code != [] && OnLists(m.clients[c].code[0])
    ensures c in Tick(cfg, m, c).clients && ClientOk(cfg, s, m.log, c, Tick(cfg, m, c).clients[c])
  {
    hide Tick, L.Inv;
    var code, out := ListGoesOn(cfg, m, c);
    SimpleOk(cfg, s, m.log, code);
    assert ClientOk(cfg, s, m.log, c, ClientOf(m, c));
    GoesOnOk(cfg, s, m.log, c, m.clients[c], Tick(cfg, m, c).clients[c], code, out);
  }

  lemma ListStepOk(cfg: Config, s: States, m: Machine, c: ClientId)
    requires Inv(cfg, s, m) && c in m.clients && m.clients[c].code != [] && !L.WritesState(m.clients[c].code[0])
    requires c in Tick(cfg, m, c).clients
    ensures ClientOk(cfg, s, m.log, c, Tick(cfg, m, c).clients[c])
  {
    hide Tick, Inv, ClientOk;
    var i := m.clients[c].code[0];
    if i.AckRead? {
      AckReadOk(cfg, s, m, c);
    } else if i.Scan? {
      ScanOk(cfg, s, m, c);
    } else if i.Take? {
      TakeOk(cfg, s, m, c);
    } else {
      OnListsOk(cfg, s, m, c);
    }
  }

  // ---------------------------------------------------------------- task states

  lemma ReadOk(cfg: Config, s: States, m: Machine, c: ClientId)
    requires Inv(cfg, s, m) && c in m.clients && m.clients[c].code != [] && m.clients[c].code[0].Cas?
    requires m.clients[c].held.None?
    ensures var i := m.clients[c].code[0]; ClientOk(cfg, s, m.log, c, TickRead(m, c, i.id, i.m, i.default).clients[c])
  {
    var i := m.clients[c].code[0];
    assert ClientOk(cfg, s, m.log, c, ClientOf(m, c));
    assert InstrOk(cfg, s, m.log, i);
    SeenNow(s, m, i.id);
    if Lookup(m, i.id).None? && i.default.None? {
      ContinueGoesOn(m, c, [], [Missing(i.id, i.m)]);
      GoesOnOk(cfg, s, m.log, c, m.clients[c], Continue(m, c, [], [Missing(i.id, i.m)]).clients[c], [], [Missing(i.id, i.m)]);
    }
  }

  lemma SwapOk(cfg: Config, s: States, m: Machine, c: ClientId)
    requires Inv(cfg, s, m) && c in m.clients && m.clients[c].code != [] && m.clients[c].code[0].Cas?
    requires m.clients[c].held.Some?
    requires var i := m.clients[c].code[0]; L.Inv(s, TickSwap(m, c, i.id, i.m, i.default, i.tries))
    ensures var i := m.clients[c].code[0];
      var m' := TickSwap(m, c, i.id, i.m, i.default, i.tries);
      c in m'.clients && ClientOk(cfg, s, m'.log, c, m'.clients[c])
  {
    hide ClientOk, L.Inv, Continue, Swap;
    var cl := m.clients[c];
    var i := cl.code[0];
    assert ClientOk(cfg, s, m.log, c, ClientOf(m, c));
    if i.id in m.tasks && m.tasks[i.id].version == cl.held.value.copy.version {
      CommitOk(cfg, s, m, c);
    } else if i.tries <= 1 {
      GivesUpOk(cfg, s, m, c);
    } else {
      RetriesOk(cfg, s, m.log, c, cl);
    }
  }

  lemma GivesUpOk(cfg: Config, s: States, m: Machine, c: ClientId)
    requires c in m.clients && m.clients[c].code != [] && m.clients[c].code[0].Cas? && m.clients[c].held.Some?
    requires ClientOk(cfg, s, m.log, c, m.clients[c])
    ensures var (i, cl) := (m.clients[c].code[0], m.clients[c]);
      var m' := Continue(m, c, [], [GaveUp(i.id, i.m, cl.first)]);
      m'.log == m.log && c in m'.clients && ClientOk(cfg, s, m.log, c, m'.clients[c])
  {
    var i, cl := m.clients[c].code[0], m.clients[c];
    ContinueGoesOn(m, c, [], [GaveUp(i.id, i.m, cl.first)]);
    GoesOnOk(cfg, s, m.log, c, cl, Continue(m, c, [], [GaveUp(i.id, i.m, cl.first)]).clients[c], [], [GaveUp(i.id, i.m, cl.first)]);
  }

  lemma RetriesOk(cfg: Config, s: States, log: seq<Commit>, c: ClientId, cl: Client)
    requires ClientOk(cfg, s, log, c, cl) && cl.code != [] && cl.code[0].Cas? && cl.code[0].tries > 1
    ensures var i := cl.code[0];
      ClientOk(cfg, s, log, c, cl.(held := None, code := [Cas(i.id, i.m, i.default, i.tries - 1)] + cl.code[1..]))
  {
    var i := cl.code[0];
    assert InstrOk(cfg, s, log, i);
    var code := [Cas(i.id, i.m, i.default, i.tries - 1)] + cl.code[1..];
    forall j | 0 <= j < |code| ensures InstrOk(cfg, s, log, code[j]) {
      if j > 0 { assert code[j] == cl.code[j]; }
    }
  }

  lemma CommitOk(cfg: Config, s: States, m: Machine, c: ClientId)
    requires c in m.clients && m.clients[c].code != [] && m.clients[c].code[0].Cas? && m.clients[c].held.Some?
    requires ClientOk(cfg, s, m.log, c, m.clients[c]) && m.clients[c].code[0].id in m.tasks
    requires m.tasks[m.clients[c].code[0].id].version == m.clients[c].held.value.copy.version
    requires var i := m.clients[c].code[0]; L.Inv(s, TickSwap(m, c, i.id, i.m, i.default, i.tries))
    ensures var i := m.clients[c].code[0];
      var m' := TickSwap(m, c, i.id, i.m, i.default, i.tries);
      c in m'.clients && ClientOk(cfg, s, m'.log, c, m'.clients[c])
  {
    var cl := m.clients[c];
    var i := cl.code[0];
    var k := Commit(c, i.id, Mutated(i.m));
    var m' := TickSwap(m, c, i.id, i.m, i.default, i.tries);
    var r := Swapped(i.id, i.m, Swap(i.m, cl.held.value.copy), cl.first);
    assert m'.log == m.log + [k] && m'.tasks[i.id] == r.written;
    hide Swap, Mutate;
    ClientLater(cfg, s, m.log, k, c, cl);
    ContinueGoesOn(m, c, [], [r]);
    SeenNow(s, m', i.id);
    assert CommittedAt(s, m'.log, c, r, |m.log|);
    if i.m.MRetry? { assert RetryOk(s, m'.log, c, r); }
    GoesOnOk(cfg, s, m'.log, c, cl, m'.clients[c], [], [r]);
  }

  lemma WriteOk(cfg: Config, s: States, m: Machine, c: ClientId, id: TaskId, effect: Effect)
    requires Inv(cfg, s, m) && c in m.clients && m.clients[c].code != [] && !effect.Mutated?
    requires effect.Appended? ==> id in m.tasks
    ensures var m' := TickWrite(m, c, id, effect); ClientOk(cfg, s, m'.log, c, m'.clients[c])
  {
    assert ClientOk(cfg, s, m.log, c, ClientOf(m, c));
    var m' := TickWrite(m, c, id, effect);
    ClientLater(cfg, s, m.log, Commit(c, id, effect), c, m.clients[c]);
    ContinueGoesOn(m, c, [], []);
    GoesOnOk(cfg, s, m'.log, c, m.clients[c], m'.clients[c], [], []);
  }

  lemma StateStepOk(cfg: Config, s: States, m: Machine, c: ClientId)
    requires Inv(cfg, s, m) && c in m.clients && m.clients[c].code != [] && L.WritesState(m.clients[c].code[0])
    requires L.Inv(s, Tick(cfg, m, c))
    ensures c in Tick(cfg, m, c).clients
    ensures var m' := Tick(cfg, m, c); ClientOk(cfg, s, m'.log, c, m'.clients[c])
  {
    var i := m.clients[c].code[0];
    hide ClientOk, L.Inv, Inv, Tick, TickRead, TickSwap, TickWrite, Continue;
    CasTick(cfg, m, c);
    if i.Cas? {
      if m.clients[c].held.None? {
        ReadOk(cfg, s, m, c);
        ReadMoves(m, c, i.id, i.m, i.default);
      } else {
        SwapOk(cfg, s, m, c);
        SwapMoves(m, c, i.id, i.m, i.default, i.tries);
      }
    } else if i.Append? && i.id !in m.tasks {
      MissedTick(cfg, m, c);
      MissedOk(cfg, s, m, c, i.id, i.event);
    } else {
      var id, effect := WriteTick(cfg, m, c);
      WriteOk(cfg, s, m, c, id, effect);
    }
  }

  lemma MissedTick(cfg: Config, m: Machine, c: ClientId)
    requires c in m.clients && m.clients[c].code != [] && m.clients[c].code[0].Append? && m.clients[c].code[0].id !in m.tasks
    ensures var i := m.clients[c].code[0];
      var m' := Continue(m, c, [Stub(i.id, i.event)], []); Tick(cfg, m, c) == m' && c in m'.clients
  {
  }

  lemma WriteTick(cfg: Config, m: Machine, c: ClientId) returns (id: TaskId, effect: Effect)
    requires c in m.clients && m.clients[c].code != [] && L.WritesState(m.clients[c].code[0])
    requires var i := m.clients[c].code[0]; !i.Cas? && !(i.Append? && i.id !in m.tasks)
    ensures !effect.Mutated? && (effect.Appended? ==> id in m.tasks) && Tick(cfg, m, c) == TickWrite(m, c, id, effect)
    ensures c in Tick(cfg, m, c).clients
  {
    match m.clients[c].code[0]
    case Create(t, st) => id, effect := t.id, Written(Fresh(Some(t), st, []));
    case Stub(x, e) => id, effect := x, Written(Fresh(None, e.phase, [e]));
    case Append(x, e) => id, effect := x, Appended(e);
  }

  lemma MissedOk(cfg: Config, s: States, m: Machine, c: ClientId, id: TaskId, e: Event)
    requires Inv(cfg, s, m) && c in m.clients && m.clients[c].code != []
    ensures var m' := Continue(m, c, [Stub(id, e)], []); ClientOk(cfg, s, m'.log, c, m'.clients[c])
  {
    assert ClientOk(cfg, s, m.log, c, ClientOf(m, c));
    ContinueGoesOn(m, c, [Stub(id, e)], []);
    GoesOnOk(cfg, s, m.log, c, m.clients[c], Continue(m, c, [Stub(id, e)], []).clients[c], [Stub(id, e)], []);
  }

  /** A step commits at most once, and changes one client. */
  lemma StepLog(cfg: Config, m: Machine, c: ClientId)
    requires c in m.clients && m.clients[c].code != []
    ensures var m' := Tick(cfg, m, c);
      Moved(m, m', c) && (m'.log == m.log || exists k: Commit :: m'.log == m.log + [k])
  {
    hide Tick, TickRead, TickSwap, TickWrite, Continue;
    var i := m.clients[c].code[0];
    if !L.WritesState(i) {
      L.ListStepQuiet(cfg, m, c);
    } else if i.Cas? {
      CasTick(cfg, m, c);
      if m.clients[c].held.None? { ReadMoves(m, c, i.id, i.m, i.default); } else { SwapMoves(m, c, i.id, i.m, i.default, i.tries); }
    } else if i.Append? && i.id !in m.tasks {
      MissedTick(cfg, m, c);
      MissedLog(m, c, i.id, i.event);
    } else {
      var id, effect := WriteTick(cfg, m, c);
      WriteLog(m, c, id, effect);
    }
  }

  lemma ReadMoves(m: Machine, c: ClientId, id: TaskId, mu: Mutator, default: Option<FreshState>)
    requires c in m.clients && m.clients[c].code != []
    ensures var m' := TickRead(m, c, id, mu, default); Moved(m, m', c) && m'.log == m.log
  {
  }

  lemma SwapMoves(m: Machine, c: ClientId, id: TaskId, mu: Mutator, default: Option<FreshState>, tries: nat)
    requires c in m.clients && m.clients[c].code != [] && m.clients[c].held.Some?
    ensures var m' := TickSwap(m, c, id, mu, default, tries);
      Moved(m, m', c) && (m'.log == m.log || m'.log == m.log + [Commit(c, id, Mutated(mu))])
  {
    hide Swap;
  }

  lemma MissedLog(m: Machine, c: ClientId, id: TaskId, e: Event)
    requires c in m.clients && m.clients[c].code != []
    ensures var m' := Continue(m, c, [Stub(id, e)], []); Moved(m, m', c) && m'.log == m.log
  {
  }

  lemma WriteLog(m: Machine, c: ClientId, id: TaskId, effect: Effect)
    requires c in m.clients && m.clients[c].code != [] && !effect.Mutated? && (effect.Appended? ==> id in m.tasks)
    ensures var m' := TickWrite(m, c, id, effect); Moved(m, m', c) && m'.log == m.log + [Commit(c, id, effect)]
  {
  }

  lemma OthersOk(cfg: Config, s: States, m: Machine, m': Machine, c: ClientId)
    requires Inv(cfg, s, m) && Moved(m, m', c) && (m'.log == m.log || exists k: Commit :: m'.log == m.log + [k])
    ensures forall x: ClientId :: x != c ==> ClientOk(cfg, s, m'.log, x, ClientOf(m', x))
  {
    forall x: ClientId | x != c ensures ClientOk(cfg, s, m'.log, x, ClientOf(m', x)) {
      assert ClientOk(cfg, s, m.log, x, ClientOf(m, x));
      if m'.log != m.log {
        var k: Commit :| m'.log == m.log + [k];
        ClientLater(cfg, s, m.log, k, x, ClientOf(m, x));
      }
    }
  }

  lemma StepKeeps(cfg: Config, s: States, m: Machine, move: Move)
    requires Inv(cfg, s, m) && L.CreatesOnce(m, move)
    ensures Inv(cfg, s, Do(cfg, m, move))
  {
    L.StepKeeps(s, cfg, m, move);
    var m' := Do(cfg, m, move);
    hide Tick, L.Inv, ClientOk;
    match move
    case Begin(c, op) =>
      if m' != m {
        BeginOk(cfg, s, m, c, op);
        OthersOk(cfg, s, m, m', c);
      }
    case Step(c) =>
      if c in m.clients && m.clients[c].code != [] {
        StepLog(cfg, m, c);
        OthersOk(cfg, s, m, m', c);
        if L.WritesState(m.clients[c].code[0]) {
          StateStepOk(cfg, s, m, c);
        } else {
          L.ListStepQuiet(cfg, m, c);
          ListStepOk(cfg, s, m, c);
        }
      } else {
        IdleTick(cfg, m, c);
      }
  }

  lemma BeginOk(cfg: Config, s: States, m: Machine, c: ClientId, op: Op)
    requires Inv(cfg, s, m) && Start(cfg, m, c, op) != m
    ensures var m' := Start(cfg, m, c, op); Moved(m, m', c) && m'.log == m.log && ClientOk(cfg, s, m.log, c, m'.clients[c])
  {
    assert ClientOk(cfg, s, m.log, c, ClientOf(m, c));
    OpSimple(cfg, op);
    SimpleOk(cfg, s, m.log, Code(cfg, op));
  }

  lemma {:induction false} RunKeeps(cfg: Config, m: Machine, moves: seq<Move>)
    requires Initial(m) && L.LegalRun(cfg, m, moves)
    ensures Inv(cfg, m.tasks, Run(cfg, m, moves))
  {
    if moves == [] {
      L.RunKeeps(cfg, m, moves);
    } else {
      RunKeeps(cfg, m, moves[..|moves| - 1]);
      StepKeeps(cfg, m.tasks, Run(cfg, m, moves[..|moves| - 1]), moves[|moves| - 1]);
    }
  }

  // ---------------------------------------------------------------- the answer of a retry increment

  predicate IsRetry(k: Commit, id: TaskId) {
    k.id == id && k.effect.Mutated? && L.CountsAsRetry(k.effect.m)
  }

  /** How many retries of the task are committed between two points of the order. */
  function RetriesBetween(log: seq<Commit>, i: nat, j: nat, id: TaskId): nat
    requires i <= j <= |log|
    decreases j - i
  {
    if i == j then 0 else RetriesBetween(log, i, j - 1, id) + if IsRetry(log[j - 1], id) then 1 else 0
  }

  lemma {:induction false} NoRetryBetween(log: seq<Commit>, i: nat, j: nat, id: TaskId)
    requires i <= j <= |log|
    ensures RetriesBetween(log, i, j, id) == 0 <==> forall k :: i <= k < j ==> !IsRetry(log[k], id)
    decreases j - i
  {
    if i < j { NoRetryBetween(log, i, j - 1, id); }
  }

  lemma ApplyRetries(s: States, k: Commit, id: TaskId)
    requires id in s && L.GoodCommit(s, k)
    ensures id in L.Apply(s, k)
    ensures L.Apply(s, k)[id].retryCount == s[id].retryCount + if IsRetry(k, id) then 1 else 0
  {
    if k.id == id && k.effect.Mutated? { L.SwapFields(k.effect.m, s[id]); }
  }

  lemma {:induction false} RetriesGrow(s: States, log: seq<Commit>, i: nat, j: nat, id: TaskId)
    requires L.GoodLog(s, log) && i <= j <= |log| && Seen(s, log, i, id).Some?
    ensures Seen(s, log, j, id).Some?
    ensures Seen(s, log, j, id).value.retryCount
         == Seen(s, log, i, id).value.retryCount + RetriesBetween(log, i, j, id)
    decreases j - i
  {
    hide L.GoodCommit, L.GoodLog, L.Apply, L.Replay, IsRetry;
    if i < j {
      RetriesGrow(s, log, i, j - 1, id);
      L.CommitAt(s, log, j - 1);
      ApplyRetries(L.Replay(s, log[..j - 1]), log[j - 1], id);
    }
  }

  /** How the answered count relates to the written one, for an increment that is commit `k`. */
  predicate AnswersFor(log: seq<Commit>, r: Result, k: nat)
    requires r.Swapped? && r.first.Some? && k < |log|
  {
    var at := r.first.value.at;
    at <= k && r.written.retryCount == r.first.value.count + RetriesBetween(log, at, k, r.id)
    && (r.first.value.count == r.written.retryCount <==> forall x :: at <= x < k ==> !IsRetry(log[x], r.id))
  }

  /** A retry increment that was written: the count it answers is the one it wrote exactly when no retry of the
      task was committed between its first read and its own commit, and otherwise too low by their number. */
  lemma RetryAnswer(cfg: Config, m: Machine, moves: seq<Move>, c: ClientId, i: nat)
    requires Initial(m) && L.LegalRun(cfg, m, moves) && c in Run(cfg, m, moves).clients
    requires i < |Run(cfg, m, moves).clients[c].results|
    requires var r := Run(cfg, m, moves).clients[c].results[i]; r.Swapped? && r.m.MRetry?
    ensures var log, r := Run(cfg, m, moves).log, Run(cfg, m, moves).clients[c].results[i];
      r.first.Some? && exists k: nat :: CommittedAt(m.tasks, log, c, r, k) && AnswersFor(log, r, k)
  {
    RunKeeps(cfg, m, moves);
    var m' := Run(cfg, m, moves);
    var log, r := m'.log, m'.clients[c].results[i];
    assert ClientOk(cfg, m.tasks, log, c, ClientOf(m', c));
    assert ResultOk(cfg, m.tasks, log, c, r);
    RetryCounts(m.tasks, log, c, r);
  }

  lemma RetryCounts(s: States, log: seq<Commit>, c: ClientId, r: Result)
    requires L.GoodLog(s, log) && r.Swapped? && r.m.MRetry? && RetryOk(s, log, c, r)
    ensures exists k: nat :: CommittedAt(s, log, c, r, k) && AnswersFor(log, r, k)
  {
    hide L.GoodLog, Seen;
    var k: nat :| r.first.value.at <= k && CommittedAt(s, log, c, r, k);
    assert IsRetry(log[k], r.id);
    hide IsRetry;
    RetriesGrow(s, log, r.first.value.at, k + 1, r.id);
    NoRetryBetween(log, r.first.value.at, k, r.id);
    assert AnswersFor(log, r, k);
  }

  /** A retry increment that gave up answers one more than the count at its first read, though it wrote nothing:
      at any later point that is the stored count exactly when one retry was committed since. */
  lemma GivenUpAnswer(cfg: Config, m: Machine, moves: seq<Move>, c: ClientId, i: nat)
    requires Initial(m) && L.LegalRun(cfg, m, moves) && c in Run(cfg, m, moves).clients
    requires i < |Run(cfg, m, moves).clients[c].results|
    requires var r := Run(cfg, m, moves).clients[c].results[i]; r.GaveUp? && r.m.MRetry?
    ensures var log, r := Run(cfg, m, moves).log, Run(cfg, m, moves).clients[c].results[i];
      r.first.Some?
      && forall at: nat :: r.first.value.at <= at <= |log| ==>
        (Seen(m.tasks, log, at, r.id).Some?
         && (r.first.value.count == Seen(m.tasks, log, at, r.id).value.retryCount
             <==> RetriesBetween(log, r.first.value.at, at, r.id) == 1))
  {
    RunKeeps(cfg, m, moves);
    var m' := Run(cfg, m, moves);
    var log, r := m'.log, m'.clients[c].results[i];
    assert ClientOk(cfg, m.tasks, log, c, ClientOf(m', c));
    assert ResultOk(cfg, m.tasks, log, c, r);
    forall at: nat | r.first.value.at <= at <= |log|
      ensures Seen(m.tasks, log, at, r.id).Some?
      ensures Seen(m.tasks, log, at, r.id).value.retryCount + 1
           == r.first.value.count + RetriesBetween(log, r.first.value.at, at, r.id)
    {
      RetriesGrow(m.tasks, log, r.first.value.at, at, r.id);
    }
  }

  // ---------------------------------------------------------------- what an accepted ack proves

  /** A state without the mark of a recovery gets it only from a recovery. */
  lemma {:induction false} MarkNeedsRecovery(s: States, log: seq<Commit>, i: nat, j: nat, id: TaskId)
    requires L.GoodLog(s, log) && i <= j <= |log| && Seen(s, log, i, id).Some? && Seen(s, log, i, id).value.recoveredAt.None?
    requires forall x :: i <= x < j ==> !L.IsRecovery(log[x], id)
    ensures Seen(s, log, j, id).Some? && Seen(s, log, j, id).value.recoveredAt.None?
    decreases j - i
  {
    hide L.GoodCommit, L.GoodLog, L.Apply, L.Replay, L.IsRecovery;
    if i < j {
      MarkNeedsRecovery(s, log, i, j - 1, id);
      L.CommitAt(s, log, j - 1);
      ApplyMark(L.Replay(s, log[..j - 1]), log[j - 1], id);
    }
  }

  lemma ApplyMark(s: States, k: Commit, id: TaskId)
    requires id in s && s[id].recoveredAt.None? && L.GoodCommit(s, k) && !L.IsRecovery(k, id)
    ensures id in L.Apply(s, k) && L.Apply(s, k)[id].recoveredAt.None?
  {
  }

  lemma ApplyDispatch(s: States, k: Commit, id: TaskId)
    requires L.GoodCommit(s, k) && Dispatches(k, id)
    ensures id in L.Apply(s, k) && L.Apply(s, k)[id].recoveredAt.None?
  {
  }

  /** The commit of a pop: the state update that stamps the task. */
  predicate Dispatches(k: Commit, id: TaskId) {
    k.id == id && k.effect.Mutated? && k.effect.m.MDispatch?
  }

  /** An ack that reads the state with the generation that a pop's commit stamped: it passes exactly when no
      recovery was committed in between, and it is never the one that cleans up. */
  lemma StampedVerdict(cfg: Config, s: States, log: seq<Commit>, k: nat, seen: nat, id: TaskId)
    requires L.GoodLog(s, log) && k < seen <= |log| && Dispatches(log[k], id)
    ensures Seen(s, log, k + 1, id).Some? && Seen(s, log, seen, id).Some?
    ensures var v := Judge(Seen(s, log, seen, id), Some(Seen(s, log, k + 1, id).value.dispatchGen), cfg.strict);
      v == if forall x :: k < x < seen ==> !L.IsRecovery(log[x], id) then Proceed else Reject
  {
    hide L.GoodCommit, L.GoodLog, L.Apply, L.Replay;
    L.CommitAt(s, log, k);
    ApplyDispatch(L.Replay(s, log[..k]), log[k], id);
    L.SameGenerationNoRecovery(s, log, k + 1, seen, id);
    if forall x :: k < x < seen ==> !L.IsRecovery(log[x], id) { MarkNeedsRecovery(s, log, k + 1, seen, id); }
  }

  /** On every interleaving: an ack that answers True with the generation that a pop's commit stamped, and read the
      state after that commit, proves that no recovery of the task was committed in between.  This is the condition
      that the schedule of RedisRaces.AckBetweenMoveAndBump slips through: the recovery has moved the task but its
      bump is not committed when the ack reads. */
  lemma AcceptedAck(cfg: Config, m: Machine, moves: seq<Move>, x: ClientId, j: nat, k: nat)
    requires Initial(m) && L.LegalRun(cfg, m, moves) && x in Run(cfg, m, moves).clients
    requires j < |Run(cfg, m, moves).clients[x].results| && k < |Run(cfg, m, moves).log|
    requires var r, log := Run(cfg, m, moves).clients[x].results[j], Run(cfg, m, moves).log;
      r.AckReply? && k < r.seen && Dispatches(log[k], r.id)
      && Seen(m.tasks, log, k + 1, r.id).Some? && r.gen == Some(Seen(m.tasks, log, k + 1, r.id).value.dispatchGen)
    ensures var r, log := Run(cfg, m, moves).clients[x].results[j], Run(cfg, m, moves).log;
      r.seen <= |log| && (r.ok ==> forall y :: k < y < r.seen ==> !L.IsRecovery(log[y], r.id))
  {
    RunKeeps(cfg, m, moves);
    var m' := Run(cfg, m, moves);
    var log, r := m'.log, m'.clients[x].results[j];
    assert ClientOk(cfg, m.tasks, log, x, ClientOf(m', x));
    assert ResultOk(cfg, m.tasks, log, x, r);
    StampedVerdict(cfg, m.tasks, log, k, r.seen, r.id);
  }
}
