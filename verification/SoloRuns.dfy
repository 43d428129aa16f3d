/**
 A client that runs alone: executed command by command on the interleaved machine, each operation does
 exactly what the sequential store function says.
 */
module SoloRuns {
  import opened Wrappers
  import opened Motion
  import opened TaskModel
  import opened RedisMachine
  import opened RedisStore
  import QueueSpec
  import Refinement
  import RedisRefinement

  function View(m: Machine): Store {
    Store(m.pending, m.processing, m.tasks)
  }

  /** `n` ticks of one client. */
  function Ticks(cfg: Config, m: Machine, c: ClientId, n: nat): Machine
    decreases n
  {
    if n == 0 then m else Ticks(cfg, Tick(cfg, m, c), c, n - 1)
  }

  /** Client `c` alone leads from one machine to the other. */
  ghost predicate Leads(cfg: Config, m: Machine, c: ClientId, m': Machine) {
    exists n: nat :: Ticks(cfg, m, c, n) == m'
  }

  /** The client is about to execute `code` and holds no state. */
  predicate Trying(m: Machine, c: ClientId, code: seq<Instr>) {
    c in m.clients && m.clients[c].code == code && m.clients[c].held.None?
  }

  /** The client is about to execute `code` and is in no compare-and-swap loop. */
  predicate Ready(m: Machine, c: ClientId, code: seq<Instr>) {
    Trying(m, c, code) && m.clients[c].first.None?
  }

  lemma {:induction false} TicksAdd(cfg: Config, m: Machine, c: ClientId, a: nat, b: nat)
    ensures Ticks(cfg, m, c, a + b) == Ticks(cfg, Ticks(cfg, m, c, a), c, b)
    decreases a
  {
    if a > 0 { TicksAdd(cfg, Tick(cfg, m, c), c, a - 1, b); }
  }

  lemma LeadsOn(cfg: Config, m: Machine, c: ClientId, m1: Machine, m2: Machine)
    requires Leads(cfg, m, c, m1) && Leads(cfg, m1, c, m2)
    ensures Leads(cfg, m, c, m2)
  {
    var a: nat :| Ticks(cfg, m, c, a) == m1;
    var b: nat :| Ticks(cfg, m1, c, b) == m2;
    TicksAdd(cfg, m, c, a, b);
  }

  lemma Stays(cfg: Config, m: Machine, c: ClientId)
    ensures Leads(cfg, m, c, m)
  {
    assert Ticks(cfg, m, c, 0) == m;
  }

  lemma OneTick(cfg: Config, m: Machine, c: ClientId)
    ensures Leads(cfg, m, c, Tick(cfg, m, c))
  {
    assert Ticks(cfg, Tick(cfg, m, c), c, 0) == Tick(cfg, m, c);
    assert Ticks(cfg, m, c, 1) == Tick(cfg, m, c);
  }

  // ---------------------------------------------------------------- what the caller is told

  /** The part of an answer that one result carries. */
  datatype Told = Stamp(id: TaskId, gen: nat) | Number(n: nat) | One | YesNo(ok: bool)

  function ToldBy(r: Result): seq<Told> {
    match r
    case Swapped(id, MDispatch(_, _), written, _) => [Stamp(id, written.dispatchGen)]
    case Swapped(_, MRetry, _, Some(first)) => [Number(first.count)]
    case GaveUp(id, MDispatch(_, _), _) => [Stamp(id, 0)]
    case GaveUp(_, MRetry, Some(first)) => [Number(first.count)]
    case Missing(_, MRetry) => [Number(0)]
    case Depth(n) => [Number(n)]
    case MovedBack(_) => [One]
    case AgedOut(_) => [One]
    case AckReply(_, ok, _, _) => [YesNo(ok)]
    case AbandonReply(_, ok) => [YesNo(ok)]
    case RemoveReply(_, ok) => [YesNo(ok)]
    case _ => []
  }

  function Tale(results: seq<Result>): seq<Told> {
    if results == [] then [] else Tale(results[..|results| - 1]) + ToldBy(results[|results| - 1])
  }

  /** Everything a client has been told so far. */
  function Heard(m: Machine, c: ClientId): seq<Told> {
    Tale(ClientOf(m, c).results)
  }

  lemma TaleNext(results: seq<Result>, r: Result)
    ensures Tale(results + [r]) == Tale(results) + ToldBy(r)
  {
    assert (results + [r])[..|results|] == results;
  }

  /** One result more. */
  lemma HeardNext(m: Machine, m': Machine, c: ClientId, r: Result)
    requires c in m.clients && c in m'.clients && m'.clients[c].results == m.clients[c].results + [r]
    ensures Heard(m', c) == Heard(m, c) + ToldBy(r)
  {
    TaleNext(m.clients[c].results, r);
  }

  function Ones(n: nat): (r: seq<Told>)
    ensures |r| == n
  {
    seq(n, _ => One)
  }

  function Stamped(out: seq<Task>): (r: seq<Told>)
    ensures |r| == |out|
  {
    seq(|out|, i requires 0 <= i < |out| => Stamp(out[i].id, out[i].stamp.GetOr(0)))
  }

  /** What an uncontended compare-and-swap loop tells. */
  function CasTold(tasks: map<TaskId, TaskState>, id: TaskId, mu: Mutator): seq<Told> {
    if mu.MDispatch? then [Stamp(id, GenOf(Update(tasks, id, mu), id))]
    else if mu.MRetry? then [Number(if id in tasks then tasks[id].retryCount + 1 else 0)]
    else []
  }

  /** The answer to the caller of an operation, from what its client was told meanwhile. */
  function AnswerOf(op: Op, told: seq<Told>): QueueSpec.Answer {
    match op
    case OpEnqueue(_, _, _) => CountOf(told)
    case OpRequeue(_, _) => CountOf(told)
    case OpRetry(_) => CountOf(told)
    case OpPop(_, _, _) => QueueSpec.Popped(StampsOf(told))
    case OpRecover(_, _, _) => QueueSpec.Count(|told|)
    case OpExpire(_, _, _) => QueueSpec.Count(|told|)
    case OpAck(_, _, _) => QueueSpec.Flag(told == [YesNo(true)])
    case OpRemove(_, _) => QueueSpec.Flag(told == [YesNo(true)])
    case OpAbandon(_, _) => QueueSpec.Flag(told == [YesNo(true)])
    case _ => QueueSpec.Done
  }

  function CountOf(told: seq<Told>): QueueSpec.Answer {
    QueueSpec.Count(if told != [] && told[0].Number? then told[0].n else 0)
  }

  function StampsOf(told: seq<Told>): seq<(TaskId, nat)> {
    if told == [] then [] else (if told[0].Stamp? then [(told[0].id, told[0].gen)] else []) + StampsOf(told[1..])
  }

  lemma {:induction false} StampedGive(out: seq<Task>)
    ensures StampsOf(Stamped(out)) == Refinement.Stamps(out)
    decreases |out|
  {
    if out != [] {
      assert Stamped(out)[1..] == Stamped(out[1..]);
      StampedGive(out[1..]);
    }
  }

  // ---------------------------------------------------------------- single commands

  lemma ContinueReady(m: Machine, c: ClientId, head: Instr, rest: seq<Instr>, code: seq<Instr>, out: seq<Result>)
    requires c in m.clients && m.clients[c].code == [head] + rest && |out| <= 1
    ensures Ready(Continue(m, c, code, out), c, code + rest) && View(Continue(m, c, code, out)) == View(m)
    ensures Heard(Continue(m, c, code, out), c) == if out == [] then Heard(m, c) else Heard(m, c) + ToldBy(out[0])
  {
    assert ([head] + rest)[1..] == rest;
    if out != [] {
      assert out == [out[0]];
      TaleNext(m.clients[c].results, out[0]);
    }
  }

  /** A failed attempt of a compare-and-swap on a missing state. */
  lemma MissStep(cfg: Config, m: Machine, c: ClientId, id: TaskId, mu: Mutator, default: Option<FreshState>, tries: nat,
                 rest: seq<Instr>) returns (m': Machine)
    requires Trying(m, c, [Cas(id, mu, default, tries)] + rest) && id !in m.tasks && default.Some? && !mu.MRetry?
    ensures Leads(cfg, m, c, m') && View(m') == View(m)
    ensures tries > 1 ==> Trying(m', c, [Cas(id, mu, default, tries - 1)] + rest) && Heard(m', c) == Heard(m, c)
    ensures tries <= 1 ==> Ready(m', c, rest) && Heard(m', c) == Heard(m, c) + CasTold(m.tasks, id, mu)
  {
    hide Leads, Tale, Tick;
    var m1 := Tick(cfg, m, c);
    OneTick(cfg, m, c);
    m' := Tick(cfg, m1, c);
    OneTick(cfg, m1, c);
    LeadsOn(cfg, m, c, m1, m');
    MissRead(cfg, m, c, id, mu, default, tries, rest);
    MissScript(cfg, m1, c, id, mu, default, tries, rest);
  }

  lemma MissRead(cfg: Config, m: Machine, c: ClientId, id: TaskId, mu: Mutator, default: Option<FreshState>, tries: nat,
                 rest: seq<Instr>)
    requires Trying(m, c, [Cas(id, mu, default, tries)] + rest) && id !in m.tasks && default.Some?
    ensures var (m', cl) := (Tick(cfg, m, c), m.clients[c]);
      c in m'.clients && m'.clients[c].held.Some? && m'.clients[c].code == cl.code && m'.clients[c].results == cl.results
      && View(m') == View(m)
  {
    hide Tick;
    CasTick(cfg, m, c);
  }

  lemma MissScript(cfg: Config, m: Machine, c: ClientId, id: TaskId, mu: Mutator, default: Option<FreshState>, tries: nat,
                   rest: seq<Instr>)
    requires c in m.clients && m.clients[c].code == [Cas(id, mu, default, tries)] + rest && m.clients[c].held.Some?
    requires id !in m.tasks && !mu.MRetry?
    ensures var m' := Tick(cfg, m, c);
      View(m') == View(m)
      && (tries > 1 ==> Trying(m', c, [Cas(id, mu, default, tries - 1)] + rest) && Heard(m', c) == Heard(m, c))
      && (tries <= 1 ==> Ready(m', c, rest) && Heard(m', c) == Heard(m, c) + CasTold(m.tasks, id, mu))
  {
    hide Tick, Tale, Continue;
    CasTick(cfg, m, c);
    assert ([Cas(id, mu, default, tries)] + rest)[1..] == rest && [] + rest == rest;
    if tries <= 1 {
      ContinueReady(m, c, Cas(id, mu, default, tries), rest, [], [GaveUp(id, mu, m.clients[c].first)]);
    }
  }

  lemma {:induction false} SoloMiss(cfg: Config, m: Machine, c: ClientId, id: TaskId, mu: Mutator, default: Option<FreshState>,
                                    tries: nat, rest: seq<Instr>) returns (m': Machine)
    requires Trying(m, c, [Cas(id, mu, default, tries)] + rest) && id !in m.tasks && default.Some? && !mu.MRetry?
    ensures Leads(cfg, m, c, m') && View(m') == View(m) && Ready(m', c, rest)
    ensures Heard(m', c) == Heard(m, c) + CasTold(m.tasks, id, mu)
    decreases tries
  {
    hide Leads, Tick, Tale;
    m' := MissStep(cfg, m, c, id, mu, default, tries, rest);
    if tries > 1 {
      var m2 := SoloMiss(cfg, m', c, id, mu, default, tries - 1, rest);
      LeadsOn(cfg, m, c, m', m2);
      m' := m2;
    }
  }

  /** An uncontended compare-and-swap loop is one update. */
  lemma SoloCas(cfg: Config, m: Machine, c: ClientId, id: TaskId, mu: Mutator, default: Option<FreshState>, rest: seq<Instr>)
    returns (m': Machine)
    requires Ready(m, c, [Swap3(id, mu, default)] + rest)
    requires (mu.MRetry? ==> default.None?) && (mu.MDispatch? ==> default.Some?)
    ensures Leads(cfg, m, c, m') && Ready(m', c, rest) && View(m') == UpdateIn(View(m), id, mu)
    ensures Heard(m', c) == Heard(m, c) + CasTold(m.tasks, id, mu)
  {
    if id in m.tasks {
      m' := SwapOnce(cfg, m, c, id, mu, default, rest);
    } else if default.None? {
      m' := Tick(cfg, m, c);
      OneTick(cfg, m, c);
      ContinueReady(m, c, Swap3(id, mu, default), rest, [], [Missing(id, mu)]);
      assert [] + rest == rest;
    } else {
      m' := SoloMiss(cfg, m, c, id, mu, default, MAX_RETRIES, rest);
    }
  }

  lemma SwapOnce(cfg: Config, m: Machine, c: ClientId, id: TaskId, mu: Mutator, default: Option<FreshState>, rest: seq<Instr>)
    returns (m': Machine)
    requires Ready(m, c, [Swap3(id, mu, default)] + rest) && id in m.tasks
    ensures Leads(cfg, m, c, m') && Ready(m', c, rest) && View(m') == UpdateIn(View(m), id, mu)
    ensures Heard(m', c) == Heard(m, c) + CasTold(m.tasks, id, mu)
  {
    hide Leads, Tick, Tale, ToldBy, CasTold, Mutate, Swap;
    var first := First(m.tasks[id].retryCount + 1, |m.log|);
    var m1 := Tick(cfg, m, c);
    OneTick(cfg, m, c);
    SwapReadTick(cfg, m, c, id, mu, default, rest);
    m' := Tick(cfg, m1, c);
    OneTick(cfg, m1, c);
    SwapWriteTick(cfg, m1, c, id, mu, default, rest, first);
    LeadsOn(cfg, m, c, m1, m');
    SwapTold(m.clients[c].results, m.tasks, id, mu, |m.log|);
  }

  lemma SwapReadTick(cfg: Config, m: Machine, c: ClientId, id: TaskId, mu: Mutator, default: Option<FreshState>, rest: seq<Instr>)
    requires Ready(m, c, [Swap3(id, mu, default)] + rest) && id in m.tasks
    ensures var cl := m.clients[c];
      Tick(cfg, m, c) == m.(clients := m.clients[c := cl.(held := Some(Held(m.tasks[id], false, |m.log|)),
                                                         first := Some(First(m.tasks[id].retryCount + 1, |m.log|)))])
  {
    assert m.clients[c].code[0] == Swap3(id, mu, default);
  }

  lemma SwapWriteTick(cfg: Config, m: Machine, c: ClientId, id: TaskId, mu: Mutator, default: Option<FreshState>, rest: seq<Instr>,
                      first: First)
    requires c in m.clients && m.clients[c].code == [Swap3(id, mu, default)] + rest && id in m.tasks
    requires m.clients[c].held.Some? && m.clients[c].held.value.copy == m.tasks[id] && m.clients[c].first == Some(first)
    ensures var m' := Tick(cfg, m, c);
      Ready(m', c, rest) && View(m') == UpdateIn(View(m), id, mu)
      && m'.clients[c].results == m.clients[c].results + [Swapped(id, mu, Swap(mu, m.tasks[id]), Some(first))]
  {
    hide Swap;
    assert m.clients[c].code[0] == Swap3(id, mu, default);
    assert Tick(cfg, m, c) == TickSwap(m, c, id, mu, default, MAX_RETRIES);
    assert ([Swap3(id, mu, default)] + rest)[1..] == rest && [] + rest == rest;
  }

  lemma SwapTold(results: seq<Result>, tasks: map<TaskId, TaskState>, id: TaskId, mu: Mutator, at: nat)
    requires id in tasks
    ensures Tale(results + [Swapped(id, mu, Swap(mu, tasks[id]), Some(First(tasks[id].retryCount + 1, at)))])
      == Tale(results) + CasTold(tasks, id, mu)
  {
    hide Tale;
    TaleNext(results, Swapped(id, mu, Swap(mu, tasks[id]), Some(First(tasks[id].retryCount + 1, at))));
  }

  /** What a search of the processing list tells. */
  function TakeTold(found: bool, purpose: Purpose): seq<Told> {
    if purpose.ForRequeue? then [] else [YesNo(found && !purpose.ForRejectedAck?)]
  }

  /** Search and remove on the processing list, as ack, abandon and requeue do it. */
  lemma SoloTake(cfg: Config, m: Machine, c: ClientId, d: DeviceId, id: TaskId, purpose: Purpose, rest: seq<Instr>)
    returns (m': Machine)
    requires Ready(m, c, [Scan(d, id, purpose)] + rest)
    ensures Leads(cfg, m, c, m') && View(m') == TakeS(View(m), d, id).0
    ensures Heard(m', c) == Heard(m, c) + TakeTold(TakeS(View(m), d, id).1, purpose)
    ensures Ready(m', c, (if TakeS(View(m), d, id).1 then TakeCode(id, purpose) else []) + rest)
  {
    hide Leads, Tick, Tale, Continue;
    var found := FindId(At(m.processing, d), id);
    var m1 := Tick(cfg, m, c);
    OneTick(cfg, m, c);
    ScanTick(cfg, m, c, d, id, purpose, rest);
    if found.None? {
      ContinueReady(m, c, Scan(d, id, purpose), rest, [], NotFound(id, purpose));
      assert [] + rest == rest;
      m' := m1;
    } else {
      ContinueReady(m, c, Scan(d, id, purpose), rest, [Take(d, found.value, purpose)], []);
      m' := Tick(cfg, m1, c);
      OneTick(cfg, m1, c);
      LeadsOn(cfg, m, c, m1, m');
      TakeFound(cfg, m1, c, d, found.value, purpose, rest);
    }
  }

  lemma ScanTick(cfg: Config, m: Machine, c: ClientId, d: DeviceId, id: TaskId, purpose: Purpose, rest: seq<Instr>)
    requires Ready(m, c, [Scan(d, id, purpose)] + rest)
    ensures Tick(cfg, m, c) == TickScan(m, c, d, id, purpose)
  {
    assert m.clients[c].code[0] == Scan(d, id, purpose);
  }

  /** What the LREM of a search that found its entry goes on with, and answers. */
  function TakeCode(id: TaskId, purpose: Purpose): seq<Instr> {
    if purpose.ForAck? then [Swap3(id, MClearStarted, None)]
    else if purpose.ForAbandon? then [Swap3(id, MDeadLetter, None)] else []
  }

  function TakeOut(id: TaskId, purpose: Purpose): seq<Result> {
    match purpose
    case ForAck(gen, seen) => [AckReply(id, true, gen, seen)]
    case ForRejectedAck(gen, seen) => [AckReply(id, false, gen, seen)]
    case ForAbandon => [AbandonReply(id, true)]
    case ForRequeue => []
  }

  lemma TakeFound(cfg: Config, m: Machine, c: ClientId, d: DeviceId, item: Task, purpose: Purpose, rest: seq<Instr>)
    requires Ready(m, c, [Take(d, item, purpose)] + rest) && item in At(m.processing, d)
    ensures var m' := Tick(cfg, m, c);
      View(m') == View(m).(processing := m.processing[d := RemoveFirst(At(m.processing, d), item)])
      && Ready(m', c, TakeCode(item.id, purpose) + rest) && Heard(m', c) == Heard(m, c) + TakeTold(true, purpose)
  {
    hide Tale, Tick, RemoveFirst;
    TakeTick(cfg, m, c, d, item, purpose, rest);
    if !purpose.ForRequeue? { HeardNext(m, Tick(cfg, m, c), c, TakeOut(item.id, purpose)[0]); }
  }

  lemma TakeTick(cfg: Config, m: Machine, c: ClientId, d: DeviceId, item: Task, purpose: Purpose, rest: seq<Instr>)
    requires Ready(m, c, [Take(d, item, purpose)] + rest) && item in At(m.processing, d)
    ensures var m' := Tick(cfg, m, c);
      View(m') == View(m).(processing := m.processing[d := RemoveFirst(At(m.processing, d), item)])
      && Ready(m', c, TakeCode(item.id, purpose) + rest)
      && m'.clients[c].results == if purpose.ForRequeue? then m.clients[c].results
                                  else m.clients[c].results + TakeOut(item.id, purpose)
  {
    assert m.clients[c].code[0] == Take(d, item, purpose);
    assert ([Take(d, item, purpose)] + rest)[1..] == rest;
    assert Tick(cfg, m, c) == TickPurpose(m, c, d, item, purpose);
  }

  // ---------------------------------------------------------------- operations without loops

  lemma AckReadTick(cfg: Config, m: Machine, c: ClientId, d: DeviceId, id: TaskId, gen: Option<nat>)
    requires Ready(m, c, [AckRead(d, id, gen)])
    ensures var (v, m1) := (Judge(Lookup(m, id), gen, cfg.strict), Tick(cfg, m, c));
      View(m1) == View(m)
      && Ready(m1, c, if v.Reject? then [] else [Scan(d, id, AckPurpose(v, gen, |m.log|))] + [])
      && Heard(m1, c) == if v.Reject? then Heard(m, c) + [YesNo(false)] else Heard(m, c)
  {
    hide Judge, Tale, Continue;
    assert [AckRead(d, id, gen)] == [AckRead(d, id, gen)] + [];
    assert Tick(cfg, m, c) == TickAckRead(cfg, m, c, d, id, gen);
    var v := Judge(Lookup(m, id), gen, cfg.strict);
    if v.Reject? {
      ContinueReady(m, c, AckRead(d, id, gen), [], [], [AckReply(id, false, gen, |m.log|)]);
    } else {
      ContinueReady(m, c, AckRead(d, id, gen), [], [Scan(d, id, AckPurpose(v, gen, |m.log|))], []);
    }
  }

  lemma SoloAck(cfg: Config, m: Machine, c: ClientId, d: DeviceId, id: TaskId, gen: Option<nat>) returns (m': Machine)
    requires Ready(m, c, [AckRead(d, id, gen)])
    ensures Leads(cfg, m, c, m') && Ready(m', c, []) && View(m') == AckS(cfg, View(m), d, id, gen).0
    ensures Heard(m', c) == Heard(m, c) + [YesNo(AckS(cfg, View(m), d, id, gen).1)]
  {
    hide Leads, Tick, Judge, TakeS, Tale;
    var v := Judge(Lookup(m, id), gen, cfg.strict);
    m' := Tick(cfg, m, c);
    OneTick(cfg, m, c);
    AckReadTick(cfg, m, c, d, id, gen);
    if !v.Reject? {
      var m1 := SoloTake(cfg, m', c, d, id, AckPurpose(v, gen, |m.log|), []);
      LeadsOn(cfg, m, c, m', m1);
      m' := m1;
      if TakeS(View(m), d, id).1 && v.Proceed? {
        var m2 := SoloCas(cfg, m', c, id, MClearStarted, None, []);
        LeadsOn(cfg, m, c, m', m2);
        m' := m2;
      }
    }
  }

  lemma SoloAbandon(cfg: Config, m: Machine, c: ClientId, d: DeviceId, id: TaskId) returns (m': Machine)
    requires Ready(m, c, [Scan(d, id, ForAbandon)])
    ensures Leads(cfg, m, c, m') && Ready(m', c, []) && View(m') == AbandonS(View(m), d, id).0
    ensures Heard(m', c) == Heard(m, c) + [YesNo(AbandonS(View(m), d, id).1)]
  {
    hide Leads, Tick, Tale;
    assert [Scan(d, id, ForAbandon)] == [Scan(d, id, ForAbandon)] + [];
    m' := SoloTake(cfg, m, c, d, id, ForAbandon, []);
    if TakeS(View(m), d, id).1 {
      var m2 := SoloCas(cfg, m', c, id, MDeadLetter, None, []);
      LeadsOn(cfg, m, c, m', m2);
      m' := m2;
    }
  }

  lemma RemoveTakeTick(cfg: Config, m: Machine, c: ClientId, d: DeviceId, item: Task)
    requires Ready(m, c, [RemoveTake(d, item)] + []) && item in At(m.pending, d)
    ensures Ready(Tick(cfg, m, c), c, [])
    ensures View(Tick(cfg, m, c)) == View(m).(pending := m.pending[d := RemoveFirst(At(m.pending, d), item)])
    ensures Heard(Tick(cfg, m, c), c) == Heard(m, c) + [YesNo(true)]
  {
    hide Tale;
    RemoveTakeIs(cfg, m, c, d, item);
    HeardNext(m, Tick(cfg, m, c), c, RemoveReply(item.id, true));
  }

  lemma RemoveTakeIs(cfg: Config, m: Machine, c: ClientId, d: DeviceId, item: Task)
    requires Ready(m, c, [RemoveTake(d, item)] + []) && item in At(m.pending, d)
    ensures Ready(Tick(cfg, m, c), c, [])
    ensures View(Tick(cfg, m, c)) == View(m).(pending := m.pending[d := RemoveFirst(At(m.pending, d), item)])
    ensures Tick(cfg, m, c).clients[c].results == m.clients[c].results + [RemoveReply(item.id, true)]
  {
    assert ([RemoveTake(d, item)] + [])[1..] == [];
  }

  lemma RemoveScanTick(cfg: Config, m: Machine, c: ClientId, d: DeviceId, id: TaskId)
    requires Ready(m, c, [RemoveScan(d, id)])
    ensures Tick(cfg, m, c) == TickRemoveScan(m, c, d, id)
  {
  }

  lemma SoloRemove(cfg: Config, m: Machine, c: ClientId, d: DeviceId, id: TaskId) returns (m': Machine)
    requires Ready(m, c, [RemoveScan(d, id)])
    ensures Leads(cfg, m, c, m') && Ready(m', c, []) && View(m') == RemoveS(View(m), d, id).0
    ensures Heard(m', c) == Heard(m, c) + [YesNo(RemoveS(View(m), d, id).1)]
  {
    hide Leads, Tick, Tale, Continue;
    var found := FindId(At(m.pending, d), id);
    m' := Tick(cfg, m, c);
    OneTick(cfg, m, c);
    assert [RemoveScan(d, id)] == [RemoveScan(d, id)] + [];
    RemoveScanTick(cfg, m, c, d, id);
    if found.None? {
      ContinueReady(m, c, RemoveScan(d, id), [], [], [RemoveReply(id, false)]);
    } else {
      ContinueReady(m, c, RemoveScan(d, id), [], [RemoveTake(d, found.value)], []);
      var m1 := Tick(cfg, m', c);
      OneTick(cfg, m', c);
      RemoveTakeTick(cfg, m', c, d, found.value);
      LeadsOn(cfg, m, c, m', m1);
      m' := m1;
    }
  }

  lemma SoloEnqueue(cfg: Config, m: Machine, c: ClientId, d: DeviceId, t: Task, now: real) returns (m': Machine)
    requires Ready(m, c, Code(cfg, OpEnqueue(d, t, now)))
    ensures Leads(cfg, m, c, m') && Ready(m', c, []) && View(m') == EnqueueS(View(m), d, t, now)
    ensures Heard(m', c) == Heard(m, c) + [Number(|At(View(m').pending, d)|)]
  {
    hide Leads, Tick, Tale;
    var t1 := t.(enqueuedAt := now);
    var swap := Swap3(t1.id, MEnqueue(t1), Some(Fresh(Some(t1), Created, [])));
    assert [PushNew(d, t1), swap] == [PushNew(d, t1)] + ([swap] + []);
    var m1 := Tick(cfg, m, c);
    OneTick(cfg, m, c);
    SoloPushNew(cfg, m, c, d, t1, [swap] + []);
    m' := SoloCas(cfg, m1, c, t1.id, MEnqueue(t1), Some(Fresh(Some(t1), Created, [])), []);
    LeadsOn(cfg, m, c, m1, m');
  }

  lemma SoloPushNew(cfg: Config, m: Machine, c: ClientId, d: DeviceId, t: Task, rest: seq<Instr>)
    requires Ready(m, c, [PushNew(d, t)] + rest)
    ensures var m' := Tick(cfg, m, c);
      Ready(m', c, rest) && View(m') == View(m).(pending := m.pending[d := At(m.pending, d) + [t]])
      && Heard(m', c) == Heard(m, c) + [Number(|At(m.pending, d)| + 1)]
  {
    hide Tale, Continue;
    assert m.clients[c].code[0] == PushNew(d, t) && [] + rest == rest;
    assert Tick(cfg, m, c) == TickPushNew(m, c, d, t);
    ContinueReady(m, c, PushNew(d, t), rest, [], [Depth(|At(m.pending, d)| + 1)]);
  }

  lemma SoloRecord(cfg: Config, m: Machine, c: ClientId, id: TaskId, e: Event) returns (m': Machine)
    requires Ready(m, c, [Append(id, e)])
    ensures Leads(cfg, m, c, m') && Ready(m', c, []) && View(m') == RecordS(View(m), id, e)
    ensures Heard(m', c) == Heard(m, c)
  {
    m' := Tick(cfg, m, c);
    OneTick(cfg, m, c);
    AppendTick(cfg, m, c, id, e);
    hide Leads, Tick, Tale;
    if id !in m.tasks {
      var m2 := Tick(cfg, m', c);
      OneTick(cfg, m', c);
      StubTick(cfg, m', c, id, e);
      LeadsOn(cfg, m, c, m', m2);
      m' := m2;
    }
  }

  lemma AppendTick(cfg: Config, m: Machine, c: ClientId, id: TaskId, e: Event)
    requires Ready(m, c, [Append(id, e)])
    ensures id in m.tasks ==> Ready(Tick(cfg, m, c), c, []) && View(Tick(cfg, m, c)) == RecordS(View(m), id, e)
    ensures id !in m.tasks ==> Ready(Tick(cfg, m, c), c, [Stub(id, e)]) && View(Tick(cfg, m, c)) == View(m)
    ensures Heard(Tick(cfg, m, c), c) == Heard(m, c)
  {
    assert [Append(id, e)][1..] == [];
  }

  lemma StubTick(cfg: Config, m: Machine, c: ClientId, id: TaskId, e: Event)
    requires Ready(m, c, [Stub(id, e)]) && id !in m.tasks
    ensures Ready(Tick(cfg, m, c), c, []) && View(Tick(cfg, m, c)) == RecordS(View(m), id, e)
    ensures Heard(Tick(cfg, m, c), c) == Heard(m, c)
  {
    assert [Stub(id, e)][1..] == [];
  }

  // ---------------------------------------------------------------- expiry and recovery

  lemma SoloExpireOne(cfg: Config, m: Machine, c: ClientId, d: DeviceId, item: Task, maxAge: real, now: real, rest: seq<Instr>)
    returns (m': Machine)
    requires Ready(m, c, [ExpireTake(d, item)] + rest) && Stale(item.enqueuedAt, now, maxAge)
    ensures Leads(cfg, m, c, m') && Ready(m', c, rest) && View(m') == ExpireOneS(View(m), d, item, maxAge, now).0
    ensures Heard(m', c) == Heard(m, c) + Ones(ExpireOneS(View(m), d, item, maxAge, now).1)
  {
    hide Leads, Tick, Stale, Tale;
    var m1 := Tick(cfg, m, c);
    OneTick(cfg, m, c);
    ExpireTick(cfg, m, c, d, item, rest);
    if item in At(m.pending, d) {
      HeardNext(m, m1, c, AgedOut(item.id));
      m' := SoloCas(cfg, m1, c, item.id, MExpire, None, rest);
      LeadsOn(cfg, m, c, m1, m');
    } else {
      m' := m1;
    }
  }

  lemma ExpireTick(cfg: Config, m: Machine, c: ClientId, d: DeviceId, item: Task, rest: seq<Instr>)
    requires Ready(m, c, [ExpireTake(d, item)] + rest)
    ensures var m' := Tick(cfg, m, c);
      if item in At(m.pending, d) then
        Ready(m', c, [Swap3(item.id, MExpire, None)] + rest)
        && View(m') == View(m).(pending := m.pending[d := RemoveFirst(At(m.pending, d), item)])
        && m'.clients[c].results == m.clients[c].results + [AgedOut(item.id)]
      else Ready(m', c, rest) && View(m') == View(m) && Heard(m', c) == Heard(m, c)
  {
    hide Tale;
    assert m.clients[c].code[0] == ExpireTake(d, item);
    assert ([ExpireTake(d, item)] + rest)[1..] == rest && [] + rest == rest;
  }

  lemma {:induction false} SoloExpireItems(cfg: Config, m: Machine, c: ClientId, d: DeviceId, items: seq<Task>, maxAge: real,
                                           now: real) returns (m': Machine)
    requires Ready(m, c, ExpireCode(d, items, maxAge, now))
    ensures Leads(cfg, m, c, m') && Ready(m', c, []) && View(m') == ExpireItemsS(View(m), d, items, maxAge, now).0
    ensures Heard(m', c) == Heard(m, c) + Ones(ExpireItemsS(View(m), d, items, maxAge, now).1)
    decreases |items|
  {
    hide Leads, Tick, Stale, Tale;
    m' := m;
    if items == [] {
      Stays(cfg, m, c);
    } else {
      Stays(cfg, m, c);
      var rest := ExpireCode(d, items[1..], maxAge, now);
      assert [] + rest == rest;
      var m1 := m;
      if Stale(items[0].enqueuedAt, now, maxAge) { m1 := SoloExpireOne(cfg, m, c, d, items[0], maxAge, now, rest); }
      m' := SoloExpireItems(cfg, m1, c, d, items[1..], maxAge, now);
      LeadsOn(cfg, m, c, m1, m');
    }
  }

  lemma SoloExpire(cfg: Config, m: Machine, c: ClientId, d: DeviceId, maxAge: real, now: real) returns (m': Machine)
    requires Ready(m, c, [ExpireScan(d, maxAge, now)])
    ensures Leads(cfg, m, c, m') && Ready(m', c, []) && View(m') == ExpireS(View(m), d, maxAge, now).0
    ensures Heard(m', c) == Heard(m, c) + Ones(ExpireS(View(m), d, maxAge, now).1)
  {
    var code := ExpireCode(d, At(m.pending, d), maxAge, now);
    var m1 := Tick(cfg, m, c);
    OneTick(cfg, m, c);
    assert m1 == Continue(m, c, code, []);
    hide Leads, Tick, Tale, Continue, ExpireCode;
    assert [ExpireScan(d, maxAge, now)] == [ExpireScan(d, maxAge, now)] + [] && code + [] == code;
    ContinueReady(m, c, ExpireScan(d, maxAge, now), [], code, []);
    m' := SoloExpireItems(cfg, m1, c, d, At(m.pending, d), maxAge, now);
    LeadsOn(cfg, m, c, m1, m');
  }

  lemma RecoverMoveTick(cfg: Config, m: Machine, c: ClientId, d: DeviceId, item: Task, now: real, known: bool, rest: seq<Instr>)
    requires Ready(m, c, [RecoverMove(d, item, now, known)] + rest)
    ensures var (there, m1) := (item in At(m.processing, d), Tick(cfg, m, c));
      Ready(m1, c, (if there && known then [Swap3(item.id, MRecover(now), None)] else []) + rest)
      && View(m1) == (if there then View(m).(processing := m.processing[d := RemoveAll(At(m.processing, d), item)],
                                             pending := m.pending[d := [item] + At(m.pending, d)]) else View(m))
      && Heard(m1, c) == if there then Heard(m, c) + [One] else Heard(m, c)
  {
    hide Tick, Tale, Continue, RemoveAll;
    RecoverTick(cfg, m, c);
    var head := RecoverMove(d, item, now, known);
    if item in At(m.processing, d) {
      ContinueReady(m, c, head, rest, if known then [Swap3(item.id, MRecover(now), None)] else [], [MovedBack(item.id)]);
    } else {
      ContinueReady(m, c, head, rest, [], []);
    }
  }

  lemma SoloRecoverMove(cfg: Config, m: Machine, c: ClientId, d: DeviceId, item: Task, timeout: real, now: real, rest: seq<Instr>)
    returns (m': Machine)
    requires Ready(m, c, [RecoverMove(d, item, now, Lookup(m, item.id).Some?)] + rest)
    requires Stale(StartOf(item, Lookup(m, item.id)), now, timeout)
    ensures Leads(cfg, m, c, m') && Ready(m', c, rest) && View(m') == RecoverOneS(View(m), d, item, timeout, now).0
    ensures Heard(m', c) == Heard(m, c) + Ones(RecoverOneS(View(m), d, item, timeout, now).1)
  {
    hide Stale, StartOf, Tick, Leads, Tale;
    var known := Lookup(m, item.id).Some?;
    m' := Tick(cfg, m, c);
    OneTick(cfg, m, c);
    RecoverMoveTick(cfg, m, c, d, item, now, known, rest);
    assert [] + rest == rest;
    if item in At(m.processing, d) && known {
      var m1 := SoloCas(cfg, m', c, item.id, MRecover(now), None, rest);
      LeadsOn(cfg, m, c, m', m1);
      m' := m1;
    }
  }

  lemma RecoverReadTick(cfg: Config, m: Machine, c: ClientId, d: DeviceId, t: Task, timeout: real, now: real, rest: seq<Instr>)
    requires Ready(m, c, [RecoverRead(d, t, timeout, now)] + rest)
    ensures var due := Stale(StartOf(t, Lookup(m, t.id)), now, timeout);
      Tick(cfg, m, c) == Continue(m, c, if due then [RecoverMove(d, t, now, Lookup(m, t.id).Some?)] else [], [])
  {
    hide Stale, StartOf;
    assert m.clients[c].code[0] == RecoverRead(d, t, timeout, now);
  }

  lemma {:induction false} SoloRecoverItems(cfg: Config, m: Machine, c: ClientId, d: DeviceId, items: seq<Task>, timeout: real,
                                            now: real) returns (m': Machine)
    requires Ready(m, c, RecoverCode(d, items, timeout, now))
    ensures Leads(cfg, m, c, m') && Ready(m', c, []) && View(m') == RecoverItemsS(View(m), d, items, timeout, now).0
    ensures Heard(m', c) == Heard(m, c) + Ones(RecoverItemsS(View(m), d, items, timeout, now).1)
    decreases |items|
  {
    hide Leads, Tick, RecoverOneS, RecoverCode, Tale;
    Stays(cfg, m, c);
    m' := m;
    RecoverCodeIs(d, items, timeout, now);
    if items != [] {
      var m1 := SoloRecoverItem(cfg, m, c, d, items[0], timeout, now, RecoverCode(d, items[1..], timeout, now));
      m' := SoloRecoverItems(cfg, m1, c, d, items[1..], timeout, now);
      LeadsOn(cfg, m, c, m1, m');
    }
  }

  lemma RecoverCodeIs(d: DeviceId, items: seq<Task>, timeout: real, now: real)
    ensures RecoverCode(d, items, timeout, now)
         == if items == [] then [] else [RecoverRead(d, items[0], timeout, now)] + RecoverCode(d, items[1..], timeout, now)
  {
  }

  lemma SoloRecoverItem(cfg: Config, m: Machine, c: ClientId, d: DeviceId, t: Task, timeout: real, now: real, rest: seq<Instr>)
    returns (m': Machine)
    requires Ready(m, c, [RecoverRead(d, t, timeout, now)] + rest)
    ensures Leads(cfg, m, c, m') && Ready(m', c, rest) && View(m') == RecoverOneS(View(m), d, t, timeout, now).0
    ensures Heard(m', c) == Heard(m, c) + Ones(RecoverOneS(View(m), d, t, timeout, now).1)
  {
    hide Leads, Tick, Stale, StartOf, Tale, Continue;
    var due := Stale(StartOf(t, Lookup(m, t.id)), now, timeout);
    var code := if due then [RecoverMove(d, t, now, Lookup(m, t.id).Some?)] else [];
    var m1 := Tick(cfg, m, c);
    OneTick(cfg, m, c);
    RecoverReadTick(cfg, m, c, d, t, timeout, now, rest);
    ContinueReady(m, c, RecoverRead(d, t, timeout, now), rest, code, []);
    assert [] + rest == rest;
    if due {
      m' := SoloRecoverMove(cfg, m1, c, d, t, timeout, now, rest);
      LeadsOn(cfg, m, c, m1, m');
    } else {
      m' := m1;
    }
  }

  lemma SoloRecover(cfg: Config, m: Machine, c: ClientId, d: DeviceId, timeout: real, now: real) returns (m': Machine)
    requires Ready(m, c, [RecoverScan(d, timeout, now)])
    ensures Leads(cfg, m, c, m') && Ready(m', c, []) && View(m') == RecoverS(View(m), d, timeout, now).0
    ensures Heard(m', c) == Heard(m, c) + Ones(RecoverS(View(m), d, timeout, now).1)
  {
    var code := RecoverCode(d, At(m.processing, d), timeout, now);
    var m1 := Tick(cfg, m, c);
    OneTick(cfg, m, c);
    assert [RecoverScan(d, timeout, now)] == [RecoverScan(d, timeout, now)] + [] && code + [] == code;
    ContinueReady(m, c, RecoverScan(d, timeout, now), [], code, []);
    m' := SoloRecoverItems(cfg, m1, c, d, At(m.processing, d), timeout, now);
    LeadsOn(cfg, m, c, m1, m');
  }

  // ---------------------------------------------------------------- pop

  /** One LMOVE, or the end of the moves on an empty list. */
  lemma OneMove(cfg: Config, m: Machine, c: ClientId, d: DeviceId, left: nat, got: seq<Task>, now: real)
    requires Ready(m, c, [MoveOne(d, left, got, now)])
    ensures var (m', list) := (Tick(cfg, m, c), At(m.pending, d));
      Heard(m', c) == Heard(m, c)
      && if list == [] then Ready(m', c, AfterMoves(cfg, d, got, now)) && View(m') == View(m)
         else Ready(m', c, if left <= 1 then AfterMoves(cfg, d, got + [list[0]], now)
                           else [MoveOne(d, left - 1, got + [list[0]], now)])
              && View(m') == View(m).(pending := m.pending[d := list[1..]],
                                      processing := m.processing[d := [list[0]] + At(m.processing, d)])
  {
    hide AfterMoves, Tale;
    assert m.clients[c].code[0] == MoveOne(d, left, got, now) && m.clients[c].code[1..] == [];
    assert Tick(cfg, m, c) == TickMove(cfg, m, c, d, left, got, now);
    var list := At(m.pending, d);
    assert AfterMoves(cfg, d, got, now) + [] == AfterMoves(cfg, d, got, now);
    if list != [] {
      var more := got + [list[0]];
      assert AfterMoves(cfg, d, more, now) + [] == AfterMoves(cfg, d, more, now);
      if left > 1 { assert [MoveOne(d, left - 1, more, now)] + [] == [MoveOne(d, left - 1, more, now)]; }
    }
  }

  /** The moves of a pop, and what they leave to do. */
  lemma {:induction false} SoloMoves(cfg: Config, m: Machine, c: ClientId, d: DeviceId, left: nat, got: seq<Task>, now: real)
    returns (m': Machine)
    requires Ready(m, c, [MoveOne(d, left, got, now)]) && left > 0
    ensures var (s, raw) := MoveS(View(m), d, left);
      Leads(cfg, m, c, m') && Ready(m', c, AfterMoves(cfg, d, got + raw, now)) && View(m') == s && Heard(m', c) == Heard(m, c)
    decreases left
  {
    hide Leads, Tick, AfterMoves, Tale;
    var m1 := Tick(cfg, m, c);
    OneTick(cfg, m, c);
    OneMove(cfg, m, c, d, left, got, now);
    m' := m1;
    if At(m.pending, d) == [] {
      assert got + [] == got;
    } else {
      var t := At(m.pending, d)[0];
      if left == 1 {
        assert got + ([t] + []) == got + [t];
        assert MoveS(View(m1), d, 0) == (View(m1), []);
      } else {
        var m2 := SoloMoves(cfg, m1, c, d, left - 1, got + [t], now);
        LeadsOn(cfg, m, c, m1, m2);
        var raw := MoveS(View(m1), d, left - 1).1;
        assert got + [t] + raw == got + ([t] + raw);
        m' := m2;
      }
    }
  }

  lemma SoloDrop(cfg: Config, m: Machine, c: ClientId, d: DeviceId, t: Task, rest: seq<Instr>) returns (m': Machine)
    requires Ready(m, c, [GateDrop(d, t), Swap3(t.id, MGateFailed, None)] + rest) && d in m.processing
    ensures Leads(cfg, m, c, m') && Ready(m', c, rest) && View(m') == DropS(View(m), d, t) && d in m'.processing
    ensures Heard(m', c) == Heard(m, c)
  {
    hide Leads, Tick, Tale;
    var swap := Swap3(t.id, MGateFailed, None);
    assert [GateDrop(d, t), swap] + rest == [GateDrop(d, t)] + ([swap] + rest);
    var m1 := Tick(cfg, m, c);
    OneTick(cfg, m, c);
    DropTick(cfg, m, c, d, t, [swap] + rest);
    m' := SoloCas(cfg, m1, c, t.id, MGateFailed, None, rest);
    LeadsOn(cfg, m, c, m1, m');
  }

  lemma DropTick(cfg: Config, m: Machine, c: ClientId, d: DeviceId, t: Task, rest: seq<Instr>)
    requires Ready(m, c, [GateDrop(d, t)] + rest) && d in m.processing
    ensures var m' := Tick(cfg, m, c);
      Ready(m', c, rest) && View(m') == View(m).(processing := m.processing[d := RemoveFirst(At(m.processing, d), t)])
      && Heard(m', c) == Heard(m, c)
  {
    hide Tale, Continue;
    assert m.clients[c].code[0] == GateDrop(d, t) && [] + rest == rest;
    assert Tick(cfg, m, c) == TickTake(m, c, Working(d), t, ByGate, [], []);
    ContinueReady(m, c, GateDrop(d, t), rest, [], []);
    if t !in At(m.processing, d) {
      RemoveNothing(At(m.processing, d), t);
      assert m.processing[d := At(m.processing, d)] == m.processing;
    }
  }

  lemma {:induction false} RemoveNothing(s: seq<Task>, t: Task)
    requires t !in s
    ensures RemoveFirst(s, t) == s
  {
    if s != [] {
      RemoveNothing(s[1..], t);
      assert s == [s[0]] + s[1..];
    }
  }

  lemma {:induction false} SoloGate(cfg: Config, m: Machine, c: ClientId, d: DeviceId, raw: seq<Task>, rest: seq<Instr>)
    returns (m': Machine)
    requires Ready(m, c, GateCode(cfg, d, raw) + rest) && (raw != [] ==> d in m.processing)
    ensures Leads(cfg, m, c, m') && Ready(m', c, rest) && View(m') == GateS(cfg, View(m), d, raw).0
    ensures Heard(m', c) == Heard(m, c)
    decreases |raw|
  {
    hide Leads, Tick, Tale;
    Stays(cfg, m, c);
    m' := m;
    assert [] + rest == rest;
    if raw != [] {
      var later := GateCode(cfg, d, raw[1..]) + rest;
      var m1 := m;
      if !cfg.gate(raw[0]) {
        assert GateCode(cfg, d, raw) + rest == [GateDrop(d, raw[0]), Swap3(raw[0].id, MGateFailed, None)] + later;
        m1 := SoloDrop(cfg, m, c, d, raw[0], later);
      } else {
        assert GateCode(cfg, d, raw) + rest == later;
      }
      m' := SoloGate(cfg, m1, c, d, raw[1..], rest);
      LeadsOn(cfg, m, c, m1, m');
    }
  }

  /** The tasks that the gate lets through. */
  function Accepted(cfg: Config, raw: seq<Task>): seq<Task> {
    if raw == [] then [] else (if cfg.gate(raw[0]) then [raw[0]] else []) + Accepted(cfg, raw[1..])
  }

  lemma {:induction false} GateKeeps(cfg: Config, s: Store, d: DeviceId, raw: seq<Task>)
    ensures GateS(cfg, s, d, raw).1 == Accepted(cfg, raw)
    decreases |raw|
  {
    if raw != [] {
      GateKeeps(cfg, s, d, raw[1..]);
      if !cfg.gate(raw[0]) { GateKeeps(cfg, DropS(s, d, raw[0]), d, raw[1..]); }
    }
  }

  lemma {:induction false} SoloDispatch(cfg: Config, m: Machine, c: ClientId, raw: seq<Task>, now: real) returns (m': Machine)
    requires Ready(m, c, DispatchCode(cfg, raw, now))
    ensures Leads(cfg, m, c, m') && Ready(m', c, []) && View(m') == DispatchS(View(m), Accepted(cfg, raw), now).0
    ensures Heard(m', c) == Heard(m, c) + Stamped(DispatchS(View(m), Accepted(cfg, raw), now).1)
    decreases |raw|
  {
    hide Leads, Tick, Tale;
    Stays(cfg, m, c);
    m' := m;
    if raw != [] {
      var t, rest := raw[0], DispatchCode(cfg, raw[1..], now);
      var m1 := m;
      if cfg.gate(t) {
        m1 := SoloCas(cfg, m, c, t.id, MDispatch(t, now), Some(Fresh(Some(t), Queued, [])), rest);
        assert Accepted(cfg, raw)[1..] == Accepted(cfg, raw[1..]);
      } else {
        assert [] + rest == rest && [] + Accepted(cfg, raw[1..]) == Accepted(cfg, raw[1..]);
      }
      m' := SoloDispatch(cfg, m1, c, raw[1..], now);
      LeadsOn(cfg, m, c, m1, m');
    }
  }

  lemma {:induction false} MovedKey(s: Store, d: DeviceId, n: nat)
    ensures MoveS(s, d, n).1 != [] ==> d in MoveS(s, d, n).0.processing
    ensures d in s.processing ==> d in MoveS(s, d, n).0.processing
    decreases n
  {
    var list := At(s.pending, d);
    if n > 0 && list != [] {
      MovedKey(s.(pending := s.pending[d := list[1..]], processing := s.processing[d := [list[0]] + At(s.processing, d)]),
               d, n - 1);
    }
  }

  lemma SoloPop(cfg: Config, m: Machine, c: ClientId, d: DeviceId, limit: nat, now: real) returns (m': Machine)
    requires Ready(m, c, Code(cfg, OpPop(d, limit, now)))
    ensures Leads(cfg, m, c, m') && Ready(m', c, []) && View(m') == PopS(cfg, View(m), d, limit, now).0
    ensures Heard(m', c) == Heard(m, c) + Stamped(PopS(cfg, View(m), d, limit, now).1)
  {
    hide Leads, Tick, Tale;
    if limit == 0 {
      Stays(cfg, m, c);
      m' := m;
    } else {
      var (s, raw) := MoveS(View(m), d, limit);
      var m1 := SoloMoves(cfg, m, c, d, limit, [], now);
      assert [] + raw == raw;
      MovedKey(View(m), d, limit);
      var m2 := SoloGate(cfg, m1, c, d, raw, DispatchCode(cfg, raw, now));
      LeadsOn(cfg, m, c, m1, m2);
      GateKeeps(cfg, s, d, raw);
      m' := SoloDispatch(cfg, m2, c, raw, now);
      LeadsOn(cfg, m, c, m2, m');
    }
  }

  // ---------------------------------------------------------------- requeue

  function Scans(d: DeviceId, ts: seq<Task>): seq<Instr> {
    if ts == [] then [] else [Scan(d, ts[0].id, ForRequeue)] + Scans(d, ts[1..])
  }

  function Marks(ts: seq<Task>): seq<Instr> {
    if ts == [] then [] else [Swap3(ts[0].id, MRequeue(ts[0]), Some(Fresh(Some(ts[0]), Created, [])))] + Marks(ts[1..])
  }

  lemma {:induction false} ScansAre(d: DeviceId, ts: seq<Task>)
    ensures Scans(d, ts) == seq(|ts|, i requires 0 <= i < |ts| => Scan(d, ts[i].id, ForRequeue))
  {
    if ts != [] { ScansAre(d, ts[1..]); }
  }

  lemma {:induction false} MarksAre(ts: seq<Task>)
    ensures Marks(ts) == seq(|ts|, i requires 0 <= i < |ts| =>
      Swap3(ts[i].id, MRequeue(ts[i]), Some(Fresh(Some(ts[i]), Created, []))))
  {
    if ts != [] { MarksAre(ts[1..]); }
  }

  lemma RequeueCode(cfg: Config, d: DeviceId, ts: seq<Task>)
    requires ts != []
    ensures Code(cfg, OpRequeue(d, ts)) == Scans(d, ts) + ([PushBack(d, ts)] + Marks(ts))
  {
    ScansAre(d, ts);
    MarksAre(ts);
    hide Scans, Marks;
    assert Scans(d, ts) + [PushBack(d, ts)] + Marks(ts) == Scans(d, ts) + ([PushBack(d, ts)] + Marks(ts));
  }

  lemma {:induction false} SoloScans(cfg: Config, m: Machine, c: ClientId, d: DeviceId, ts: seq<Task>, rest: seq<Instr>)
    returns (m': Machine)
    requires Ready(m, c, Scans(d, ts) + rest)
    ensures Leads(cfg, m, c, m') && Ready(m', c, rest) && View(m') == TakeAllS(View(m), d, ts)
    ensures Heard(m', c) == Heard(m, c)
    decreases |ts|
  {
    hide Leads, Tick, Tale;
    Stays(cfg, m, c);
    m' := m;
    assert [] + rest == rest;
    if ts != [] {
      var later := Scans(d, ts[1..]) + rest;
      assert Scans(d, ts) + rest == [Scan(d, ts[0].id, ForRequeue)] + later;
      var m1 := SoloTake(cfg, m, c, d, ts[0].id, ForRequeue, later);
      assert [] + later == later;
      m' := SoloScans(cfg, m1, c, d, ts[1..], rest);
      LeadsOn(cfg, m, c, m1, m');
    }
  }

  lemma {:induction false} SoloMarks(cfg: Config, m: Machine, c: ClientId, ts: seq<Task>) returns (m': Machine)
    requires Ready(m, c, Marks(ts))
    ensures Leads(cfg, m, c, m') && Ready(m', c, []) && View(m') == MarkRequeuedS(View(m), ts)
    ensures Heard(m', c) == Heard(m, c)
    decreases |ts|
  {
    hide Leads, Tick, Tale;
    Stays(cfg, m, c);
    m' := m;
    if ts != [] {
      var m1 := SoloCas(cfg, m, c, ts[0].id, MRequeue(ts[0]), Some(Fresh(Some(ts[0]), Created, [])), Marks(ts[1..]));
      m' := SoloMarks(cfg, m1, c, ts[1..]);
      LeadsOn(cfg, m, c, m1, m');
    }
  }

  lemma SoloPushBack(cfg: Config, m: Machine, c: ClientId, d: DeviceId, ts: seq<Task>, rest: seq<Instr>)
    requires Ready(m, c, [PushBack(d, ts)] + rest)
    ensures var m' := Tick(cfg, m, c);
      Ready(m', c, rest) && View(m') == View(m).(pending := m.pending[d := ts + At(m.pending, d)])
      && Heard(m', c) == Heard(m, c) + [Number(|ts + At(m.pending, d)|)]
  {
    hide Tale;
    PushBackTick(cfg, m, c, d, ts, rest);
    HeardNext(m, Tick(cfg, m, c), c, Depth(|ts + At(m.pending, d)|));
  }

  lemma PushBackTick(cfg: Config, m: Machine, c: ClientId, d: DeviceId, ts: seq<Task>, rest: seq<Instr>)
    requires Ready(m, c, [PushBack(d, ts)] + rest)
    ensures var m' := Tick(cfg, m, c);
      Ready(m', c, rest) && View(m') == View(m).(pending := m.pending[d := ts + At(m.pending, d)])
      && m'.clients[c].results == m.clients[c].results + [Depth(|ts + At(m.pending, d)|)]
  {
    assert m.clients[c].code[0] == PushBack(d, ts);
    assert ([PushBack(d, ts)] + rest)[1..] == rest && [] + rest == rest;
    assert Tick(cfg, m, c) == TickPushBack(m, c, d, ts);
  }

  lemma SoloRequeue(cfg: Config, m: Machine, c: ClientId, d: DeviceId, ts: seq<Task>) returns (m': Machine)
    requires Ready(m, c, Code(cfg, OpRequeue(d, ts)))
    ensures Leads(cfg, m, c, m') && Ready(m', c, []) && View(m') == RequeueS(View(m), d, ts)
    ensures Heard(m', c) == Heard(m, c) + [Number(|At(View(m').pending, d)|)]
  {
    hide Leads, Tick, Tale;
    if ts == [] {
      m' := Tick(cfg, m, c);
      OneTick(cfg, m, c);
      LengthTick(cfg, m, c, d);
    } else {
      var later := [PushBack(d, ts)] + Marks(ts);
      RequeueCode(cfg, d, ts);
      hide Code, Scans, Marks;
      var m1 := SoloScans(cfg, m, c, d, ts, later);
      var m2 := Tick(cfg, m1, c);
      OneTick(cfg, m1, c);
      SoloPushBack(cfg, m1, c, d, ts, Marks(ts));
      LeadsOn(cfg, m, c, m1, m2);
      m' := SoloMarks(cfg, m2, c, ts);
      LeadsOn(cfg, m, c, m2, m');
      MarksTouchStates(View(m2), ts);
    }
  }

  lemma LengthTick(cfg: Config, m: Machine, c: ClientId, d: DeviceId)
    requires Ready(m, c, [Length(d)])
    ensures var m' := Tick(cfg, m, c);
      Ready(m', c, []) && View(m') == View(m) && Heard(m', c) == Heard(m, c) + [Number(|At(m.pending, d)|)]
  {
    hide Tale, Continue;
    assert [Length(d)] == [Length(d)] + [];
    ContinueReady(m, c, Length(d), [], [], [Depth(|At(m.pending, d)|)]);
  }

  lemma {:induction false} MarksTouchStates(s: Store, ts: seq<Task>)
    ensures MarkRequeuedS(s, ts).pending == s.pending
    decreases |ts|
  {
    if ts != [] { MarksTouchStates(UpdateIn(s, ts[0].id, MRequeue(ts[0])), ts[1..]); }
  }

  // ---------------------------------------------------------------- every operation

  lemma SoloUpdate(cfg: Config, m: Machine, c: ClientId, id: TaskId, mu: Mutator) returns (m': Machine)
    requires Ready(m, c, [Swap3(id, mu, None)]) && !mu.MDispatch?
    ensures Heard(m', c) == Heard(m, c) + CasTold(m.tasks, id, mu)
    ensures Leads(cfg, m, c, m') && Ready(m', c, []) && View(m') == UpdateIn(View(m), id, mu)
  {
    assert [Swap3(id, mu, None)] == [Swap3(id, mu, None)] + [];
    m' := SoloCas(cfg, m, c, id, mu, None, []);
  }

  /** What the caller of the sequential function is told, as a client hears it. */
  function ToldOf(cfg: Config, s: Store, op: Op): seq<Told> {
    match op
    case OpEnqueue(d, t, now) => [Number(|At(EnqueueS(s, d, t, now).pending, d)|)]
    case OpPop(d, limit, now) => Stamped(PopS(cfg, s, d, limit, now).1)
    case OpRequeue(d, ts) => [Number(|At(RequeueS(s, d, ts).pending, d)|)]
    case OpRetry(id) => CasTold(s.tasks, id, MRetry)
    case OpAck(d, id, gen) => [YesNo(AckS(cfg, s, d, id, gen).1)]
    case OpRecover(d, timeout, now) => Ones(RecoverS(s, d, timeout, now).1)
    case OpExpire(d, maxAge, now) => Ones(ExpireS(s, d, maxAge, now).1)
    case OpRemove(d, id) => [YesNo(RemoveS(s, d, id).1)]
    case OpAbandon(d, id) => [YesNo(AbandonS(s, d, id).1)]
    case _ => []
  }

  lemma AnswerIs(cfg: Config, s: Store, op: Op)
    ensures AnswerOf(op, ToldOf(cfg, s, op)) == RedisRefinement.DoR(cfg, s, op).1
  {
    hide EnqueueS, PopS, RequeueS, AckS, RecoverS, ExpireS, RemoveS, AbandonS, StampsOf, Stamped;
    if op.OpPop? { StampedGive(PopS(cfg, s, op.device, op.limit, op.now).1); }
  }

  lemma SoloOp(cfg: Config, m: Machine, c: ClientId, op: Op) returns (m': Machine)
    requires Ready(m, c, Code(cfg, op))
    ensures Leads(cfg, m, c, m') && Ready(m', c, [])
    ensures View(m') == RedisRefinement.DoR(cfg, View(m), op).0 && Heard(m', c) == Heard(m, c) + ToldOf(cfg, View(m), op)
  {
    hide Leads, Tick, Tale;
    match op
    case OpCreate(t, st) =>
      m' := Tick(cfg, m, c);
      OneTick(cfg, m, c);
      CreateTick(cfg, m, c, t, st);
    case OpRecord(id, e) => m' := SoloRecord(cfg, m, c, id, e);
    case OpEnqueue(d, t, now) => m' := SoloEnqueue(cfg, m, c, d, t, now);
    case OpPop(d, limit, now) => m' := SoloPop(cfg, m, c, d, limit, now);
    case OpRequeue(d, ts) => m' := SoloRequeue(cfg, m, c, d, ts);
    case OpMark(id) => m' := SoloUpdate(cfg, m, c, id, MDispatched);
    case OpRetry(id) => m' := SoloUpdate(cfg, m, c, id, MRetry);
    case OpReset(id) => m' := SoloUpdate(cfg, m, c, id, MReset);
    case OpAck(d, id, gen) => m' := SoloAck(cfg, m, c, d, id, gen);
    case OpRecover(d, timeout, now) => m' := SoloRecover(cfg, m, c, d, timeout, now);
    case OpExpire(d, maxAge, now) => m' := SoloExpire(cfg, m, c, d, maxAge, now);
    case OpRemove(d, id) => m' := SoloRemove(cfg, m, c, d, id);
    case OpAbandon(d, id) => m' := SoloAbandon(cfg, m, c, d, id);
  }

  lemma CreateTick(cfg: Config, m: Machine, c: ClientId, t: Task, st: Status)
    requires Ready(m, c, [Create(t, st)])
    ensures Ready(Tick(cfg, m, c), c, []) && View(Tick(cfg, m, c)) == View(m).(tasks := m.tasks[t.id := Fresh(Some(t), st, [])])
    ensures Heard(Tick(cfg, m, c), c) == Heard(m, c)
  {
    assert [Create(t, st)][1..] == [];
  }

  /** An operation that an idle client begins and then runs alone, whatever other clients are in the middle
      of, changes the stored lists and states exactly as the sequential store function says, and what the
      client is told on the way is the answer of that function. */
  lemma SoloRun(cfg: Config, m: Machine, c: ClientId, op: Op) returns (m': Machine, told: seq<Told>)
    requires var cl := ClientOf(m, c); cl.code == [] && cl.held.None? && cl.first.None?
    ensures Leads(cfg, Start(cfg, m, c, op), c, m') && Ready(m', c, []) && Heard(m', c) == Heard(m, c) + told
    ensures (View(m'), AnswerOf(op, told)) == RedisRefinement.DoR(cfg, View(m), op)
  {
    var m1 := Start(cfg, m, c, op);
    assert Ready(m1, c, Code(cfg, op)) && View(m1) == View(m) && Heard(m1, c) == Heard(m, c);
    hide Leads, Tick, Tale, AnswerOf;
    m' := SoloOp(cfg, m1, c, op);
    told := ToldOf(cfg, View(m), op);
    AnswerIs(cfg, View(m), op);
  }
}
