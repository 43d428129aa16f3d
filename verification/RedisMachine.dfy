/**
 Redis as a machine: any number of clients each run the store's operations, and every tick of a
 client executes exactly one Redis command (HGET, the compare-and-swap script, the event-append
 script, LMOVE, LREM, the LREM+LPUSH script, ...).  Schedules are arbitrary, so every interleaving
 of the commands of concurrent operations is a run of this machine.

 `log`, `place` and `removals` are history, and so are the log positions that clients and answers carry:
 no client reads them.
 */
module RedisMachine {
  import opened Wrappers
  import opened Motion
  import opened TaskModel

  /** The pop gate and the rollout flag that rejects acks without a generation. */
  datatype Config = Config(gate: Task -> bool, strict: bool)

  const MAX_RETRIES: nat := 3

  type ClientId = nat

  /** Why the processing list is searched; an ack keeps its generation and the log position of its read. */
  datatype Purpose =
    | ForAck(gen: Option<nat>, seen: nat)
    | ForRejectedAck(gen: Option<nat>, seen: nat)
    | ForAbandon
    | ForRequeue

  /** One pending Redis command of a client (`Cas` is two: a read, then the script). */
  datatype Instr =
    | Cas(id: TaskId, m: Mutator, default: Option<FreshState>, tries: nat)
    | Create(task: Task, status: Status)
    | Append(id: TaskId, event: Event)
    | Stub(id: TaskId, event: Event)
    | Length(device: DeviceId)
    | PushNew(device: DeviceId, task: Task)
    | MoveOne(device: DeviceId, left: nat, got: seq<Task>, now: real)
    | GateDrop(device: DeviceId, item: Task)
    | AckRead(device: DeviceId, id: TaskId, gen: Option<nat>)
    | Scan(device: DeviceId, id: TaskId, purpose: Purpose)
    | Take(device: DeviceId, item: Task, purpose: Purpose)
    | PushBack(device: DeviceId, tasks: seq<Task>)
    | RecoverScan(device: DeviceId, timeout: real, now: real)
    | RecoverRead(device: DeviceId, item: Task, timeout: real, now: real)
    | RecoverMove(device: DeviceId, item: Task, now: real, known: bool)
    | ExpireScan(device: DeviceId, maxAge: real, now: real)
    | ExpireTake(device: DeviceId, item: Task)
    | RemoveScan(device: DeviceId, id: TaskId)
    | RemoveTake(device: DeviceId, item: Task)

  /** The state a client read and is about to write back, mutated, and the log position of that read. */
  datatype Held = Held(copy: TaskState, fromDefault: bool, at: nat)

  /** The retry count that a compare-and-swap loop computes from its first read, and the log position of it. */
  datatype First = First(count: nat, at: nat)

  datatype Result =
    | Swapped(id: TaskId, m: Mutator, written: TaskState, first: Option<First>)
    | GaveUp(id: TaskId, m: Mutator, first: Option<First>)
    | Missing(id: TaskId, m: Mutator)
    | Depth(n: nat)
    | MovedBack(id: TaskId)
    | AgedOut(id: TaskId)
    | AckReply(id: TaskId, ok: bool, gen: Option<nat>, seen: nat)
    | AbandonReply(id: TaskId, ok: bool)
    | RemoveReply(id: TaskId, ok: bool)

  /** `hands` holds what a requeue has taken off the processing list and not yet pushed back; `first` is
      from the first attempt of the loop that the client is in. */
  datatype Client = Client(
    code: seq<Instr>, held: Option<Held>, first: Option<First>, hands: seq<Task>, results: seq<Result>)

  datatype Effect = Mutated(m: Mutator) | Appended(event: Event) | Written(state: TaskState)
  datatype Commit = Commit(client: ClientId, id: TaskId, effect: Effect)

  datatype Kind = ByAck | ByRejectedAck | ByAbandon | ByRemove | ByExpire | ByGate
  datatype Removal = Removal(id: TaskId, client: ClientId, kind: Kind)
  datatype Place = Pending(device: DeviceId) | Working(device: DeviceId) | InHand(client: ClientId) | Gone

  datatype Machine = Machine(
    pending: Lists,
    processing: Lists,
    tasks: map<TaskId, TaskState>,
    clients: map<ClientId, Client>,
    log: seq<Commit>,
    place: map<TaskId, Place>,
    removals: seq<Removal>)

  // ---------------------------------------------------------------- operations as code

  datatype Op =
    | OpCreate(task: Task, status: Status)
    | OpRecord(id: TaskId, event: Event)
    | OpEnqueue(device: DeviceId, task: Task, now: real)
    | OpPop(device: DeviceId, limit: nat, now: real)
    | OpRequeue(device: DeviceId, tasks: seq<Task>)
    | OpMark(id: TaskId)
    | OpRetry(id: TaskId)
    | OpReset(id: TaskId)
    | OpAck(device: DeviceId, id: TaskId, gen: Option<nat>)
    | OpRecover(device: DeviceId, timeout: real, now: real)
    | OpExpire(device: DeviceId, maxAge: real, now: real)
    | OpRemove(device: DeviceId, id: TaskId)
    | OpAbandon(device: DeviceId, id: TaskId)

  function Swap3(id: TaskId, m: Mutator, default: Option<FreshState>): Instr {
    Cas(id, m, default, MAX_RETRIES)
  }

  function Code(cfg: Config, op: Op): seq<Instr> {
    match op
    case OpCreate(t, s) => [Create(t, s)]
    case OpRecord(id, e) => [Append(id, e)]
    case OpEnqueue(d, t, now) =>
      var t1 := t.(enqueuedAt := now);
      [PushNew(d, t1), Swap3(t1.id, MEnqueue(t1), Some(Fresh(Some(t1), Created, [])))]
    case OpPop(d, limit, now) =>
      if limit == 0 then [] else [MoveOne(d, limit, [], now)]
    case OpRequeue(d, tasks) =>
      if tasks == [] then [Length(d)] else
      seq(|tasks|, i requires 0 <= i < |tasks| => Scan(d, tasks[i].id, ForRequeue))
      + [PushBack(d, tasks)]
      + seq(|tasks|, i requires 0 <= i < |tasks| =>
          Swap3(tasks[i].id, MRequeue(tasks[i]), Some(Fresh(Some(tasks[i]), Created, []))))
    case OpMark(id) => [Swap3(id, MDispatched, None)]
    case OpRetry(id) => [Swap3(id, MRetry, None)]
    case OpReset(id) => [Swap3(id, MReset, None)]
    case OpAck(d, id, gen) => [AckRead(d, id, gen)]
    case OpRecover(d, timeout, now) => [RecoverScan(d, timeout, now)]
    case OpExpire(d, maxAge, now) => [ExpireScan(d, maxAge, now)]
    case OpRemove(d, id) => [RemoveScan(d, id)]
    case OpAbandon(d, id) => [Scan(d, id, ForAbandon)]
  }

  /** What a pop does with the entries it moved: drop the rejected ones, then mark the others. */
  function AfterMoves(cfg: Config, d: DeviceId, got: seq<Task>, now: real): seq<Instr> {
    GateCode(cfg, d, got) + DispatchCode(cfg, got, now)
  }

  function GateCode(cfg: Config, d: DeviceId, got: seq<Task>): seq<Instr> {
    if got == [] then []
    else (if cfg.gate(got[0]) then [] else [GateDrop(d, got[0]), Swap3(got[0].id, MGateFailed, None)])
         + GateCode(cfg, d, got[1..])
  }

  function DispatchCode(cfg: Config, got: seq<Task>, now: real): seq<Instr> {
    if got == [] then []
    else (if cfg.gate(got[0])
          then [Swap3(got[0].id, MDispatch(got[0], now), Some(Fresh(Some(got[0]), Queued, [])))] else [])
         + DispatchCode(cfg, got[1..], now)
  }

  /** The start time a recovery judges a processing entry by. */
  function StartOf(item: Task, state: Option<TaskState>): real {
    if state.Some? && state.value.startedAt.Some? && state.value.startedAt.value != 0.0
    then state.value.startedAt.value else item.enqueuedAt
  }

  predicate Stale(start: real, now: real, age: real) {
    start > 0.0 && now - start > age
  }

  function RecoverCode(d: DeviceId, items: seq<Task>, timeout: real, now: real): seq<Instr> {
    seq(|items|, i requires 0 <= i < |items| => RecoverRead(d, items[i], timeout, now))
  }

  function ExpireCode(d: DeviceId, items: seq<Task>, maxAge: real, now: real): seq<Instr> {
    if items == [] then []
    else (if Stale(items[0].enqueuedAt, now, maxAge) then [ExpireTake(d, items[0])] else [])
         + ExpireCode(d, items[1..], maxAge, now)
  }

  /** The ack rules on the state that was read. */
  datatype AckVerdict = Proceed | Reject | CleanUpAndReject

  function Judge(state: Option<TaskState>, gen: Option<nat>, strict: bool): AckVerdict {
    if state.None? then Proceed
    else if gen.Some? && gen.value != state.value.dispatchGen then Reject
    else if gen.None? && state.value.dispatchGen > 0 && strict then Reject
    else if state.value.recoveredAt.Some? then CleanUpAndReject
    else Proceed
  }

  // ---------------------------------------------------------------- steps

  function Lookup(m: Machine, id: TaskId): Option<TaskState> {
    if id in m.tasks then Some(m.tasks[id]) else None
  }

  function Idle(): Client {
    Client([], None, None, [], [])
  }

  /** A client that has not appeared yet is an idle one. */
  function ClientOf(m: Machine, c: ClientId): Client {
    if c in m.clients then m.clients[c] else Idle()
  }

  /** Only client `c` has taken a step. */
  ghost predicate Moved(m: Machine, m': Machine, c: ClientId) {
    c in m'.clients && m'.clients.Keys == m.clients.Keys + {c}
    && forall x :: x != c ==> ClientOf(m', x) == ClientOf(m, x)
  }

  /** Replace the first instruction of client `c` by `code` and append `out` to its results. */
  function Continue(m: Machine, c: ClientId, code: seq<Instr>, out: seq<Result>): Machine
    requires c in m.clients && m.clients[c].code != []
  {
    var cl := m.clients[c];
    m.(clients := m.clients[c := cl.(code := code + cl.code[1..], held := None, first := None,
                                     results := if out == [] then cl.results else cl.results + out)])
  }

  /** HGET: start an attempt of a compare-and-swap. */
  function TickRead(m: Machine, c: ClientId, id: TaskId, mu: Mutator, default: Option<FreshState>): Machine
    requires c in m.clients && m.clients[c].code != []
  {
    var state := Lookup(m, id);
    if state.None? && default.None? then Continue(m, c, [], [Missing(id, mu)])
    else
      var h := if state.Some? then Held(state.value, false, |m.log|) else Held(default.value, true, |m.log|);
      var cl := m.clients[c];
      m.(clients := m.clients[c := cl.(
        held := Some(h),
        first := if cl.first.Some? then cl.first else Some(First(h.copy.retryCount + 1, |m.log|)))])
  }

  /** The script: write the mutated copy only over a state whose version is the copy's. */
  function TickSwap(m: Machine, c: ClientId, id: TaskId, mu: Mutator, default: Option<FreshState>, tries: nat): Machine
    requires c in m.clients && m.clients[c].code != [] && m.clients[c].held.Some?
  {
    var cl := m.clients[c];
    var copy := cl.held.value.copy;
    if id in m.tasks && m.tasks[id].version == copy.version then
      Continue(m, c, [], [Swapped(id, mu, Swap(mu, copy), cl.first)]).(
        tasks := m.tasks[id := Swap(mu, copy)],
        log := m.log + [Commit(c, id, Mutated(mu))])
    else if tries <= 1 then
      Continue(m, c, [], [GaveUp(id, mu, cl.first)])
    else
      m.(clients := m.clients[c := cl.(held := None, code := [Cas(id, mu, default, tries - 1)] + cl.code[1..])])
  }

  /** The steps that write task states outside the compare-and-swap loop. */
  function TickWrite(m: Machine, c: ClientId, id: TaskId, effect: Effect): Machine
    requires c in m.clients && m.clients[c].code != []
    requires effect.Appended? ==> id in m.tasks
    requires !effect.Mutated?
  {
    var s := if effect.Appended? then AppendEvent(effect.event, m.tasks[id]) else effect.state;
    Continue(m, c, [], []).(tasks := m.tasks[id := s], log := m.log + [Commit(c, id, effect)])
  }

  /** What a place holds. */
  function Holds(m: Machine, p: Place): seq<Task> {
    match p
    case Pending(d) => At(m.pending, d)
    case Working(d) => At(m.processing, d)
    case InHand(c) => if c in m.clients then m.clients[c].hands else []
    case Gone => []
  }

  /** The machine with the contents of one place replaced. */
  function Put(m: Machine, p: Place, s: seq<Task>): Machine
    requires p != Gone && (p.InHand? ==> p.client in m.clients)
  {
    match p
    case Pending(d) => m.(pending := m.pending[d := s])
    case Working(d) => m.(processing := m.processing[d := s])
    case InHand(c) => m.(clients := m.clients[c := m.clients[c].(hands := s)])
  }

  /** An LREM on a list: when the entry was there, record that the task is gone. */
  function TickTake(m: Machine, c: ClientId, p: Place, item: Task, kind: Kind,
                    code: seq<Instr>, out: seq<Result>): Machine
    requires c in m.clients && m.clients[c].code != [] && (p.Pending? || p.Working?)
  {
    var m1 := Continue(m, c, code, out);
    if item !in Holds(m, p) then m1
    else Put(m1, p, RemoveFirst(Holds(m, p), item)).(
           place := m.place[item.id := Gone],
           removals := m.removals + [Removal(item.id, c, kind)])
  }

  /** The LREM of a requeue: the task is then in nobody's list but this client's hands. */
  function TickGrab(m: Machine, c: ClientId, d: DeviceId, item: Task): Machine
    requires c in m.clients && m.clients[c].code != []
  {
    var p, q := Working(d), InHand(c);
    var m1 := Continue(m, c, [], []);
    if item !in Holds(m, p) then m1
    else Put(Put(m1, p, RemoveFirst(Holds(m, p), item)), q, Holds(m, q) + [item]).(
           place := m.place[item.id := q])
  }

  function TickPushNew(m: Machine, c: ClientId, d: DeviceId, t: Task): Machine
    requires c in m.clients && m.clients[c].code != []
  {
    var q := Pending(d);
    Put(Continue(m, c, [], [Depth(|Holds(m, q)| + 1)]), q, Holds(m, q) + [t]).(place := m.place[t.id := q])
  }

  /** LPUSH of all tasks, last one first: they end up in front, in the order given. */
  function TickPushBack(m: Machine, c: ClientId, d: DeviceId, tasks: seq<Task>): Machine
    requires c in m.clients && m.clients[c].code != []
  {
    var q := Pending(d);
    Put(Put(Continue(m, c, [], [Depth(|tasks + Holds(m, q)|)]), InHand(c), []), q, tasks + Holds(m, q)).(
      place := map id | id in m.place.Keys + Ids(tasks) :: if id in Ids(tasks) then q else m.place[id])
  }

  /** LMOVE LEFT LEFT from pending to processing. */
  function TickMove(cfg: Config, m: Machine, c: ClientId, d: DeviceId, left: nat, got: seq<Task>, now: real): Machine
    requires c in m.clients && m.clients[c].code != []
  {
    var p, q := Pending(d), Working(d);
    var list := Holds(m, p);
    if list == [] then Continue(m, c, AfterMoves(cfg, d, got, now), [])
    else
      var t := list[0];
      var code := if left <= 1 then AfterMoves(cfg, d, got + [t], now)
                  else [MoveOne(d, left - 1, got + [t], now)];
      Put(Put(Continue(m, c, code, []), p, list[1..]), q, [t] + Holds(m, q)).(place := m.place[t.id := q])
  }

  /** The LREM+LPUSH script of a recovery. */
  function TickRecover(m: Machine, c: ClientId, d: DeviceId, item: Task, now: real, known: bool): Machine
    requires c in m.clients && m.clients[c].code != []
  {
    var p, q := Working(d), Pending(d);
    if item !in Holds(m, p) then Continue(m, c, [], [])
    else
      var m1 := Continue(m, c, if known then [Swap3(item.id, MRecover(now), None)] else [], [MovedBack(item.id)]);
      Put(Put(m1, p, RemoveAll(Holds(m, p), item)), q, [item] + Holds(m, q)).(place := m.place[item.id := q])
  }

  function AckPurpose(v: AckVerdict, gen: Option<nat>, seen: nat): Purpose {
    if v.Proceed? then ForAck(gen, seen) else ForRejectedAck(gen, seen)
  }

  /** The HGET of an ack, and the rules on what it read. */
  function TickAckRead(cfg: Config, m: Machine, c: ClientId, d: DeviceId, id: TaskId, gen: Option<nat>): Machine
    requires c in m.clients && m.clients[c].code != []
  {
    var v := Judge(Lookup(m, id), gen, cfg.strict);
    if v.Reject? then Continue(m, c, [], [AckReply(id, false, gen, |m.log|)])
    else Continue(m, c, [Scan(d, id, AckPurpose(v, gen, |m.log|))], [])
  }

  /** What a search of the processing list that found nothing answers. */
  function NotFound(id: TaskId, purpose: Purpose): seq<Result> {
    match purpose
    case ForAbandon => [AbandonReply(id, false)]
    case ForRequeue => []
    case ForAck(gen, seen) => [AckReply(id, false, gen, seen)]
    case ForRejectedAck(gen, seen) => [AckReply(id, false, gen, seen)]
  }

  /** LRANGE of the processing list, looking for an id. */
  function TickScan(m: Machine, c: ClientId, d: DeviceId, id: TaskId, purpose: Purpose): Machine
    requires c in m.clients && m.clients[c].code != []
  {
    var found := FindId(At(m.processing, d), id);
    if found.Some? then Continue(m, c, [Take(d, found.value, purpose)], [])
    else Continue(m, c, [], NotFound(id, purpose))
  }

  /** LRANGE of the pending list, looking for an id. */
  function TickRemoveScan(m: Machine, c: ClientId, d: DeviceId, id: TaskId): Machine
    requires c in m.clients && m.clients[c].code != []
  {
    var found := FindId(At(m.pending, d), id);
    if found.Some? then Continue(m, c, [RemoveTake(d, found.value)], [])
    else Continue(m, c, [], [RemoveReply(id, false)])
  }

  /** The LREM after a successful search. */
  function TickPurpose(m: Machine, c: ClientId, d: DeviceId, item: Task, purpose: Purpose): Machine
    requires c in m.clients && m.clients[c].code != []
  {
    var ok := item in At(m.processing, d);
    match purpose
    case ForAck(gen, seen) =>
      TickTake(m, c, Working(d), item, ByAck, if ok then [Swap3(item.id, MClearStarted, None)] else [],
               [AckReply(item.id, ok, gen, seen)])
    case ForRejectedAck(gen, seen) =>
      TickTake(m, c, Working(d), item, ByRejectedAck, [], [AckReply(item.id, false, gen, seen)])
    case ForAbandon => TickTake(m, c, Working(d), item, ByAbandon,
                                if ok then [Swap3(item.id, MDeadLetter, None)] else [], [AbandonReply(item.id, ok)])
    case ForRequeue => TickGrab(m, c, d, item)
  }

  /** One tick of client `c`: execute its next Redis command. */
  function Tick(cfg: Config, m: Machine, c: ClientId): Machine {
    if c !in m.clients || m.clients[c].code == [] then m else
    var cl := m.clients[c];
    match cl.code[0]
    case Cas(id, mu, default, tries) =>
      if cl.held.None? then TickRead(m, c, id, mu, default) else TickSwap(m, c, id, mu, default, tries)
    case Create(t, s) => TickWrite(m, c, t.id, Written(Fresh(Some(t), s, [])))
    case Append(id, e) =>
      if id in m.tasks then TickWrite(m, c, id, Appended(e)) else Continue(m, c, [Stub(id, e)], [])
    case Stub(id, e) => TickWrite(m, c, id, Written(Fresh(None, e.phase, [e])))
    case Length(d) => Continue(m, c, [], [Depth(|At(m.pending, d)|)])
    case PushNew(d, t) => TickPushNew(m, c, d, t)
    case MoveOne(d, left, got, now) => TickMove(cfg, m, c, d, left, got, now)
    case GateDrop(d, item) => TickTake(m, c, Working(d), item, ByGate, [], [])
    case AckRead(d, id, gen) => TickAckRead(cfg, m, c, d, id, gen)
    case Scan(d, id, purpose) => TickScan(m, c, d, id, purpose)
    case Take(d, item, purpose) => TickPurpose(m, c, d, item, purpose)
    case PushBack(d, tasks) => TickPushBack(m, c, d, tasks)
    case RecoverScan(d, timeout, now) => Continue(m, c, RecoverCode(d, At(m.processing, d), timeout, now), [])
    case RecoverRead(d, item, timeout, now) =>
      var state := Lookup(m, item.id);
      Continue(m, c, if Stale(StartOf(item, state), now, timeout)
                     then [RecoverMove(d, item, now, state.Some?)] else [], [])
    case RecoverMove(d, item, now, known) => TickRecover(m, c, d, item, now, known)
    case ExpireScan(d, maxAge, now) => Continue(m, c, ExpireCode(d, At(m.pending, d), maxAge, now), [])
    case ExpireTake(d, item) =>
      TickTake(m, c, Pending(d), item, ByExpire,
               if item in At(m.pending, d) then [Swap3(item.id, MExpire, None)] else [],
               if item in At(m.pending, d) then [AgedOut(item.id)] else [])
    case RemoveScan(d, id) => TickRemoveScan(m, c, d, id)
    case RemoveTake(d, item) =>
      TickTake(m, c, Pending(d), item, ByRemove, [], [RemoveReply(item.id, item in At(m.pending, d))])
  }

  /** A client that is idle starts an operation; a client that does not exist yet appears. */
  function Start(cfg: Config, m: Machine, c: ClientId, op: Op): Machine {
    var cl := ClientOf(m, c);
    if cl.code != [] then m else m.(clients := m.clients[c := cl.(code := Code(cfg, op))])
  }

  datatype Move = Begin(client: ClientId, op: Op) | Step(client: ClientId)

  function Do(cfg: Config, m: Machine, move: Move): Machine {
    match move
    case Begin(c, op) => Start(cfg, m, c, op)
    case Step(c) => Tick(cfg, m, c)
  }

  /** The machine after a schedule. */
  function Run(cfg: Config, m: Machine, moves: seq<Move>): Machine {
    if moves == [] then m else Do(cfg, Run(cfg, m, moves[..|moves| - 1]), moves[|moves| - 1])
  }

  lemma RunNone(cfg: Config, m: Machine)
    ensures Run(cfg, m, []) == m
  {
  }

  lemma RunLast(cfg: Config, m: Machine, moves: seq<Move>)
    requires moves != []
    ensures Run(cfg, m, moves) == Do(cfg, Run(cfg, m, moves[..|moves| - 1]), moves[|moves| - 1])
  {
  }

  /** No clients yet, nothing queued; task states may already exist. */
  predicate Initial(m: Machine) {
    m.pending == map[] && m.processing == map[] && m.clients == map[] && m.log == []
    && m.place == map[] && m.removals == []
  }

  // ---------------------------------------------------------------- kinds of steps

  /** The removals that an operation reports to its caller as a success. */
  predicate Reported(k: Kind) { k.ByAck? || k.ByAbandon? || k.ByRemove? }

  function Success(c: ClientId, r: Result): seq<Removal> {
    match r
    case AckReply(id, true, _, _) => [Removal(id, c, ByAck)]
    case AbandonReply(id, true) => [Removal(id, c, ByAbandon)]
    case RemoveReply(id, true) => [Removal(id, c, ByRemove)]
    case _ => []
  }

  /** The answer of a removing LREM is a success exactly when it is one of the reported kinds and the
      entry was there. */
  predicate TellsTruth(m: Machine, c: ClientId, p: Place, item: Task, kind: Kind, out: seq<Result>) {
    |out| <= 1 && (out != [] ==> !out[0].Swapped?)
    && (if out == [] then [] else Success(c, out[0]))
       == if item in Holds(m, p) && Reported(kind) then [Removal(item.id, c, kind)] else []
  }

  predicate Takes(i: Instr) {
    i.GateDrop? || i.Take? || i.ExpireTake? || i.RemoveTake?
  }

  predicate Moves(i: Instr) { i.MoveOne? || i.RecoverMove? }

  predicate Reads(i: Instr) {
    i.Length? || i.AckRead? || i.Scan? || i.RecoverScan? || i.RecoverRead? || i.ExpireScan? || i.RemoveScan?
  }

  lemma IdleTick(cfg: Config, m: Machine, c: ClientId)
    requires c !in m.clients || m.clients[c].code == []
    ensures Tick(cfg, m, c) == m
  {
  }

  lemma CasTick(cfg: Config, m: Machine, c: ClientId)
    requires c in m.clients && m.clients[c].code != []
    ensures var i := m.clients[c].code[0];
      i.Cas? ==> Tick(cfg, m, c) == if m.clients[c].held.None? then TickRead(m, c, i.id, i.m, i.default)
                                    else TickSwap(m, c, i.id, i.m, i.default, i.tries)
  {
  }

  lemma MoveTick(cfg: Config, m: Machine, c: ClientId)
    requires c in m.clients && m.clients[c].code != [] && m.clients[c].code[0].MoveOne?
    ensures var i := m.clients[c].code[0]; Tick(cfg, m, c) == TickMove(cfg, m, c, i.device, i.left, i.got, i.now)
  {
  }

  lemma RecoverTick(cfg: Config, m: Machine, c: ClientId)
    requires c in m.clients && m.clients[c].code != [] && m.clients[c].code[0].RecoverMove?
    ensures var i := m.clients[c].code[0]; Tick(cfg, m, c) == TickRecover(m, c, i.device, i.item, i.now, i.known)
  {
  }

  lemma TakeIs(cfg: Config, m: Machine, c: ClientId)
    returns (p: Place, kind: Kind, code: seq<Instr>, out: seq<Result>)
    requires c in m.clients && m.clients[c].code != [] && Takes(m.clients[c].code[0])
    requires var i := m.clients[c].code[0]; !(i.Take? && i.purpose.ForRequeue?)
    ensures p.Pending? || p.Working?
    ensures Tick(cfg, m, c) == TickTake(m, c, p, m.clients[c].code[0].item, kind, code, out)
    ensures TellsTruth(m, c, p, m.clients[c].code[0].item, kind, out)
  {
    hide TickTake, TickPurpose;
    match m.clients[c].code[0]
    case GateDrop(d, item) => p, kind, code, out := Working(d), ByGate, [], [];
    case ExpireTake(d, item) =>
      p, kind := Pending(d), ByExpire;
      out := if item in At(m.pending, d) then [AgedOut(item.id)] else [];
      code := if item in At(m.pending, d) then [Swap3(item.id, MExpire, None)] else [];
    case RemoveTake(d, item) =>
      p, kind, code, out := Pending(d), ByRemove, [], [RemoveReply(item.id, item in At(m.pending, d))];
    case Take(d, item, purpose) =>
      p, kind, code, out := PurposeIs(m, c, d, item, purpose);
  }

  lemma PurposeIs(m: Machine, c: ClientId, d: DeviceId, item: Task, purpose: Purpose)
    returns (p: Place, kind: Kind, code: seq<Instr>, out: seq<Result>)
    requires c in m.clients && m.clients[c].code != [] && !purpose.ForRequeue?
    ensures p == Working(d)
    ensures TickPurpose(m, c, d, item, purpose) == TickTake(m, c, p, item, kind, code, out)
    ensures TellsTruth(m, c, p, item, kind, out)
  {
    var ok := item in At(m.processing, d);
    p := Working(d);
    match purpose
    case ForAck(gen, seen) =>
      kind, code := ByAck, if ok then [Swap3(item.id, MClearStarted, None)] else [];
      out := [AckReply(item.id, ok, gen, seen)];
    case ForRejectedAck(gen, seen) => kind, code, out := ByRejectedAck, [], [AckReply(item.id, false, gen, seen)];
    case ForAbandon =>
      kind, code, out := ByAbandon, if ok then [Swap3(item.id, MDeadLetter, None)] else [], [AbandonReply(item.id, ok)];
  }

  lemma ReadIsContinue(cfg: Config, m: Machine, c: ClientId) returns (code: seq<Instr>, out: seq<Result>)
    requires c in m.clients && m.clients[c].code != [] && Reads(m.clients[c].code[0])
    ensures Tick(cfg, m, c) == Continue(m, c, code, out)
    ensures out == [] || (|out| == 1 && !out[0].Swapped? && Success(c, out[0]) == [])
  {
    hide Continue, RecoverCode, ExpireCode, FindId, Judge, Stale, StartOf;
    code, out := [], [];
    match m.clients[c].code[0]
    case Length(d) => out := [Depth(|At(m.pending, d)|)];
    case AckRead(d, id, gen) =>
      var v := Judge(Lookup(m, id), gen, cfg.strict);
      if v.Reject? { out := [AckReply(id, false, gen, |m.log|)]; }
      else { code := [Scan(d, id, AckPurpose(v, gen, |m.log|))]; }
    case Scan(d, id, purpose) =>
      var found := FindId(At(m.processing, d), id);
      if found.Some? { code := [Take(d, found.value, purpose)]; } else { out := NotFound(id, purpose); }
    case RecoverScan(d, timeout, now) => code := RecoverCode(d, At(m.processing, d), timeout, now);
    case RecoverRead(d, item, timeout, now) =>
      var state := Lookup(m, item.id);
      code := if Stale(StartOf(item, state), now, timeout) then [RecoverMove(d, item, now, state.Some?)] else [];
    case ExpireScan(d, maxAge, now) => code := ExpireCode(d, At(m.pending, d), maxAge, now);
    case RemoveScan(d, id) =>
      var found := FindId(At(m.pending, d), id);
      if found.Some? { code := [RemoveTake(d, found.value)]; } else { out := [RemoveReply(id, false)]; }
  }
}
