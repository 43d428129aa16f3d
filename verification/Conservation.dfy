/**
 Conservation of queued tasks: under every interleaving an enqueued task is in exactly one place, a
 pending list, a processing list or the hands of a requeue, until exactly one command removes it.
 */
module Conservation {
  import opened Wrappers
  import opened Motion
  import opened TaskModel
  import opened RedisMachine

  // ---------------------------------------------------------------- legal runs

  /** An enqueue uses an id never enqueued before; a requeue pushes back exactly what its own LREMs
      took off the processing list. */
  predicate Fair(m: Machine, move: Move) {
    move.Step? && move.client in m.clients && m.clients[move.client].code != [] ==>
      var cl := m.clients[move.client];
      (cl.code[0].PushNew? ==> cl.code[0].task.id !in m.place)
      && (cl.code[0].PushBack? ==> SameIds(cl.hands, cl.code[0].tasks))
  }

  predicate SameIds(a: seq<Task>, b: seq<Task>) {
    |a| == |b| && forall i :: 0 <= i < |a| ==> a[i].id == b[i].id
  }

  predicate FairRun(cfg: Config, m: Machine, moves: seq<Move>) {
    moves == [] ||
    (FairRun(cfg, m, moves[..|moves| - 1])
     && Fair(Run(cfg, m, moves[..|moves| - 1]), moves[|moves| - 1]))
  }

  // ---------------------------------------------------------------- the invariant

  /** The ids whose recorded place is `p`. */
  function IdsAt(place: map<TaskId, Place>, p: Place): set<TaskId> {
    set id | id in place && place[id] == p
  }

  /** Place `p` holds, once each, exactly the ids whose recorded place is `p`. */
  ghost predicate HomeOk(m: Machine, p: Place) {
    Distinct(Holds(m, p)) && Ids(Holds(m, p)) == IdsAt(m.place, p)
  }

  ghost predicate Homes(m: Machine) {
    forall p: Place :: p != Gone ==> HomeOk(m, p)
  }

  function RemovedIds(removals: seq<Removal>): set<TaskId> {
    if removals == [] then {} else RemovedIds(removals[..|removals| - 1]) + {removals[|removals| - 1].id}
  }

  predicate Once(removals: seq<Removal>) {
    removals == [] ||
    (Once(removals[..|removals| - 1]) && removals[|removals| - 1].id !in RemovedIds(removals[..|removals| - 1]))
  }

  ghost predicate GoneOnce(m: Machine) {
    Once(m.removals) && RemovedIds(m.removals) == IdsAt(m.place, Gone)
  }

  function ReportedBy(removals: seq<Removal>, c: ClientId): seq<Removal> {
    if removals == [] then []
    else
      var r := removals[|removals| - 1];
      ReportedBy(removals[..|removals| - 1], c) + if r.client == c && Reported(r.kind) then [r] else []
  }

  function Successes(c: ClientId, results: seq<Result>): seq<Removal> {
    if results == [] then [] else Successes(c, results[..|results| - 1]) + Success(c, results[|results| - 1])
  }

  lemma ReportedSnoc(removals: seq<Removal>, r: Removal, c: ClientId)
    ensures ReportedBy(removals + [r], c)
         == ReportedBy(removals, c) + if r.client == c && Reported(r.kind) then [r] else []
  {
    assert (removals + [r])[..|removals|] == removals;
  }

  lemma SuccessesSnoc(c: ClientId, results: seq<Result>, r: Result)
    ensures Successes(c, results + [r]) == Successes(c, results) + Success(c, r)
  {
    assert (results + [r])[..|results|] == results;
  }

  predicate ReportsOk(removals: seq<Removal>, c: ClientId, results: seq<Result>) {
    ReportedBy(removals, c) == Successes(c, results)
  }

  ghost predicate Truthful(m: Machine) {
    forall c: ClientId :: ReportsOk(m.removals, c, ClientOf(m, c).results)
  }

  ghost predicate Inv(m: Machine) {
    Homes(m) && GoneOnce(m) && Truthful(m)
  }

  // ---------------------------------------------------------------- moving one task

  lemma IdsAtUpdate(place: map<TaskId, Place>, id: TaskId, q: Place, r: Place)
    ensures IdsAt(place[id := q], r) == if r == q then IdsAt(place, r) + {id} else IdsAt(place, r) - {id}
  {
  }

  lemma PutHolds(m: Machine, p: Place, s: seq<Task>, r: Place)
    requires p != Gone && (p.InHand? ==> p.client in m.clients)
    ensures Holds(Put(m, p, s), r) == if r == p then s else Holds(m, r)
    ensures Put(m, p, s).clients.Keys == m.clients.Keys
  {
  }

  lemma PlaceHolds(m: Machine, place: map<TaskId, Place>, r: Place)
    ensures Holds(m.(place := place), r) == Holds(m, r)
  {
  }

  /** The places of m1 are those of m. */
  ghost predicate SamePlaces(m: Machine, m1: Machine) {
    m1.clients.Keys == m.clients.Keys && forall r: Place :: Holds(m1, r) == Holds(m, r)
  }

  lemma ContinueSame(m: Machine, c: ClientId, code: seq<Instr>, out: seq<Result>)
    requires c in m.clients && m.clients[c].code != []
    ensures SamePlaces(m, Continue(m, c, code, out))
  {
  }

  /** The id arrives at `q` from nowhere. */
  lemma Arrival(m: Machine, m1: Machine, id: TaskId, q: Place, qs: seq<Task>)
    requires Homes(m) && SamePlaces(m, m1) && q != Gone && (q.InHand? ==> q.client in m.clients)
    requires id !in m.place && Distinct(qs) && Ids(qs) == Ids(Holds(m, q)) + {id}
    ensures Homes(Put(m1, q, qs).(place := m.place[id := q]))
  {
    var m' := Put(m1, q, qs).(place := m.place[id := q]);
    hide Put, Holds, Ids, IdsAt, Distinct;
    forall r: Place | r != Gone ensures HomeOk(m', r) {
      assert HomeOk(m, r);
      IdsAtUpdate(m.place, id, q, r);
      PutHolds(m1, q, qs, r);
      PlaceHolds(Put(m1, q, qs), m.place[id := q], r);
    }
  }

  /** The id leaves `p` for good. */
  lemma Departure(m: Machine, m1: Machine, id: TaskId, p: Place, ps: seq<Task>)
    requires Homes(m) && SamePlaces(m, m1) && p != Gone && (p.InHand? ==> p.client in m.clients)
    requires id in m.place && m.place[id] == p && Distinct(ps) && Ids(ps) == Ids(Holds(m, p)) - {id}
    ensures Homes(Put(m1, p, ps).(place := m.place[id := Gone]))
  {
    var m' := Put(m1, p, ps).(place := m.place[id := Gone]);
    hide Put, Holds, Ids, Distinct;
    forall r: Place | r != Gone ensures HomeOk(m', r) {
      assert HomeOk(m, r);
      IdsAtUpdate(m.place, id, Gone, r);
      PutHolds(m1, p, ps, r);
      PlaceHolds(Put(m1, p, ps), m.place[id := Gone], r);
    }
  }

  /** The id leaves `p` and arrives at `q`. */
  lemma Transfer(m: Machine, m1: Machine, id: TaskId, p: Place, ps: seq<Task>, q: Place, qs: seq<Task>)
    requires Homes(m) && SamePlaces(m, m1) && p != q && p != Gone && q != Gone
    requires (p.InHand? ==> p.client in m.clients) && (q.InHand? ==> q.client in m.clients)
    requires id in m.place && m.place[id] == p
    requires Distinct(ps) && Ids(ps) == Ids(Holds(m, p)) - {id}
    requires Distinct(qs) && Ids(qs) == Ids(Holds(m, q)) + {id}
    ensures Homes(Put(Put(m1, p, ps), q, qs).(place := m.place[id := q]))
  {
    var m' := Put(Put(m1, p, ps), q, qs).(place := m.place[id := q]);
    forall r: Place | r != Gone ensures HomeOk(m', r) {
      TransferAt(m, m1, id, p, ps, q, qs, r);
    }
  }

  lemma TransferAt(m: Machine, m1: Machine, id: TaskId, p: Place, ps: seq<Task>, q: Place, qs: seq<Task>, r: Place)
    requires HomeOk(m, r) && Holds(m1, r) == Holds(m, r) && m1.clients.Keys == m.clients.Keys
    requires p != q && p != Gone && q != Gone && r != Gone
    requires (p.InHand? ==> p.client in m.clients) && (q.InHand? ==> q.client in m.clients)
    requires id in m.place && m.place[id] == p
    requires Distinct(ps) && Ids(ps) == Ids(Holds(m, p)) - {id}
    requires Distinct(qs) && Ids(qs) == Ids(Holds(m, q)) + {id}
    ensures HomeOk(Put(Put(m1, p, ps), q, qs).(place := m.place[id := q]), r)
  {
    hide Put, Holds, Ids, Distinct;
    IdsAtUpdate(m.place, id, q, r);
    PutHolds(m1, p, ps, r);
    PutHolds(Put(m1, p, ps), q, qs, r);
    PlaceHolds(Put(Put(m1, p, ps), q, qs), m.place[id := q], r);
  }

  /** The record of removals agrees with the places after a move between places other than Gone. */
  lemma StillGone(m: Machine, m': Machine, id: TaskId, q: Place)
    requires GoneOnce(m) && m'.removals == m.removals && m'.place == m.place[id := q] && q != Gone
    requires id !in m.place || m.place[id] != Gone
    ensures GoneOnce(m')
  {
    IdsAtUpdate(m.place, id, q, Gone);
  }

  /** No operation reported anything. */
  lemma StillTrue(m: Machine, m': Machine, c: ClientId)
    requires Truthful(m) && Moved(m, m', c) && m'.removals == m.removals
    requires Successes(c, m'.clients[c].results) == Successes(c, ClientOf(m, c).results)
    ensures Truthful(m')
  {
    forall x: ClientId ensures ReportsOk(m'.removals, x, ClientOf(m', x).results) {
      assert ReportsOk(m.removals, x, ClientOf(m, x).results);
    }
  }

  /** Nothing moved and nothing was removed. */
  lemma Still(m: Machine, m': Machine, c: ClientId)
    requires Inv(m) && Moved(m, m', c)
    requires m'.pending == m.pending && m'.processing == m.processing && m'.place == m.place
    requires m'.removals == m.removals && m'.clients[c].hands == ClientOf(m, c).hands
    requires Successes(c, m'.clients[c].results) == Successes(c, ClientOf(m, c).results)
    ensures Inv(m')
  {
    StillHome(m, m', c);
    StillTrue(m, m', c);
  }

  lemma StillHome(m: Machine, m': Machine, c: ClientId)
    requires Homes(m) && Moved(m, m', c)
    requires m'.pending == m.pending && m'.processing == m.processing && m'.place == m.place
    requires m'.clients[c].hands == ClientOf(m, c).hands
    ensures Homes(m')
  {
    forall r: Place | r != Gone ensures HomeOk(m', r) {
      assert HomeOk(m, r);
      if r.InHand? { assert r.client != c ==> ClientOf(m', r.client) == ClientOf(m, r.client); }
    }
  }

  /** A result that reports no success. */
  lemma SameSuccesses(c: ClientId, results: seq<Result>, out: seq<Result>)
    requires out == [] || (|out| == 1 && Success(c, out[0]) == [])
    ensures Successes(c, results + out) == Successes(c, results)
  {
    if out == [] {
      assert results + out == results;
    } else {
      assert out == [out[0]];
      SuccessesSnoc(c, results, out[0]);
    }
  }

  lemma ContinueStill(m: Machine, c: ClientId, code: seq<Instr>, out: seq<Result>)
    requires Inv(m) && c in m.clients && m.clients[c].code != []
    requires out == [] || (|out| == 1 && Success(c, out[0]) == [])
    ensures Inv(Continue(m, c, code, out))
  {
    SameSuccesses(c, m.clients[c].results, out);
    Still(m, Continue(m, c, code, out), c);
  }

  /** An LREM by ack, abandon, remove, expire or gate. */
  lemma TakeKeeps(m: Machine, c: ClientId, p: Place, item: Task, kind: Kind, code: seq<Instr>, out: seq<Result>)
    requires Inv(m) && c in m.clients && m.clients[c].code != [] && (p.Pending? || p.Working?)
    requires TellsTruth(m, c, p, item, kind, out)
    ensures Inv(TickTake(m, c, p, item, kind, code, out))
  {
    if item !in Holds(m, p) {
      ContinueStill(m, c, code, out);
    } else {
      var m', r := TickTake(m, c, p, item, kind, code, out), Removal(item.id, c, kind);
      TakeHomes(m, c, p, item, kind, code, out);
      TakeFields(m, c, p, item, kind, code, out);
      RemovalCounted(m, m', r);
      RemovalReported(m, m', c, r, out);
    }
  }

  lemma TakeFields(m: Machine, c: ClientId, p: Place, item: Task, kind: Kind, code: seq<Instr>, out: seq<Result>)
    requires c in m.clients && m.clients[c].code != [] && (p.Pending? || p.Working?) && item in Holds(m, p)
    ensures var m' := TickTake(m, c, p, item, kind, code, out);
      && m'.place == m.place[item.id := Gone] && m'.removals == m.removals + [Removal(item.id, c, kind)]
      && Moved(m, m', c) && m'.clients[c].results == m.clients[c].results + out
  {
  }

  lemma TakeHomes(m: Machine, c: ClientId, p: Place, item: Task, kind: Kind, code: seq<Instr>, out: seq<Result>)
    requires Homes(m) && c in m.clients && m.clients[c].code != [] && (p.Pending? || p.Working?) && item in Holds(m, p)
    ensures item.id in m.place && m.place[item.id] == p
    ensures Homes(TickTake(m, c, p, item, kind, code, out))
  {
    var rest := RemoveFirst(Holds(m, p), item);
    Leaves(m, p, item);
    ContinueSame(m, c, code, out);
    Departure(m, Continue(m, c, code, out), item.id, p, rest);
    SameHomes(Put(Continue(m, c, code, out), p, rest).(place := m.place[item.id := Gone]),
              TickTake(m, c, p, item, kind, code, out));
  }

  lemma SameHomes(m: Machine, m': Machine)
    requires Homes(m) && m'.place == m.place && m'.clients == m.clients
    requires m'.pending == m.pending && m'.processing == m.processing
    ensures Homes(m')
  {
    forall r: Place | r != Gone ensures HomeOk(m', r) { assert HomeOk(m, r); }
  }

  /** An entry of a place has that place on record, and removing it removes its id there. */
  lemma Leaves(m: Machine, p: Place, item: Task)
    requires Homes(m) && p != Gone && item in Holds(m, p)
    ensures item.id in m.place && m.place[item.id] == p
    ensures var r := RemoveFirst(Holds(m, p), item); Distinct(r) && Ids(r) == Ids(Holds(m, p)) - {item.id}
  {
    assert HomeOk(m, p);
    IdOf(Holds(m, p), item);
    RemoveFirstIds(Holds(m, p), item);
    assert item.id in IdsAt(m.place, p);
  }

  lemma RemovalCounted(m: Machine, m': Machine, r: Removal)
    requires GoneOnce(m) && r.id in m.place && m.place[r.id] != Gone
    requires m'.place == m.place[r.id := Gone] && m'.removals == m.removals + [r]
    ensures GoneOnce(m')
  {
    assert m'.removals[..|m.removals|] == m.removals;
    IdsAtUpdate(m.place, r.id, Gone, Gone);
  }

  lemma RemovalReported(m: Machine, m': Machine, c: ClientId, r: Removal, out: seq<Result>)
    requires Truthful(m) && Moved(m, m', c) && r.client == c
    requires m'.removals == m.removals + [r]
    requires m'.clients[c].results == ClientOf(m, c).results + out
    requires |out| <= 1 && (if out == [] then [] else Success(c, out[0])) == if Reported(r.kind) then [r] else []
    ensures Truthful(m')
  {
    forall x: ClientId ensures ReportsOk(m'.removals, x, ClientOf(m', x).results) {
      assert ReportsOk(m.removals, x, ClientOf(m, x).results);
      ReportedSnoc(m.removals, r, x);
      if x == c { OutReported(c, ClientOf(m, c).results, out); }
    }
  }

  lemma OutReported(c: ClientId, results: seq<Result>, out: seq<Result>)
    requires |out| <= 1
    ensures Successes(c, results + out) == Successes(c, results) + if out == [] then [] else Success(c, out[0])
  {
    if out == [] {
      assert results + out == results;
    } else {
      assert out == [out[0]];
      SuccessesSnoc(c, results, out[0]);
    }
  }

  lemma GrabKeeps(m: Machine, c: ClientId, d: DeviceId, item: Task)
    requires Inv(m) && c in m.clients && m.clients[c].code != []
    ensures Inv(TickGrab(m, c, d, item))
  {
    if item !in Holds(m, Working(d)) {
      ContinueStill(m, c, [], []);
    } else {
      GrabHomes(m, c, d, item);
      StillGone(m, TickGrab(m, c, d, item), item.id, InHand(c));
      StillTrue(m, TickGrab(m, c, d, item), c);
    }
  }

  lemma GrabHomes(m: Machine, c: ClientId, d: DeviceId, item: Task)
    requires Homes(m) && c in m.clients && m.clients[c].code != [] && item in Holds(m, Working(d))
    ensures item.id in m.place && m.place[item.id] == Working(d)
    ensures Homes(TickGrab(m, c, d, item))
  {
    var p, q := Working(d), InHand(c);
    Leaves(m, p, item);
    Arrives(m, q, item);
    ContinueSame(m, c, [], []);
    Transfer(m, Continue(m, c, [], []), item.id, p, RemoveFirst(Holds(m, p), item), q, Holds(m, q) + [item]);
  }

  /** An id on record elsewhere can be added to a place, at either end. */
  lemma Arrives(m: Machine, q: Place, t: Task)
    requires Homes(m) && q != Gone && (t.id !in m.place || m.place[t.id] != q)
    ensures var s := Holds(m, q);
      && Distinct(s + [t]) && Ids(s + [t]) == Ids(s) + {t.id}
      && Distinct([t] + s) && Ids([t] + s) == Ids(s) + {t.id}
  {
    assert HomeOk(m, q);
    AppendId(Holds(m, q), t);
  }

  lemma PushNewKeeps(m: Machine, c: ClientId, d: DeviceId, t: Task)
    requires Inv(m) && c in m.clients && m.clients[c].code != [] && t.id !in m.place
    ensures Inv(TickPushNew(m, c, d, t))
  {
    var m' := TickPushNew(m, c, d, t);
    PushNewHomes(m, c, d, t);
    SameSuccesses(c, m.clients[c].results, [Depth(|Holds(m, Pending(d))| + 1)]);
    StillGone(m, m', t.id, Pending(d));
    StillTrue(m, m', c);
  }

  lemma PushNewHomes(m: Machine, c: ClientId, d: DeviceId, t: Task)
    requires Homes(m) && c in m.clients && m.clients[c].code != [] && t.id !in m.place
    ensures Homes(TickPushNew(m, c, d, t))
  {
    var q := Pending(d);
    var out := [Depth(|Holds(m, q)| + 1)];
    Arrives(m, q, t);
    ContinueSame(m, c, [], out);
    Arrival(m, Continue(m, c, [], out), t.id, q, Holds(m, q) + [t]);
  }

  lemma MoveKeeps(cfg: Config, m: Machine, c: ClientId, d: DeviceId, left: nat, got: seq<Task>, now: real)
    requires Inv(m) && c in m.clients && m.clients[c].code != []
    ensures Inv(TickMove(cfg, m, c, d, left, got, now))
  {
    var p, q := Pending(d), Working(d);
    var list := Holds(m, p);
    if list == [] {
      ContinueStill(m, c, AfterMoves(cfg, d, got, now), []);
    } else {
      var t := list[0];
      var code := if left <= 1 then AfterMoves(cfg, d, got + [t], now) else [MoveOne(d, left - 1, got + [t], now)];
      MoveHomes(m, c, p, q, code);
      var m' := TickMove(cfg, m, c, d, left, got, now);
      StillGone(m, m', t.id, q);
      StillTrue(m, m', c);
    }
  }

  lemma MoveHomes(m: Machine, c: ClientId, p: Place, q: Place, code: seq<Instr>)
    requires Homes(m) && c in m.clients && m.clients[c].code != [] && p.Pending? && q.Working? && Holds(m, p) != []
    ensures var list := Holds(m, p);
      && list[0].id in m.place && m.place[list[0].id] == p
      && Homes(Put(Put(Continue(m, c, code, []), p, list[1..]), q, [list[0]] + Holds(m, q)).(
                 place := m.place[list[0].id := q]))
  {
    var list := Holds(m, p);
    Leaves(m, p, list[0]);
    Arrives(m, q, list[0]);
    assert RemoveFirst(list, list[0]) == list[1..];
    ContinueSame(m, c, code, []);
    Transfer(m, Continue(m, c, code, []), list[0].id, p, list[1..], q, [list[0]] + Holds(m, q));
  }

  lemma RecoverKeeps(m: Machine, c: ClientId, d: DeviceId, item: Task, now: real, known: bool)
    requires Inv(m) && c in m.clients && m.clients[c].code != []
    ensures Inv(TickRecover(m, c, d, item, now, known))
  {
    if item !in Holds(m, Working(d)) {
      ContinueStill(m, c, [], []);
    } else {
      RecoverHomes(m, c, d, item, now, known);
      SameSuccesses(c, m.clients[c].results, [MovedBack(item.id)]);
      StillGone(m, TickRecover(m, c, d, item, now, known), item.id, Pending(d));
      StillTrue(m, TickRecover(m, c, d, item, now, known), c);
    }
  }

  lemma RecoverHomes(m: Machine, c: ClientId, d: DeviceId, item: Task, now: real, known: bool)
    requires Homes(m) && c in m.clients && m.clients[c].code != [] && item in Holds(m, Working(d))
    ensures item.id in m.place && m.place[item.id] == Working(d)
    ensures Homes(TickRecover(m, c, d, item, now, known))
  {
    var p, q := Working(d), Pending(d);
    var code := if known then [Swap3(item.id, MRecover(now), None)] else [];
    Leaves(m, p, item);
    Arrives(m, q, item);
    assert Distinct(Holds(m, p)) by { assert HomeOk(m, p); }
    RemoveAllIsFirst(Holds(m, p), item);
    ContinueSame(m, c, code, [MovedBack(item.id)]);
    Transfer(m, Continue(m, c, code, [MovedBack(item.id)]), item.id, p, RemoveAll(Holds(m, p), item), q, [item] + Holds(m, q));
  }

  lemma {:induction false} SameIdsHave(a: seq<Task>, b: seq<Task>)
    requires SameIds(a, b)
    ensures Ids(a) == Ids(b) && (Distinct(a) <==> Distinct(b))
  {
    if a != [] {
      assert SameIds(a[1..], b[1..]) by {
        forall i | 0 <= i < |a[1..]| ensures a[1..][i].id == b[1..][i].id { assert a[i + 1].id == b[i + 1].id; }
      }
      SameIdsHave(a[1..], b[1..]);
    }
  }

  lemma PushBackKeeps(m: Machine, c: ClientId, d: DeviceId, tasks: seq<Task>)
    requires Inv(m) && c in m.clients && m.clients[c].code != [] && SameIds(m.clients[c].hands, tasks)
    ensures Inv(TickPushBack(m, c, d, tasks))
  {
    PushBackHomes(m, c, d, tasks);
    PushBackGone(m, c, d, tasks);
    SameSuccesses(c, m.clients[c].results, [Depth(|tasks + Holds(m, Pending(d))|)]);
    StillTrue(m, TickPushBack(m, c, d, tasks), c);
  }

  lemma PushBackGone(m: Machine, c: ClientId, d: DeviceId, tasks: seq<Task>)
    requires Homes(m) && GoneOnce(m) && c in m.clients && m.clients[c].code != [] && SameIds(m.clients[c].hands, tasks)
    ensures GoneOnce(TickPushBack(m, c, d, tasks))
  {
    PushedPlace(m, c, d, tasks, Gone);
    assert HomeOk(m, InHand(c));
    SameIdsHave(m.clients[c].hands, tasks);
    OtherIds(m.place, InHand(c), Gone);
  }

  lemma PlacesAfterPush(place: map<TaskId, Place>, ids: set<TaskId>, q: Place, r: Place)
    ensures IdsAt(map id | id in place.Keys + ids :: if id in ids then q else place[id], r)
         == if r == q then IdsAt(place, r) + ids else IdsAt(place, r) - ids
  {
  }

  /** What a place holds after the push. */
  function Pushed(m: Machine, c: ClientId, d: DeviceId, tasks: seq<Task>, p: Place): seq<Task> {
    if p == InHand(c) then [] else if p == Pending(d) then tasks + Holds(m, p) else Holds(m, p)
  }

  lemma PushedHolds(m: Machine, c: ClientId, d: DeviceId, tasks: seq<Task>, p: Place)
    requires c in m.clients && m.clients[c].code != []
    ensures Holds(TickPushBack(m, c, d, tasks), p) == Pushed(m, c, d, tasks, p)
  {
  }

  lemma PushedPlace(m: Machine, c: ClientId, d: DeviceId, tasks: seq<Task>, r: Place)
    requires c in m.clients && m.clients[c].code != []
    ensures IdsAt(TickPushBack(m, c, d, tasks).place, r)
         == if r == Pending(d) then IdsAt(m.place, r) + Ids(tasks) else IdsAt(m.place, r) - Ids(tasks)
  {
    hide Continue, Ids;
    PlacesAfterPush(m.place, Ids(tasks), Pending(d), r);
  }

  lemma PushBackHomes(m: Machine, c: ClientId, d: DeviceId, tasks: seq<Task>)
    requires Homes(m) && c in m.clients && m.clients[c].code != [] && SameIds(m.clients[c].hands, tasks)
    ensures Homes(TickPushBack(m, c, d, tasks))
  {
    var p, q := InHand(c), Pending(d);
    SameIdsHave(m.clients[c].hands, tasks);
    assert HomeOk(m, p) && HomeOk(m, q);
    assert IdsAt(m.place, p) !! IdsAt(m.place, q);
    ConcatIds(tasks, Holds(m, q));
    forall r: Place | r != Gone ensures HomeOk(TickPushBack(m, c, d, tasks), r) {
      assert HomeOk(m, r);
      PushBackAt(m, c, d, tasks, r);
    }
  }

  lemma PushBackAt(m: Machine, c: ClientId, d: DeviceId, tasks: seq<Task>, r: Place)
    requires c in m.clients && m.clients[c].code != [] && r != Gone && HomeOk(m, r)
    requires Ids(tasks) == IdsAt(m.place, InHand(c))
    requires var q := Pending(d); Distinct(tasks + Holds(m, q)) && Ids(tasks + Holds(m, q)) == Ids(tasks) + Ids(Holds(m, q))
    ensures HomeOk(TickPushBack(m, c, d, tasks), r)
  {
    hide TickPushBack, IdsAt;
    PushedHolds(m, c, d, tasks, r);
    PushedPlace(m, c, d, tasks, r);
    OtherIds(m.place, InHand(c), r);
  }

  lemma OtherIds(place: map<TaskId, Place>, p: Place, r: Place)
    ensures IdsAt(place, r) - IdsAt(place, p) == if r == p then {} else IdsAt(place, r)
  {
  }

  // ---------------------------------------------------------------- every tick

  lemma TakesKeep(cfg: Config, m: Machine, c: ClientId)
    requires Inv(m) && c in m.clients && m.clients[c].code != [] && Takes(m.clients[c].code[0])
    ensures Inv(Tick(cfg, m, c))
  {
    var i := m.clients[c].code[0];
    if i.Take? && i.purpose.ForRequeue? {
      GrabKeeps(m, c, i.device, i.item);
    } else {
      var p, kind, code, out := TakeIs(cfg, m, c);
      TakeKeeps(m, c, p, i.item, kind, code, out);
    }
  }

  lemma NewKeeps(cfg: Config, m: Machine, c: ClientId)
    requires Inv(m) && c in m.clients && m.clients[c].code != [] && Fair(m, Step(c)) && m.clients[c].code[0].PushNew?
    ensures Inv(Tick(cfg, m, c))
  {
    PushNewKeeps(m, c, m.clients[c].code[0].device, m.clients[c].code[0].task);
  }

  lemma BackKeeps(cfg: Config, m: Machine, c: ClientId)
    requires Inv(m) && c in m.clients && m.clients[c].code != [] && Fair(m, Step(c)) && m.clients[c].code[0].PushBack?
    ensures Inv(Tick(cfg, m, c))
  {
    hide Inv, TickPushBack;
    PushBackKeeps(m, c, m.clients[c].code[0].device, m.clients[c].code[0].tasks);
  }

  lemma MovesKeep(cfg: Config, m: Machine, c: ClientId)
    requires Inv(m) && c in m.clients && m.clients[c].code != []
    requires m.clients[c].code[0].MoveOne? || m.clients[c].code[0].RecoverMove?
    ensures Inv(Tick(cfg, m, c))
  {
    hide Inv, TickMove, TickRecover;
    match m.clients[c].code[0]
    case MoveOne(d, left, got, now) => MoveKeeps(cfg, m, c, d, left, got, now);
    case RecoverMove(d, item, now, known) => RecoverKeeps(m, c, d, item, now, known);
  }

  /** Reads only plan what comes next. */
  lemma ReadsKeep(cfg: Config, m: Machine, c: ClientId)
    requires Inv(m) && c in m.clients && m.clients[c].code != [] && Reads(m.clients[c].code[0])
    ensures Inv(Tick(cfg, m, c))
  {
    var code, out := ReadIsContinue(cfg, m, c);
    ContinueStill(m, c, code, out);
  }

  /** Commands that touch only task states. */
  lemma StatesKeep(cfg: Config, m: Machine, c: ClientId)
    requires Inv(m) && c in m.clients && m.clients[c].code != []
    requires var i := m.clients[c].code[0]; i.Cas? || i.Create? || i.Append? || i.Stub?
    ensures Inv(Tick(cfg, m, c))
  {
    match m.clients[c].code[0]
    case Cas(id, mu, default, tries) =>
      if m.clients[c].held.None? { ReadKeeps(m, c, id, mu, default); } else { SwapKeeps(m, c, id, mu, default, tries); }
    case Create(t, s) => WriteKeeps(m, c, t.id, Written(Fresh(Some(t), s, [])));
    case Append(id, e) =>
      if id in m.tasks { WriteKeeps(m, c, id, Appended(e)); } else { ContinueStill(m, c, [Stub(id, e)], []); }
    case Stub(id, e) => WriteKeeps(m, c, id, Written(Fresh(None, e.phase, [e])));
  }

  lemma WriteKeeps(m: Machine, c: ClientId, id: TaskId, effect: Effect)
    requires Inv(m) && c in m.clients && m.clients[c].code != [] && !effect.Mutated?
    requires effect.Appended? ==> id in m.tasks
    ensures Inv(TickWrite(m, c, id, effect))
  {
    var m' := TickWrite(m, c, id, effect);
    assert m'.clients[c].results == m.clients[c].results;
    Still(m, m', c);
  }

  lemma ReadKeeps(m: Machine, c: ClientId, id: TaskId, mu: Mutator, default: Option<FreshState>)
    requires Inv(m) && c in m.clients && m.clients[c].code != [] && m.clients[c].held.None?
    ensures Inv(TickRead(m, c, id, mu, default))
  {
    if Lookup(m, id).None? && default.None? {
      ContinueStill(m, c, [], [Missing(id, mu)]);
    } else {
      Still(m, TickRead(m, c, id, mu, default), c);
    }
  }

  lemma SwapKeeps(m: Machine, c: ClientId, id: TaskId, mu: Mutator, default: Option<FreshState>, tries: nat)
    requires Inv(m) && c in m.clients && m.clients[c].code != [] && m.clients[c].held.Some?
    ensures Inv(TickSwap(m, c, id, mu, default, tries))
  {
    var out := SwapSame(m, c, id, mu, default, tries);
    SameSuccesses(c, m.clients[c].results, out);
    Still(m, TickSwap(m, c, id, mu, default, tries), c);
  }

  lemma SwapSame(m: Machine, c: ClientId, id: TaskId, mu: Mutator, default: Option<FreshState>, tries: nat)
    returns (out: seq<Result>)
    requires c in m.clients && m.clients[c].code != [] && m.clients[c].held.Some?
    ensures var m' := TickSwap(m, c, id, mu, default, tries);
      && Moved(m, m', c) && m'.pending == m.pending && m'.processing == m.processing && m'.place == m.place
      && m'.removals == m.removals && m'.clients[c].hands == m.clients[c].hands
      && m'.clients[c].results == m.clients[c].results + out
    ensures out == [] || (|out| == 1 && Success(c, out[0]) == [])
  {
    hide Mutate, Swap, Continue;
    var cl := m.clients[c];
    if id in m.tasks && m.tasks[id].version == cl.held.value.copy.version {
      out := [Swapped(id, mu, Swap(mu, cl.held.value.copy), cl.first)];
      ContinueFields(m, c, [], out);
    } else if tries <= 1 {
      out := [GaveUp(id, mu, cl.first)];
      ContinueFields(m, c, [], out);
    } else {
      out := [];
    }
  }

  lemma ContinueFields(m: Machine, c: ClientId, code: seq<Instr>, out: seq<Result>)
    requires c in m.clients && m.clients[c].code != []
    ensures var m' := Continue(m, c, code, out);
      && Moved(m, m', c) && m'.pending == m.pending && m'.processing == m.processing && m'.place == m.place
      && m'.removals == m.removals && m'.clients[c].hands == m.clients[c].hands
      && m'.clients[c].results == m.clients[c].results + out
  {
  }

  lemma StepKeeps(cfg: Config, m: Machine, move: Move)
    requires Inv(m) && Fair(m, move)
    ensures Inv(Do(cfg, m, move))
  {
    match move
    case Begin(c, op) =>
      var m' := Start(cfg, m, c, op);
      if m' != m { Still(m, m', c); }
    case Step(c) =>
      if c in m.clients && m.clients[c].code != [] {
        var i := m.clients[c].code[0];
        if Takes(i) { TakesKeep(cfg, m, c); }
        else if i.PushNew? { NewKeeps(cfg, m, c); }
        else if i.PushBack? { BackKeeps(cfg, m, c); }
        else if Moves(i) { MovesKeep(cfg, m, c); }
        else if Reads(i) { ReadsKeep(cfg, m, c); }
        else { StatesKeep(cfg, m, c); }
      }
  }

  lemma {:induction false} RunKeeps(cfg: Config, m: Machine, moves: seq<Move>)
    requires Initial(m) && FairRun(cfg, m, moves)
    ensures Inv(Run(cfg, m, moves))
  {
    if moves == [] {
      forall p: Place | p != Gone ensures HomeOk(m, p) { assert Holds(m, p) == []; }
    } else {
      RunKeeps(cfg, m, moves[..|moves| - 1]);
      StepKeeps(cfg, Run(cfg, m, moves[..|moves| - 1]), moves[|moves| - 1]);
    }
  }

  // ---------------------------------------------------------------- main results

  /** No task is in two places, or twice in one. */
  ghost predicate SingleLocation(m: Machine) {
    forall p: Place, q: Place, i, j ::
      0 <= i < |Holds(m, p)| && 0 <= j < |Holds(m, q)| && Holds(m, p)[i].id == Holds(m, q)[j].id
      ==> p == q && i == j
  }

  ghost predicate Somewhere(m: Machine, id: TaskId) {
    exists p: Place :: id in Ids(Holds(m, p))
  }

  /** Every enqueued task is in exactly one place, or it was removed, and by exactly one command. */
  lemma Conserved(cfg: Config, m: Machine, moves: seq<Move>)
    requires Initial(m) && FairRun(cfg, m, moves)
    ensures var m' := Run(cfg, m, moves);
      && SingleLocation(m')
      && (forall i, j :: 0 <= i < j < |m'.removals| ==> m'.removals[i].id != m'.removals[j].id)
      && forall id :: id in m'.place ==> (Somewhere(m', id) <==> id !in RemovedIds(m'.removals))
  {
    RunKeeps(cfg, m, moves);
    var m' := Run(cfg, m, moves);
    forall p: Place, q: Place, i, j |
      0 <= i < |Holds(m', p)| && 0 <= j < |Holds(m', q)| && Holds(m', p)[i].id == Holds(m', q)[j].id
      ensures p == q && i == j
    {
      assert HomeOk(m', p) && HomeOk(m', q);
      IdAt(Holds(m', p), i);
      IdAt(Holds(m', q), j);
      assert Holds(m', p)[i].id in IdsAt(m'.place, p) && Holds(m', p)[i].id in IdsAt(m'.place, q);
      DistinctAt(Holds(m', p), i, j);
    }
    OnceAt(m'.removals);
    forall id | id in m'.place ensures Somewhere(m', id) <==> id !in RemovedIds(m'.removals) {
      if m'.place[id] == Gone {
        forall p: Place ensures id !in Ids(Holds(m', p)) { if p != Gone { assert HomeOk(m', p); } }
      } else {
        assert HomeOk(m', m'.place[id]);
        assert id in Ids(Holds(m', m'.place[id]));
      }
    }
  }

  lemma {:induction false} RemovedAt(rs: seq<Removal>, i: nat)
    requires i < |rs|
    ensures rs[i].id in RemovedIds(rs)
  {
    if i < |rs| - 1 { RemovedAt(rs[..|rs| - 1], i); }
  }

  lemma {:induction false} OnceAt(rs: seq<Removal>)
    requires Once(rs)
    ensures forall i, j :: 0 <= i < j < |rs| ==> rs[i].id != rs[j].id
  {
    if rs != [] {
      var front := rs[..|rs| - 1];
      OnceAt(front);
      forall i, j | 0 <= i < j < |rs| ensures rs[i].id != rs[j].id {
        if j == |rs| - 1 { RemovedAt(front, i); } else { assert front[i].id != front[j].id; }
      }
    }
  }

  lemma RunReports(cfg: Config, m: Machine, moves: seq<Move>)
    requires Initial(m) && FairRun(cfg, m, moves)
    ensures var m' := Run(cfg, m, moves);
      Once(m'.removals) && forall c :: c in m'.clients ==> ReportsOk(m'.removals, c, m'.clients[c].results)
  {
    RunKeeps(cfg, m, moves);
    var m' := Run(cfg, m, moves);
    forall c | c in m'.clients ensures ReportsOk(m'.removals, c, m'.clients[c].results) {
      assert ReportsOk(m'.removals, c, ClientOf(m', c).results);
    }
  }

  /** At most one ack, abandon or remove of a task is ever told that it succeeded, over all clients,
      and each success that was reported is a removal that happened. */
  lemma OneSuccess(cfg: Config, m: Machine, moves: seq<Move>, c: ClientId, c2: ClientId, i: nat, j: nat)
    requires Initial(m) && FairRun(cfg, m, moves)
    requires c in Run(cfg, m, moves).clients && c2 in Run(cfg, m, moves).clients
    requires i < |Successes(c, Run(cfg, m, moves).clients[c].results)|
    requires j < |Successes(c2, Run(cfg, m, moves).clients[c2].results)|
    requires Successes(c, Run(cfg, m, moves).clients[c].results)[i].id
          == Successes(c2, Run(cfg, m, moves).clients[c2].results)[j].id
    ensures c == c2 && i == j
    ensures Successes(c, Run(cfg, m, moves).clients[c].results)[i] in Run(cfg, m, moves).removals
  {
    var m' := Run(cfg, m, moves);
    RunReports(cfg, m, moves);
    assert ReportsOk(m'.removals, c, m'.clients[c].results) && ReportsOk(m'.removals, c2, m'.clients[c2].results);
    ReportedDistinct(m'.removals, c, c2, i, j);
    ReportedIn(m'.removals, c, i);
  }

  lemma {:induction false} ReportedIn(rs: seq<Removal>, c: ClientId, i: nat)
    requires i < |ReportedBy(rs, c)|
    ensures ReportedBy(rs, c)[i] in rs && ReportedBy(rs, c)[i].client == c
    ensures ReportedBy(rs, c)[i].id in RemovedIds(rs)
  {
    var front := rs[..|rs| - 1];
    if i < |ReportedBy(front, c)| {
      ReportedIn(front, c, i);
      assert ReportedBy(front, c)[i] in front;
    }
  }

  /** In a record without repeats, an id reported twice is one report. */
  lemma {:induction false} ReportedDistinct(rs: seq<Removal>, c: ClientId, c2: ClientId, i: nat, j: nat)
    requires Once(rs) && i < |ReportedBy(rs, c)| && j < |ReportedBy(rs, c2)|
    requires ReportedBy(rs, c)[i].id == ReportedBy(rs, c2)[j].id
    ensures c == c2 && i == j
  {
    var front := rs[..|rs| - 1];
    var a, b := i < |ReportedBy(front, c)|, j < |ReportedBy(front, c2)|;
    if a { ReportedIn(front, c, i); }
    if b { ReportedIn(front, c2, j); }
    if a && b { ReportedDistinct(front, c, c2, i, j); }
  }

  // ---------------------------------------------------------------- what a push may push

  lemma {:induction false} DistinctIs(s: seq<Task>)
    ensures Distinct(s) <==> forall i, j :: 0 <= i < j < |s| ==> s[i].id != s[j].id
  {
    if s != [] {
      var rest := s[1..];
      DistinctIs(rest);
      if Distinct(s) {
        forall i, j | 0 <= i < j < |s| ensures s[i].id != s[j].id { if s[i].id == s[j].id { DistinctAt(s, i, j); } }
      } else if Distinct(rest) {
        var k := IdWitness(rest, s[0].id);
        assert s[k + 1].id == s[0].id;
      } else {
        var i, j :| 0 <= i < j < |rest| && rest[i].id == rest[j].id;
        assert s[i + 1].id == s[j + 1].id;
      }
    }
  }

  predicate ApartAt(m: Machine, p: Place, q: Place) {
    if p == q then Distinct(Holds(m, p)) else Ids(Holds(m, p)) !! Ids(Holds(m, q))
  }

  lemma SingleIsApart(m: Machine)
    ensures SingleLocation(m) <==> forall p: Place, q: Place :: ApartAt(m, p, q)
  {
    if SingleLocation(m) {
      forall p: Place, q: Place ensures ApartAt(m, p, q) { SingleApart(m, p, q); }
    }
    if forall p: Place, q: Place :: ApartAt(m, p, q) {
      forall p: Place, q: Place, i, j |
        0 <= i < |Holds(m, p)| && 0 <= j < |Holds(m, q)| && Holds(m, p)[i].id == Holds(m, q)[j].id
        ensures p == q && i == j
      {
        assert ApartAt(m, p, q);
        IdAt(Holds(m, p), i);
        IdAt(Holds(m, q), j);
        if p == q { DistinctAt(Holds(m, p), i, j); }
      }
    }
  }

  lemma SingleApart(m: Machine, p: Place, q: Place)
    requires SingleLocation(m)
    ensures ApartAt(m, p, q)
  {
    var a, b := Holds(m, p), Holds(m, q);
    if p == q {
      DistinctIs(a);
    } else {
      forall id | id in Ids(a) ensures id !in Ids(b) {
        if id in Ids(b) {
          var i := IdWitness(a, id);
          var j := IdWitness(b, id);
        }
      }
    }
  }

  /** The pushed ids are distinct, and none of them is held anywhere but in the client's own hands. */
  ghost predicate Pushable(m: Machine, c: ClientId, tasks: seq<Task>) {
    Distinct(tasks) && forall p: Place :: p != InHand(c) ==> Ids(tasks) !! Ids(Holds(m, p))
  }

  /** The push of a requeue keeps every task in one place exactly when the pushed ids are distinct and none of them
      is held anywhere but in the client's own hands. */
  lemma PushKeepsSingleLocation(m: Machine, c: ClientId, d: DeviceId, tasks: seq<Task>)
    requires c in m.clients && m.clients[c].code != [] && SingleLocation(m)
    ensures SingleLocation(TickPushBack(m, c, d, tasks)) <==> Pushable(m, c, tasks)
  {
    var m' := TickPushBack(m, c, d, tasks);
    hide TickPushBack, SingleLocation, ApartAt, Pushable;
    SingleIsApart(m);
    SingleIsApart(m');
    if forall p: Place, q: Place :: ApartAt(m', p, q) { PushNeeds(m, c, d, tasks); }
    if Pushable(m, c, tasks) {
      forall p: Place, q: Place ensures ApartAt(m', p, q) {
        assert ApartAt(m, p, q) && ApartAt(m, Pending(d), Pending(d));
        assert ApartAt(m, p, Pending(d)) && ApartAt(m, Pending(d), q);
        PushAllows(m, c, d, tasks, p, q);
      }
    }
  }

  lemma PushNeeds(m: Machine, c: ClientId, d: DeviceId, tasks: seq<Task>)
    requires c in m.clients && m.clients[c].code != []
    requires forall p: Place, q: Place :: ApartAt(TickPushBack(m, c, d, tasks), p, q)
    ensures Pushable(m, c, tasks)
  {
    var m', q := TickPushBack(m, c, d, tasks), Pending(d);
    hide TickPushBack, Holds;
    PushedHolds(m, c, d, tasks, q);
    ConcatIds(tasks, Holds(m, q));
    assert ApartAt(m', q, q);
    forall p: Place | p != InHand(c) ensures Ids(tasks) !! Ids(Holds(m, p)) {
      PushedHolds(m, c, d, tasks, p);
      assert ApartAt(m', p, q);
    }
  }

  lemma PushAllows(m: Machine, c: ClientId, d: DeviceId, tasks: seq<Task>, p: Place, q: Place)
    requires c in m.clients && m.clients[c].code != [] && Pushable(m, c, tasks)
    requires ApartAt(m, p, q) && ApartAt(m, Pending(d), Pending(d)) && ApartAt(m, p, Pending(d)) && ApartAt(m, Pending(d), q)
    ensures ApartAt(TickPushBack(m, c, d, tasks), p, q)
  {
    hide TickPushBack, Holds;
    PushedHolds(m, c, d, tasks, p);
    PushedHolds(m, c, d, tasks, q);
    ConcatIds(tasks, Holds(m, Pending(d)));
  }
}
