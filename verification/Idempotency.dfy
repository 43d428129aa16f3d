/**
 Two-level idempotency claims: an in-process table per worker in front of Redis SET NX EX, released by
 compare-and-delete.  Workers interleave freely, one table access or Redis command at a time.
 */
module Idempotency {

  type Key = nat
  type WorkerId = nat
  /** The request id that a claim stores; each request has its own. */
  type RequestId = nat

  const MAX_ENTRIES: nat := 4096

  datatype Entry = Entry(value: RequestId, expires: real)
  type Table = map<Key, Entry>

  // ---------------------------------------------------------------- the in-process table

  predicate Live(t: Table, k: Key, now: real) {
    k in t && t[k].expires > now
  }

  /** What a sweep may leave: everything below the cap; at the cap the expired entries go, and if that is
      not enough the oldest go too, until one slot is free. */
  ghost predicate Swept(before: Table, after: Table, now: real) {
    (forall k :: k in after ==> k in before && after[k] == before[k])
    && (if |before| < MAX_ENTRIES then after == before
        else
          |after| < MAX_ENTRIES && (forall k :: k in after ==> after[k].expires > now)
          && ((forall k :: k in before && k !in after ==> before[k].expires <= now) || |after| == MAX_ENTRIES - 1)
          && forall k, j :: k in before && k !in after && j in after ==> before[k].expires <= after[j].expires)
  }

  function Claimed(t: Table, k: Key, v: RequestId, now: real, ttl: real): (Table, bool) {
    if Live(t, k, now) then (t, false) else (t[k := Entry(v, now + ttl)], true)
  }

  /** Compare-and-delete. */
  function Dropped(t: Table, k: Key, v: RequestId): Table {
    if k in t && t[k].value == v then t - {k} else t
  }

  class InProcessClaims {
    var store: Table

    constructor ()
      ensures store == map[]
    {
      store := map[];
    }

    /** An entry that expires first. */
    method Oldest() returns (oldest: Key)
      requires store != map[]
      ensures oldest in store && forall k :: k in store ==> store[oldest].expires <= store[k].expires
    {
      oldest :| oldest in store;
      var rest := store.Keys - {oldest};
      while rest != {}
        invariant oldest in store && rest <= store.Keys
        invariant forall k :: k in store && k !in rest ==> store[oldest].expires <= store[k].expires
        decreases |rest|
      {
        var k :| k in rest;
        if store[k].expires < store[oldest].expires { oldest := k; }
        rest := rest - {k};
      }
    }

    method Sweep(now: real)
      modifies this
      ensures Swept(old(store), store, now)
    {
      if |store| < MAX_ENTRIES { return; }
      ghost var all := store;
      store := map k | k in store && store[k].expires > now :: store[k];
      ghost var unexpired := store;
      while |store| >= MAX_ENTRIES
        invariant forall k :: k in store ==> k in unexpired && store[k] == unexpired[k]
        invariant store == unexpired || |store| >= MAX_ENTRIES - 1
        invariant forall k, j :: k in unexpired && k !in store && j in store ==> unexpired[k].expires <= store[j].expires
        decreases |store|
      {
        var k := Oldest();
        ghost var before := store;
        store := store - {k};
        RemoveSize(before, k);
      }
    }

    method Claim(k: Key, v: RequestId, now: real, ttl: real) returns (ok: bool)
      requires |store| <= MAX_ENTRIES
      modifies this
      ensures |store| <= MAX_ENTRIES
      ensures exists swept :: Swept(old(store), swept, now) && (store, ok) == Claimed(swept, k, v, now, ttl)
      ensures |old(store)| < 4096 ==> ok == !(k in old(store) && old(store)[k].expires > now)
      ensures ok ==> k in store && store[k] == Entry(v, now + ttl)
    {
      ghost var before := store;
      Sweep(now);
      ghost var swept := store;
      if k in store && store[k].expires > now { return false; }
      store := store[k := Entry(v, now + ttl)];
      InsertSize(swept, k, store[k]);
      return true;
    }

    method Release(k: Key, v: RequestId)
      modifies this
      ensures store == Dropped(old(store), k, v)
    {
      if k in store && store[k].value == v { store := store - {k}; }
    }
  }

  lemma RemoveSize(t: Table, k: Key)
    requires k in t
    ensures |t - {k}| == |t| - 1
  {
    assert t.Keys == (t - {k}).Keys + {k};
    assert |t| == |t.Keys| && |t - {k}| == |(t - {k}).Keys|;
  }

  lemma InsertSize(t: Table, k: Key, e: Entry)
    ensures |t[k := e]| <= |t| + 1
  {
    assert t[k := e].Keys == t.Keys + {k};
    assert |t[k := e]| == |t[k := e].Keys| && |t| == |t.Keys|;
  }

  lemma DropSize(t: Table, k: Key, v: RequestId)
    ensures |Dropped(t, k, v)| <= |t|
  {
    var r := Dropped(t, k, v);
    if r != t { assert t.Keys == r.Keys + {k}; }
    assert |t| == |t.Keys| && |r| == |r.Keys|;
  }

  lemma SweptSize(before: Table, after: Table, k: Key, v: RequestId, now: real, ttl: real)
    requires |before| <= MAX_ENTRIES && Swept(before, after, now)
    ensures |Claimed(after, k, v, now, ttl).0| <= MAX_ENTRIES
  {
    if !Live(after, k, now) { InsertSize(after, k, Entry(v, now + ttl)); }
  }

  // ---------------------------------------------------------------- the workers

  /** Where a request stands between its steps. */
  datatype Phase =
    | Barred
    | Setting(worker: WorkerId, key: Key)
    | BackingOut(worker: WorkerId, key: Key)
    | Refused
    | Winner(worker: WorkerId, key: Key)
    | Releasing(key: Key)
    | Finished

  datatype Win = Win(key: Key, value: RequestId, at: real)

  /** `wins` and `freed` are history: who won when, and whose key the compare-and-delete has let go. */
  datatype System = System(
    now: real,
    tables: map<WorkerId, Table>,
    redis: Table,
    phases: map<RequestId, Phase>,
    wins: seq<Win>,
    freed: set<RequestId>)

  /** A Redis call is answered, or fails after or before taking effect. */
  datatype Luck = Answered | FailedAfter | FailedBefore

  datatype Step =
    | Wait(time: real)
    | TableClaim(worker: WorkerId, key: Key, value: RequestId, swept: Table)
    | SetNx(value: RequestId, luck: Luck)
    | BackOut(value: RequestId)
    | TableRelease(value: RequestId)
    | CompareDelete(value: RequestId, luck: Luck)

  datatype Config = Config(ttl: real, production: bool)

  function TableOf(s: System, w: WorkerId): Table {
    if w in s.tables then s.tables[w] else map[]
  }

  function SetPhase(s: System, v: RequestId, p: Phase): System {
    s.(phases := s.phases[v := p])
  }

  function Win1(s: System, v: RequestId, w: WorkerId, k: Key): System {
    SetPhase(s.(wins := s.wins + [Win(k, v, s.now)]), v, Winner(w, k))
  }

  /** A request uses its id for one claim; a winner may release. */
  predicate Enabled(s: System, step: Step) {
    match step
    case Wait(d) => d >= 0.0
    case TableClaim(w, k, v, swept) => v !in s.phases
    case SetNx(v, _) => v in s.phases && s.phases[v].Setting?
    case BackOut(v) => v in s.phases && s.phases[v].BackingOut?
    case TableRelease(v) => v in s.phases && s.phases[v].Winner?
    case CompareDelete(v, _) => v in s.phases && s.phases[v].Releasing?
  }

  function DoSet(cfg: Config, s: System, v: RequestId, luck: Luck): System
    requires Enabled(s, SetNx(v, luck))
  {
    var (w, k) := (s.phases[v].worker, s.phases[v].key);
    var free := !Live(s.redis, k, s.now);
    var written := s.(redis := if free && !luck.FailedBefore? then s.redis[k := Entry(v, s.now + cfg.ttl)] else s.redis);
    if luck.Answered? then (if free then Win1(written, v, w, k) else SetPhase(written, v, BackingOut(w, k)))
    else if cfg.production then SetPhase(written, v, BackingOut(w, k))
    else Win1(written, v, w, k)
  }

  function Do(cfg: Config, s: System, step: Step): System
    requires Enabled(s, step)
  {
    match step
    case Wait(d) => s.(now := s.now + d)
    case TableClaim(w, k, v, swept) =>
      var (t, ok) := Claimed(swept, k, v, s.now, cfg.ttl);
      SetPhase(s.(tables := s.tables[w := t]), v, if ok then Setting(w, k) else Barred)
    case SetNx(v, luck) => DoSet(cfg, s, v, luck)
    case BackOut(v) =>
      var (w, k) := (s.phases[v].worker, s.phases[v].key);
      SetPhase(s.(tables := s.tables[w := Dropped(TableOf(s, w), k, v)]), v, Refused)
    case TableRelease(v) =>
      var (w, k) := (s.phases[v].worker, s.phases[v].key);
      SetPhase(s.(tables := s.tables[w := Dropped(TableOf(s, w), k, v)]), v, Releasing(k))
    case CompareDelete(v, luck) =>
      var k := s.phases[v].key;
      SetPhase(if luck.FailedBefore? then s
               else s.(redis := Dropped(s.redis, k, v), freed := s.freed + {v}), v, Finished)
  }

  /** A sweep leaves what it may leave. */
  ghost predicate Possible(s: System, step: Step) {
    Enabled(s, step) && (step.TableClaim? ==> Swept(TableOf(s, step.worker), step.swept, s.now))
  }

  ghost predicate CanRun(cfg: Config, s: System, steps: seq<Step>)
    decreases |steps|
  {
    steps == [] || (Possible(s, steps[0]) && CanRun(cfg, Do(cfg, s, steps[0]), steps[1..]))
  }

  ghost function Run(cfg: Config, s: System, steps: seq<Step>): System
    requires CanRun(cfg, s, steps)
    decreases |steps|
  {
    if steps == [] then s else Run(cfg, Do(cfg, s, steps[0]), steps[1..])
  }

  const IDLE: System := System(0.0, map[], map[], map[], [], {})

  /** Every Redis call is answered. */
  predicate NoOutage(steps: seq<Step>) {
    forall i :: 0 <= i < |steps| ==> (steps[i].SetNx? || steps[i].CompareDelete? ==> steps[i].luck.Answered?)
  }

  // ---------------------------------------------------------------- safety

  /** The claim has neither been let go nor expired. */
  predicate Standing(cfg: Config, s: System, w: Win) {
    w.value !in s.freed && s.now < w.at + cfg.ttl
  }

  /** A standing claim holds its key in Redis. */
  predicate Held(cfg: Config, s: System, w: Win) {
    Standing(cfg, s, w) ==> (w.key in s.redis && s.redis[w.key] == Entry(w.value, w.at + cfg.ttl))
  }

  predicate OneStanding(cfg: Config, s: System) {
    forall i, j :: 0 <= i < j < |s.wins| && s.wins[i].key == s.wins[j].key ==>
      !(Standing(cfg, s, s.wins[i]) && Standing(cfg, s, s.wins[j]))
  }

  /** A winner's request is past its claim. */
  predicate Past(s: System, w: Win) {
    w.value in s.phases
    && (s.phases[w.value].Winner? || s.phases[w.value].Releasing? || s.phases[w.value].Finished?)
  }

  predicate TablesFit(s: System) {
    forall w :: w in s.tables ==> |s.tables[w]| <= 4096
  }

  predicate Inv(cfg: Config, s: System) {
    (forall i :: 0 <= i < |s.wins| ==> Held(cfg, s, s.wins[i]) && Past(s, s.wins[i]))
    && OneStanding(cfg, s)
  }

  lemma TablesStep(cfg: Config, s: System, step: Step)
    requires Possible(s, step) && TablesFit(s)
    ensures TablesFit(Do(cfg, s, step))
  {
    match step
    case TableClaim(w, k, v, swept) => SweptSize(TableOf(s, w), swept, k, v, s.now, cfg.ttl);
    case BackOut(v) => DropSize(TableOf(s, s.phases[v].worker), s.phases[v].key, v);
    case TableRelease(v) => DropSize(TableOf(s, s.phases[v].worker), s.phases[v].key, v);
    case _ =>
  }

  /** A step that neither wins nor touches Redis keeps the claims as they are. */
  lemma QuietStep(cfg: Config, s: System, s': System)
    requires Inv(cfg, s) && s'.redis == s.redis && s'.wins == s.wins && s'.freed == s.freed && s'.now >= s.now
    requires forall i :: 0 <= i < |s.wins| ==> Past(s', s.wins[i])
    ensures Inv(cfg, s')
  {
    forall i | 0 <= i < |s.wins| ensures Held(cfg, s', s.wins[i]) { assert Held(cfg, s, s.wins[i]); }
    forall i, j | 0 <= i < j < |s'.wins| && s'.wins[i].key == s'.wins[j].key
      ensures !(Standing(cfg, s', s'.wins[i]) && Standing(cfg, s', s'.wins[j]))
    {
      assert !(Standing(cfg, s, s.wins[i]) && Standing(cfg, s, s.wins[j]));
    }
  }

  /** Writing a key that nobody holds disturbs no standing claim. */
  lemma SetStep(cfg: Config, s: System, v: RequestId, luck: Luck)
    requires Inv(cfg, s) && Enabled(s, SetNx(v, luck)) && (cfg.production || luck.Answered?)
    ensures Inv(cfg, DoSet(cfg, s, v, luck))
  {
    var s' := DoSet(cfg, s, v, luck);
    var k := s.phases[v].key;
    forall i | 0 <= i < |s.wins| ensures Held(cfg, s', s.wins[i]) && Past(s', s.wins[i]) {
      assert Held(cfg, s, s.wins[i]) && Past(s, s.wins[i]);
    }
    if s'.wins != s.wins {
      assert s'.wins == s.wins + [Win(k, v, s.now)];
      forall i | 0 <= i < |s.wins| && s.wins[i].key == k ensures !Standing(cfg, s, s.wins[i]) {
        assert Held(cfg, s, s.wins[i]);
      }
      NewWin(cfg, s, s', k);
    } else {
      forall i, j | 0 <= i < j < |s'.wins| && s'.wins[i].key == s'.wins[j].key
        ensures !(Standing(cfg, s', s'.wins[i]) && Standing(cfg, s', s'.wins[j]))
      {
        assert !(Standing(cfg, s, s.wins[i]) && Standing(cfg, s, s.wins[j]));
      }
    }
  }

  lemma NewWin(cfg: Config, s: System, s': System, k: Key)
    requires OneStanding(cfg, s) && s'.now == s.now && s'.freed == s.freed
    requires |s'.wins| == |s.wins| + 1 && s'.wins[..|s.wins|] == s.wins && s'.wins[|s.wins|].key == k
    requires forall i :: 0 <= i < |s.wins| && s.wins[i].key == k ==> !Standing(cfg, s, s.wins[i])
    ensures OneStanding(cfg, s')
  {
    forall i, j | 0 <= i < j < |s'.wins| && s'.wins[i].key == s'.wins[j].key
      ensures !(Standing(cfg, s', s'.wins[i]) && Standing(cfg, s', s'.wins[j]))
    {
      assert s'.wins[i] == s.wins[i];
      if j < |s.wins| {
        assert s'.wins[j] == s.wins[j];
        assert !(Standing(cfg, s, s.wins[i]) && Standing(cfg, s, s.wins[j]));
      }
    }
  }

  /** A compare-and-delete removes only its own claim, however late it comes. */
  lemma DeleteStep(cfg: Config, s: System, v: RequestId, luck: Luck)
    requires Inv(cfg, s) && Enabled(s, CompareDelete(v, luck))
    ensures Inv(cfg, Do(cfg, s, CompareDelete(v, luck)))
  {
    var s' := Do(cfg, s, CompareDelete(v, luck));
    forall i | 0 <= i < |s.wins| ensures Held(cfg, s', s.wins[i]) && Past(s', s.wins[i]) {
      assert Held(cfg, s, s.wins[i]) && Past(s, s.wins[i]);
    }
    forall i, j | 0 <= i < j < |s'.wins| && s'.wins[i].key == s'.wins[j].key
      ensures !(Standing(cfg, s', s'.wins[i]) && Standing(cfg, s', s'.wins[j]))
    {
      assert !(Standing(cfg, s, s.wins[i]) && Standing(cfg, s, s.wins[j]));
    }
  }

  lemma StepKeeps(cfg: Config, s: System, step: Step)
    requires Inv(cfg, s) && Possible(s, step) && (cfg.production || (step.SetNx? ==> step.luck.Answered?))
    ensures Inv(cfg, Do(cfg, s, step))
  {
    match step
    case SetNx(v, luck) => SetStep(cfg, s, v, luck);
    case CompareDelete(v, luck) => DeleteStep(cfg, s, v, luck);
    case _ =>
      var s' := Do(cfg, s, step);
      forall i | 0 <= i < |s.wins| ensures Past(s', s.wins[i]) { assert Past(s, s.wins[i]); }
      QuietStep(cfg, s, s');
  }

  lemma {:induction false} RunKeeps(cfg: Config, s: System, steps: seq<Step>)
    requires CanRun(cfg, s, steps) && TablesFit(s)
    ensures TablesFit(Run(cfg, s, steps))
    ensures Inv(cfg, s) && (cfg.production || NoOutage(steps)) ==> Inv(cfg, Run(cfg, s, steps))
    decreases |steps|
  {
    hide Inv, TablesFit;
    if steps != [] {
      TablesStep(cfg, s, steps[0]);
      if Inv(cfg, s) && (cfg.production || NoOutage(steps)) { StepKeeps(cfg, s, steps[0]); }
      assert NoOutage(steps) ==> NoOutage(steps[1..]) by {
        assert forall i :: 0 <= i < |steps[1..]| ==> steps[1..][i] == steps[i + 1];
      }
      RunKeeps(cfg, Do(cfg, s, steps[0]), steps[1..]);
    }
  }

  /** Across every interleaving of the workers, with Redis answering or in production whatever Redis does:
      at no time do two claims on one key stand, every standing claim holds its key in Redis (so no late
      release has removed it), and no in-process table exceeds its cap. */
  lemma AtMostOneLiveClaim(cfg: Config, steps: seq<Step>)
    requires CanRun(cfg, IDLE, steps)
    ensures TablesFit(Run(cfg, IDLE, steps))
    ensures cfg.production || NoOutage(steps) ==> OneStanding(cfg, Run(cfg, IDLE, steps))
    ensures cfg.production || NoOutage(steps) ==>
      forall i :: 0 <= i < |Run(cfg, IDLE, steps).wins| ==> Held(cfg, Run(cfg, IDLE, steps), Run(cfg, IDLE, steps).wins[i])
  {
    RunKeeps(cfg, IDLE, steps);
  }

  /** Outside production an outage lets two workers win the same key at once. */
  lemma OutageAdmitsTwo() returns (cfg: Config, steps: seq<Step>)
    ensures !cfg.production && CanRun(cfg, IDLE, steps) && !OneStanding(cfg, Run(cfg, IDLE, steps))
  {
    cfg := Config(600.0, false);
    var a, b, c, d := TableClaim(1, 5, 10, map[]), TableClaim(2, 5, 20, map[]), SetNx(10, FailedBefore), SetNx(20, FailedBefore);
    steps := [a, b, c, d];
    var s1 := Do(cfg, IDLE, a);
    var s2 := Do(cfg, s1, b);
    var s3 := Do(cfg, s2, c);
    var s4 := Do(cfg, s3, d);
    assert steps[1..] == [b, c, d] && [b, c, d][1..] == [c, d] && [c, d][1..] == [d] && [d][1..] == [];
    assert CanRun(cfg, s3, [d]) && Run(cfg, s3, [d]) == s4;
    assert CanRun(cfg, s2, [c, d]) && Run(cfg, s2, [c, d]) == s4;
    assert CanRun(cfg, s1, [b, c, d]) && Run(cfg, s1, [b, c, d]) == s4;
    assert s4.wins == [Win(5, 10, 0.0), Win(5, 20, 0.0)];
    assert Standing(cfg, s4, s4.wins[0]) && Standing(cfg, s4, s4.wins[1]);
  }

  // ---------------------------------------------------------------- whom the table bars

  /** A run written out: states[k] --steps[k]--> states[k + 1]. */
  ghost predicate Trace(cfg: Config, states: seq<System>, steps: seq<Step>) {
    |states| == |steps| + 1
    && forall k :: 0 <= k < |steps| ==> Possible(states[k], steps[k]) && states[k + 1] == Do(cfg, states[k], steps[k])
  }

  /** Every run can be written out. */
  lemma {:induction false} TraceOf(cfg: Config, s: System, steps: seq<Step>) returns (states: seq<System>)
    requires CanRun(cfg, s, steps)
    ensures Trace(cfg, states, steps) && states[0] == s && states[|steps|] == Run(cfg, s, steps)
    decreases |steps|
  {
    if steps == [] {
      states := [s];
    } else {
      var rest := TraceOf(cfg, Do(cfg, s, steps[0]), steps[1..]);
      states := [s] + rest;
      forall k | 0 <= k < |steps|
        ensures Possible(states[k], steps[k]) && states[k + 1] == Do(cfg, states[k], steps[k])
      {
        if k > 0 { assert states[k] == rest[k - 1] && steps[k] == steps[1..][k - 1]; }
      }
    }
  }

  /** Step `i` is a table claim of the key on the worker that is let through. */
  predicate Takes(states: seq<System>, steps: seq<Step>, i: nat, w: WorkerId, k: Key) {
    i < |steps| && |states| == |steps| + 1 && steps[i].TableClaim? && steps[i].worker == w && steps[i].key == k
    && steps[i].value in states[i + 1].phases && !states[i + 1].phases[steps[i].value].Barred?
  }

  /** Between the two steps the request that claims at step `i` gives its table entry back. */
  predicate GivesBack(steps: seq<Step>, i: nat, j: nat)
    requires i < |steps| && j <= |steps|
  {
    steps[i].TableClaim?
    && exists x :: i < x < j && (steps[x] == BackOut(steps[i].value) || steps[x] == TableRelease(steps[i].value))
  }

  predicate BelowCap(states: seq<System>, n: nat, w: WorkerId)
    requires n <= |states|
  {
    forall i :: 0 <= i < n ==> |TableOf(states[i], w)| < 4096
  }

  lemma {:induction false} TimePasses(cfg: Config, states: seq<System>, steps: seq<Step>, i: nat, j: nat)
    requires Trace(cfg, states, steps) && i <= j <= |steps|
    ensures states[i].now <= states[j].now
    decreases j - i
  {
    if i < j { TimePasses(cfg, states, steps, i, j - 1); }
  }

  lemma {:induction false} IdsStay(cfg: Config, states: seq<System>, steps: seq<Step>, i: nat, j: nat)
    requires Trace(cfg, states, steps) && i <= j <= |steps|
    ensures states[i].phases.Keys <= states[j].phases.Keys
    decreases j - i
  {
    if i < j { IdsStay(cfg, states, steps, i, j - 1); }
  }

  /** What one step does to the entry of a key in the table of a worker below its cap. */
  lemma TableStep(cfg: Config, s: System, step: Step, w: WorkerId, k: Key)
    requires Possible(s, step) && |TableOf(s, w)| < MAX_ENTRIES
    ensures var (t, t') := (TableOf(s, w), TableOf(Do(cfg, s, step), w));
      if step.TableClaim? && step.worker == w && step.key == k && !(k in t && t[k].expires > s.now)
      then k in t' && t'[k] == Entry(step.value, s.now + cfg.ttl) && !Do(cfg, s, step).phases[step.value].Barred?
      else (k in t' ==> k in t && t'[k] == t[k])
           && (k in t && k !in t' ==> step == BackOut(t[k].value) || step == TableRelease(t[k].value))
           && (step.TableClaim? && step.worker == w && step.key == k ==> Do(cfg, s, step).phases[step.value].Barred?)
  {
    match step
    case TableClaim(_, _, _, swept) => ClaimTable(cfg, s, step, w, k);
    case BackOut(v) => DropTable(cfg, s, step, w, k);
    case TableRelease(v) => DropTable(cfg, s, step, w, k);
    case _ =>
  }

  lemma ClaimTable(cfg: Config, s: System, step: Step, w: WorkerId, k: Key)
    requires Possible(s, step) && step.TableClaim? && |TableOf(s, w)| < MAX_ENTRIES
    ensures var (t, t') := (TableOf(s, w), TableOf(Do(cfg, s, step), w));
      if step.worker == w && step.key == k && !(k in t && t[k].expires > s.now)
      then k in t' && t'[k] == Entry(step.value, s.now + cfg.ttl) && !Do(cfg, s, step).phases[step.value].Barred?
      else (k in t' <==> k in t) && (k in t ==> t'[k] == t[k])
           && (step.worker == w && step.key == k ==> Do(cfg, s, step).phases[step.value].Barred?)
  {
    if step.worker == w { assert step.swept == TableOf(s, w); }
  }

  lemma DropTable(cfg: Config, s: System, step: Step, w: WorkerId, k: Key)
    requires Possible(s, step) && (step.BackOut? || step.TableRelease?)
    ensures var (t, t') := (TableOf(s, w), TableOf(Do(cfg, s, step), w));
      (k in t' ==> k in t && t'[k] == t[k]) && (k in t && k !in t' ==> step.value == t[k].value)
  {
    hide Swept;
  }

  /** The entry of a key in the table is that of a claim which was let through and has not been given back. */
  lemma {:induction false} EntryFrom(cfg: Config, states: seq<System>, steps: seq<Step>, n: nat, w: WorkerId, k: Key) returns (i: nat)
    requires Trace(cfg, states, steps) && states[0].tables == map[] && n <= |steps| && BelowCap(states, n, w)
    requires k in TableOf(states[n], w)
    ensures i < n && Takes(states, steps, i, w, k)
    ensures TableOf(states[n], w)[k] == Entry(steps[i].value, states[i].now + cfg.ttl)
    ensures !GivesBack(steps, i, n)
  {
    hide Possible, Do, Takes, GivesBack, OnKey;
    var s, step := states[n - 1], steps[n - 1];
    StepAt(cfg, states, steps, n - 1, w, k);
    if Takes(states, steps, n - 1, w, k) {
      i := n - 1;
      NotYetBack(steps, i);
    } else {
      i := EntryFrom(cfg, states, steps, n - 1, w, k);
      IsClaim(states, steps, i, w, k);
      GivenBackLater(steps, i, n);
      StillHis(cfg, states, steps, i, n - 1, w, k);
      if step == BackOut(steps[i].value) || step == TableRelease(steps[i].value) {
        PossibleAt(cfg, states, steps, n - 1);
        GivingBackDrops(cfg, s, step, steps[i].value, w, k);
      }
    }
  }

  lemma NotYetBack(steps: seq<Step>, i: nat)
    requires i < |steps|
    ensures !GivesBack(steps, i, i + 1)
  {
  }

  lemma PossibleAt(cfg: Config, states: seq<System>, steps: seq<Step>, k: nat)
    requires Trace(cfg, states, steps) && k < |steps|
    ensures Possible(states[k], steps[k]) && states[k + 1] == Do(cfg, states[k], steps[k])
  {
  }

  lemma StepAt(cfg: Config, states: seq<System>, steps: seq<Step>, n: nat, w: WorkerId, k: Key)
    requires Trace(cfg, states, steps) && n < |steps| && |TableOf(states[n], w)| < 4096
    ensures var (s, t, t', step) := (states[n], TableOf(states[n], w), TableOf(states[n + 1], w), steps[n]);
      if step.TableClaim? && step.worker == w && step.key == k && !(k in t && t[k].expires > s.now)
      then k in t' && t'[k] == Entry(step.value, s.now + cfg.ttl) && Takes(states, steps, n, w, k)
      else (k in t' ==> k in t && t'[k] == t[k])
           && (k in t && k !in t' ==> step == BackOut(t[k].value) || step == TableRelease(t[k].value))
           && !Takes(states, steps, n, w, k)
  {
    TableStep(cfg, states[n], steps[n], w, k);
  }

  /** The phases that a request claiming this key on this worker can be in. */
  predicate OnKey(p: Phase, w: WorkerId, k: Key) {
    (p.Setting? || p.BackingOut? || p.Winner? ==> p.worker == w && p.key == k) && !p.Barred?
  }

  lemma OnKeyStep(cfg: Config, s: System, step: Step, v: RequestId, w: WorkerId, k: Key)
    requires Possible(s, step) && v in s.phases && OnKey(s.phases[v], w, k)
    ensures v in Do(cfg, s, step).phases && OnKey(Do(cfg, s, step).phases[v], w, k)
  {
  }

  /** From its claim on a request stands for its own worker and key. */
  lemma {:induction false} StillHis(cfg: Config, states: seq<System>, steps: seq<Step>, i: nat, n: nat, w: WorkerId, k: Key)
    requires Trace(cfg, states, steps) && Takes(states, steps, i, w, k) && i < n <= |steps|
    ensures steps[i].value in states[n].phases && OnKey(states[n].phases[steps[i].value], w, k)
    decreases n
  {
    hide Possible, Do;
    if n == i + 1 {
      ClaimPhase(cfg, states, steps, i, w, k);
    } else {
      StillHis(cfg, states, steps, i, n - 1, w, k);
      OnKeyStep(cfg, states[n - 1], steps[n - 1], steps[i].value, w, k);
    }
  }

  lemma ClaimPhase(cfg: Config, states: seq<System>, steps: seq<Step>, i: nat, w: WorkerId, k: Key)
    requires Trace(cfg, states, steps) && Takes(states, steps, i, w, k)
    ensures states[i + 1].phases[steps[i].value] == Setting(w, k)
  {
    assert states[i + 1] == Do(cfg, states[i], steps[i]);
  }

  lemma GivenBackLater(steps: seq<Step>, i: nat, n: nat)
    requires i < n <= |steps| && steps[i].TableClaim?
    ensures var v := steps[i].value;
      GivesBack(steps, i, n)
      <==> GivesBack(steps, i, n - 1) || (i < n - 1 && (steps[n - 1] == BackOut(v) || steps[n - 1] == TableRelease(v)))
  {
  }

  lemma IsClaim(states: seq<System>, steps: seq<Step>, i: nat, w: WorkerId, k: Key)
    requires Takes(states, steps, i, w, k)
    ensures i < |steps| && steps[i].TableClaim?
  {
  }

  /** A request that gives its entry back takes exactly its own entry off its own table. */
  lemma GivingBackDrops(cfg: Config, s: System, step: Step, v: RequestId, w: WorkerId, k: Key)
    requires Possible(s, step) && (step == BackOut(v) || step == TableRelease(v)) && OnKey(s.phases[v], w, k)
    ensures k in TableOf(Do(cfg, s, step), w) ==> TableOf(Do(cfg, s, step), w)[k].value != v
  {
  }

  /** While a claim is younger than its time to live and not given back, its entry is in the table. */
  lemma {:induction false} EntryStays(cfg: Config, states: seq<System>, steps: seq<Step>, i: nat, n: nat, w: WorkerId, k: Key)
    requires Trace(cfg, states, steps) && Takes(states, steps, i, w, k) && i < n <= |steps| && BelowCap(states, n, w)
    requires states[n].now < states[i].now + cfg.ttl && !GivesBack(steps, i, n)
    ensures k in TableOf(states[n], w) && TableOf(states[n], w)[k] == Entry(steps[i].value, states[i].now + cfg.ttl)
    decreases n
  {
    hide Possible, Do, Takes, GivesBack;
    StepAt(cfg, states, steps, n - 1, w, k);
    IsClaim(states, steps, i, w, k);
    if i < n - 1 {
      TimePasses(cfg, states, steps, n - 1, n);
      GivenBackLater(steps, i, n);
      EntryStays(cfg, states, steps, i, n - 1, w, k);
    }
  }

  /** In every run from the start, whatever luck Redis brings, a table claim on a worker whose table stays below its
      cap is barred exactly when an earlier claim of the key on that worker was let through less than the time to live
      ago and has been neither backed out nor released. */
  lemma TableBarsExactly(cfg: Config, states: seq<System>, steps: seq<Step>, j: nat)
    requires Trace(cfg, states, steps) && states[0] == IDLE && j < |steps| && steps[j].TableClaim?
    requires BelowCap(states, j + 1, steps[j].worker)
    ensures steps[j].value in states[j + 1].phases
    ensures states[j + 1].phases[steps[j].value].Barred?
      <==> exists i: nat :: i < j && Takes(states, steps, i, steps[j].worker, steps[j].key)
                       && states[j].now < states[i].now + cfg.ttl && !GivesBack(steps, i, j)
  {
    var w, k := steps[j].worker, steps[j].key;
    ClaimAnswered(cfg, states, steps, j);
    StepAt(cfg, states, steps, j, w, k);
    hide Possible, Do, GivesBack, Takes;
    if states[j + 1].phases[steps[j].value].Barred? {
      var i := EntryFrom(cfg, states, steps, j, w, k);
    }
    if i: nat :| i < j && Takes(states, steps, i, w, k) && states[j].now < states[i].now + cfg.ttl
                 && !GivesBack(steps, i, j) {
      EntryStays(cfg, states, steps, i, j, w, k);
    }
  }

  lemma ClaimAnswered(cfg: Config, states: seq<System>, steps: seq<Step>, j: nat)
    requires Trace(cfg, states, steps) && j < |steps| && steps[j].TableClaim?
    ensures steps[j].value in states[j + 1].phases
    ensures states[j + 1].phases[steps[j].value].Barred? <==> !Takes(states, steps, j, steps[j].worker, steps[j].key)
  {
    assert states[j + 1] == Do(cfg, states[j], steps[j]);
  }

  /** So two claims of a key that one worker lets through are a time to live apart, or the earlier one was given back
      in between: only then can both win, with Redis answering or not. */
  lemma ClaimsApart(cfg: Config, states: seq<System>, steps: seq<Step>, i: nat, j: nat, w: WorkerId, k: Key)
    requires Trace(cfg, states, steps) && states[0] == IDLE && i < j < |steps| && BelowCap(states, j + 1, w)
    requires Takes(states, steps, i, w, k) && Takes(states, steps, j, w, k)
    ensures states[j].now >= states[i].now + cfg.ttl || GivesBack(steps, i, j)
  {
    hide Possible, Do, GivesBack;
    TableBarsExactly(cfg, states, steps, j);
    ClaimAnswered(cfg, states, steps, j);
  }

  /** The request has claimed the key on this worker and not given it back. */
  predicate Holding(p: Phase, w: WorkerId, k: Key) {
    p == Setting(w, k) || p == BackingOut(w, k) || p == Winner(w, k)
  }

  lemma HoldingBefore(cfg: Config, s: System, step: Step, v: RequestId, w: WorkerId, k: Key)
    requires Possible(s, step) && v in Do(cfg, s, step).phases && Holding(Do(cfg, s, step).phases[v], w, k)
    ensures step != BackOut(v) && step != TableRelease(v)
    ensures (step.TableClaim? && step.value == v && step.worker == w && step.key == k)
            || (v in s.phases && Holding(s.phases[v], w, k) && !(step.TableClaim? && step.value == v))
  {
    hide Swept;
  }

  lemma {:induction false} HeldSince(cfg: Config, states: seq<System>, steps: seq<Step>, n: nat, v: RequestId, w: WorkerId, k: Key)
    returns (i: nat)
    requires Trace(cfg, states, steps) && states[0] == IDLE && n <= |steps|
    requires v in states[n].phases && Holding(states[n].phases[v], w, k)
    ensures i < n && Takes(states, steps, i, w, k) && steps[i].value == v && !GivesBack(steps, i, n)
  {
    hide Possible, Do, GivesBack;
    PossibleAt(cfg, states, steps, n - 1);
    HoldingBefore(cfg, states[n - 1], steps[n - 1], v, w, k);
    var step := steps[n - 1];
    if step.TableClaim? && step.value == v {
      i := n - 1;
      NotYetBack(steps, i);
    } else {
      i := HeldSince(cfg, states, steps, n - 1, v, w, k);
      GivenBackLater(steps, i, n);
    }
  }

  /** In every run, with any luck and outside production too: of two requests that have both won a key on one worker and
      not begun to release it, one claimed its table entry at least a time to live after the other. */
  lemma OneWorkerOneWinner(cfg: Config, states: seq<System>, steps: seq<Step>, n: nat, v1: RequestId, v2: RequestId, w: WorkerId,
                           k: Key) returns (i: nat, j: nat)
    requires Trace(cfg, states, steps) && states[0] == IDLE && n <= |steps| && BelowCap(states, n, w) && v1 != v2
    requires v1 in states[n].phases && states[n].phases[v1] == Winner(w, k)
    requires v2 in states[n].phases && states[n].phases[v2] == Winner(w, k)
    ensures i < n && j < n && Takes(states, steps, i, w, k) && Takes(states, steps, j, w, k)
    ensures steps[i].value == v1 && steps[j].value == v2
    ensures states[j].now >= states[i].now + cfg.ttl || states[i].now >= states[j].now + cfg.ttl
  {
    hide Possible, Do, GivesBack;
    i := HeldSince(cfg, states, steps, n, v1, w, k);
    j := HeldSince(cfg, states, steps, n, v2, w, k);
    if i < j {
      ClaimsApart(cfg, states, steps, i, j, w, k);
      BackEarlier(steps, i, j, n);
    } else {
      ClaimsApart(cfg, states, steps, j, i, w, k);
      BackEarlier(steps, j, i, n);
    }
  }

  lemma BackEarlier(steps: seq<Step>, i: nat, j: nat, n: nat)
    requires i < |steps| && j <= n <= |steps| && !GivesBack(steps, i, n)
    ensures !GivesBack(steps, i, j)
  {
  }

  /** While a winner is releasing, with its entry given back and its key still in Redis, an outage outside production
      lets a second claim of the same worker win: then two claims of one worker stand. */
  lemma ReleaseAdmitsTwo() returns (cfg: Config, states: seq<System>, steps: seq<Step>)
    ensures !cfg.production && Trace(cfg, states, steps) && states[0] == IDLE && |steps| == 5
    ensures Takes(states, steps, 0, 1, 5) && Takes(states, steps, 3, 1, 5) && GivesBack(steps, 0, 3)
    ensures !OneStanding(cfg, states[5])
  {
    hide Do, Possible;
    cfg := Config(600.0, false);
    var a, b, c := TableClaim(1, 5, 10, map[]), SetNx(10, FailedBefore), TableRelease(10);
    var d, e := TableClaim(1, 5, 20, map[]), SetNx(20, FailedBefore);
    ClaimFree(cfg, IDLE, 1, 5, 10);
    var s1 := Do(cfg, IDLE, a);
    WinsAnyway(cfg, s1, 10, 1, 5);
    var s2 := Do(cfg, s1, b);
    ReleasesTable(cfg, s2, 10, 1, 5);
    var s3 := Do(cfg, s2, c);
    ClaimFree(cfg, s3, 1, 5, 20);
    var s4 := Do(cfg, s3, d);
    WinsAnyway(cfg, s4, 20, 1, 5);
    var s5 := Do(cfg, s4, e);
    states, steps := [IDLE, s1, s2, s3, s4, s5], [a, b, c, d, e];
    FiveSteps(cfg, states, steps);
    assert steps[2] == TableRelease(steps[0].value);
    assert s5.wins[0] == Win(5, 10, 0.0) && s5.wins[1] == Win(5, 20, 0.0);
    assert Standing(cfg, s5, s5.wins[0]) && Standing(cfg, s5, s5.wins[1]);
  }

  lemma FiveSteps(cfg: Config, states: seq<System>, steps: seq<Step>)
    requires |states| == 6 && |steps| == 5
    requires Possible(states[0], steps[0]) && states[1] == Do(cfg, states[0], steps[0])
    requires Possible(states[1], steps[1]) && states[2] == Do(cfg, states[1], steps[1])
    requires Possible(states[2], steps[2]) && states[3] == Do(cfg, states[2], steps[2])
    requires Possible(states[3], steps[3]) && states[4] == Do(cfg, states[3], steps[3])
    requires Possible(states[4], steps[4]) && states[5] == Do(cfg, states[4], steps[4])
    ensures Trace(cfg, states, steps)
  {
    hide Do, Swept;
    forall k | 0 <= k < 5 ensures Possible(states[k], steps[k]) && states[k + 1] == Do(cfg, states[k], steps[k]) {
      assert k == 0 || k == 1 || k == 2 || k == 3 || k == 4;
    }
  }

  /** Outside production a Redis call that fails counts as won. */
  lemma WinsAnyway(cfg: Config, s: System, v: RequestId, w: WorkerId, k: Key)
    requires !cfg.production && v in s.phases && s.phases[v] == Setting(w, k)
    ensures Possible(s, SetNx(v, FailedBefore))
    ensures Do(cfg, s, SetNx(v, FailedBefore))
      == s.(wins := s.wins + [Win(k, v, s.now)], phases := s.phases[v := Winner(w, k)])
  {
  }

  lemma ReleasesTable(cfg: Config, s: System, v: RequestId, w: WorkerId, k: Key)
    requires v in s.phases && s.phases[v] == Winner(w, k) && k in TableOf(s, w)
    requires TableOf(s, w) == map[k := Entry(v, TableOf(s, w)[k].expires)]
    ensures Possible(s, TableRelease(v))
    ensures Do(cfg, s, TableRelease(v)) == s.(tables := s.tables[w := map[]], phases := s.phases[v := Releasing(k)])
  {
    assert TableOf(s, w) - {k} == map[];
  }

  /** A claim on an empty table. */
  lemma ClaimFree(cfg: Config, s: System, w: WorkerId, k: Key, v: RequestId)
    requires v !in s.phases && TableOf(s, w) == map[]
    ensures Possible(s, TableClaim(w, k, v, map[]))
    ensures Do(cfg, s, TableClaim(w, k, v, map[]))
      == s.(tables := s.tables[w := map[k := Entry(v, s.now + cfg.ttl)]], phases := s.phases[v := Setting(w, k)])
  {
    assert map[][k := Entry(v, s.now + cfg.ttl)] == map[k := Entry(v, s.now + cfg.ttl)];
  }

  // ---------------------------------------------------------------- who wins in Redis

  /** Every key in Redis is that of a claim which won and has not been let go. */
  ghost predicate Backed(cfg: Config, s: System) {
    forall k :: k in s.redis ==>
      s.redis[k].value !in s.freed && Win(k, s.redis[k].value, s.redis[k].expires - cfg.ttl) in s.wins
  }

  /** A winner's phase is about the key it won. */
  predicate WonKey(s: System, w: Win) {
    w.value in s.phases
    && match s.phases[w.value]
       case Winner(_, k) => k == w.key
       case Releasing(k) => k == w.key
       case Finished => w.value in s.freed
       case _ => false
  }

  ghost predicate Honest(cfg: Config, s: System) {
    Backed(cfg, s) && (forall w :: w in s.wins ==> WonKey(s, w))
    && forall v :: v in s.freed ==> v in s.phases && s.phases[v].Finished?
  }

  lemma HonestStep(cfg: Config, s: System, step: Step)
    requires Honest(cfg, s) && Possible(s, step) && (step.SetNx? || step.CompareDelete? ==> step.luck.Answered?)
    ensures Honest(cfg, Do(cfg, s, step))
  {
    hide Swept;
    var s' := Do(cfg, s, step);
    forall w | w in s'.wins ensures WonKey(s', w) {
      if w in s.wins {
        assert WonKey(s, w);
        WonStays(cfg, s, step, w);
      }
    }
    forall k | k in s'.redis
      ensures s'.redis[k].value !in s'.freed && Win(k, s'.redis[k].value, s'.redis[k].expires - cfg.ttl) in s'.wins
    {
      RedisStep(cfg, s, step, k);
    }
  }

  lemma WonStays(cfg: Config, s: System, step: Step, w: Win)
    requires WonKey(s, w) && Possible(s, step) && (step.SetNx? || step.CompareDelete? ==> step.luck.Answered?)
    ensures WonKey(Do(cfg, s, step), w)
  {
    hide Swept;
  }

  lemma RedisStep(cfg: Config, s: System, step: Step, k: Key)
    requires Honest(cfg, s) && Possible(s, step) && (step.SetNx? || step.CompareDelete? ==> step.luck.Answered?)
    requires k in Do(cfg, s, step).redis
    ensures var s' := Do(cfg, s, step);
      s'.redis[k].value !in s'.freed && Win(k, s'.redis[k].value, s'.redis[k].expires - cfg.ttl) in s'.wins
  {
    hide Swept;
    var s' := Do(cfg, s, step);
    if k in s.redis { assert WonKey(s, Win(k, s.redis[k].value, s.redis[k].expires - cfg.ttl)); }
    if step.SetNx? && s'.redis != s.redis && k == s.phases[step.value].key {
      assert s'.wins[|s.wins|] == Win(k, step.value, s.now);
    }
  }

  lemma {:induction false} HonestRun(cfg: Config, states: seq<System>, steps: seq<Step>, n: nat)
    requires Trace(cfg, states, steps) && states[0] == IDLE && n <= |steps| && NoOutage(steps)
    ensures Honest(cfg, states[n]) && Inv(cfg, states[n])
  {
    hide Possible, Do, Honest, Inv;
    if n == 0 {
      HonestAtFirst(cfg);
    } else {
      HonestRun(cfg, states, steps, n - 1);
      PossibleAt(cfg, states, steps, n - 1);
      HonestStep(cfg, states[n - 1], steps[n - 1]);
      StepKeeps(cfg, states[n - 1], steps[n - 1]);
    }
  }

  lemma HonestAtFirst(cfg: Config)
    ensures Honest(cfg, IDLE) && Inv(cfg, IDLE)
  {
  }

  /** In every run without an outage a SET NX wins exactly when no claim on its key stands. */
  lemma WinsExactlyWhenNoneStands(cfg: Config, states: seq<System>, steps: seq<Step>, n: nat)
    requires Trace(cfg, states, steps) && states[0] == IDLE && n < |steps| && NoOutage(steps) && steps[n].SetNx?
    ensures var (s, v) := (states[n], steps[n].value);
      v in s.phases && s.phases[v].Setting? && v in states[n + 1].phases
      && (states[n + 1].phases[v].Winner? <==> forall w :: w in s.wins && w.key == s.phases[v].key ==> !Standing(cfg, s, w))
  {
    HonestRun(cfg, states, steps, n);
    PossibleAt(cfg, states, steps, n);
    SetWins(cfg, states[n], steps[n].value);
  }

  lemma SetWins(cfg: Config, s: System, v: RequestId)
    requires Honest(cfg, s) && Inv(cfg, s) && Enabled(s, SetNx(v, Answered))
    ensures var k := s.phases[v].key;
      DoSet(cfg, s, v, Answered).phases[v].Winner? <==> forall w :: w in s.wins && w.key == k ==> !Standing(cfg, s, w)
  {
    var k := s.phases[v].key;
    if Live(s.redis, k, s.now) {
      var w := Win(k, s.redis[k].value, s.redis[k].expires - cfg.ttl);
      assert w in s.wins && w.key == k && Standing(cfg, s, w);
    } else {
      forall w | w in s.wins && w.key == k ensures !Standing(cfg, s, w) {
        var i :| 0 <= i < |s.wins| && s.wins[i] == w;
        assert Held(cfg, s, s.wins[i]);
      }
    }
  }
}
