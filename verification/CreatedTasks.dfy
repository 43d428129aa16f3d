/** Tasks from the creation chain meet the queue: the pop gate never drops them. */
module CreatedTasks {
  import opened Motion
  import opened TaskModel
  import opened RedisMachine
  import opened RedisStore
  import V = Validation
  import opened Fifo

  /** The gate that a pop runs on each task it moved. */
  function QueueGate(t: Task): bool {
    V.GateAccepts(t.body, t.device.name != "")
  }

  /** The body came out of the creation chain for a profile that lets it pass. */
  ghost predicate Created(body: Body) {
    exists c, params, p: V.Profile :: p.Valid() && V.Create(c, params, p).Some? && V.Create(c, params, p).value == body && V.Passes(c, params, p)
  }

  lemma CreatedAccepted(t: Task)
    requires Created(t.body) && t.device.name != ""
    ensures QueueGate(t)
  {
    var c, params, p: V.Profile :|
      p.Valid() && V.Create(c, params, p).Some? && V.Create(c, params, p).value == t.body && V.Passes(c, params, p);
    V.CreationImpliesGate(c, params, p);
  }

  /** A pop of created tasks hands out every task it moved, in order, and fails none of them. */
  lemma CreatedTasksPop(strict: bool, s: Store, d: DeviceId, limit: nat, now: real)
    requires forall t :: t in At(s.pending, d) ==> Created(t.body) && t.device.name != ""
    ensures var (cfg, k) := (Config(QueueGate, strict), Taken(s, d, limit));
      var (s1, out) := PopS(cfg, s, d, limit, now);
      |out| == k && Order(s1, d) == Order(s, d)
      && forall i :: 0 <= i < k ==> out[i] == At(s.pending, d)[i].(stamp := out[i].stamp)
  {
    var cfg, k := Config(QueueGate, strict), Taken(s, d, limit);
    forall t | t in At(s.pending, d)[..k] ensures cfg.gate(t) {
      assert t in At(s.pending, d);
      CreatedAccepted(t);
    }
    PopKeepsOrder(cfg, s, d, limit, now);
  }
}
