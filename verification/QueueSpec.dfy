/**
 The queue as one abstract machine: every task has a place, a status, a generation and a retry count.
 Which of the waiting tasks a pop takes is left open; everything else is determined.
 */
module QueueSpec {
  import opened Wrappers
  import opened Motion
  import opened TaskModel
  import opened RedisMachine

  datatype Where =
    | Nowhere
    | Waiting(device: DeviceId, enqueuedAt: real)
    | AtWork(device: DeviceId, enqueuedAt: real, startedAt: real)

  datatype Info = Info(where: Where, status: Status, gen: nat, retries: nat)

  type Abs = map<TaskId, Info>

  /** What an operation answers: nothing, a number, yes or no, or popped ids with their stamps. */
  datatype Answer = Done | Count(n: nat) | Flag(ok: bool) | Popped(tasks: seq<(TaskId, nat)>)

  function WaitingAt(a: Abs, d: DeviceId): set<TaskId> {
    set id | id in a && a[id].where.Waiting? && a[id].where.device == d
  }

  function StaleAt(a: Abs, d: DeviceId, timeout: real, now: real): set<TaskId> {
    set id | id in a && a[id].where.AtWork? && a[id].where.device == d
      && a[id].where.startedAt > 0.0 && now - a[id].where.startedAt > timeout
  }

  function OverAge(a: Abs, d: DeviceId, maxAge: real, now: real): set<TaskId> {
    set id | id in a && a[id].where.Waiting? && a[id].where.device == d
      && a[id].where.enqueuedAt > 0.0 && now - a[id].where.enqueuedAt > maxAge
  }

  // ---------------------------------------------------------------- what happens to one task

  function Start(i: Info, now: real): Info {
    if i.where.Waiting? then i.(where := AtWork(i.where.device, i.where.enqueuedAt, now), status := Dispatching) else i
  }

  function Return(i: Info): Info {
    if i.where.AtWork?
    then i.(where := Waiting(i.where.device, i.where.enqueuedAt), status := Queued, gen := i.gen + 1) else i
  }

  function Expire(i: Info): Info {
    i.(where := Nowhere, status := if i.status == Queued then Expired else i.status)
  }

  function StartAll(a: Abs, ids: set<TaskId>, now: real): Abs {
    map id | id in a :: if id in ids then Start(a[id], now) else a[id]
  }

  function ReturnAll(a: Abs, ids: set<TaskId>): Abs {
    map id | id in a :: if id in ids then Return(a[id]) else a[id]
  }

  function ExpireAll(a: Abs, ids: set<TaskId>): Abs {
    map id | id in a :: if id in ids then Expire(a[id]) else a[id]
  }

  predicate WorksAt(a: Abs, d: DeviceId, id: TaskId) {
    id in a && a[id].where.AtWork? && a[id].where.device == d
  }

  /** An ack succeeds when the task is at work on this device and its generation is the current one;
      without a generation, when the strict flag is off or the task was never recovered. */
  predicate AckOk(a: Abs, d: DeviceId, id: TaskId, gen: Option<nat>, strict: bool) {
    WorksAt(a, d, id) && (if gen.Some? then gen.value == a[id].gen else !(strict && a[id].gen > 0))
  }

  /** `ids` lists, without repeats, as many waiting tasks as the limit allows, each with its generation. */
  ghost predicate PopChoice(a: Abs, d: DeviceId, limit: nat, ids: seq<(TaskId, nat)>) {
    (forall i, j :: 0 <= i < j < |ids| ==> ids[i].0 != ids[j].0)
    && (forall i :: 0 <= i < |ids| ==> ids[i].0 in WaitingAt(a, d) && ids[i].1 == a[ids[i].0].gen)
    && |ids| == if limit < |WaitingAt(a, d)| then limit else |WaitingAt(a, d)|
  }

  function Firsts(ids: seq<(TaskId, nat)>): set<TaskId> {
    set p | p in ids :: p.0
  }

  /** One operation of the abstract machine.  Where a requeue leaves the tasks is open, because the two stores
      differ there; it changes no generation and no retry count. */
  ghost predicate Next(strict: bool, a: Abs, op: Op, r: Answer, a': Abs) {
    match op
    case OpCreate(t, st) => r == Done && a' == a[t.id := Info(Nowhere, st, 0, 0)]
    case OpRecord(id, e) => id in a && r == Done && a' == a[id := a[id].(status := e.phase)]
    case OpEnqueue(d, t, now) =>
      t.id in a && a' == a[t.id := a[t.id].(where := Waiting(d, now), status := Queued)]
      && r == Count(|WaitingAt(a', d)|)
    case OpPop(d, limit, now) =>
      r.Popped? && PopChoice(a, d, limit, r.tasks) && a' == StartAll(a, Firsts(r.tasks), now)
    case OpRequeue(d, tasks) =>
      r.Count? && a.Keys <= a'.Keys && forall id :: id in a ==> a'[id].gen == a[id].gen && a'[id].retries == a[id].retries
    case OpMark(id) => r == Done && a' == if id in a then a[id := a[id].(status := Dispatched)] else a
    case OpRetry(id) =>
      if id in a then r == Count(a[id].retries + 1) && a' == a[id := a[id].(retries := a[id].retries + 1)]
      else r == Count(0) && a' == a
    case OpReset(id) =>
      r == Done && a' == if id in a then a[id := a[id].(status := Queued, retries := a[id].retries + 1)] else a
    case OpAck(d, id, gen) =>
      var ok := AckOk(a, d, id, gen, strict);
      r == Flag(ok) && a' == if ok then a[id := a[id].(where := Nowhere)] else a
    case OpRecover(d, timeout, now) =>
      r == Count(|StaleAt(a, d, timeout, now)|) && a' == ReturnAll(a, StaleAt(a, d, timeout, now))
    case OpExpire(d, maxAge, now) =>
      r == Count(|OverAge(a, d, maxAge, now)|) && a' == ExpireAll(a, OverAge(a, d, maxAge, now))
    case OpRemove(d, id) =>
      var ok := id in WaitingAt(a, d);
      r == Flag(ok) && a' == if ok then a[id := a[id].(where := Nowhere)] else a
    case OpAbandon(d, id) =>
      var ok := WorksAt(a, d, id);
      r == Flag(ok) && a' == if ok then a[id := a[id].(where := Nowhere, status := DeadLetter)] else a
  }

  /** Only a pop and a requeue have a choice: two stores in the same abstract state answer everything else alike. */
  lemma Determined(strict: bool, a: Abs, op: Op, r1: Answer, a1: Abs, r2: Answer, a2: Abs)
    requires Next(strict, a, op, r1, a1) && Next(strict, a, op, r2, a2) && !op.OpPop? && !op.OpRequeue?
    ensures r1 == r2 && a1 == a2
  {
  }

  // ---------------------------------------------------------------- generations

  /** The operation recovers this task. */
  predicate Recovers(a: Abs, op: Op, id: TaskId) {
    op.OpRecover? && id in StaleAt(a, op.device, op.timeout, op.now)
  }

  /** The only operation that changes a generation is a recovery of that very task, by one. */
  lemma GenerationStep(strict: bool, a: Abs, op: Op, r: Answer, a': Abs, id: TaskId)
    requires Next(strict, a, op, r, a') && id in a && !(op.OpCreate? && op.task.id == id)
    ensures id in a' && a'[id].gen == a[id].gen + if Recovers(a, op, id) then 1 else 0
  {
  }

  datatype Entry = Entry(op: Op, answer: Answer)

  /** A run of the abstract machine: states[k] --run[k]--> states[k+1]; no id is created twice. */
  ghost predicate IsRun(strict: bool, states: seq<Abs>, run: seq<Entry>) {
    |states| == |run| + 1
    && forall k :: 0 <= k < |run| ==>
      Next(strict, states[k], run[k].op, run[k].answer, states[k + 1])
      && (run[k].op.OpCreate? ==> run[k].op.task.id !in states[k])
  }

  /** The operations of a run with their answers. */
  function Log(ops: seq<Op>, answers: seq<Answer>): (r: seq<Entry>)
    requires |ops| == |answers|
  {
    seq(|ops|, k requires 0 <= k < |ops| => Entry(ops[k], answers[k]))
  }

  /** A run grows at the front by one step. */
  lemma RunCons(strict: bool, a: Abs, op: Op, r: Answer, states: seq<Abs>, ops: seq<Op>, answers: seq<Answer>)
    requires |ops| == |answers| && states != [] && IsRun(strict, states, Log(ops, answers))
    requires Next(strict, a, op, r, states[0]) && (op.OpCreate? ==> op.task.id !in a)
    ensures IsRun(strict, [a] + states, Log([op] + ops, [r] + answers))
  {
    var run, longer, all := Log(ops, answers), Log([op] + ops, [r] + answers), [a] + states;
    forall k | 0 <= k < |longer|
      ensures Next(strict, all[k], longer[k].op, longer[k].answer, all[k + 1])
      ensures longer[k].op.OpCreate? ==> longer[k].op.task.id !in all[k]
    {
      if k > 0 {
        assert longer[k] == run[k - 1] && all[k] == states[k - 1] && all[k + 1] == states[k];
      }
    }
  }

  function RecoveriesOf(states: seq<Abs>, run: seq<Entry>, i: nat, j: nat, id: TaskId): nat
    requires i <= j <= |run| && |states| == |run| + 1
    decreases j - i
  {
    if i == j then 0
    else RecoveriesOf(states, run, i, j - 1, id) + if Recovers(states[j - 1], run[j - 1].op, id) then 1 else 0
  }

  /** Between any two points of a run the generation rises by the number of recoveries. */
  lemma {:induction false} GenerationCounts(strict: bool, states: seq<Abs>, run: seq<Entry>, i: nat, j: nat, id: TaskId)
    requires IsRun(strict, states, run) && i <= j <= |run| && id in states[i]
    ensures id in states[j] && states[j][id].gen == states[i][id].gen + RecoveriesOf(states, run, i, j, id)
    decreases j - i
  {
    if i < j {
      GenerationCounts(strict, states, run, i, j - 1, id);
      GenerationStep(strict, states[j - 1], run[j - 1].op, run[j - 1].answer, states[j], id);
    }
  }

  lemma {:induction false} NoRecoveries(states: seq<Abs>, run: seq<Entry>, i: nat, j: nat, id: TaskId)
    requires i <= j <= |run| && |states| == |run| + 1
    ensures RecoveriesOf(states, run, i, j, id) == 0
      <==> forall k :: i <= k < j ==> !Recovers(states[k], run[k].op, id)
    decreases j - i
  {
    if i < j { NoRecoveries(states, run, i, j - 1, id); }
  }

  /** The stamp that a pop at step i put on a task is good for an ack at step j exactly when the task
      is still at work there and was not recovered in between. */
  lemma StampedAck(strict: bool, states: seq<Abs>, run: seq<Entry>, i: nat, j: nat, p: nat)
    requires IsRun(strict, states, run) && i < j < |run|
    requires run[i].op.OpPop? && run[i].answer.Popped? && p < |run[i].answer.tasks|
    requires var (id, gen) := run[i].answer.tasks[p]; run[j].op.OpAck? && run[j].op.id == id && run[j].op.gen == Some(gen)
    ensures var (id, gen) := run[i].answer.tasks[p];
      run[j].answer == Flag(WorksAt(states[j], run[j].op.device, id)
                            && forall k :: i <= k < j ==> !Recovers(states[k], run[k].op, id))
    ensures run[j].answer == Flag(false) ==> states[j + 1] == states[j]
  {
    var (id, gen) := run[i].answer.tasks[p];
    assert Next(strict, states[j], run[j].op, run[j].answer, states[j + 1]);
    assert Next(strict, states[i], run[i].op, run[i].answer, states[i + 1]);
    assert run[i].answer.tasks[p].0 in WaitingAt(states[i], run[i].op.device);
    GenerationCounts(strict, states, run, i, j, id);
    NoRecoveries(states, run, i, j, id);
  }

  /** Since its creation a task's generation is the number of its recoveries. */
  lemma GenerationIsRecoveries(strict: bool, states: seq<Abs>, run: seq<Entry>, i: nat, j: nat)
    requires IsRun(strict, states, run) && i < j <= |run| && run[i].op.OpCreate?
    ensures run[i].op.task.id in states[j]
      && states[j][run[i].op.task.id].gen == RecoveriesOf(states, run, i + 1, j, run[i].op.task.id)
  {
    hide RecoveriesOf, Next;
    CreationStep(strict, states[i], run[i].op, run[i].answer, states[i + 1]);
    GenerationCounts(strict, states, run, i + 1, j, run[i].op.task.id);
  }

  lemma CreationStep(strict: bool, a: Abs, op: Op, r: Answer, a': Abs)
    requires Next(strict, a, op, r, a') && op.OpCreate?
    ensures op.task.id in a' && a'[op.task.id].gen == 0
  {
  }
}
