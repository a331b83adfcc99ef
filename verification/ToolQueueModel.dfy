/** The tool task queue: leases, priorities, a cap per rate-limit key, backoff and the dead-letter list.
    A log records what happened, so that claims about runs are stated on the log, not on the queue's own counters. */
module ToolQueueModel {
  import opened Foundations

  datatype Status = Queued | Processing | Done | Dead

  datatype Task = Task(
    id: string, key: string, priority: int, rateKey: string, maxAttempts: int,
    attempts: nat, status: Status, owner: string, leaseUntil: real, scheduledAt: real)

  /** `tasks` is the store's dictionary in insertion order. */
  datatype Queue = Queue(tasks: seq<Task>, byKey: map<string, string>, dead: seq<string>)

  datatype Config = Config(rateLimitMax: int, baseBackoff: real)

  function Cap(cfg: Config): int { Max(1, cfg.rateLimitMax) }

  function Base(cfg: Config): real { if cfg.baseBackoff > 0.0 then cfg.baseBackoff else 0.0 }

  // ------------------------------------------------------------------ lookups

  /** The position of a task id, or the length when it is unknown. */
  function Find(tasks: seq<Task>, id: string): (i: nat)
    ensures i <= |tasks|
    ensures i < |tasks| ==> tasks[i].id == id
    ensures forall j :: 0 <= j < i ==> tasks[j].id != id
  {
    if tasks == [] || tasks[0].id == id then 0 else 1 + Find(tasks[1..], id)
  }

  predicate Known(q: Queue, id: string) {
    Find(q.tasks, id) < |q.tasks|
  }

  function TaskOf(q: Queue, id: string): Task
    requires Known(q, id)
  {
    q.tasks[Find(q.tasks, id)]
  }

  // ------------------------------------------------------------------ enqueue

  function NewTask(id: string, key: string, priority: int, rateKey: string, maxAttempts: int): Task {
    Task(id, key, priority, rateKey, maxAttempts, 0, Queued, "", 0.0, 0.0)
  }

  /** The task a key already stands for. */
  predicate Enqueued(q: Queue, key: string) {
    key in q.byKey && Known(q, q.byKey[key])
  }

  function Enqueue(q: Queue, task: Task): Queue {
    if Enqueued(q, task.key) then q
    else q.(tasks := q.tasks + [task], byKey := q.byKey[task.key := task.id])
  }

  // -------------------------------------------------------------------- claim

  predicate Eligible(t: Task, now: real) {
    (t.status == Queued || t.status == Processing) && t.scheduledAt <= now && (t.leaseUntil <= now || t.owner == "")
  }

  /** Tasks of a rate-limit key being processed; an expired lease still counts. */
  function InFlight(tasks: seq<Task>, rateKey: string): nat {
    if tasks == [] then 0 else
      var last := |tasks| - 1;
      InFlight(tasks[..last], rateKey)
        + if tasks[last].status == Processing && tasks[last].rateKey == rateKey then 1 else 0
  }

  predicate Throttled(cfg: Config, q: Queue, t: Task) {
    t.rateKey != "" && InFlight(q.tasks, t.rateKey) >= Cap(cfg)
  }

  predicate Claimable(cfg: Config, q: Queue, i: nat, now: real)
    requires i < |q.tasks|
  {
    Eligible(q.tasks[i], now) && !Throttled(cfg, q, q.tasks[i])
  }

  /** The best claimable task among the first `n`: a later one must have a strictly smaller priority number. */
  function BestOf(cfg: Config, q: Queue, now: real, n: nat): (r: Option<nat>)
    requires n <= |q.tasks|
    ensures r.Some? ==> r.value < n
  {
    if n == 0 then None else
      var best := BestOf(cfg, q, now, n - 1);
      if Claimable(cfg, q, n - 1, now) && (best.None? || q.tasks[n - 1].priority < q.tasks[best.value].priority)
      then Some(n - 1) else best
  }

  function ClaimIndex(cfg: Config, q: Queue, now: real): Option<nat> {
    BestOf(cfg, q, now, |q.tasks|)
  }

  function Lease(t: Task, owner: string, until: real): Task {
    t.(status := Processing, owner := owner, leaseUntil := until)
  }

  function Claim(cfg: Config, q: Queue, owner: string, now: real, timeout: real): Queue {
    match ClaimIndex(cfg, q, now)
    case None => q
    case Some(i) => assert i < |q.tasks|; q.(tasks := q.tasks[i := Lease(q.tasks[i], owner, now + timeout)])
  }

  // --------------------------------------------------------- complete and fail

  function Freed(t: Task, status: Status): Task {
    t.(status := status, owner := "", leaseUntil := 0.0)
  }

  function Complete(q: Queue, id: string): Queue {
    var i := Find(q.tasks, id);
    if i == |q.tasks| then q else q.(tasks := q.tasks[i := Freed(q.tasks[i], Done)])
  }

  function Backoff(cfg: Config, attempts: nat): real
    requires attempts >= 1
  {
    Base(cfg) * (Pow2(attempts - 1) as real)
  }

  function Failed(cfg: Config, t: Task, now: real): Task
  {
    if t.attempts + 1 >= t.maxAttempts then Freed(t, Dead).(attempts := t.attempts + 1)
    else Freed(t, Queued).(attempts := t.attempts + 1, scheduledAt := now + Backoff(cfg, t.attempts + 1))
  }

  function Fail(cfg: Config, q: Queue, id: string, now: real): Queue
  {
    var i := Find(q.tasks, id);
    if i == |q.tasks| then q else
      var t := Failed(cfg, q.tasks[i], now);
      q.(tasks := q.tasks[i := t], dead := if t.status == Dead then q.dead + [id] else q.dead)
  }

  // --------------------------------------------------------------------- runs

  datatype Entry =
    | Claimed(id: string, now: real, expired: bool)
    | Completed(id: string)
    | FailedAt(id: string, now: real)

  datatype System = System(queue: Queue, log: seq<Entry>)

  /** `now` is the argument of the call, which need not be the moment of the call. */
  datatype Event =
    | DoEnqueue(id: string, key: string, priority: int, rateKey: string, maxAttempts: int)
    | DoClaim(owner: string, now: real, timeout: real)
    | DoComplete(id: string)
    | DoFail(id: string, now: real)

  const INITIAL := System(Queue([], map[], []), [])

  function ClaimEntry(cfg: Config, q: Queue, now: real): seq<Entry> {
    match ClaimIndex(cfg, q, now)
    case None => []
    case Some(i) => assert i < |q.tasks|; [Claimed(q.tasks[i].id, now, q.tasks[i].status == Processing)]
  }

  function Next(cfg: Config, s: System, e: Event): System
  {
    match e
    case DoEnqueue(id, key, priority, rateKey, maxAttempts) =>
      s.(queue := Enqueue(s.queue, NewTask(id, key, priority, rateKey, maxAttempts)))
    case DoClaim(owner, now, timeout) =>
      System(Claim(cfg, s.queue, owner, now, timeout), s.log + ClaimEntry(cfg, s.queue, now))
    case DoComplete(id) =>
      s.(queue := Complete(s.queue, id), log := s.log + if Known(s.queue, id) then [Completed(id)] else [])
    case DoFail(id, now) =>
      System(Fail(cfg, s.queue, id, now), s.log + if Known(s.queue, id) then [FailedAt(id, now)] else [])
  }

  function Run(cfg: Config, s: System, events: seq<Event>): System
    decreases |events|
  {
    if events == [] then s else Run(cfg, Next(cfg, s, events[0]), events[1..])
  }

  // ------------------------------------------------------- reading the log

  function Executions(log: seq<Entry>, id: string): nat {
    if log == [] then 0 else
      var last := log[|log| - 1];
      Executions(log[..|log| - 1], id) + if last.Claimed? && last.id == id then 1 else 0
  }

  /** Executions that took over an expired lease. */
  function Takeovers(log: seq<Entry>, id: string): nat {
    if log == [] then 0 else
      var last := log[|log| - 1];
      Takeovers(log[..|log| - 1], id) + if last.Claimed? && last.id == id && last.expired then 1 else 0
  }

  function Failures(log: seq<Entry>, id: string): nat {
    if log == [] then 0 else
      var last := log[|log| - 1];
      Failures(log[..|log| - 1], id) + if last.FailedAt? && last.id == id then 1 else 0
  }

  /** The time given to the latest claim of a task. */
  function LastClaim(log: seq<Entry>, id: string): Option<real> {
    if log == [] then None else
      var last := log[|log| - 1];
      if last.Claimed? && last.id == id then Some(last.now) else LastClaim(log[..|log| - 1], id)
  }

  function FirstFailure(log: seq<Entry>, id: string): Option<real> {
    if log == [] then None else
      var earlier := FirstFailure(log[..|log| - 1], id);
      var last := log[|log| - 1];
      if earlier.None? && last.FailedAt? && last.id == id then Some(last.now) else earlier
  }
}
