/** The queue object with its in-memory store, and the worker that drives it. */
module ToolQueueService {
  import opened Foundations
  import opened ToolQueueModel
  import opened ToolQueueRuns

  /** The order of `eligible.sort(key=priority)`: the sort is stable, so equal priorities keep insertion order. */
  predicate PriorityLe(tasks: seq<Task>, a: nat, b: nat) {
    if a < |tasks| && b < |tasks| && tasks[a].priority != tasks[b].priority then tasks[a].priority < tasks[b].priority
    else if (a < |tasks|) != (b < |tasks|) then a < |tasks|
    else a <= b
  }

  lemma PriorityOrder(tasks: seq<Task>)
    ensures TotalOrder((a: nat, b: nat) => PriorityLe(tasks, a, b))
  {
  }

  method SortByPriority(tasks: seq<Task>, eligible: set<nat>) returns (order: seq<nat>)
    requires forall i :: i in eligible ==> i < |tasks|
    ensures forall i :: i in order <==> i in eligible
    ensures forall k :: 0 <= k < |order| ==> order[k] < |tasks|
    ensures forall a, b :: 0 <= a < b < |order| ==> PriorityLe(tasks, order[a], order[b])
  {
    PriorityOrder(tasks);
    var le := (a: nat, b: nat) => PriorityLe(tasks, a, b);
    SortedIsSorted(eligible, le);
    order := Sort(eligible, le);
    forall k | 0 <= k < |order| ensures order[k] < |tasks| { assert order[k] in eligible; }
    forall a, b | 0 <= a < b < |order| ensures PriorityLe(tasks, order[a], order[b]) { assert le(order[a], order[b]); }
  }

  class AsyncToolQueue {
    const cfg: Config
    var tasks: seq<Task>
    var byKey: map<string, string>
    var dead: seq<string>

    function View(): Queue
      reads this
    {
      Queue(tasks, byKey, dead)
    }

    constructor (rateLimitMax: int, baseBackoff: real)
      ensures cfg == Config(rateLimitMax, baseBackoff) && View() == Queue([], map[], [])
    {
      cfg := Config(rateLimitMax, baseBackoff);
      tasks, byKey, dead := [], map[], [];
    }

    method Lookup(id: string) returns (i: nat)
      ensures i == Find(tasks, id)
    {
      i := 0;
      while i < |tasks| && tasks[i].id != id
        invariant i <= |tasks|
        invariant forall j :: 0 <= j < i ==> tasks[j].id != id
      {
        i := i + 1;
      }
      FindIs(tasks, id, i);
    }

    /** `freshId` is the `uuid4` a new task would get. */
    method Add(freshId: string, key: string, priority: int, rateKey: string, maxAttempts: int) returns (id: string)
      modifies `tasks, `byKey
      ensures View() == Enqueue(old(View()), NewTask(freshId, key, priority, rateKey, maxAttempts))
      ensures id == if old(Enqueued(View(), key)) then old(byKey)[key] else freshId
    {
      if key in byKey {
        var i := Lookup(byKey[key]);
        if i < |tasks| { return tasks[i].id; }
      }
      tasks := tasks + [NewTask(freshId, key, priority, rateKey, maxAttempts)];
      byKey := byKey[key := freshId];
      id := freshId;
    }

    method CountInFlight() returns (inFlight: map<string, nat>)
      ensures forall k :: Get(inFlight, k, 0) == InFlight(tasks, k)
    {
      inFlight := map[];
      for n := 0 to |tasks|
        invariant forall k :: Get(inFlight, k, 0) == InFlight(tasks[..n], k)
      {
        assert tasks[..n + 1][..n] == tasks[..n];
        if tasks[n].status == Processing {
          inFlight := inFlight[tasks[n].rateKey := Get(inFlight, tasks[n].rateKey, 0) + 1];
        }
      }
      assert tasks[..|tasks|] == tasks;
    }

    method ClaimNext(owner: string, now: real, timeout: real) returns (claimed: Option<Task>)
      modifies `tasks
      ensures View() == Claim(cfg, old(View()), owner, now, timeout)
      ensures claimed == match ClaimIndex(cfg, old(View()), now)
                         case None => None
                         case Some(i) => Some(tasks[i])
    {
      var listed := tasks;
      var eligible := set i: nat | i < |listed| && Eligible(listed[i], now);
      if eligible == {} {
        NothingUnthrottled(cfg, View(), now, eligible, []);
        return None;
      }
      var inFlight := CountInFlight();
      var order := SortByPriority(listed, eligible);
      for n := 0 to |order|
        invariant tasks == listed && dead == old(dead)
        invariant forall j :: 0 <= j < n ==> Throttled(cfg, View(), listed[order[j]])
      {
        var i := order[n];
        var key := listed[i].rateKey;
        if key == "" || Get(inFlight, key, 0) < Cap(cfg) {
          FirstUnthrottledIsBest(cfg, View(), now, eligible, order, n);
          tasks := tasks[i := Lease(listed[i], owner, now + timeout)];
          return Some(tasks[i]);
        }
      }
      NothingUnthrottled(cfg, View(), now, eligible, order);
      claimed := None;
    }

    method Finish(id: string)
      modifies `tasks
      ensures View() == Complete(old(View()), id)
    {
      var i := Lookup(id);
      if i < |tasks| { tasks := tasks[i := Freed(tasks[i], Done)]; }
    }

    method ReportFailure(id: string, now: real)
      modifies `tasks, `dead
      ensures View() == Fail(cfg, old(View()), id, now)
    {
      var i := Lookup(id);
      if i == |tasks| { return; }
      var t := tasks[i].(attempts := tasks[i].attempts + 1);
      if t.attempts >= t.maxAttempts {
        tasks := tasks[i := Freed(t, Dead)];
        dead := dead + [id];
      } else {
        tasks := tasks[i := Freed(t, Queued).(scheduledAt := now + Backoff(cfg, t.attempts))];
      }
    }
  }

  ghost predicate InClaimOrder(q: Queue, now: real, eligible: set<nat>, order: seq<nat>) {
    && (forall i: nat :: i in eligible <==> i < |q.tasks| && Eligible(q.tasks[i], now))
    && (forall i :: i in order <==> i in eligible)
    && (forall a, b :: 0 <= a < b < |order| ==> PriorityLe(q.tasks, order[a], order[b]))
  }

  lemma FirstUnthrottledIsBest(cfg: Config, q: Queue, now: real, eligible: set<nat>, order: seq<nat>, n: nat)
    requires InClaimOrder(q, now, eligible, order) && n < |order|
    requires forall j :: 0 <= j < n ==> order[j] < |q.tasks| && Throttled(cfg, q, q.tasks[order[j]])
    requires order[n] < |q.tasks| && !Throttled(cfg, q, q.tasks[order[n]])
    ensures ClaimIndex(cfg, q, now) == Some(order[n])
  {
    var i := order[n];
    assert i in eligible;
    forall j: nat | j < |q.tasks| && Claimable(cfg, q, j, now) ensures Precedes(q, i, j) {
      assert j in eligible;
      var k :| 0 <= k < |order| && order[k] == j;
      assert k >= n;
    }
    ClaimRefinesItsSpecification(cfg, q, now, i);
  }

  lemma NothingUnthrottled(cfg: Config, q: Queue, now: real, eligible: set<nat>, order: seq<nat>)
    requires InClaimOrder(q, now, eligible, order)
    requires forall j :: 0 <= j < |order| ==> order[j] < |q.tasks| && Throttled(cfg, q, q.tasks[order[j]])
    ensures ClaimIndex(cfg, q, now) == None
  {
    forall j: nat | j < |q.tasks| ensures !Claimable(cfg, q, j, now) {
      if Eligible(q.tasks[j], now) {
        assert j in eligible;
        var k :| 0 <= k < |order| && order[k] == j;
      }
    }
    BestOfIsBest(cfg, q, now, |q.tasks|);
  }

  class ToolQueueWorker {
    const queue: AsyncToolQueue
    const owner: string
    const visibilityTimeout: real

    constructor (queue: AsyncToolQueue, owner: string, visibilityTimeout: real)
      ensures this.queue == queue && this.owner == owner && this.visibilityTimeout == visibilityTimeout
    {
      this.queue, this.owner, this.visibilityTimeout := queue, owner, visibilityTimeout;
    }

    /** The first half of `run_once`. */
    method Take(now: real) returns (task: Option<Task>)
      modifies queue
      ensures queue.View() == Claim(queue.cfg, old(queue.View()), owner, now, visibilityTimeout)
      ensures task == match ClaimIndex(queue.cfg, old(queue.View()), now)
                      case None => None
                      case Some(i) => Some(queue.tasks[i])
    {
      task := queue.ClaimNext(owner, now, visibilityTimeout);
    }

    /** The second half, once the executor has returned or raised; the queue may have changed meanwhile. */
    method Settle(task: Task, succeeded: bool, now: real)
      modifies queue
      ensures queue.View() == if succeeded then Complete(old(queue.View()), task.id)
                              else Fail(queue.cfg, old(queue.View()), task.id, now)
    {
      if succeeded { queue.Finish(task.id); } else { queue.ReportFailure(task.id, now); }
    }

    /** `run_once` of a worker that nobody interrupts: the only task finished is the one just claimed. */
    method RunOnce(now: real, succeeds: Task -> bool) returns (handled: bool)
      modifies queue
      ensures handled <==> ClaimIndex(queue.cfg, old(queue.View()), now).Some?
      ensures var claimed := Claim(queue.cfg, old(queue.View()), owner, now, visibilityTimeout);
              queue.View() ==
                match ClaimIndex(queue.cfg, old(queue.View()), now)
                case None => claimed
                case Some(i) =>
                  if succeeds(claimed.tasks[i]) then Complete(claimed, claimed.tasks[i].id)
                  else Fail(queue.cfg, claimed, claimed.tasks[i].id, now)
    {
      var task := Take(now);
      if task.None? { return false; }
      Settle(task.value, succeeds(task.value), now);
      handled := true;
    }
  }
}
