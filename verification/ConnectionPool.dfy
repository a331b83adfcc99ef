/** The bounded pool of database connections. */
module ConnectionPool {
  import opened Foundations

  type Connection = nat

  /** `out` are the connections in use, `fresh` the next one the factory will make. `missed` counts the threads that
      found the queue empty and are yet to take the lock, `waiting` those blocked on the queue; the lock is held while a
      thread is `growing` or `replenishing`. `lost` counts the failed factory calls of `_acquire`, and `overflowed`
      records whether the queue ever refused a connection. */
  datatype Pool = Pool(
    size: int, free: seq<Connection>, out: set<Connection>, created: int, made: nat, missed: nat, waiting: nat,
    growing: bool, replenishing: bool, lost: nat, overflowed: bool)

  /** An event that is not possible in a state leaves it as it is. */
  datatype Event =
    | Take                       // the queue had a connection
    | Miss                       // the queue was empty
    | Lock                       // a thread that missed takes the lock: it grows the pool or waits
    | Grown                      // its factory call returned
    | GrowthFailed               // its factory call raised
    | Wake                       // a waiting thread gets a connection
    | Put(c: Connection)         // a connection is released
    | Retire(c: Connection)      // a connection is closed, under the lock
    | Replenished                // the factory call that replaces it returned
    | ReplenishFailed            // that call raised

  function Opened(poolSize: int): Pool {
    Pool(Max(1, poolSize), [], {}, 0, 0, 0, 0, false, false, 0, false)
  }

  predicate Locked(p: Pool) { p.growing || p.replenishing }

  predicate Enabled(p: Pool, e: Event) {
    match e
    case Take => p.free != []
    case Miss => p.free == []
    case Lock => p.missed > 0 && !Locked(p)
    case Grown => p.growing
    case GrowthFailed => p.growing
    case Wake => p.waiting > 0 && p.free != []
    case Put(c) => c in p.out
    case Retire(c) => c in p.out && !Locked(p)
    case Replenished => p.replenishing
    case ReplenishFailed => p.replenishing
  }

  function HandOut(p: Pool): Pool
    requires p.free != []
  {
    p.(free := p.free[1..], out := p.out + {p.free[0]})
  }

  /** `put_nowait`. */
  function Queued(p: Pool, c: Connection): Pool {
    if |p.free| < p.size then p.(free := p.free + [c]) else p.(overflowed := true)
  }

  function Next(p: Pool, e: Event): Pool {
    if !Enabled(p, e) then p else
      match e
      case Take => HandOut(p)
      case Miss => p.(missed := p.missed + 1)
      case Lock =>
        if p.created < p.size then p.(missed := p.missed - 1, created := p.created + 1, growing := true)
        else p.(missed := p.missed - 1, waiting := p.waiting + 1)
      case Grown => p.(growing := false, out := p.out + {p.made}, made := p.made + 1)
      case GrowthFailed => p.(growing := false, lost := p.lost + 1)
      case Wake => HandOut(p).(waiting := p.waiting - 1)
      case Put(c) => Queued(p.(out := p.out - {c}), c)
      case Retire(c) => p.(out := p.out - {c}, created := p.created - 1, replenishing := true)
      case Replenished => Queued(p.(created := p.created + 1, made := p.made + 1, replenishing := false), p.made)
      case ReplenishFailed => p.(replenishing := false)
  }

  function Run(p: Pool, events: seq<Event>): Pool {
    if events == [] then p else Next(Run(p, events[..|events| - 1]), events[|events| - 1])
  }

  // ---------------------------------------------------------------- invariants

  /** Every connection counted as created is free, in use, lost to a failed call or being made; the count stays within
      the size, with room kept for the one being replaced. */
  predicate Accounted(p: Pool) {
    && p.created == |p.free| + |p.out| + p.lost + (if p.growing then 1 else 0)
    && p.created + (if p.replenishing then 1 else 0) <= p.size
    && !(p.growing && p.replenishing) && !p.overflowed
  }

  /** No connection is free twice, or free and in use; and none is one that is yet to be made. */
  ghost predicate Exclusive(p: Pool) {
    && (forall i, j :: 0 <= i < j < |p.free| ==> p.free[i] != p.free[j])
    && (forall i :: 0 <= i < |p.free| ==> p.free[i] !in p.out && p.free[i] < p.made)
    && (forall c :: c in p.out ==> c < p.made)
  }

  lemma StepKeepsExclusive(p: Pool, e: Event)
    requires Exclusive(p)
    ensures Exclusive(Next(p, e))
  {
    if Enabled(p, e) {
      match e
      case Take => HandOutIsExclusive(p);
      case Wake => HandOutIsExclusive(p);
      case Put(c) => QueuedIsExclusive(p.(out := p.out - {c}), c);
      case Replenished =>
        QueuedIsExclusive(p.(created := p.created + 1, made := p.made + 1, replenishing := false), p.made);
      case _ =>
    }
  }

  lemma HandOutIsExclusive(p: Pool)
    requires Exclusive(p) && p.free != []
    ensures Exclusive(HandOut(p))
  {
  }

  lemma QueuedIsExclusive(p: Pool, c: Connection)
    requires Exclusive(p) && c !in p.free && c !in p.out && c < p.made
    ensures Exclusive(Queued(p, c))
  {
  }

  lemma StepKeepsAccounts(p: Pool, e: Event)
    requires Accounted(p) && Exclusive(p)
    ensures Accounted(Next(p, e))
  {
    match e
    case Put(c) => if c in p.out { assert |p.out - {c}| == |p.out| - 1; }
    case Retire(c) => if c in p.out { assert |p.out - {c}| == |p.out| - 1; }
    case _ =>
  }

  /** For any interleaving of any number of threads: free and used connections never exceed what was created, nor that
      the size; they are equal exactly while no factory call of an acquire has failed and none is in progress; no
      connection is ever in two hands; and the queue never overflows. */
  lemma {:induction false} ReachablePool(poolSize: int, events: seq<Event>)
    ensures var p := Run(Opened(poolSize), events);
            && Accounted(p) && Exclusive(p) && p.size == Max(1, poolSize)
            && |p.free| + |p.out| <= p.created <= p.size
            && (|p.free| + |p.out| == p.created <==> p.lost == 0 && !p.growing)
  {
    if events != [] {
      var before := Run(Opened(poolSize), events[..|events| - 1]);
      ReachablePool(poolSize, events[..|events| - 1]);
      StepKeepsAccounts(before, events[|events| - 1]);
      StepKeepsExclusive(before, events[|events| - 1]);
    }
  }

  // -------------------------------------------------------- what is lost stays lost

  /** What a failed call of an acquire took from the capacity, nothing gives back. */
  lemma {:induction false} LostForGood(p: Pool, events: seq<Event>)
    requires Accounted(p) && Exclusive(p)
    ensures var after := Run(p, events);
            && Accounted(after) && Exclusive(after) && after.size == p.size && after.lost >= p.lost
            && |after.free| + |after.out| <= p.size - p.lost
  {
    if events != [] {
      var before := Run(p, events[..|events| - 1]);
      LostForGood(p, events[..|events| - 1]);
      StepKeepsAccounts(before, events[|events| - 1]);
      StepKeepsExclusive(before, events[|events| - 1]);
    }
  }

  /** As many failures as the pool has places, and it never serves anyone again, however well the database is
      by then. */
  lemma FailuresDrainThePool(poolSize: int, events: seq<Event>, later: seq<Event>)
    requires Run(Opened(poolSize), events).lost == Max(1, poolSize)
    ensures var p := Run(Run(Opened(poolSize), events), later); p.free == [] && p.out == {}
  {
    ReachablePool(poolSize, events);
    LostForGood(Run(Opened(poolSize), events), later);
  }

  lemma Append(p: Pool, events: seq<Event>, e: Event)
    ensures Run(p, events + [e]) == Next(Run(p, events), e)
  {
    assert (events + [e])[..|events|] == events;
  }

  /** That many failures in a row are enough. */
  lemma {:induction false} FailingAcquires(poolSize: int, n: nat) returns (events: seq<Event>)
    requires n <= Max(1, poolSize)
    ensures var p := Run(Opened(poolSize), events);
            p.lost == n && p.created == n && p.free == [] && p.missed == 0 && !Locked(p) && p.size == Max(1, poolSize)
  {
    if n == 0 {
      events := [];
    } else {
      var before := FailingAcquires(poolSize, n - 1);
      Append(Opened(poolSize), before, Miss);
      Append(Opened(poolSize), before + [Miss], Lock);
      Append(Opened(poolSize), before + [Miss] + [Lock], GrowthFailed);
      events := before + [Miss] + [Lock] + [GrowthFailed];
    }
  }

  /** One thread has the only connection, and another waits for it. */
  lemma OneInUseOneWaiting()
    ensures Run(Opened(1), [Miss, Lock, Grown, Miss, Lock]) == Pool(1, [], {0}, 1, 1, 0, 1, false, false, 0, false)
  {
    var p, one := Opened(1), [Miss] + [Lock] + [Grown];
    Append(p, [], Miss);
    Append(p, [Miss], Lock);
    Append(p, [Miss] + [Lock], Grown);
    assert [] + [Miss] == [Miss];
    assert Run(p, one) == Pool(1, [], {0}, 1, 1, 0, 0, false, false, 0, false);
    Append(p, one, Miss);
    Append(p, one + [Miss], Lock);
    assert one + [Miss] + [Lock] == [Miss, Lock, Grown, Miss, Lock];
  }

  // ------------------------------------------------------------ stranded waiters

  /** A thread is blocked on the queue, and no connection is free, in use or being made: none will come of itself. */
  predicate Stranded(p: Pool) {
    p.waiting > 0 && p.free == [] && p.out == {} && !p.growing && !p.replenishing
  }

  /** What the pool holds when no factory call has failed. */
  predicate Whole(p: Pool) {
    p.lost == 0 && (p.waiting > 0 ==> p.created + (if p.replenishing then 1 else 0) == p.size)
  }

  lemma StepStaysWhole(p: Pool, e: Event)
    requires Accounted(p) && Whole(p) && !e.GrowthFailed? && !e.ReplenishFailed?
    ensures Whole(Next(p, e))
  {
  }

  lemma {:induction false} WholeWithoutFailures(poolSize: int, events: seq<Event>)
    requires GrowthFailed !in events && ReplenishFailed !in events
    ensures Whole(Run(Opened(poolSize), events))
  {
    if events != [] {
      var before, last := events[..|events| - 1], events[|events| - 1];
      assert last in events && forall e :: e in before ==> e in events;
      WholeWithoutFailures(poolSize, before);
      ReachablePool(poolSize, before);
      StepStaysWhole(Run(Opened(poolSize), before), last);
    }
  }

  /** While no factory call has failed, no waiter is ever stranded. */
  lemma NoneStrandedWithoutFailures(poolSize: int, events: seq<Event>)
    requires GrowthFailed !in events && ReplenishFailed !in events
    ensures !Stranded(Run(Opened(poolSize), events))
  {
    WholeWithoutFailures(poolSize, events);
    ReachablePool(poolSize, events);
  }

  /** Exactly the steps that strand a waiter: a factory call fails with a waiter and nothing free or in use; or a thread
      is turned to wait by a pool whose every place was lost. */
  predicate Strands(p: Pool, e: Event) {
    && Enabled(p, e) && p.free == [] && p.out == {}
    && match e
       case GrowthFailed => p.waiting > 0
       case ReplenishFailed => p.waiting > 0
       case Lock => p.created >= p.size
       case _ => false
  }

  lemma StrandedExactlyBy(p: Pool, e: Event)
    requires Accounted(p) && Exclusive(p) && !Stranded(p)
    ensures Stranded(Next(p, e)) <==> Strands(p, e)
  {
    StepKeepsAccounts(p, e);
  }

  /** A stranded thread waits until another one arrives: with none on its way and none arriving, nothing changes. */
  lemma {:induction false} StrandedUntilAnotherComes(p: Pool, events: seq<Event>)
    requires Stranded(p) && p.missed == 0 && Miss !in events
    ensures Run(p, events) == p
  {
    if events != [] {
      var before, last := events[..|events| - 1], events[|events| - 1];
      assert last in events && forall e :: e in before ==> e in events;
      StrandedUntilAnotherComes(p, before);
    }
  }

  /** Such a state is reached with one place, one thread that loses its connection and one that waits: although the
      place was given back, and a later acquire would get it, the waiting thread does not. */
  lemma WaiterIsForgotten()
    ensures var p := Run(Opened(1), [Miss, Lock, Grown, Miss, Lock, Retire(0), ReplenishFailed]);
            Stranded(p) && p.missed == 0 && p.created < p.size
  {
    OneInUseOneWaiting();
    var events := [Miss, Lock, Grown, Miss, Lock];
    Append(Opened(1), events, Retire(0));
    Append(Opened(1), events + [Retire(0)], ReplenishFailed);
    assert {0} - {0} == {};
    assert events + [Retire(0)] + [ReplenishFailed] == [Miss, Lock, Grown, Miss, Lock, Retire(0), ReplenishFailed];
  }

  // ----------------------------------------------------------------- the object

  datatype Acquired = Connected(c: Connection) | ConnectFailed | WouldBlock

  /** The pool object, used by one thread at a time; `reachable` is whether the factory's database answers. */
  class MySQLConnectionPool {
    const size: int
    var free: seq<Connection>
    var created: int
    ghost var out: set<Connection>
    ghost var lost: nat
    var made: nat

    ghost function View(): Pool
      reads this
    {
      Pool(size, free, out, created, made, 0, 0, false, false, lost, false)
    }

    ghost predicate Valid()
      reads this
    {
      Accounted(View()) && Exclusive(View())
    }

    constructor (poolSize: int)
      ensures Valid() && View() == Opened(poolSize)
    {
      size, free, created, made := Max(1, poolSize), [], 0, 0;
      out, lost := {}, 0;
    }

    /** `_acquire`, up to the point where it would block on the queue. */
    method Acquire(reachable: bool) returns (r: Acquired)
      requires Valid()
      modifies this
      ensures Valid()
      ensures match r
              case Connected(c) =>
                c !in old(out) && c in out
                && View() == Run(old(View()), if old(free) != [] then [Take] else [Miss, Lock, Grown])
              case ConnectFailed => !reachable && View() == Run(old(View()), [Miss, Lock, GrowthFailed])
              case WouldBlock => old(free) == [] && created == size && View() == old(View())
    {
      ghost var start := View();
      Steps(start);
      if free != [] {
        r := Connected(free[0]);
        StepKeepsAccounts(start, Take);
        StepKeepsExclusive(start, Take);
        out := out + {free[0]};
        free := free[1..];
        return;
      }
      if created < size {
        created := created + 1;
        if !reachable {
          lost := lost + 1;
          return ConnectFailed;
        }
        r := Connected(made);
        out := out + {made};
        made := made + 1;
        return;
      }
      r := WouldBlock;
    }

    /** `_release`: a rollback that fails retires the connection. */
    method Release(c: Connection, rolledBack: bool, reachable: bool)
      requires Valid() && c in out
      modifies this
      ensures Valid()
      ensures View() == Run(old(View()), if rolledBack then [Put(c)]
                                         else [Retire(c), if reachable then Replenished else ReplenishFailed])
    {
      if !rolledBack {
        RetireAndReplenish(c, reachable);
        return;
      }
      ghost var start := View();
      StepKeepsAccounts(start, Put(c));
      StepKeepsExclusive(start, Put(c));
      Single(start, Put(c));
      if |free| < size {
        free := free + [c];
        out := out - {c};
      } else {
        assert false;
      }
    }

    /** `_retire_and_replenish`. */
    method RetireAndReplenish(c: Connection, reachable: bool)
      requires Valid() && c in out
      modifies this
      ensures Valid()
      ensures View() == Run(old(View()), [Retire(c), if reachable then Replenished else ReplenishFailed])
    {
      Replacement(View(), c, reachable);
      created := created - 1;
      out := out - {c};
      if reachable {
        created := created + 1;
        free := free + [made];
        made := made + 1;
      }
    }
  }

  /** A retired connection and its replacement, as one step of a pool that nobody else uses. */
  lemma Replacement(p: Pool, c: Connection, reachable: bool)
    requires Accounted(p) && Exclusive(p) && c in p.out && !Locked(p)
    ensures var after := Run(p, [Retire(c), if reachable then Replenished else ReplenishFailed]);
            && Accounted(after) && Exclusive(after)
            && after == if reachable then p.(out := p.out - {c}, free := p.free + [p.made], made := p.made + 1)
                        else p.(out := p.out - {c}, created := p.created - 1)
  {
    var last := if reachable then Replenished else ReplenishFailed;
    Pair(p, Retire(c), last);
    StepKeepsAccounts(p, Retire(c));
    StepKeepsExclusive(p, Retire(c));
    StepKeepsAccounts(Next(p, Retire(c)), last);
    StepKeepsExclusive(Next(p, Retire(c)), last);
  }

  lemma Single(p: Pool, a: Event)
    ensures Run(p, [a]) == Next(p, a)
  {
    assert [a][..0] == [];
  }

  lemma Pair(p: Pool, a: Event, b: Event)
    ensures Run(p, [a, b]) == Next(Next(p, a), b)
  {
    Single(p, a);
    assert [a, b][..1] == [a];
  }

  /** An acquire's events, one after the other. */
  lemma Steps(p: Pool)
    ensures Run(p, [Take]) == Next(p, Take)
    ensures Run(p, [Miss, Lock, Grown]) == Next(Next(Next(p, Miss), Lock), Grown)
    ensures Run(p, [Miss, Lock, GrowthFailed]) == Next(Next(Next(p, Miss), Lock), GrowthFailed)
  {
    Single(p, Take);
    Pair(p, Miss, Lock);
    assert [Miss, Lock, Grown][..2] == [Miss, Lock] && [Miss, Lock, GrowthFailed][..2] == [Miss, Lock];
  }
}
