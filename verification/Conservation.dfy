/** Conservation: every job enqueued on a queue is in one of its collections or was
    completed, cancelled or purged; and the counters QueueStats merges hide no depth. */
module Conservation {
  import opened ZSets
  import opened Scripts
  import opened Runs
  import opened Placement
  import RedisQueue

  /** Jobs on hand plus completed ones, less those enqueued. */
  function Balance(d: QueueData): int {
    |d.ready| + |d.delayed| + |d.active| + |d.dead| + Stat(d.stats, CompletedCount) - Stat(d.stats, EnqueuedCount)
  }

  function DeadBalance(d: QueueData): int {
    |d.dead| + Stat(d.stats, RetriedCount) - Stat(d.stats, DeadTotal)
  }

  /** Jobs a step takes out of queue q without counting them in its stats. */
  function Purges(s: Store, e: Event, q: QName): nat {
    if e.PurgeDeadCall? && e.q == q then |Q(s, q).dead| else 0
  }

  function Cancels(e: Event, q: QName): nat {
    if e.CancelCall? && e.q == q then 1 else 0
  }

  function PurgedIn(s: Store, es: seq<Event>, q: QName): nat {
    if es == [] then 0
    else PurgedIn(s, es[..|es| - 1], q) + Purges(Run(s, es[..|es| - 1]), es[|es| - 1], q)
  }

  function CancelledIn(es: seq<Event>, q: QName): nat {
    if es == [] then 0 else CancelledIn(es[..|es| - 1], q) + Cancels(es[|es| - 1], q)
  }

  ghost predicate EvenData(d: QueueData, e: QueueData) {
    Balance(e) == Balance(d) && DeadBalance(e) == DeadBalance(d)
  }

  /** The step moves jobs inside queue q but keeps both balances. */
  ghost predicate Even(s: Store, t: Store, q: QName) {
    EvenData(Q(s, q), Q(t, q))
  }

  lemma DropOne(z: ZSet, id: Id)
    requires id in z
    ensures |z - {id}| == |z| - 1
  {
    assert (z - {id}).Keys == z.Keys - {id};
  }

  lemma RemoveFirstShortens(ids: seq<Id>, id: Id)
    requires id in ids
    ensures |RemoveFirst(ids, id)| == |ids| - 1
  {}

  lemma AbsentEverywhere(s: Store, id: Id, q: QName)
    requires Placed(s) && id !in s.jobs
    ensures id !in Q(s, q).ready && id !in Q(s, q).delayed
  {
    assert PlacedId(s, id) && PlaceOk(H(s, id), Q(s, q), q, id);
  }

  /** A job in one collection of its queue is in no other. */
  lemma OnePlace(s: Store, id: Id, q: QName)
    requires Placed(s)
    ensures id in Q(s, q).active || id in Q(s, q).dead ==> id !in Q(s, q).ready && id !in Q(s, q).delayed
    ensures id in Q(s, q).ready || id in Q(s, q).delayed ==> id !in Q(s, q).active
    ensures id in Q(s, q).delayed ==> id !in Q(s, q).ready
  {
    assert PlacedId(s, id) && PlaceOk(H(s, id), Q(s, q), q, id);
    assert id in Q(s, q).dead <==> multiset(Q(s, q).dead)[id] > 0;
  }

  /** Adding a job to ready or delayed and counting it. */
  lemma AddEven(d: QueueData, e: QueueData, id: Id, score: int)
    requires id !in d.ready && id !in d.delayed
    requires e == d.(stats := Bump(d.stats, EnqueuedCount), delayed := d.delayed[id := score])
          || e == d.(stats := Bump(d.stats, EnqueuedCount), ready := d.ready[id := score])
    ensures EvenData(d, e)
  {
    assert |e.ready| + |e.delayed| == |d.ready| + |d.delayed| + 1;
    assert Stat(e.stats, EnqueuedCount) == Stat(d.stats, EnqueuedCount) + 1;
    assert Stat(e.stats, CompletedCount) == Stat(d.stats, CompletedCount);
  }

  lemma EnqueueEven(s: Store, id: Id, core: Core, at: int, ttl: int, q: QName)
    requires Placed(s) && id !in s.jobs
    ensures Even(s, Enqueue(s, id, core, at, ttl), q)
  {
    if !Duplicate(s, core.uniqueKey, ttl) {
      AbsentEverywhere(s, id, core.queue);
      AddEven(Q(s, core.queue), Q(Enqueue(s, id, core, at, ttl), core.queue), id,
              if at > 0 then at else core.priority);
    }
  }

  lemma DequeueEven(s: Store, p: QName, now: int, q: QName)
    requires Placed(s)
    ensures Even(s, Dequeue(s, p, now), q)
  {
    if Head(s, p).Some? {
      OnePlace(s, Head(s, p).value, p);
      DropOne(Q(s, p).ready, Head(s, p).value);
    }
  }

  lemma RetryEven(d: QueueData, id: Id, at: int)
    requires id in d.active && id !in d.delayed
    ensures EvenData(d, NackQueue(d, id, ToRetry, at))
  {
    var e := NackQueue(d, id, ToRetry, at);
    assert e.stats == Bump(d.stats, FailedCount);
    assert Stat(e.stats, CompletedCount) == Stat(d.stats, CompletedCount);
    assert |e.active| == |d.active| - 1 && |e.delayed| == |d.delayed| + 1;
  }

  lemma BuryEven(d: QueueData, id: Id, at: int)
    requires id in d.active
    ensures EvenData(d, NackQueue(d, id, ToDead, at))
  {
    var e := NackQueue(d, id, ToDead, at);
    assert e.stats == Bump(Bump(d.stats, FailedCount), DeadTotal);
    assert Stat(e.stats, CompletedCount) == Stat(d.stats, CompletedCount);
    assert |e.active| == |d.active| - 1 && |e.dead| == |d.dead| + 1;
  }

  lemma ActiveCored(s: Store, id: Id, q: QName)
    requires Placed(s) && id in Q(s, q).active
    ensures H(s, id).core.Some?
  {
    assert PlacedId(s, id) && PlaceOk(H(s, id), Q(s, q), q, id);
  }

  lemma NackWrites(s: Store, p: QName, id: Id, err: string, backoff: int, now: int, skip: bool, q: QName)
    ensures Q(Nack(s, p, id, err, backoff, now, skip), q)
            == if q == p then NackQueue(Q(s, p), id, NackDecision(H(s, id), skip), now + backoff) else Q(s, q)
  {}

  lemma NackEven(s: Store, p: QName, id: Id, err: string, backoff: int, now: int, skip: bool, q: QName)
    requires Placed(s) && id in Q(s, p).active
    ensures Even(s, Nack(s, p, id, err, backoff, now, skip), q)
  {
    OnePlace(s, id, p);
    ActiveCored(s, id, p);
    NackWrites(s, p, id, err, backoff, now, skip, q);
    if NackDecision(H(s, id), skip) == ToDead {
      BuryEven(Q(s, p), id, now + backoff);
    } else {
      RetryEven(Q(s, p), id, now + backoff);
    }
  }

  lemma LeaveShrinks(d: QueueData, id: Id)
    requires id in d.active
    ensures |Leave(d, id).active| == |d.active| - 1
  {}

  lemma CompleteEven(d: QueueData, id: Id)
    requires id in d.active
    ensures EvenData(d, Leave(d, id).(stats := Bump(d.stats, CompletedCount)))
  {
    LeaveShrinks(d, id);
    var st := Bump(d.stats, CompletedCount);
    assert Stat(st, CompletedCount) == Stat(d.stats, CompletedCount) + 1 && Stat(st, EnqueuedCount) == Stat(d.stats, EnqueuedCount);
    assert Stat(st, RetriedCount) == Stat(d.stats, RetriedCount) && Stat(st, DeadTotal) == Stat(d.stats, DeadTotal);
  }

  lemma DelayEven(d: QueueData, id: Id, at: int)
    requires id in d.active && id !in d.delayed
    ensures EvenData(d, Leave(d, id).(delayed := d.delayed[id := at]))
  {
    LeaveShrinks(d, id);
  }

  lemma AckEven(s: Store, p: QName, id: Id, now: int, q: QName)
    requires id in Q(s, p).active
    ensures Even(s, Ack(s, p, id, now), q)
  {
    CompleteEven(Q(s, p), id);
    assert Q(Ack(s, p, id, now), q)
        == if q == p then Leave(Q(s, p), id).(stats := Bump(Q(s, p).stats, CompletedCount)) else Q(s, q);
  }

  lemma RescheduleEven(s: Store, p: QName, id: Id, at: int, q: QName)
    requires id in Q(s, p).active && id !in Q(s, p).delayed
    ensures Even(s, Reschedule(s, p, id, at), q)
  {
    DelayEven(Q(s, p), id, at);
  }

  lemma CancelLeaves(s: Store, p: QName, id: Id, now: int, reason: string, q: QName)
    requires id in Q(s, p).active
    ensures Q(Cancel(s, p, id, now, reason), q) == if q == p then Leave(Q(s, p), id) else Q(s, q)
  {}

  lemma FinishBalance(s: Store, e: Event, q: QName)
    requires Placed(s) && Finishing(e) && e.id in Q(s, e.q).active
    ensures Balance(Q(Apply(s, e), q)) == Balance(Q(s, q)) - Cancels(e, q)
    ensures DeadBalance(Q(Apply(s, e), q)) == DeadBalance(Q(s, q))
  {
    match e
    case NackCall(p, id, err, backoff, now, skip) => NackEven(s, p, id, err, backoff, now, skip, q);
    case AckCall(p, id, now) => AckEven(s, p, id, now, q);
    case RescheduleCall(p, id, at) =>
      OnePlace(s, id, p);
      RescheduleEven(s, p, id, at, q);
    case CancelCall(p, id, now, reason) =>
      LeaveShrinks(Q(s, p), id);
      CancelLeaves(s, p, id, now, reason, q);
  }

  lemma PromoteOneEven(s: Store, p: QName, id: Id, q: QName)
    requires Placed(s) && id in Q(s, p).delayed
    ensures Even(s, PromoteOne(s, p, id), q)
  {
    OnePlace(s, id, p);
    DropOne(Q(s, p).delayed, id);
  }

  lemma {:induction false} PromoteAllEven(s: Store, p: QName, ids: seq<Id>, q: QName)
    requires Placed(s) && Distinct(ids) && forall x | x in ids :: x in Q(s, p).delayed
    ensures Even(s, PromoteAll(s, p, ids), q)
  {
    if ids != [] {
      var front, id := ids[..|ids| - 1], ids[|ids| - 1];
      PromoteAllEven(s, p, front, q);
      PromoteAllPlaced(s, p, front);
      PromoteOneEven(PromoteAll(s, p, front), p, id, q);
    }
  }

  lemma RecoverOneEven(s: Store, p: QName, id: Id, q: QName)
    requires Placed(s) && id in Q(s, p).active
    ensures Even(s, RecoverOne(s, p, id), q)
  {
    OnePlace(s, id, p);
  }

  lemma {:induction false} RecoverAllEven(s: Store, p: QName, ids: seq<Id>, q: QName)
    requires Placed(s) && Distinct(ids) && forall x | x in ids :: x in Q(s, p).active
    ensures Even(s, RecoverAll(s, p, ids), q)
  {
    if ids != [] {
      var front, id := ids[..|ids| - 1], ids[|ids| - 1];
      RecoverAllEven(s, p, front, q);
      RecoverAllPlaced(s, p, front);
      RecoverOneEven(RecoverAll(s, p, front), p, id, q);
    }
  }

  lemma RetryDeadEven(s: Store, p: QName, id: Id, q: QName)
    requires Placed(s)
    ensures Even(s, RetryDead(s, p, id), q)
  {
    if id in Q(s, p).dead {
      OnePlace(s, id, p);
      RemoveFirstShortens(Q(s, p).dead, id);
    }
  }

  lemma StepBalance(s: Store, e: Event, q: QName)
    requires Placed(s) && Fenced(s, e)
    ensures Balance(Q(Apply(s, e), q)) == Balance(Q(s, q)) - Cancels(e, q) - Purges(s, e, q)
    ensures DeadBalance(Q(Apply(s, e), q)) == DeadBalance(Q(s, q)) - Purges(s, e, q)
  {
    if Finishing(e) {
      FinishBalance(s, e, q);
    } else if Quiet(e) {
      QuietEven(s, e, q);
    } else if e.PurgeDeadCall? {
      PurgeBalance(s, e.q, q);
    } else {
      OtherEven(s, e, q);
    }
  }

  lemma QuietEven(s: Store, e: Event, q: QName)
    requires Quiet(e)
    ensures Even(s, Apply(s, e), q)
  {
    var d, t := Q(s, q), Q(Apply(s, e), q);
    assert t == d.(lease := t.lease, paused := t.paused);
  }

  lemma PurgeBalance(s: Store, p: QName, q: QName)
    ensures var n := if p == q then |Q(s, q).dead| else 0;
            && Balance(Q(PurgeDead(s, p), q)) == Balance(Q(s, q)) - n
            && DeadBalance(Q(PurgeDead(s, p), q)) == DeadBalance(Q(s, q)) - n
  {}

  lemma OtherEven(s: Store, e: Event, q: QName)
    requires Placed(s) && Fenced(s, e) && !Finishing(e) && !Quiet(e) && !e.PurgeDeadCall?
    ensures Even(s, Apply(s, e), q)
  {
    match e
    case EnqueueCall(id, core, at, ttl) => EnqueueEven(s, id, core, at, ttl, q);
    case DequeueCall(p, now) => DequeueEven(s, p, now, q);
    case RecoverCall(p, now, limit) =>
      forall x | x in Expired(s, p, now, limit) ensures x in Q(s, p).active { LeasedIsActive(s, p, x); }
      RecoverAllEven(s, p, Expired(s, p, now, limit), q);
    case PromoteCall(p, now, limit) => PromoteAllEven(s, p, Due(s, p, now, limit), q);
    case RetryDeadCall(p, id) => RetryDeadEven(s, p, id, q);
  }

  lemma {:induction false} RunBalance(s: Store, es: seq<Event>, q: QName)
    requires Placed(s) && FencedRun(s, es)
    ensures Balance(Q(Run(s, es), q)) == Balance(Q(s, q)) - CancelledIn(es, q) - PurgedIn(s, es, q)
    ensures DeadBalance(Q(Run(s, es), q)) == DeadBalance(Q(s, q)) - PurgedIn(s, es, q)
  {
    if es != [] {
      RunBalance(s, es[..|es| - 1], q);
      RunPlaced(s, es[..|es| - 1]);
      StepBalance(Run(s, es[..|es| - 1]), es[|es| - 1], q);
    }
  }

  /** Main result, for every queue of every fenced run from an empty Redis. */
  lemma Conserved(es: seq<Event>, q: QName)
    requires FencedRun(EMPTY, es)
    ensures var d := Q(Run(EMPTY, es), q);
            && Stat(d.stats, EnqueuedCount)
               == |d.ready| + |d.delayed| + |d.active| + |d.dead| + Stat(d.stats, CompletedCount)
                  + CancelledIn(es, q) + PurgedIn(EMPTY, es, q)
            && Stat(d.stats, DeadTotal) == |d.dead| + Stat(d.stats, RetriedCount) + PurgedIn(EMPTY, es, q)
  {
    EmptyPlaced();
    RunBalance(EMPTY, es, q);
  }

  // ---- QueueStats ----

  predicate IsDepth(n: StatName) {
    n == ReadyDepth || n == ActiveDepth || n == DelayedDepth || n == DeadDepth
  }

  ghost predicate CountersOnly(s: Store) {
    forall q, n :: n in Q(s, q).stats ==> !IsDepth(n)
  }

  lemma {:induction false} PromoteStats(s: Store, q: QName, ids: seq<Id>, p: QName)
    ensures Q(PromoteAll(s, q, ids), p).stats == Q(s, p).stats
  {
    if ids != [] { PromoteStats(s, q, ids[..|ids| - 1], p); }
  }

  lemma {:induction false} RecoverStats(s: Store, q: QName, ids: seq<Id>, p: QName)
    ensures Q(RecoverAll(s, q, ids), p).stats == Q(s, p).stats
  {
    if ids != [] { RecoverStats(s, q, ids[..|ids| - 1], p); }
  }

  lemma StepCountersOnly(s: Store, e: Event)
    requires CountersOnly(s)
    ensures CountersOnly(Apply(s, e))
  {
    if e.PromoteCall? || e.RecoverCall? {
      LoopCountersOnly(s, e);
    } else if Finishing(e) {
      FinishCountersOnly(s, e);
    } else {
      forall q, n | n in Q(Apply(s, e), q).stats ensures !IsDepth(n) {
        assert n in Q(s, q).stats || !IsDepth(n);
      }
    }
  }

  lemma LoopCountersOnly(s: Store, e: Event)
    requires CountersOnly(s) && (e.PromoteCall? || e.RecoverCall?)
    ensures CountersOnly(Apply(s, e))
  {
    forall q, n | n in Q(Apply(s, e), q).stats ensures !IsDepth(n) {
      if e.PromoteCall? {
        PromoteStats(s, e.q, Due(s, e.q, e.now, e.limit), q);
      } else {
        RecoverStats(s, e.q, Expired(s, e.q, e.now, e.limit), q);
      }
    }
  }

  lemma FinishCountersOnly(s: Store, e: Event)
    requires CountersOnly(s) && Finishing(e)
    ensures CountersOnly(Apply(s, e))
  {
    forall q, n | n in Q(Apply(s, e), q).stats ensures !IsDepth(n) {
      match e
      case NackCall(p, id, err, backoff, now, skip) => NackStats(s, p, id, err, backoff, now, skip, q, n);
      case AckCall(p, id, now) => assert n in Q(s, q).stats || n == CompletedCount;
      case RescheduleCall(p, id, at) => assert n in Q(s, q).stats;
      case CancelCall(p, id, now, reason) => assert n in Q(s, q).stats;
    }
  }

  lemma NackStats(s: Store, p: QName, id: Id, err: string, backoff: int, now: int, skip: bool, q: QName, n: StatName)
    requires n in Q(Nack(s, p, id, err, backoff, now, skip), q).stats
    ensures n in Q(s, q).stats || !IsDepth(n)
  {}

  lemma {:induction false} RunCountersOnly(es: seq<Event>)
    ensures CountersOnly(Run(EMPTY, es))
  {
    if es != [] {
      RunCountersOnly(es[..|es| - 1]);
      StepCountersOnly(Run(EMPTY, es[..|es| - 1]), es[|es| - 1]);
    }
  }

  lemma MergeKeepsDepths(d: QueueData, depths: map<StatName, int>)
    requires forall n | n in d.stats :: !IsDepth(n)
    requires forall n | IsDepth(n) :: n in depths
    ensures forall n | IsDepth(n) :: (depths + d.stats)[n] == depths[n]
    ensures forall n | n in d.stats :: (depths + d.stats)[n] == d.stats[n]
  {}

  /** In every run, fenced or not, QueueStats reports the true depths and every counter. */
  lemma StatsShowDepths(es: seq<Event>, q: QName)
    ensures var d := Q(Run(EMPTY, es), q);
            var stats := RedisQueue.StatsView(d);
            && stats[ReadyDepth] == |d.ready| && stats[ActiveDepth] == |d.active|
            && stats[DelayedDepth] == |d.delayed| && stats[DeadDepth] == |d.dead|
            && forall n | n in d.stats :: stats[n] == d.stats[n]
  {
    RunCountersOnly(es);
    StatsViewShows(Q(Run(EMPTY, es), q));
  }

  lemma StatsViewShows(d: QueueData)
    requires forall n | n in d.stats :: !IsDepth(n)
    ensures var stats := RedisQueue.StatsView(d);
            && stats[ReadyDepth] == |d.ready| && stats[ActiveDepth] == |d.active|
            && stats[DelayedDepth] == |d.delayed| && stats[DeadDepth] == |d.dead|
            && forall n | n in d.stats :: stats[n] == d.stats[n]
  {
    MergeKeepsDepths(d, map[ReadyDepth := |d.ready|, ActiveDepth := |d.active|, DelayedDepth := |d.delayed|, DeadDepth := |d.dead|]);
  }
}
