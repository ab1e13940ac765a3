/** Runs of the queue: any interleaving of script calls by any number of clients,
    each script one atomic step. */
module Runs {
  import opened ZSets
  import opened Scripts

  datatype Event =
    | EnqueueCall(id: Id, core: Core, scheduledAt: int, ttl: int)
    | DequeueCall(q: QName, now: int)
    | AckCall(q: QName, id: Id, now: int)
    | NackCall(q: QName, id: Id, err: string, backoff: int, now: int, skip: bool)
    | RescheduleCall(q: QName, id: Id, at: int)
    | CancelCall(q: QName, id: Id, now: int, reason: string)
    | ExtendCall(q: QName, id: Id, expiry: int)
    | RecoverCall(q: QName, now: int, limit: int)
    | PromoteCall(q: QName, now: int, limit: int)
    | RetryDeadCall(q: QName, id: Id)
    | PurgeDeadCall(q: QName)
    | PauseCall(q: QName, on: bool)
    | ExpireCall(key: string)

  function Apply(s: Store, e: Event): Store {
    match e
    case EnqueueCall(id, core, at, ttl) => Enqueue(s, id, core, at, ttl)
    case DequeueCall(q, now) => Dequeue(s, q, now)
    case AckCall(q, id, now) => Ack(s, q, id, now)
    case NackCall(q, id, err, backoff, now, skip) => Nack(s, q, id, err, backoff, now, skip)
    case RescheduleCall(q, id, at) => Reschedule(s, q, id, at)
    case CancelCall(q, id, now, reason) => Cancel(s, q, id, now, reason)
    case ExtendCall(q, id, expiry) => ExtendLease(s, q, id, expiry)
    case RecoverCall(q, now, limit) => Recover(s, q, now, limit)
    case PromoteCall(q, now, limit) => Promote(s, q, now, limit)
    case RetryDeadCall(q, id) => RetryDead(s, q, id)
    case PurgeDeadCall(q) => PurgeDead(s, q)
    case PauseCall(q, on) => SetPaused(s, q, on)
    case ExpireCall(key) => ExpireKey(s, key)
  }

  function Run(s: Store, es: seq<Event>): Store {
    if es == [] then s else Apply(Run(s, es[..|es| - 1]), es[|es| - 1])
  }

  /** Ack, Nack, Reschedule and Cancel: what a worker calls once it is done with a job. */
  predicate Finishing(e: Event) {
    e.AckCall? || e.NackCall? || e.RescheduleCall? || e.CancelCall?
  }

  /** Calls that move no job. */
  predicate Quiet(e: Event) {
    e.ExtendCall? || e.PauseCall? || e.ExpireCall?
  }

  /** The caller discipline: fresh ids, and finishing calls only on jobs that are
      active in the queue named by the call. The scripts check neither. */
  predicate Fenced(s: Store, e: Event) {
    && (e.EnqueueCall? ==> e.id !in s.jobs)
    && (Finishing(e) ==> e.id in Q(s, e.q).active)
  }

  predicate FencedRun(s: Store, es: seq<Event>) {
    es == [] || (FencedRun(s, es[..|es| - 1]) && Fenced(Run(s, es[..|es| - 1]), es[|es| - 1]))
  }

  lemma {:induction false} RunSplit(s: Store, a: seq<Event>, b: seq<Event>)
    ensures Run(s, a + b) == Run(Run(s, a), b)
    ensures FencedRun(s, a + b) <==> FencedRun(s, a) && FencedRun(Run(s, a), b)
    decreases |b|
  {
    if b == [] {
      assert a + b == a;
    } else {
      var front := b[..|b| - 1];
      assert (a + b)[..|a + b| - 1] == a + front;
      RunSplit(s, a, front);
    }
  }

  lemma RunSnoc(s: Store, es: seq<Event>, e: Event)
    ensures Run(s, es + [e]) == Apply(Run(s, es), e)
    ensures FencedRun(s, es + [e]) <==> FencedRun(s, es) && Fenced(Run(s, es), e)
  {
    assert (es + [e])[..|es|] == es;
  }

  // ---- what a step leaves alone ----

  ghost predicate SameIn(d: QueueData, e: QueueData, id: Id) {
    && (id in d.ready <==> id in e.ready) && (id in d.ready ==> d.ready[id] == e.ready[id])
    && (id in d.delayed <==> id in e.delayed) && (id in d.delayed ==> d.delayed[id] == e.delayed[id])
    && (id in d.active <==> id in e.active)
    && (id in d.lease <==> id in e.lease) && (id in d.lease ==> d.lease[id] == e.lease[id])
    && multiset(d.dead)[id] == multiset(e.dead)[id]
  }

  /** Only job id changes, and only in queue q. */
  ghost predicate Local(s: Store, t: Store, q: QName, id: Id) {
    && id in t.jobs && t.jobs == s.jobs[id := t.jobs[id]]
    && q in t.queues && t.queues == s.queues[q := t.queues[q]]
    && forall x | x != id :: SameIn(Q(s, q), Q(t, q), x)
  }

  lemma NackSame(d: QueueData, id: Id, r: NackResult, at: int, x: Id)
    requires x != id
    ensures SameIn(d, NackQueue(d, id, r, at), x)
  {
    assert multiset([id] + d.dead) == multiset{id} + multiset(d.dead);
  }

  lemma NackLocal(s: Store, q: QName, id: Id, err: string, backoff: int, now: int, skip: bool)
    ensures Local(s, Nack(s, q, id, err, backoff, now, skip), q, id)
  {
    forall x | x != id ensures SameIn(Q(s, q), Q(Nack(s, q, id, err, backoff, now, skip), q), x) {
      NackSame(Q(s, q), id, NackDecision(H(s, id), skip), now + backoff, x);
    }
  }

  lemma FinishLocal(s: Store, e: Event)
    requires Finishing(e)
    ensures Local(s, Apply(s, e), e.q, e.id)
  {
    match e
    case NackCall(q, id, err, backoff, now, skip) => NackLocal(s, q, id, err, backoff, now, skip);
    case AckCall(q, id, now) => assert Local(s, Ack(s, q, id, now), q, id);
    case RescheduleCall(q, id, at) => assert Local(s, Reschedule(s, q, id, at), q, id);
    case CancelCall(q, id, now, reason) => assert Local(s, Cancel(s, q, id, now, reason), q, id);
  }

  lemma EnqueueLocal(s: Store, id: Id, core: Core, at: int, ttl: int)
    requires !Duplicate(s, core.uniqueKey, ttl)
    ensures Local(s, Enqueue(s, id, core, at, ttl), core.queue, id)
  {}

  lemma DequeueLocal(s: Store, q: QName, now: int)
    requires Head(s, q).Some?
    ensures Local(s, Dequeue(s, q, now), q, Head(s, q).value)
  {}

  lemma RetryDeadLocal(s: Store, q: QName, id: Id)
    requires id in Q(s, q).dead
    ensures Local(s, RetryDead(s, q, id), q, id)
  {
    var t := RetryDead(s, q, id);
    forall x | x != id ensures SameIn(Q(s, q), Q(t, q), x) {
      assert Q(t, q).dead == RemoveFirst(Q(s, q).dead, id);
    }
  }

  lemma PromoteOneLocal(s: Store, q: QName, id: Id)
    ensures Local(s, PromoteOne(s, q, id), q, id)
  {}

  lemma RecoverOneLocal(s: Store, q: QName, id: Id)
    requires id in Q(s, q).active
    ensures Local(s, RecoverOne(s, q, id), q, id)
  {}
}
