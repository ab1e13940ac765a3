/** Where a job is: in every fenced run each unfinished job is recorded in exactly
    one collection of exactly one queue, the one its hash names. */
module Placement {
  import opened ZSets
  import opened Scripts
  import opened Runs

  predicate Owns(h: Hash, q: QName) {
    h.core.Some? && h.core.value.queue == q
  }

  /** What queue q may record about a job with hash h. */
  ghost predicate PlaceOk(h: Hash, d: QueueData, q: QName, id: Id) {
    && (id in d.ready ==> Owns(h, q) && h.state == Pending && d.ready[id] == h.core.value.priority)
    && (id in d.delayed ==> Owns(h, q) && (h.state == Pending || h.state == Retry))
    && !(id in d.ready && id in d.delayed)
    && (Owns(h, q) && h.state == Pending ==> id in d.ready || id in d.delayed)
    && (Owns(h, q) && h.state == Retry ==> id in d.delayed)
    && (id in d.active <==> Owns(h, q) && h.state == Active)
    && (id in d.lease <==> id in d.active)
    && multiset(d.dead)[id] == (if Owns(h, q) && h.state == Dead then 1 else 0)
  }

  ghost predicate PlacedId(s: Store, id: Id) {
    && (id in s.jobs ==> s.jobs[id].core.Some? && s.jobs[id].state !in {Unset, Failed})
    && forall q :: PlaceOk(H(s, id), Q(s, q), q, id)
  }

  ghost predicate Placed(s: Store) {
    forall id :: PlacedId(s, id)
  }

  /** A step local to one job keeps all placed if it keeps that job placed. */
  lemma LocalPlaced(s: Store, t: Store, q: QName, id: Id)
    requires Placed(s) && Local(s, t, q, id)
    requires id !in s.jobs || Owns(H(s, id), q)
    requires Owns(H(t, id), q) && H(t, id).state !in {Unset, Failed}
    requires PlaceOk(H(t, id), Q(t, q), q, id)
    ensures Placed(t)
  {
    forall x ensures PlacedId(t, x) {
      assert PlacedId(s, x);
      forall p ensures PlaceOk(H(t, x), Q(t, p), p, x) {
        assert PlaceOk(H(s, x), Q(s, p), p, x);
        if x != id { assert SameIn(Q(s, q), Q(t, q), x); }
      }
    }
  }

  lemma EnqueuePlaced(s: Store, id: Id, core: Core, at: int, ttl: int)
    requires Placed(s) && id !in s.jobs
    ensures Placed(Enqueue(s, id, core, at, ttl))
  {
    if !Duplicate(s, core.uniqueKey, ttl) {
      assert PlacedId(s, id) && PlaceOk(H(s, id), Q(s, core.queue), core.queue, id);
      EnqueueLocal(s, id, core, at, ttl);
      LocalPlaced(s, Enqueue(s, id, core, at, ttl), core.queue, id);
    }
  }

  lemma DequeuePlaced(s: Store, q: QName, now: int)
    requires Placed(s)
    ensures Placed(Dequeue(s, q, now))
  {
    if Head(s, q).Some? {
      var id := Head(s, q).value;
      assert PlacedId(s, id) && PlaceOk(H(s, id), Q(s, q), q, id);
      DequeueLocal(s, q, now);
      LocalPlaced(s, Dequeue(s, q, now), q, id);
    }
  }

  lemma NackPlaced(s: Store, q: QName, id: Id, err: string, backoff: int, now: int, skip: bool)
    requires Placed(s) && id in Q(s, q).active
    ensures Placed(Nack(s, q, id, err, backoff, now, skip))
  {
    assert PlacedId(s, id) && PlaceOk(H(s, id), Q(s, q), q, id);
    NackLocal(s, q, id, err, backoff, now, skip);
    var t := Nack(s, q, id, err, backoff, now, skip);
    assert PlaceOk(H(t, id), Q(t, q), q, id);
    LocalPlaced(s, t, q, id);
  }

  lemma FinishPlaced(s: Store, e: Event)
    requires Placed(s) && Finishing(e) && e.id in Q(s, e.q).active
    ensures Placed(Apply(s, e))
  {
    assert PlacedId(s, e.id) && PlaceOk(H(s, e.id), Q(s, e.q), e.q, e.id);
    FinishLocal(s, e);
    match e
    case NackCall(q, id, err, backoff, now, skip) => NackPlaced(s, q, id, err, backoff, now, skip);
    case AckCall(q, id, _) => LocalPlaced(s, Apply(s, e), q, id);
    case RescheduleCall(q, id, _) => LocalPlaced(s, Apply(s, e), q, id);
    case CancelCall(q, id, _, _) => LocalPlaced(s, Apply(s, e), q, id);
  }

  lemma RetryDeadPlaced(s: Store, q: QName, id: Id)
    requires Placed(s)
    ensures Placed(RetryDead(s, q, id))
  {
    if id in Q(s, q).dead {
      assert PlacedId(s, id) && PlaceOk(H(s, id), Q(s, q), q, id);
      assert multiset(Q(s, q).dead)[id] > 0;
      RetryDeadLocal(s, q, id);
      LocalPlaced(s, RetryDead(s, q, id), q, id);
    }
  }

  lemma PurgeDeadPlaced(s: Store, q: QName)
    requires Placed(s)
    ensures Placed(PurgeDead(s, q))
  {
    var t := PurgeDead(s, q);
    forall x ensures PlacedId(t, x) {
      assert PlacedId(s, x);
      forall p ensures PlaceOk(H(t, x), Q(t, p), p, x) {
        assert PlaceOk(H(s, x), Q(s, p), p, x) && PlaceOk(H(s, x), Q(s, q), q, x);
        assert x in Q(s, q).dead <==> multiset(Q(s, q).dead)[x] > 0;
      }
    }
  }

  lemma PromoteOnePlaced(s: Store, q: QName, id: Id)
    requires Placed(s) && id in Q(s, q).delayed
    ensures Placed(PromoteOne(s, q, id))
  {
    assert PlacedId(s, id) && PlaceOk(H(s, id), Q(s, q), q, id);
    PromoteOneLocal(s, q, id);
    LocalPlaced(s, PromoteOne(s, q, id), q, id);
  }

  lemma {:induction false} PromoteAllPlaced(s: Store, q: QName, ids: seq<Id>)
    requires Placed(s) && Distinct(ids) && forall x | x in ids :: x in Q(s, q).delayed
    ensures Placed(PromoteAll(s, q, ids))
    ensures forall x | x !in ids && x in Q(s, q).delayed :: x in Q(PromoteAll(s, q, ids), q).delayed
  {
    if ids != [] {
      var front := ids[..|ids| - 1];
      PromoteAllPlaced(s, q, front);
      PromoteOnePlaced(PromoteAll(s, q, front), q, ids[|ids| - 1]);
    }
  }

  lemma RecoverOnePlaced(s: Store, q: QName, id: Id)
    requires Placed(s) && id in Q(s, q).active
    ensures Placed(RecoverOne(s, q, id))
  {
    assert PlacedId(s, id) && PlaceOk(H(s, id), Q(s, q), q, id);
    RecoverOneLocal(s, q, id);
    LocalPlaced(s, RecoverOne(s, q, id), q, id);
  }

  lemma {:induction false} RecoverAllPlaced(s: Store, q: QName, ids: seq<Id>)
    requires Placed(s) && Distinct(ids) && forall x | x in ids :: x in Q(s, q).active
    ensures Placed(RecoverAll(s, q, ids))
    ensures forall x | x !in ids && x in Q(s, q).active :: x in Q(RecoverAll(s, q, ids), q).active
  {
    if ids != [] {
      var front := ids[..|ids| - 1];
      RecoverAllPlaced(s, q, front);
      RecoverOnePlaced(RecoverAll(s, q, front), q, ids[|ids| - 1]);
    }
  }

  /** Under Placed a lease and an active entry are the same thing. */
  lemma LeasedIsActive(s: Store, q: QName, id: Id)
    requires Placed(s)
    ensures id in Q(s, q).lease <==> id in Q(s, q).active
  {
    assert PlacedId(s, id) && PlaceOk(H(s, id), Q(s, q), q, id);
  }

  /** Pausing, extending a lease and expiring a key record nothing new about where a job is. */
  lemma QuietPlaced(s: Store, e: Event)
    requires Placed(s) && Quiet(e)
    ensures Placed(Apply(s, e))
  {
    var t := Apply(s, e);
    assert t.jobs == s.jobs;
    forall x ensures PlacedId(t, x) {
      assert PlacedId(s, x);
      forall p ensures PlaceOk(H(t, x), Q(t, p), p, x) {
        assert PlaceOk(H(s, x), Q(s, p), p, x);
        assert Q(t, p) == Q(s, p).(lease := Q(t, p).lease, paused := Q(t, p).paused);
        assert x in Q(t, p).lease <==> x in Q(s, p).lease;
      }
    }
  }

  lemma StepPlaced(s: Store, e: Event)
    requires Placed(s) && Fenced(s, e)
    ensures Placed(Apply(s, e))
  {
    if Finishing(e) {
      FinishPlaced(s, e);
    } else if Quiet(e) {
      QuietPlaced(s, e);
    } else {
      match e
      case EnqueueCall(id, core, at, ttl) => EnqueuePlaced(s, id, core, at, ttl);
      case DequeueCall(q, now) => DequeuePlaced(s, q, now);
      case RecoverCall(q, now, limit) =>
        forall x | x in Expired(s, q, now, limit) ensures x in Q(s, q).active { LeasedIsActive(s, q, x); }
        RecoverAllPlaced(s, q, Expired(s, q, now, limit));
      case PromoteCall(q, now, limit) => PromoteAllPlaced(s, q, Due(s, q, now, limit));
      case RetryDeadCall(q, id) => RetryDeadPlaced(s, q, id);
      case PurgeDeadCall(q) => PurgeDeadPlaced(s, q);
    }
  }

  lemma {:induction false} RunPlaced(s: Store, es: seq<Event>)
    requires Placed(s) && FencedRun(s, es)
    ensures Placed(Run(s, es))
  {
    if es != [] {
      RunPlaced(s, es[..|es| - 1]);
      StepPlaced(Run(s, es[..|es| - 1]), es[|es| - 1]);
    }
  }

  // ---- the claim in the reader's terms ----

  datatype Place = InReady | InDelayed | InActive | InDead

  /** How many times place p of queue q records the job. */
  ghost function Times(s: Store, id: Id, p: Place, q: QName): nat {
    match p
    case InReady => if id in Q(s, q).ready then 1 else 0
    case InDelayed => if id in Q(s, q).delayed then 1 else 0
    case InActive => if id in Q(s, q).active then 1 else 0
    case InDead => multiset(Q(s, q).dead)[id]
  }

  predicate Fits(st: State, p: Place) {
    match p
    case InReady => st == Pending
    case InDelayed => st == Pending || st == Retry
    case InActive => st == Active
    case InDead => st == Dead
  }

  predicate Finished(h: Hash) {
    h.state == Completed || h.state == Cancelled
  }

  /** Recorded once, at a place its state allows, in its own queue, and nowhere else. */
  ghost predicate InExactlyOnePlace(s: Store, id: Id) {
    exists p :: Fits(H(s, id).state, p) &&
      forall p', q' :: Times(s, id, p', q') == if p' == p && Owns(H(s, id), q') then 1 else 0
  }

  ghost predicate Nowhere(s: Store, id: Id) {
    forall p, q :: Times(s, id, p, q) == 0
  }

  lemma PlacedMeans(s: Store, id: Id)
    requires Placed(s)
    ensures id in s.jobs && !Finished(s.jobs[id]) ==> InExactlyOnePlace(s, id)
    ensures id in s.jobs && Finished(s.jobs[id]) ==> Nowhere(s, id)
    ensures id !in s.jobs ==> Nowhere(s, id)
  {
    assert PlacedId(s, id);
    if id in s.jobs {
      var h := s.jobs[id];
      var q := h.core.value.queue;
      assert PlaceOk(h, Q(s, q), q, id);
      if !Finished(h) {
        var p := if h.state == Active then InActive else if h.state == Dead then InDead
                 else if id in Q(s, q).ready then InReady else InDelayed;
        forall p', q' ensures Times(s, id, p', q') == if p' == p && Owns(h, q') then 1 else 0 {
          assert PlaceOk(h, Q(s, q'), q', id);
        }
        assert Fits(h.state, p);
      }
    }
    forall p, q | id !in s.jobs || Finished(s.jobs[id]) ensures Times(s, id, p, q) == 0 {
      assert PlaceOk(H(s, id), Q(s, q), q, id);
    }
  }

  lemma EmptyPlaced()
    ensures Placed(EMPTY)
  {
    assert forall q, id :: PlaceOk(NO_HASH, NO_QUEUE, q, id);
  }

  /** Main result: from an empty Redis, after any fenced run over any queues. */
  lemma ExclusivePlacement(es: seq<Event>, id: Id)
    requires FencedRun(EMPTY, es)
    ensures var s := Run(EMPTY, es);
            if id in s.jobs && !Finished(s.jobs[id]) then InExactlyOnePlace(s, id) else Nowhere(s, id)
  {
    EmptyPlaced();
    RunPlaced(EMPTY, es);
    PlacedMeans(Run(EMPTY, es), id);
  }
}
