/** Unique keys: who holds one, who releases it, and when it keeps two jobs apart. */
module UniqueKeys {
  import opened ZSets
  import opened Scripts
  import opened Runs
  import opened Placement
  import RedisQueue

  predicate Live(h: Hash) {
    h.state == Pending || h.state == Retry || h.state == Active
  }

  /** A held key belongs to a live job that carries it. */
  ghost predicate Held(s: Store, k: string) {
    k in s.unique ==> k != "" && KeyOf(H(s, s.unique[k])) == k && Live(H(s, s.unique[k]))
  }

  ghost predicate AllHeld(s: Store) {
    forall k :: Held(s, k)
  }

  /** Every live job carrying k holds it. */
  ghost predicate Exclusive(s: Store, k: string) {
    forall id | Live(H(s, id)) && KeyOf(H(s, id)) == k :: k in s.unique && s.unique[k] == id
  }

  /** The step rewrites one hash without changing its key: it keeps the job live and the
      keys as they are, or it frees the job's key. */
  ghost predicate Settles(s: Store, t: Store, id: Id) {
    && t.jobs == s.jobs[id := H(t, id)]
    && KeyOf(H(t, id)) == KeyOf(H(s, id))
    && (|| (t.unique == s.unique && (Live(H(t, id)) || H(t, id).state == H(s, id).state))
        || t.unique == FreeKey(s.unique, KeyOf(H(s, id)), id))
  }

  lemma SettleHeld(s: Store, t: Store, id: Id)
    requires AllHeld(s) && Settles(s, t, id)
    ensures AllHeld(t)
  {
    forall k ensures Held(t, k) { assert Held(s, k); }
  }

  lemma {:induction false} PromoteAllHeld(s: Store, q: QName, ids: seq<Id>)
    requires AllHeld(s)
    ensures AllHeld(PromoteAll(s, q, ids))
  {
    if ids != [] {
      PromoteAllHeld(s, q, ids[..|ids| - 1]);
      SettleHeld(PromoteAll(s, q, ids[..|ids| - 1]), PromoteAll(s, q, ids), ids[|ids| - 1]);
    }
  }

  lemma {:induction false} RecoverAllHeld(s: Store, q: QName, ids: seq<Id>)
    requires AllHeld(s)
    ensures AllHeld(RecoverAll(s, q, ids))
  {
    if ids != [] {
      var u, t, id := RecoverAll(s, q, ids[..|ids| - 1]), RecoverAll(s, q, ids), ids[|ids| - 1];
      RecoverAllHeld(s, q, ids[..|ids| - 1]);
      if id in Q(u, q).active {
        SettleHeld(u, t, id);
      } else {
        forall k ensures Held(t, k) { assert Held(u, k); }
      }
    }
  }

  lemma FinishSettles(s: Store, e: Event)
    requires Finishing(e)
    ensures Settles(s, Apply(s, e), e.id)
  {
    match e
    case AckCall(_, _, _) =>
    case NackCall(_, _, _, _, _, _) =>
    case RescheduleCall(_, _, _) =>
    case CancelCall(_, _, _, _) =>
  }

  lemma LiveNotDead(s: Store, q: QName, id: Id)
    requires Placed(s) && Live(H(s, id))
    ensures id !in Q(s, q).dead
  {
    assert PlacedId(s, id) && PlaceOk(H(s, id), Q(s, q), q, id);
    assert multiset(Q(s, q).dead)[id] == 0;
  }

  /** Jobs in the dead list hold no key, so purging them leaves no key ownerless. */
  lemma PurgeHeld(s: Store, q: QName)
    requires Placed(s) && AllHeld(s)
    ensures AllHeld(PurgeDead(s, q))
  {
    forall k ensures Held(PurgeDead(s, q), k) {
      assert Held(s, k);
      if k in s.unique { LiveNotDead(s, q, s.unique[k]); }
    }
  }

  lemma EnqueueHeld(s: Store, id: Id, core: Core, at: int, ttl: int)
    requires AllHeld(s) && id !in s.jobs
    ensures AllHeld(Enqueue(s, id, core, at, ttl))
  {
    forall k ensures Held(Enqueue(s, id, core, at, ttl), k) { assert Held(s, k); }
  }

  lemma QuietHeld(s: Store, e: Event)
    requires AllHeld(s) && Quiet(e)
    ensures AllHeld(Apply(s, e))
  {
    forall k ensures Held(Apply(s, e), k) { assert Held(s, k); }
  }

  lemma StepHeld(s: Store, e: Event)
    requires Placed(s) && Fenced(s, e) && AllHeld(s)
    ensures AllHeld(Apply(s, e))
  {
    var t := Apply(s, e);
    if Finishing(e) {
      FinishSettles(s, e);
      SettleHeld(s, t, e.id);
    } else if Quiet(e) {
      QuietHeld(s, e);
    } else {
      match e
      case EnqueueCall(id, core, at, ttl) => EnqueueHeld(s, id, core, at, ttl);
      case DequeueCall(q, now) =>
        if Head(s, q).Some? { SettleHeld(s, Dequeue(s, q, now), Head(s, q).value); }
      case RecoverCall(q, now, limit) => RecoverAllHeld(s, q, Expired(s, q, now, limit));
      case PromoteCall(q, now, limit) => PromoteAllHeld(s, q, Due(s, q, now, limit));
      case RetryDeadCall(q, id) =>
        if id in Q(s, q).dead { SettleHeld(s, RetryDead(s, q, id), id); }
      case PurgeDeadCall(q) => PurgeHeld(s, q);
    }
  }

  lemma {:induction false} RunHeld(es: seq<Event>)
    requires FencedRun(EMPTY, es)
    ensures Placed(Run(EMPTY, es)) && AllHeld(Run(EMPTY, es))
  {
    if es == [] {
      EmptyPlaced();
    } else {
      RunHeld(es[..|es| - 1]);
      StepPlaced(Run(EMPTY, es[..|es| - 1]), es[|es| - 1]);
      StepHeld(Run(EMPTY, es[..|es| - 1]), es[|es| - 1]);
    }
  }

  /** Main result: a held key is owned by a job waiting or running in its own queue. */
  lemma KeyOwnerIsLive(es: seq<Event>, k: string)
    requires FencedRun(EMPTY, es) && k in Run(EMPTY, es).unique
    ensures var s := Run(EMPTY, es);
            var id := s.unique[k];
            && id in s.jobs && s.jobs[id].core.Some? && s.jobs[id].core.value.uniqueKey == k
            && var d := Q(s, s.jobs[id].core.value.queue);
               id in d.ready || id in d.delayed || id in d.active
  {
    RunHeld(es);
    var s := Run(EMPTY, es);
    var id := s.unique[k];
    assert Held(s, k) && PlacedId(s, id);
    var q := s.jobs[id].core.value.queue;
    assert PlaceOk(H(s, id), Q(s, q), q, id);
  }

  /** No finishing call, fenced or not, touches a key another job owns; and a job's own
      key is freed exactly when the call ends the job. */
  lemma FinishFreesOwnOnly(s: Store, e: Event, k: string)
    requires Finishing(e) && k in s.unique && k != ""
    ensures var ends := e.AckCall? || e.CancelCall? || (e.NackCall? && NackDecision(H(s, e.id), e.skip) == ToDead);
            var t := Apply(s, e);
            && (k !in t.unique <==> ends && s.unique[k] == e.id && KeyOf(H(s, e.id)) == k)
            && (k in t.unique ==> t.unique[k] == s.unique[k])
  {
    match e
    case AckCall(_, _, _) =>
    case NackCall(_, _, _, _, _, _) =>
    case RescheduleCall(_, _, _) =>
    case CancelCall(_, _, _, _) =>
  }

  // ---- exclusion ----

  /** What breaks the exclusion of key k: an enqueue that stores it without claiming it, its
      expiry while it is held, and the retry of a dead job that carries it. */
  predicate Breaks(s: Store, e: Event, k: string) {
    || (e.EnqueueCall? && e.core.uniqueKey == k && e.ttl < 1)
    || (e.ExpireCall? && e.key == k && k in s.unique)
    || (e.RetryDeadCall? && e.id in Q(s, e.q).dead && KeyOf(H(s, e.id)) == k)
  }

  predicate KeepsRun(s: Store, es: seq<Event>, k: string) {
    es == [] || (KeepsRun(s, es[..|es| - 1], k) && !Breaks(Run(s, es[..|es| - 1]), es[|es| - 1], k))
  }

  /** Rewriting one hash keeps exclusion if a job that is live now was live before. */
  lemma SettleExclusive(s: Store, t: Store, id: Id, k: string)
    requires Exclusive(s, k) && Settles(s, t, id)
    requires Live(H(t, id)) && KeyOf(H(t, id)) == k ==> Live(H(s, id)) && t.unique == s.unique
    ensures Exclusive(t, k)
  {
    forall x | Live(H(t, x)) && KeyOf(H(t, x)) == k ensures k in t.unique && t.unique[k] == x {
      assert Live(H(s, x)) && KeyOf(H(s, x)) == k;
    }
  }

  lemma SameJobsExclusive(s: Store, t: Store, k: string)
    requires Exclusive(s, k) && t.jobs == s.jobs
    requires k in s.unique ==> k in t.unique && t.unique[k] == s.unique[k]
    ensures Exclusive(t, k)
  {
    forall x | Live(H(t, x)) && KeyOf(H(t, x)) == k ensures k in t.unique && t.unique[k] == x {
      assert Live(H(s, x)) && KeyOf(H(s, x)) == k;
    }
  }

  lemma {:induction false} PromoteAllExclusive(s: Store, q: QName, ids: seq<Id>, k: string)
    requires Exclusive(s, k) && forall x | x in ids :: Live(H(s, x))
    ensures Exclusive(PromoteAll(s, q, ids), k)
    ensures forall x | Live(H(s, x)) :: Live(H(PromoteAll(s, q, ids), x))
  {
    if ids != [] {
      PromoteAllExclusive(s, q, ids[..|ids| - 1], k);
      SettleExclusive(PromoteAll(s, q, ids[..|ids| - 1]), PromoteAll(s, q, ids), ids[|ids| - 1], k);
    }
  }

  lemma {:induction false} RecoverAllExclusive(s: Store, q: QName, ids: seq<Id>, k: string)
    requires Exclusive(s, k) && forall x | x in ids :: Live(H(s, x))
    ensures Exclusive(RecoverAll(s, q, ids), k)
    ensures forall x | Live(H(s, x)) :: Live(H(RecoverAll(s, q, ids), x))
  {
    if ids != [] {
      var u, t, id := RecoverAll(s, q, ids[..|ids| - 1]), RecoverAll(s, q, ids), ids[|ids| - 1];
      RecoverAllExclusive(s, q, ids[..|ids| - 1], k);
      if id in Q(u, q).active {
        SettleExclusive(u, t, id, k);
      } else {
        SameJobsExclusive(u, t, k);
        assert forall x :: H(t, x) == H(u, x);
      }
    }
  }

  /** Where a job is placed as waiting or active, its hash is live. */
  lemma PlacedLive(s: Store, q: QName, id: Id)
    requires Placed(s) && (id in Q(s, q).ready || id in Q(s, q).delayed || id in Q(s, q).lease || id in Q(s, q).active)
    ensures Live(H(s, id))
  {
    assert PlacedId(s, id) && PlaceOk(H(s, id), Q(s, q), q, id);
  }

  lemma EnqueueExclusive(s: Store, id: Id, core: Core, at: int, ttl: int, k: string)
    requires Exclusive(s, k) && id !in s.jobs && k != "" && (core.uniqueKey == k ==> ttl >= 1)
    ensures Exclusive(Enqueue(s, id, core, at, ttl), k)
  {
    var t := Enqueue(s, id, core, at, ttl);
    forall x | Live(H(t, x)) && KeyOf(H(t, x)) == k ensures k in t.unique && t.unique[k] == x {
      if x != id || Duplicate(s, core.uniqueKey, ttl) {
        assert Live(H(s, x)) && KeyOf(H(s, x)) == k;
      }
    }
  }

  lemma PurgeExclusive(s: Store, q: QName, k: string)
    requires Exclusive(s, k)
    ensures Exclusive(PurgeDead(s, q), k)
  {
    var t := PurgeDead(s, q);
    forall x | Live(H(t, x)) && KeyOf(H(t, x)) == k ensures k in t.unique && t.unique[k] == x {
      assert Live(H(s, x)) && KeyOf(H(s, x)) == k;
    }
  }

  lemma StepExclusive(s: Store, e: Event, k: string)
    requires Placed(s) && Fenced(s, e) && Exclusive(s, k) && k != "" && !Breaks(s, e, k)
    ensures Exclusive(Apply(s, e), k)
  {
    if Finishing(e) {
      PlacedLive(s, e.q, e.id);
      FinishSettles(s, e);
      SettleExclusive(s, Apply(s, e), e.id, k);
    } else if Quiet(e) {
      SameJobsExclusive(s, Apply(s, e), k);
    } else {
      match e
      case EnqueueCall(id, core, at, ttl) => EnqueueExclusive(s, id, core, at, ttl, k);
      case DequeueCall(q, now) =>
        if Head(s, q).Some? {
          PlacedLive(s, q, Head(s, q).value);
          SettleExclusive(s, Dequeue(s, q, now), Head(s, q).value, k);
        }
      case RecoverCall(q, now, limit) =>
        forall x | x in Expired(s, q, now, limit) ensures Live(H(s, x)) { PlacedLive(s, q, x); }
        RecoverAllExclusive(s, q, Expired(s, q, now, limit), k);
      case PromoteCall(q, now, limit) =>
        forall x | x in Due(s, q, now, limit) ensures Live(H(s, x)) { PlacedLive(s, q, x); }
        PromoteAllExclusive(s, q, Due(s, q, now, limit), k);
      case RetryDeadCall(q, id) =>
        if id in Q(s, q).dead { SettleExclusive(s, RetryDead(s, q, id), id, k); }
      case PurgeDeadCall(q) => PurgeExclusive(s, q, k);
    }
  }

  /** Main result: of all fenced calls exactly these break the exclusion of a key. */
  lemma ExclusiveIff(s: Store, e: Event, k: string)
    requires Placed(s) && Fenced(s, e) && AllHeld(s) && Exclusive(s, k) && k != ""
    ensures Exclusive(Apply(s, e), k) <==> !Breaks(s, e, k)
  {
    if !Breaks(s, e, k) {
      StepExclusive(s, e, k);
    } else {
      assert Held(s, k);
      var t, x := Apply(s, e), if e.ExpireCall? then s.unique[k] else e.id;
      if e.RetryDeadCall? { DeadIsNotLive(s, e.q, e.id); }
      assert Live(H(t, x)) && KeyOf(H(t, x)) == k && !(k in t.unique && t.unique[k] == x);
    }
  }

  lemma DeadIsNotLive(s: Store, q: QName, id: Id)
    requires Placed(s) && id in Q(s, q).dead
    ensures !Live(H(s, id))
  {
    if Live(H(s, id)) { LiveNotDead(s, q, id); }
  }

  lemma {:induction false} RunExclusive(es: seq<Event>, k: string)
    requires FencedRun(EMPTY, es) && KeepsRun(EMPTY, es, k) && k != ""
    ensures Exclusive(Run(EMPTY, es), k)
  {
    if es != [] {
      RunExclusive(es[..|es| - 1], k);
      RunHeld(es[..|es| - 1]);
      StepExclusive(Run(EMPTY, es[..|es| - 1]), es[|es| - 1], k);
    }
  }

  /** Main result: two distinct jobs waiting or running never carry the same claimed key. */
  lemma NoTwoLiveJobsShareAKey(es: seq<Event>, k: string, a: Id, b: Id)
    requires FencedRun(EMPTY, es) && KeepsRun(EMPTY, es, k) && k != "" && a != b
    ensures var s := Run(EMPTY, es);
            !(Live(H(s, a)) && Live(H(s, b)) && KeyOf(H(s, a)) == k && KeyOf(H(s, b)) == k)
  {
    RunExclusive(es, k);
  }

  /** The key a hash stores, and the seconds it is claimed for: the period, rounded down. */
  lemma KeyAndPeriod(uniqKey: string, periodNs: int)
    ensures var key, ttl := RedisQueue.StoredKey(uniqKey, periodNs), RedisQueue.TtlSeconds(uniqKey, periodNs);
            if uniqKey != "" && periodNs > 0
            then key == "winter:unique:" + uniqKey && ttl * 1_000_000_000 <= periodNs < (ttl + 1) * 1_000_000_000
            else key == "" && ttl == 0
  {}

  /** A second enqueue under a key is refused exactly when the key is held and the period
      reaches a second: shorter periods truncate to no claim at all. */
  lemma SubSecondPeriodsDoNotClaim(s: Store, uniqKey: string, periodNs: int)
    ensures Duplicate(s, RedisQueue.StoredKey(uniqKey, periodNs), RedisQueue.TtlSeconds(uniqKey, periodNs))
            <==> uniqKey != "" && periodNs >= RedisQueue.SECOND_NS && "winter:unique:" + uniqKey in s.unique
  {
    if uniqKey != "" && periodNs > 0 {
      assert periodNs / RedisQueue.SECOND_NS > 0 <==> periodNs >= RedisQueue.SECOND_NS;
    }
  }

  lemma SubSecondPeriodShares(s: Store, a: Id, b: Id, core: Core, uniqKey: string, periodNs: int)
    requires a != b && uniqKey != "" && 0 < periodNs < RedisQueue.SECOND_NS
    requires core.uniqueKey == RedisQueue.StoredKey(uniqKey, periodNs)
    ensures var ttl := RedisQueue.TtlSeconds(uniqKey, periodNs);
            var t := Enqueue(Enqueue(s, a, core, 0, ttl), b, core, 0, ttl);
            Live(H(t, a)) && Live(H(t, b)) && KeyOf(H(t, a)) == KeyOf(H(t, b)) != ""
  {
    assert RedisQueue.TtlSeconds(uniqKey, periodNs) == 0;
  }
}
