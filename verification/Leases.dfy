/** Leases and their recovery: a lease exists exactly while a job is active, a sweep
    takes only expired leases, and repeated sweeps take every one of them once. */
module Leases {
  import opened ZSets
  import opened Scripts
  import opened Runs
  import RedisQueue

  predicate Leased(d: QueueData) {
    d.lease.Keys == d.active
  }

  ghost predicate AllLeased(s: Store) {
    forall q :: Leased(Q(s, q))
  }

  lemma LocalLeased(s: Store, t: Store, q: QName, id: Id)
    requires AllLeased(s) && Local(s, t, q, id)
    requires id in Q(t, q).lease <==> id in Q(t, q).active
    ensures AllLeased(t)
  {
    forall p ensures Leased(Q(t, p)) {
      assert Leased(Q(s, p)) && Leased(Q(s, q));
      if p == q {
        forall x ensures x in Q(t, q).lease <==> x in Q(t, q).active {
          assert x != id ==> SameIn(Q(s, q), Q(t, q), x);
        }
      }
    }
  }

  lemma {:induction false} PromoteAllLeased(s: Store, q: QName, ids: seq<Id>)
    requires AllLeased(s)
    ensures AllLeased(PromoteAll(s, q, ids))
  {
    if ids != [] {
      var u, id := PromoteAll(s, q, ids[..|ids| - 1]), ids[|ids| - 1];
      PromoteAllLeased(s, q, ids[..|ids| - 1]);
      assert Leased(Q(u, q));
      PromoteOneLocal(u, q, id);
      LocalLeased(u, PromoteOne(u, q, id), q, id);
    }
  }

  /** Recovering a list of leased jobs removes their leases, keeps the others and reports them all. */
  lemma {:induction false} RecoverAllEffect(s: Store, q: QName, ids: seq<Id>)
    requires AllLeased(s) && Distinct(ids) && forall x | x in ids :: x in Q(s, q).lease
    ensures AllLeased(RecoverAll(s, q, ids))
    ensures Q(RecoverAll(s, q, ids), q).lease == Q(s, q).lease - Members(ids)
    ensures Recovered(s, q, ids) == ids
  {
    if ids != [] {
      var front, id := ids[..|ids| - 1], ids[|ids| - 1];
      RecoverAllEffect(s, q, front);
      var u := RecoverAll(s, q, front);
      assert id !in front;
      assert Leased(Q(u, q)) && id in Q(u, q).lease;
      RecoverOneLocal(u, q, id);
      LocalLeased(u, RecoverOne(u, q, id), q, id);
      assert ids == front + [id];
      assert Members(ids) == Members(front) + {id};
    }
  }

  lemma EnqueueLeased(s: Store, id: Id, core: Core, at: int, ttl: int)
    requires AllLeased(s)
    ensures AllLeased(Enqueue(s, id, core, at, ttl))
  {
    if !Duplicate(s, core.uniqueKey, ttl) {
      assert Leased(Q(s, core.queue));
      EnqueueLocal(s, id, core, at, ttl);
      LocalLeased(s, Enqueue(s, id, core, at, ttl), core.queue, id);
    }
  }

  lemma DequeueLeased(s: Store, q: QName, now: int)
    requires AllLeased(s)
    ensures AllLeased(Dequeue(s, q, now))
  {
    if Head(s, q).Some? {
      DequeueLocal(s, q, now);
      LocalLeased(s, Dequeue(s, q, now), q, Head(s, q).value);
    }
  }

  lemma RetryDeadLeased(s: Store, q: QName, id: Id)
    requires AllLeased(s)
    ensures AllLeased(RetryDead(s, q, id))
  {
    if id in Q(s, q).dead {
      assert Leased(Q(s, q));
      RetryDeadLocal(s, q, id);
      LocalLeased(s, RetryDead(s, q, id), q, id);
    }
  }

  lemma StepLeased(s: Store, e: Event)
    requires AllLeased(s)
    ensures AllLeased(Apply(s, e))
  {
    if Finishing(e) {
      FinishLocal(s, e);
      LocalLeased(s, Apply(s, e), e.q, e.id);
    } else if Quiet(e) || e.PurgeDeadCall? {
      forall q ensures Leased(Q(Apply(s, e), q)) { assert Leased(Q(s, q)); }
    } else {
      match e
      case EnqueueCall(id, core, at, ttl) => EnqueueLeased(s, id, core, at, ttl);
      case DequeueCall(q, now) => DequeueLeased(s, q, now);
      case RecoverCall(q, now, limit) => RecoverAllEffect(s, q, Expired(s, q, now, limit));
      case PromoteCall(q, now, limit) => PromoteAllLeased(s, q, Due(s, q, now, limit));
      case RetryDeadCall(q, id) => RetryDeadLeased(s, q, id);
    }
  }

  /** In every run, fenced or not, the active set is the domain of the lease map. */
  lemma {:induction false} ActiveIffLeased(es: seq<Event>)
    ensures AllLeased(Run(EMPTY, es))
  {
    if es == [] {
    } else {
      ActiveIffLeased(es[..|es| - 1]);
      StepLeased(Run(EMPTY, es[..|es| - 1]), es[|es| - 1]);
    }
  }

  /** One sweep: nothing unexpired is taken, everything taken is reported. */
  lemma SweepEffect(s: Store, q: QName, now: int, limit: int)
    requires AllLeased(s)
    ensures var t := Recover(s, q, now, limit);
            var ids := Recovered(s, q, Expired(s, q, now, limit));
            && AllLeased(t)
            && Distinct(ids)
            && Members(ids) <= UpTo(Q(s, q).lease, now)
            && Q(t, q).lease == Q(s, q).lease - Members(ids)
            && |ids| == if 0 <= limit < |UpTo(Q(s, q).lease, now)| then limit else |UpTo(Q(s, q).lease, now)|
  {
    RecoverAllEffect(s, q, Expired(s, q, now, limit));
  }

  // ---- repeated sweeps at one instant ----

  function Overdue(s: Store, q: QName, now: int): set<Id> {
    UpTo(Q(s, q).lease, now)
  }

  /** The store n sweeps leave, and the ids they report. */
  function Sweeps(s: Store, q: QName, now: int, limit: int, n: nat): (Store, seq<Id>)
    decreases n
  {
    if n == 0 then (s, [])
    else
      var later := Sweeps(Recover(s, q, now, limit), q, now, limit, n - 1);
      (later.0, Recovered(s, q, Expired(s, q, now, limit)) + later.1)
  }

  lemma LeftOver(z: ZSet, y: ZSet, ids: seq<Id>, now: int)
    requires y == z - Members(ids) && Distinct(ids) && Members(ids) <= UpTo(z, now)
    ensures UpTo(y, now) == UpTo(z, now) - Members(ids)
    ensures |UpTo(y, now)| == |UpTo(z, now)| - |ids|
  {
    DistinctCardinality(ids);
    assert UpTo(z, now) == UpTo(y, now) + Members(ids);
  }

  /** A sweep lowers the count of expired leases by the limit, or to nothing. */
  lemma SweepOverdue(s: Store, q: QName, now: int, limit: int)
    requires AllLeased(s) && limit > 0
    ensures var t, all := Recover(s, q, now, limit), Overdue(s, q, now);
            var ids := Recovered(s, q, Expired(s, q, now, limit));
            && AllLeased(t) && Distinct(ids) && Members(ids) <= all
            && Overdue(t, q, now) == all - Members(ids)
            && |Overdue(t, q, now)| == if limit < |all| then |all| - limit else 0
  {
    SweepEffect(s, q, now, limit);
    var t, ids := Recover(s, q, now, limit), Recovered(s, q, Expired(s, q, now, limit));
    LeftOver(Q(s, q).lease, Q(t, q).lease, ids, now);
  }

  /** A sweep's report and those of the sweeps after it. */
  lemma JoinReports(first: seq<Id>, later: seq<Id>, all: set<Id>)
    requires Distinct(first) && Distinct(later) && Members(first) <= all && Members(later) == all - Members(first)
    ensures Distinct(first + later) && Members(first + later) == all
  {
    DistinctConcat(first, later);
    MembersConcat(first, later);
  }

  lemma OneFewer(n: nat, limit: nat, all: nat)
    requires n > 0 && n * limit >= all
    ensures (n - 1) * limit >= if limit < all then all - limit else 0
  {
    assert n * limit == (n - 1) * limit + limit;
  }

  /** Main result: enough limited sweeps leave nothing expired and report each expired job once. */
  lemma {:induction false} SweepsComplete(s: Store, q: QName, now: int, limit: int, n: nat)
    requires AllLeased(s) && limit > 0 && n * limit >= |Overdue(s, q, now)|
    ensures var (t, ids) := Sweeps(s, q, now, limit, n);
            Overdue(t, q, now) == {} && Distinct(ids) && Members(ids) == Overdue(s, q, now)
    decreases n
  {
    if n == 0 {
      assert |Overdue(s, q, now)| == 0;
    } else {
      SweepOverdue(s, q, now, limit);
      OneFewer(n, limit, |Overdue(s, q, now)|);
      var u, first := Recover(s, q, now, limit), Recovered(s, q, Expired(s, q, now, limit));
      SweepsComplete(u, q, now, limit, n - 1);
      var later := Sweeps(u, q, now, limit, n - 1);
      JoinReports(first, later.1, Overdue(s, q, now));
      assert Sweeps(s, q, now, limit, n) == (later.0, first + later.1);
    }
  }

  // ---- the recovery goroutine ----

  /** The calls of one pass: queue i is swept at the time read just before. */
  function PassEvents(queues: seq<QName>, nows: seq<int>, limit: int): seq<Event>
    requires |queues| == |nows|
  {
    if queues == [] then []
    else PassEvents(queues[..|queues| - 1], nows[..|queues| - 1], limit)
         + [RecoverCall(queues[|queues| - 1], nows[|queues| - 1], limit)]
  }

  lemma PassSnoc(s: Store, queues: seq<QName>, nows: seq<int>, limit: int, i: nat)
    requires i < |queues| == |nows|
    ensures Run(s, PassEvents(queues[..i + 1], nows[..i + 1], limit))
            == Recover(Run(s, PassEvents(queues[..i], nows[..i], limit)), queues[i], nows[i], limit)
  {
    assert queues[..i + 1][..i] == queues[..i] && nows[..i + 1][..i] == nows[..i];
    RunSnoc(s, PassEvents(queues[..i], nows[..i], limit), RecoverCall(queues[i], nows[i], limit));
  }

  lemma RecoverElsewhere(s: Store, q: QName, now: int, limit: int, p: QName)
    requires p != q
    ensures Q(Recover(s, q, now, limit), p) == Q(s, p)
  {
    RecoverAllElsewhere(s, q, Expired(s, q, now, limit), p);
  }

  lemma {:induction false} RecoverAllElsewhere(s: Store, q: QName, ids: seq<Id>, p: QName)
    requires p != q
    ensures Q(RecoverAll(s, q, ids), p) == Q(s, p)
  {
    if ids != [] { RecoverAllElsewhere(s, q, ids[..|ids| - 1], p); }
  }

  /** Queue p after the first n turns of a pass. */
  ghost predicate Swept(s: Store, t: Store, queues: seq<QName>, nows: seq<int>, limit: int, n: nat, p: QName)
    requires n <= |queues| == |nows|
  {
    && AllLeased(t)
    && (p !in queues[..n] ==> Q(t, p) == Q(s, p))
    && forall i | 0 <= i < n && queues[i] == p ::
         |Overdue(t, p, nows[i])| == Fewer(|Overdue(s, p, nows[i])|, limit)
  }

  function Fewer(n: nat, limit: int): int {
    if limit < n then n - limit else 0
  }

  lemma SweptTurn(s: Store, u: Store, queues: seq<QName>, nows: seq<int>, limit: int, k: nat, p: QName)
    requires limit > 0 && k < |queues| == |nows| && Distinct(queues) && Swept(s, u, queues, nows, limit, k, p)
    ensures Swept(s, Recover(u, queues[k], nows[k], limit), queues, nows, limit, k + 1, p)
  {
    assert queues[..k + 1] == queues[..k] + [queues[k]];
    SweepOverdue(u, queues[k], nows[k], limit);
    if p == queues[k] {
      assert forall i | 0 <= i < k :: queues[..k][i] == queues[i] != p;
    } else {
      RecoverElsewhere(u, queues[k], nows[k], limit, p);
    }
  }

  /** Main result: a pass over distinct queues lowers the number of leases each had expired at
      its turn by the limit, or to nothing, and touches no other queue. */
  lemma {:induction false} PassSweepsEach(s: Store, queues: seq<QName>, nows: seq<int>, limit: int, n: nat, p: QName)
    requires AllLeased(s) && limit > 0 && n <= |queues| == |nows| && Distinct(queues)
    ensures Swept(s, Run(s, PassEvents(queues[..n], nows[..n], limit)), queues, nows, limit, n, p)
  {
    if n > 0 {
      PassSweepsEach(s, queues, nows, limit, n - 1, p);
      PassSnoc(s, queues, nows, limit, n - 1);
      SweptTurn(s, Run(s, PassEvents(queues[..n - 1], nows[..n - 1], limit)), queues, nows, limit, n - 1, p);
    }
  }

  class Recovery {
    const queue: RedisQueue.Queue
    const queues: seq<QName>
    const limit: int

    constructor (queue: RedisQueue.Queue, queues: seq<QName>, limit: int)
      ensures this.queue == queue && this.queues == queues
      ensures this.limit == (if limit <= 0 then 100 else limit) && this.limit > 0
    {
      this.queue := queue;
      this.queues := queues;
      this.limit := if limit <= 0 then 100 else limit;
    }

    method Sweep(nows: seq<int>)
      requires |nows| == |queues|
      modifies queue
      ensures queue.View() == Run(old(queue.View()), PassEvents(queues, nows, limit))
    {
      for i := 0 to |queues|
        invariant queue.View() == Run(old(queue.View()), PassEvents(queues[..i], nows[..i], limit))
      {
        PassSnoc(old(queue.View()), queues, nows, limit, i);
        var _ := queue.RecoverExpiredLeasesAt(queues[i], limit, nows[i]);
      }
      assert queues[..|queues|] == queues && nows[..|queues|] == nows;
    }
  }
}
