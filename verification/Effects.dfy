/** What a caller sees of each call beside the hashes: where every job is recorded, who holds
    a key, the dead list, the pause flag and the counters. */
module Effects {
  import opened Wrappers
  import opened ZSets
  import opened Scripts
  import opened Runs
  import Conservation
  import RedisQueue
  import Leases

  /** What one queue records about one job. */
  datatype Spot = Spot(ready: Option<int>, delayed: Option<int>, lease: Option<int>, active: bool)

  function Score(z: ZSet, x: Id): Option<int> {
    if x in z then Some(z[x]) else None
  }

  function Seen(d: QueueData, x: Id): Spot {
    Spot(Score(d.ready, x), Score(d.delayed, x), Score(d.lease, x), x in d.active)
  }

  /** The priority a job returns to ready with: its own, or 5 when its hash has none. */
  function ReturnPriority(s: Store, x: Id): int {
    var h := H(s, x);
    if h.core.Some? then h.core.value.priority else 5
  }

  /** Whether a nack gives the job another try: not when it skips, and only while the attempts
      counted so far, this one included, are below the limit. */
  predicate TriesAgain(h: Hash, skip: bool) {
    !skip && h.core.Some? && h.attempt + 1 < h.core.value.maxRetries
  }

  predicate Buries(h: Hash, skip: bool) {
    skip || (h.core.Some? && h.attempt + 1 >= h.core.value.maxRetries)
  }

  /** The record of job x in queue q after a call. */
  function SpotAfter(s: Store, e: Event, q: QName, x: Id): Spot {
    var r := Seen(Q(s, q), x);
    var gone := r.(lease := None, active := false);
    match e
    case EnqueueCall(id, core, at, ttl) =>
      if id != x || core.queue != q || (core.uniqueKey != "" && ttl > 0 && core.uniqueKey in s.unique) then r
      else if at > 0 then r.(delayed := Some(at))
      else r.(ready := Some(core.priority))
    case DequeueCall(p, now) =>
      if p == q && !Q(s, q).paused && IsFirst(Q(s, q).ready, x)
      then r.(ready := None, active := true, lease := Some(now + 30_000)) else r
    case AckCall(p, id, _) => if p == q && id == x then gone else r
    case CancelCall(p, id, _, _) => if p == q && id == x then gone else r
    case RescheduleCall(p, id, at) => if p == q && id == x then gone.(delayed := Some(at)) else r
    case NackCall(p, id, _, backoff, now, skip) =>
      if p != q || id != x then r
      else if TriesAgain(H(s, x), skip) then gone.(delayed := Some(now + backoff))
      else gone
    case ExtendCall(p, id, expiry) =>
      if p == q && id == x && x in Q(s, q).lease then r.(lease := Some(expiry)) else r
    case RecoverCall(p, now, limit) =>
      if p == q && x in Expired(s, q, now, limit) then gone.(ready := Some(ReturnPriority(s, x))) else r
    case PromoteCall(p, now, limit) =>
      if p == q && x in Due(s, q, now, limit) then r.(delayed := None, ready := Some(ReturnPriority(s, x))) else r
    case RetryDeadCall(p, id) =>
      if p == q && id == x && x in Q(s, q).dead then r.(ready := Some(ReturnPriority(s, x))) else r
    case PurgeDeadCall(_) => r
    case PauseCall(_, _) => r
    case ExpireCall(_) => r
  }

  lemma OnlyFirst(z: ZSet, m: Id, x: Id)
    requires IsFirst(z, m)
    ensures IsFirst(z, x) <==> x == m
  {
    if IsFirst(z, x) { FirstUnique(z, x, m); }
  }

  lemma DequeueSpot(s: Store, p: QName, now: int, q: QName, x: Id)
    ensures Seen(Q(Dequeue(s, p, now), q), x) == SpotAfter(s, DequeueCall(p, now), q, x)
  {
    if Head(s, p).Some? { OnlyFirst(Q(s, p).ready, Head(s, p).value, x); }
  }

  lemma NackSpot(s: Store, p: QName, id: Id, err: string, backoff: int, now: int, skip: bool, q: QName, x: Id)
    ensures Seen(Q(Nack(s, p, id, err, backoff, now, skip), q), x)
            == SpotAfter(s, NackCall(p, id, err, backoff, now, skip), q, x)
  {}

  lemma EnqueueSpot(s: Store, id: Id, core: Core, at: int, ttl: int, q: QName, x: Id)
    ensures Seen(Q(Enqueue(s, id, core, at, ttl), q), x) == SpotAfter(s, EnqueueCall(id, core, at, ttl), q, x)
  {
    EnqueueWrites(s, id, core, at, ttl, q);
  }

  lemma EnqueueWrites(s: Store, id: Id, core: Core, at: int, ttl: int, q: QName)
    ensures var d, e := Q(s, q), Q(Enqueue(s, id, core, at, ttl), q);
            if core.queue != q || (core.uniqueKey != "" && ttl > 0 && core.uniqueKey in s.unique) then e == d
            else if at > 0 then e == d.(delayed := d.delayed[id := at], stats := e.stats)
            else e == d.(ready := d.ready[id := core.priority], stats := e.stats)
  {}

  lemma {:induction false} PromoteSpot(s: Store, p: QName, ids: seq<Id>, q: QName, x: Id)
    ensures var r := Seen(Q(s, q), x);
            Seen(Q(PromoteAll(s, p, ids), q), x)
            == if p == q && x in ids then r.(delayed := None, ready := Some(ReturnPriority(s, x))) else r
    ensures H(PromoteAll(s, p, ids), x).core == H(s, x).core
  {
    if ids != [] {
      PromoteSpot(s, p, ids[..|ids| - 1], q, x);
      assert ids == ids[..|ids| - 1] + [ids[|ids| - 1]];
    }
  }

  lemma RecoverOneSpot(s: Store, p: QName, id: Id, q: QName, x: Id)
    requires id in Q(s, p).active
    ensures var r := Seen(Q(s, q), x);
            Seen(Q(RecoverOne(s, p, id), q), x)
            == if p == q && x == id
               then r.(lease := None, active := false, ready := Some(ReturnPriority(s, x))) else r
    ensures H(RecoverOne(s, p, id), x).core == H(s, x).core
  {}

  lemma {:induction false} RecoverSpot(s: Store, p: QName, ids: seq<Id>, q: QName, x: Id)
    requires Leases.AllLeased(s) && Distinct(ids) && forall y | y in ids :: y in Q(s, p).lease
    ensures var r := Seen(Q(s, q), x);
            Seen(Q(RecoverAll(s, p, ids), q), x)
            == if p == q && x in ids
               then r.(lease := None, active := false, ready := Some(ReturnPriority(s, x))) else r
    ensures H(RecoverAll(s, p, ids), x).core == H(s, x).core
  {
    if ids != [] {
      var front, id := ids[..|ids| - 1], ids[|ids| - 1];
      assert ids == front + [id];
      RecoverSpot(s, p, front, q, x);
      StillLeased(s, p, front, id);
      RecoverOneSpot(RecoverAll(s, p, front), p, id, q, x);
    }
  }

  lemma StillLeased(s: Store, q: QName, front: seq<Id>, id: Id)
    requires Leases.AllLeased(s) && Distinct(front) && id in Q(s, q).lease && id !in front
    requires forall y | y in front :: y in Q(s, q).lease
    ensures id in Q(RecoverAll(s, q, front), q).active
  {
    Leases.RecoverAllEffect(s, q, front);
    assert Leases.Leased(Q(RecoverAll(s, q, front), q));
  }

  lemma AckSpot(s: Store, p: QName, id: Id, now: int, q: QName, x: Id)
    ensures Seen(Q(Ack(s, p, id, now), q), x) == SpotAfter(s, AckCall(p, id, now), q, x)
  {}

  lemma CancelSpot(s: Store, p: QName, id: Id, now: int, reason: string, q: QName, x: Id)
    ensures Seen(Q(Cancel(s, p, id, now, reason), q), x) == SpotAfter(s, CancelCall(p, id, now, reason), q, x)
  {}

  lemma RescheduleSpot(s: Store, p: QName, id: Id, at: int, q: QName, x: Id)
    ensures Seen(Q(Reschedule(s, p, id, at), q), x) == SpotAfter(s, RescheduleCall(p, id, at), q, x)
  {}

  lemma RetryDeadSpot(s: Store, p: QName, id: Id, q: QName, x: Id)
    ensures Seen(Q(RetryDead(s, p, id), q), x) == SpotAfter(s, RetryDeadCall(p, id), q, x)
  {}

  lemma ExtendSpot(s: Store, p: QName, id: Id, expiry: int, q: QName, x: Id)
    ensures Seen(Q(ExtendLease(s, p, id, expiry), q), x) == SpotAfter(s, ExtendCall(p, id, expiry), q, x)
  {}

  lemma StepSpot(s: Store, e: Event, q: QName, x: Id)
    requires Leases.AllLeased(s)
    ensures Seen(Q(Apply(s, e), q), x) == SpotAfter(s, e, q, x)
  {
    match e
    case EnqueueCall(id, core, at, ttl) => EnqueueSpot(s, id, core, at, ttl, q, x);
    case DequeueCall(p, now) => DequeueSpot(s, p, now, q, x);
    case NackCall(p, id, err, backoff, now, skip) => NackSpot(s, p, id, err, backoff, now, skip, q, x);
    case RecoverCall(p, now, limit) => RecoverSpot(s, p, Expired(s, p, now, limit), q, x);
    case PromoteCall(p, now, limit) => PromoteSpot(s, p, Due(s, p, now, limit), q, x);
    case AckCall(p, id, now) => AckSpot(s, p, id, now, q, x);
    case CancelCall(p, id, now, reason) => CancelSpot(s, p, id, now, reason, q, x);
    case RescheduleCall(p, id, at) => RescheduleSpot(s, p, id, at, q, x);
    case ExtendCall(p, id, expiry) => ExtendSpot(s, p, id, expiry, q, x);
    case RetryDeadCall(p, id) => RetryDeadSpot(s, p, id, q, x);
    case PurgeDeadCall(_) =>
    case PauseCall(_, _) =>
    case ExpireCall(_) =>
  }

  /** Main result: after any run whatever, where each call leaves every job, in every queue. */
  lemma RunStepSpot(es: seq<Event>, e: Event, q: QName, x: Id)
    ensures Seen(Q(Run(EMPTY, es + [e]), q), x) == SpotAfter(Run(EMPTY, es), e, q, x)
  {
    Leases.ActiveIffLeased(es);
    RunSnoc(EMPTY, es, e);
    StepSpot(Run(EMPTY, es), e, q, x);
  }

  // ---- the two calls a job's life turns on ----

  /** Main result: an accepted enqueue stores the job as it was handed over, to wait in its
      queue; a refused one changes nothing. It is refused exactly when its key is held. */
  lemma EnqueueStores(s: Store, id: Id, core: Core, at: int, ttl: int)
    ensures var t, e := Enqueue(s, id, core, at, ttl), Q(Enqueue(s, id, core, at, ttl), core.queue);
            if core.uniqueKey != "" && ttl > 0 && core.uniqueKey in s.unique then t == s
            else
              && id in t.jobs && t.jobs[id] == Hash(Some(core), Pending, 0, at, 0, 0, "")
              && (if at > 0 then id in e.delayed && e.delayed[id] == at else id in e.ready && e.ready[id] == core.priority)
              && (core.uniqueKey != "" && ttl > 0 ==> core.uniqueKey in t.unique && t.unique[core.uniqueKey] == id)
  {
    EnqueueSpot(s, id, core, at, ttl, core.queue, id);
  }

  /** Main result: a nack that does not skip sends a job back for another try exactly while the
      attempts, this one counted, are below its limit, and otherwise buries it. */
  lemma NackRetriesOrBuries(s: Store, q: QName, id: Id, err: string, backoff: int, now: int)
    requires H(s, id).core.Some?
    ensures var t, h := Nack(s, q, id, err, backoff, now, false), H(s, id);
            var g, e := H(t, id), Q(t, q);
            && g.attempt == h.attempt + 1 && g.lastError == err && id !in e.active && id !in e.lease
            && (if h.attempt + 1 < h.core.value.maxRetries
                then g.state == Retry && id in e.delayed && e.delayed[id] == now + backoff && e.dead == Q(s, q).dead
                else g.state == Dead && e.dead == [id] + Q(s, q).dead && e.delayed == Q(s, q).delayed)
  {
    NackSpot(s, q, id, err, backoff, now, false, q, id);
    NackLists(s, NackCall(q, id, err, backoff, now, false), q);
  }

  // ---- batches ----

  /** The calls of a batch: every job without a key. */
  function BatchCalls(jobs: seq<RedisQueue.NewJob>): seq<Event> {
    seq(|jobs|, i requires 0 <= i < |jobs| =>
          EnqueueCall(jobs[i].id, jobs[i].core.(uniqueKey := ""), jobs[i].scheduledAt, 0))
  }

  lemma {:induction false} BatchIsRun(s: Store, jobs: seq<RedisQueue.NewJob>)
    ensures RedisQueue.EnqueueAll(s, jobs) == Run(s, BatchCalls(jobs))
  {
    if jobs != [] {
      var n := |jobs| - 1;
      BatchIsRun(s, jobs[..n]);
      assert BatchCalls(jobs)[..n] == BatchCalls(jobs[..n]);
    }
  }

  /** A job of a batch, as it waits in its queue. */
  predicate Waits(t: Store, job: RedisQueue.NewJob) {
    var e := Q(t, job.core.queue);
    && job.id in t.jobs && t.jobs[job.id] == Hash(Some(job.core.(uniqueKey := "")), Pending, 0, job.scheduledAt, 0, 0, "")
    && if job.scheduledAt > 0 then job.id in e.delayed && e.delayed[job.id] == job.scheduledAt
       else job.id in e.ready && e.ready[job.id] == job.core.priority
  }

  /** Every job of a batch waits, no key was claimed, and no other job was touched. */
  ghost predicate Stored(s: Store, t: Store, jobs: seq<RedisQueue.NewJob>) {
    && (forall i | 0 <= i < |jobs| :: Waits(t, jobs[i]))
    && t.unique == s.unique
    && (forall x, q | Outside(jobs, x) :: H(t, x) == H(s, x) && Seen(Q(t, q), x) == Seen(Q(s, q), x))
  }

  predicate Outside(jobs: seq<RedisQueue.NewJob>, x: Id) {
    forall i | 0 <= i < |jobs| :: jobs[i].id != x
  }

  lemma OneMoreStored(s: Store, u: Store, front: seq<RedisQueue.NewJob>, job: RedisQueue.NewJob)
    requires Stored(s, u, front) && Outside(front, job.id)
    ensures Stored(s, Enqueue(u, job.id, job.core.(uniqueKey := ""), job.scheduledAt, 0), front + [job])
  {
    var t, jobs := Enqueue(u, job.id, job.core.(uniqueKey := ""), job.scheduledAt, 0), front + [job];
    OneMoreWaits(u, job);
    forall i | 0 <= i < |jobs| ensures Waits(t, jobs[i]) {
      if i < |front| { assert jobs[i] == front[i] && Waits(u, front[i]); }
    }
    forall x, q | Outside(jobs, x) ensures H(t, x) == H(s, x) && Seen(Q(t, q), x) == Seen(Q(s, q), x) {
      assert jobs[|front|].id != x;
      assert Outside(front, x) by { assert forall i | 0 <= i < |front| :: jobs[i] == front[i]; }
    }
  }

  /** Main result: a batch of distinct ids stores every job of it, keyless, to wait in its
      queue, claims no key and touches no other job. */
  lemma {:induction false} BatchStores(s: Store, jobs: seq<RedisQueue.NewJob>)
    requires forall i, j | 0 <= i < j < |jobs| :: jobs[i].id != jobs[j].id
    ensures Stored(s, RedisQueue.EnqueueAll(s, jobs), jobs)
  {
    if jobs != [] {
      var n := |jobs| - 1;
      BatchStores(s, jobs[..n]);
      OneMoreStored(s, RedisQueue.EnqueueAll(s, jobs[..n]), jobs[..n], jobs[n]);
      assert jobs == jobs[..n] + [jobs[n]];
    }
  }

  lemma OneMoreWaits(u: Store, job: RedisQueue.NewJob)
    ensures var t := Enqueue(u, job.id, job.core.(uniqueKey := ""), job.scheduledAt, 0);
            && Waits(t, job) && t.unique == u.unique
            && (forall other: RedisQueue.NewJob | other.id != job.id && Waits(u, other) :: Waits(t, other))
            && (forall x | x != job.id :: H(t, x) == H(u, x) && forall q :: Seen(Q(t, q), x) == Seen(Q(u, q), x))
  {
    var core := job.core.(uniqueKey := "");
    var t := Enqueue(u, job.id, core, job.scheduledAt, 0);
    EnqueueStores(u, job.id, core, job.scheduledAt, 0);
    forall x, q | x != job.id ensures H(t, x) == H(u, x) && Seen(Q(t, q), x) == Seen(Q(u, q), x) {
      EnqueueSpot(u, job.id, core, job.scheduledAt, 0, q, x);
    }
    forall other: RedisQueue.NewJob | other.id != job.id && Waits(u, other) ensures Waits(t, other) {
      EnqueueSpot(u, job.id, core, job.scheduledAt, 0, other.core.queue, other.id);
    }
  }

  // ---- keys, dead lists, pauses ----

  /** Who holds key k after a call. */
  function HolderAfter(s: Store, e: Event, k: string): Option<Id> {
    var holder := if k in s.unique then Some(s.unique[k]) else None;
    match e
    case EnqueueCall(id, core, _, ttl) =>
      if holder.None? && k == core.uniqueKey && k != "" && ttl > 0 then Some(id) else holder
    case AckCall(_, id, _) => FreedBy(s, id, k, holder)
    case CancelCall(_, id, _, _) => FreedBy(s, id, k, holder)
    case NackCall(_, id, _, _, _, skip) => if Buries(H(s, id), skip) then FreedBy(s, id, k, holder) else holder
    case ExpireCall(key) => if key == k then None else holder
    case DequeueCall(_, _) => holder
    case RescheduleCall(_, _, _) => holder
    case ExtendCall(_, _, _) => holder
    case RecoverCall(_, _, _) => holder
    case PromoteCall(_, _, _) => holder
    case RetryDeadCall(_, _) => holder
    case PurgeDeadCall(_) => holder
    case PauseCall(_, _) => holder
  }

  /** The end of job id frees the key it holds and carries. */
  function FreedBy(s: Store, id: Id, k: string, holder: Option<Id>): Option<Id> {
    var h := H(s, id);
    if holder == Some(id) && k != "" && h.core.Some? && h.core.value.uniqueKey == k then None else holder
  }

  lemma {:induction false} LoopsKeepKeys(s: Store, q: QName, ids: seq<Id>)
    ensures PromoteAll(s, q, ids).unique == s.unique && RecoverAll(s, q, ids).unique == s.unique
  {
    if ids != [] { LoopsKeepKeys(s, q, ids[..|ids| - 1]); }
  }

  lemma NackHolder(s: Store, e: Event, k: string)
    requires e.NackCall?
    ensures var u := Apply(s, e).unique; (if k in u then Some(u[k]) else None) == HolderAfter(s, e, k)
  {}

  /** Main result: who holds each key after each call, in any store. */
  lemma StepHolder(s: Store, e: Event, k: string)
    ensures var u := Apply(s, e).unique; (if k in u then Some(u[k]) else None) == HolderAfter(s, e, k)
  {
    match e
    case RecoverCall(q, now, limit) => LoopsKeepKeys(s, q, Expired(s, q, now, limit));
    case PromoteCall(q, now, limit) => LoopsKeepKeys(s, q, Due(s, q, now, limit));
    case NackCall(_, _, _, _, _, _) => NackHolder(s, e, k);
    case EnqueueCall(_, _, _, _) =>
    case DequeueCall(_, _) =>
    case AckCall(_, _, _) =>
    case RescheduleCall(_, _, _) =>
    case CancelCall(_, _, _, _) =>
    case ExtendCall(_, _, _) =>
    case RetryDeadCall(_, _) =>
    case PurgeDeadCall(_) =>
    case PauseCall(_, _) =>
    case ExpireCall(_) =>
  }

  /** The dead list and the pause flag of queue q after a call: the newest dead job first. */
  function DeadAfter(s: Store, e: Event, q: QName): seq<Id> {
    var dead := Q(s, q).dead;
    match e
    case NackCall(p, id, _, _, _, skip) => if p == q && Buries(H(s, id), skip) then [id] + dead else dead
    case RetryDeadCall(p, id) => if p == q then RemoveFirst(dead, id) else dead
    case PurgeDeadCall(p) => if p == q then [] else dead
    case EnqueueCall(_, _, _, _) => dead
    case DequeueCall(_, _) => dead
    case AckCall(_, _, _) => dead
    case RescheduleCall(_, _, _) => dead
    case CancelCall(_, _, _, _) => dead
    case ExtendCall(_, _, _) => dead
    case RecoverCall(_, _, _) => dead
    case PromoteCall(_, _, _) => dead
    case PauseCall(_, _) => dead
    case ExpireCall(_) => dead
  }

  /** LREM takes the entry nearest the head. */
  lemma {:induction false} RemovesNearestHead(ids: seq<Id>, i: nat)
    requires i < |ids| && ids[i] !in ids[..i]
    ensures RemoveFirst(ids, ids[i]) == ids[..i] + ids[i + 1..]
  {
    if i > 0 {
      assert ids[..i] == [ids[0]] + ids[1..][..i - 1];
      RemovesNearestHead(ids[1..], i - 1);
    }
  }

  lemma {:induction false} PromoteKeepsLists(s: Store, p: QName, ids: seq<Id>, q: QName)
    ensures Q(PromoteAll(s, p, ids), q).dead == Q(s, q).dead && Q(PromoteAll(s, p, ids), q).paused == Q(s, q).paused
  {
    if ids != [] { PromoteKeepsLists(s, p, ids[..|ids| - 1], q); }
  }

  lemma {:induction false} RecoverKeepsLists(s: Store, p: QName, ids: seq<Id>, q: QName)
    ensures Q(RecoverAll(s, p, ids), q).dead == Q(s, q).dead && Q(RecoverAll(s, p, ids), q).paused == Q(s, q).paused
  {
    if ids != [] { RecoverKeepsLists(s, p, ids[..|ids| - 1], q); }
  }

  lemma NackLists(s: Store, e: Event, q: QName)
    requires e.NackCall?
    ensures Q(Apply(s, e), q).dead == DeadAfter(s, e, q) && Q(Apply(s, e), q).paused == Q(s, q).paused
  {}

  lemma RetryDeadLists(s: Store, p: QName, id: Id, q: QName)
    ensures Q(RetryDead(s, p, id), q).dead == DeadAfter(s, RetryDeadCall(p, id), q)
    ensures Q(RetryDead(s, p, id), q).paused == Q(s, q).paused
  {
    if id !in Q(s, p).dead { RemovesNone(Q(s, p).dead, id); }
  }

  lemma {:induction false} RemovesNone(ids: seq<Id>, id: Id)
    requires id !in ids
    ensures RemoveFirst(ids, id) == ids
  {
    if ids != [] { RemovesNone(ids[1..], id); }
  }

  /** Calls that leave dead lists and pause flags alone. */
  lemma KeepLists(s: Store, e: Event, q: QName)
    requires e.EnqueueCall? || e.DequeueCall? || e.AckCall? || e.RescheduleCall? || e.CancelCall? || e.ExtendCall?
    ensures Q(Apply(s, e), q).dead == Q(s, q).dead && Q(Apply(s, e), q).paused == Q(s, q).paused
  {}

  /** Main result: each queue's dead list, in order, and pause flag after each call. */
  lemma StepDeadAndPaused(s: Store, e: Event, q: QName)
    ensures Q(Apply(s, e), q).dead == DeadAfter(s, e, q)
    ensures Q(Apply(s, e), q).paused == if e.PauseCall? && e.q == q then e.on else Q(s, q).paused
  {
    match e
    case RecoverCall(p, now, limit) => RecoverKeepsLists(s, p, Expired(s, p, now, limit), q);
    case PromoteCall(p, now, limit) => PromoteKeepsLists(s, p, Due(s, p, now, limit), q);
    case RetryDeadCall(p, id) => RetryDeadLists(s, p, id, q);
    case NackCall(_, _, _, _, _, _) => NackLists(s, e, q);
    case EnqueueCall(_, _, _, _) => KeepLists(s, e, q);
    case DequeueCall(_, _) => KeepLists(s, e, q);
    case AckCall(_, _, _) => KeepLists(s, e, q);
    case RescheduleCall(_, _, _) => KeepLists(s, e, q);
    case CancelCall(_, _, _, _) => KeepLists(s, e, q);
    case ExtendCall(_, _, _) => KeepLists(s, e, q);
    case PurgeDeadCall(_) =>
    case PauseCall(_, _) =>
    case ExpireCall(_) =>
  }

  predicate NoResume(es: seq<Event>, q: QName) {
    forall i | 0 <= i < |es| :: !(es[i].PauseCall? && es[i].q == q && !es[i].on)
  }

  /** Main result: a paused queue hands out nothing until it is resumed, whatever else happens,
      and then it hands out its first ready job. */
  lemma {:induction false} PausedUntilResumed(s: Store, es: seq<Event>, q: QName, now: int)
    requires NoResume(es, q)
    ensures var u := Run(SetPaused(s, q, true), es);
            && Q(u, q).paused && Head(u, q) == None && Dequeue(u, q, now) == u
            && Head(SetPaused(u, q, false), q) == if Q(u, q).ready == map[] then None else Some(First(Q(u, q).ready))
  {
    if es != [] {
      var front, e := es[..|es| - 1], es[|es| - 1];
      PausedUntilResumed(s, front, q, now);
      assert !(es[|es| - 1].PauseCall? && es[|es| - 1].q == q && !es[|es| - 1].on);
      StepDeadAndPaused(Run(SetPaused(s, q, true), front), e, q);
    }
  }

  // ---- counters ----

  /** What a call adds to the counters of queue q. */
  function Adds(s: Store, e: Event, q: QName, n: StatName): nat {
    var counted :=
      match e
      case EnqueueCall(_, core, _, ttl) =>
        n == EnqueuedCount && core.queue == q && !(core.uniqueKey != "" && ttl > 0 && core.uniqueKey in s.unique)
      case AckCall(p, _, _) => n == CompletedCount && p == q
      case NackCall(p, id, _, _, _, skip) =>
        p == q && (n == FailedCount || (n == DeadTotal && Buries(H(s, id), skip)))
      case RetryDeadCall(p, id) => n == RetriedCount && p == q && id in Q(s, q).dead
      case _ => false;
    if counted then 1 else 0
  }

  function AddsIn(s: Store, es: seq<Event>, q: QName, n: StatName): nat {
    if es == [] then 0
    else AddsIn(s, es[..|es| - 1], q, n) + Adds(Run(s, es[..|es| - 1]), es[|es| - 1], q, n)
  }

  lemma NackAdds(d: QueueData, id: Id, r: NackResult, at: int, n: StatName)
    ensures Stat(NackQueue(d, id, r, at).stats, n)
            == Stat(d.stats, n) + if n == FailedCount || (n == DeadTotal && r == ToDead) then 1 else 0
  {}

  lemma EnqueueAdds(s: Store, id: Id, core: Core, at: int, ttl: int, q: QName, n: StatName)
    ensures Stat(Q(Enqueue(s, id, core, at, ttl), q).stats, n)
            == Stat(Q(s, q).stats, n) + Adds(s, EnqueueCall(id, core, at, ttl), q, n)
  {}

  lemma AckAdds(s: Store, p: QName, id: Id, now: int, q: QName, n: StatName)
    ensures Stat(Q(Ack(s, p, id, now), q).stats, n) == Stat(Q(s, q).stats, n) + Adds(s, AckCall(p, id, now), q, n)
  {}

  lemma RetryDeadAdds(s: Store, p: QName, id: Id, q: QName, n: StatName)
    ensures Stat(Q(RetryDead(s, p, id), q).stats, n) == Stat(Q(s, q).stats, n) + Adds(s, RetryDeadCall(p, id), q, n)
  {}

  /** Calls that count nothing. */
  lemma OthersAddNothing(s: Store, e: Event, q: QName)
    requires e.DequeueCall? || e.RescheduleCall? || e.CancelCall? || e.ExtendCall? || e.PurgeDeadCall? || e.PauseCall?
          || e.ExpireCall?
    ensures Q(Apply(s, e), q).stats == Q(s, q).stats
  {}

  lemma StepAdds(s: Store, e: Event, q: QName, n: StatName)
    ensures Stat(Q(Apply(s, e), q).stats, n) == Stat(Q(s, q).stats, n) + Adds(s, e, q, n)
  {
    match e
    case RecoverCall(p, now, limit) => Conservation.RecoverStats(s, p, Expired(s, p, now, limit), q);
    case PromoteCall(p, now, limit) => Conservation.PromoteStats(s, p, Due(s, p, now, limit), q);
    case NackCall(p, id, err, backoff, now, skip) =>
      Conservation.NackWrites(s, p, id, err, backoff, now, skip, q);
      NackAdds(Q(s, p), id, NackDecision(H(s, id), skip), now + backoff, n);
    case EnqueueCall(id, core, at, ttl) => EnqueueAdds(s, id, core, at, ttl, q, n);
    case AckCall(p, id, now) => AckAdds(s, p, id, now, q, n);
    case RetryDeadCall(p, id) => RetryDeadAdds(s, p, id, q, n);
    case DequeueCall(_, _) => OthersAddNothing(s, e, q);
    case RescheduleCall(_, _, _) => OthersAddNothing(s, e, q);
    case CancelCall(_, _, _, _) => OthersAddNothing(s, e, q);
    case ExtendCall(_, _, _) => OthersAddNothing(s, e, q);
    case PurgeDeadCall(_) => OthersAddNothing(s, e, q);
    case PauseCall(_, _) => OthersAddNothing(s, e, q);
    case ExpireCall(_) => OthersAddNothing(s, e, q);
  }

  /** Main result: in any run each counter of each queue is the number of calls it counts. */
  lemma {:induction false} CountersCount(es: seq<Event>, q: QName, n: StatName)
    ensures Stat(Q(Run(EMPTY, es), q).stats, n) == AddsIn(EMPTY, es, q, n)
  {
    if es != [] {
      CountersCount(es[..|es| - 1], q, n);
      StepAdds(Run(EMPTY, es[..|es| - 1]), es[|es| - 1], q, n);
    }
  }
}
