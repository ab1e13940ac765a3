/** Leases against time: servers that keep their heartbeat never lose a running job to
    recovery, and so only ever finish jobs they hold.

    A thread is one processJob call. Its life: the dequeue that starts it, the
    registration in the server's in-flight map (after which heartbeats extend the lease),
    one finishing call, and the deferred deletion from the in-flight map. */
module Heartbeat {
  import opened Wrappers
  import opened ZSets
  import opened Scripts
  import opened Runs
  import opened Placement
  import opened JobView
  import Leases

  type Srv = nat

  datatype Phase = Starting(since: int) | Running | Lingering
  datatype Thread = Thread(srv: Srv, q: QName, id: Id, phase: Phase)

  /** An in-flight entry and when its lease was last secured. */
  datatype Entry = Entry(q: QName, beat: int)

  datatype World = World(s: Store, clock: int, threads: map<nat, Thread>, inflight: map<(Srv, Id), Entry>)

  /** start: longest time from reading the clock for a dequeue to the registration;
      period: longest time between two extensions of one in-flight job;
      lag: longest time from reading the clock for an extension to its effect. */
  datatype Bounds = Bounds(start: nat, period: nat, lag: nat)

  predicate Tight(b: Bounds) {
    b.start + b.period + b.lag < LEASE_MS
  }

  datatype Act =
    | Advance(ms: nat)
    | Env(e: Event)
    | Take(tid: nat, srv: Srv, q: QName, now: int)
    | Register(tid: nat)
    | Finish(tid: nat, call: Event)
    | Delete(tid: nat)
    | Beat(srv: Srv, id: Id, now: int)
    | Crash(srv: Srv)

  predicate Holding(t: Thread) {
    t.phase.Starting? || t.phase.Running?
  }

  /** The queue a worker reads from the record it was handed. */
  function QueueOf(h: Hash): QName {
    if h.core.Some? then h.core.value.queue else ""
  }

  /** The script call an act makes, if any. */
  function CallOf(w: World, a: Act): Option<Event> {
    match a
    case Env(e) => Some(e)
    case Take(_, _, q, now) => Some(DequeueCall(q, now))
    case Finish(_, call) => Some(call)
    case Beat(srv, id, now) =>
      if (srv, id) in w.inflight then Some(ExtendCall(w.inflight[(srv, id)].q, id, now + LEASE_MS)) else None
    case _ => None
  }

  function Step(w: World, a: Act): World {
    var s := match CallOf(w, a) case None => w.s case Some(e) => Apply(w.s, e);
    match a
    case Advance(ms) => w.(clock := w.clock + ms)
    case Env(_) => w.(s := s)
    case Take(tid, srv, q, now) =>
      (match Head(w.s, q)
       case None => w.(s := s)
       case Some(id) => w.(s := s, threads := w.threads[tid := Thread(srv, QueueOf(H(s, id)), id, Starting(now))]))
    case Register(tid) =>
      if tid !in w.threads then w
      else
        var t := w.threads[tid];
        w.(threads := w.threads[tid := t.(phase := Running)],
           inflight := w.inflight[(t.srv, t.id) := Entry(t.q, w.clock)])
    case Finish(tid, _) =>
      if tid !in w.threads then w
      else
        var t := w.threads[tid];
        w.(s := s, threads := if t.phase.Running? then w.threads[tid := t.(phase := Lingering)] else w.threads - {tid})
    case Delete(tid) =>
      if tid !in w.threads then w
      else
        var t := w.threads[tid];
        w.(threads := w.threads - {tid}, inflight := w.inflight - {(t.srv, t.id)})
    case Beat(srv, id, now) =>
      if (srv, id) !in w.inflight then w
      else w.(s := s, inflight := w.inflight[(srv, id) := w.inflight[(srv, id)].(beat := w.clock)])
    case Crash(srv) =>
      w.(threads := map tid | tid in w.threads && w.threads[tid].srv != srv :: w.threads[tid],
         inflight := map k | k in w.inflight && k.0 != srv :: w.inflight[k])
  }

  /** What the code, and the clock bounds, allow next. Nothing is assumed about leases. */
  ghost predicate Allowed(b: Bounds, w: World, a: Act) {
    match a
    case Advance(ms) =>
      && (forall tid | tid in w.threads && w.threads[tid].phase.Starting? ::
            w.clock + ms <= w.threads[tid].phase.since + b.start)
      && (forall k | k in w.inflight :: w.clock + ms <= w.inflight[k].beat + b.period)
    case Env(e) =>
      && !Finishing(e) && !e.DequeueCall? && !e.ExtendCall?
      && (e.EnqueueCall? ==> e.id !in w.s.jobs)
      && (e.RecoverCall? ==> e.now <= w.clock)
    case Take(tid, _, _, now) => tid !in w.threads && now <= w.clock <= now + b.start
    case Register(tid) => tid in w.threads && w.threads[tid].phase.Starting?
    case Finish(tid, call) =>
      && tid in w.threads && Holding(w.threads[tid])
      && Finishing(call) && call.q == w.threads[tid].q && call.id == w.threads[tid].id
    case Delete(tid) => tid in w.threads && w.threads[tid].phase.Lingering?
    case Beat(srv, id, now) => (srv, id) in w.inflight && now <= w.clock <= now + b.lag
    case Crash(_) => true
  }

  /** Thread u runs under the entry that thread tid would delete: the in-flight map is keyed
      by job id alone. */
  predicate Shares(w: World, tid: nat, u: nat) {
    && tid in w.threads && u in w.threads && w.threads[u].phase.Running?
    && w.threads[u].srv == w.threads[tid].srv && w.threads[u].id == w.threads[tid].id
  }

  /** A thread deletes its entry while its server is not running the same job again. */
  ghost predicate OwnEntry(w: World, a: Act) {
    a.Delete? ==> forall u :: !Shares(w, a.tid, u)
  }

  // ---- the invariant ----

  ghost predicate Leasing(w: World, q: QName, id: Id) {
    id in Q(w.s, q).active && id in Q(w.s, q).lease
  }

  function LeaseOf(w: World, q: QName, id: Id): int {
    if id in Q(w.s, q).lease then Q(w.s, q).lease[id] else 0
  }

  /** What is known of a thread that has not made its finishing call. */
  ghost predicate HeldOk(b: Bounds, w: World, t: Thread) {
    && Leasing(w, t.q, t.id)
    && (t.phase.Starting? ==>
          && t.phase.since <= w.clock <= t.phase.since + b.start
          && LeaseOf(w, t.q, t.id) >= t.phase.since + LEASE_MS - b.lag)
    && (t.phase.Running? ==>
          && (t.srv, t.id) in w.inflight && w.inflight[(t.srv, t.id)].q == t.q
          && LeaseOf(w, t.q, t.id) >= w.inflight[(t.srv, t.id)].beat + LEASE_MS - b.start - b.lag)
  }

  ghost predicate AllHeldOk(b: Bounds, w: World) {
    forall tid | tid in w.threads && Holding(w.threads[tid]) :: HeldOk(b, w, w.threads[tid])
  }

  ghost predicate BeatsOk(b: Bounds, w: World) {
    forall k | k in w.inflight :: w.inflight[k].beat <= w.clock <= w.inflight[k].beat + b.period
  }

  /** No job is held by two threads, on one server or on two. */
  ghost predicate OneHolder(w: World) {
    forall t, u | t in w.threads && u in w.threads && t != u && Holding(w.threads[t]) && Holding(w.threads[u]) ::
      w.threads[t].id != w.threads[u].id
  }

  /** Every in-flight entry belongs to a thread still to delete it. */
  ghost predicate Backed(w: World, k: (Srv, Id)) {
    exists t :: t in w.threads && !w.threads[t].phase.Starting? && (w.threads[t].srv, w.threads[t].id) == k
  }

  ghost predicate AllBacked(w: World) {
    forall k | k in w.inflight :: Backed(w, k)
  }

  ghost predicate Inv(b: Bounds, w: World) {
    Placed(w.s) && AllHeldOk(b, w) && BeatsOk(b, w) && OneHolder(w) && AllBacked(w)
  }

  /** The lease of a held job is strictly in the future. */
  lemma HeldLeaseAhead(b: Bounds, w: World, tid: nat)
    requires Tight(b) && Inv(b, w) && tid in w.threads && Holding(w.threads[tid])
    ensures Leasing(w, w.threads[tid].q, w.threads[tid].id)
    ensures LeaseOf(w, w.threads[tid].q, w.threads[tid].id) > w.clock
  {
    assert HeldOk(b, w, w.threads[tid]);
  }

  // ---- what other calls do to a held job ----

  lemma {:induction false} PromoteAllKeepsActive(s: Store, q: QName, ids: seq<Id>, p: QName)
    ensures Q(PromoteAll(s, q, ids), p).active == Q(s, p).active
    ensures Q(PromoteAll(s, q, ids), p).lease == Q(s, p).lease
  {
    if ids != [] { PromoteAllKeepsActive(s, q, ids[..|ids| - 1], p); }
  }

  /** Recovery leaves a job alone whose lease it does not find expired. */
  lemma RecoverKeeps(s: Store, p: QName, now: int, limit: int, q: QName, id: Id)
    requires Placed(s) && id in Q(s, q).lease && Q(s, q).lease[id] > now
    ensures var d := Q(Recover(s, p, now, limit), q);
            id in d.active && id in d.lease && d.lease[id] == Q(s, q).lease[id]
    ensures id !in Expired(s, q, now, limit)
  {
    PlacedLeased(s);
    LeasedIsActive(s, q, id);
    var ids := Expired(s, p, now, limit);
    if p == q {
      Leases.RecoverAllEffect(s, p, ids);
      assert Leases.Leased(Q(RecoverAll(s, p, ids), q));
    } else {
      Leases.RecoverAllElsewhere(s, p, ids, q);
    }
  }

  /** No step of anybody else takes an active job with a live lease, or shortens its lease. */
  lemma EnvKeeps(s: Store, e: Event, q: QName, id: Id)
    requires Placed(s) && Fenced(s, e) && id in Q(s, q).active && id in Q(s, q).lease
    requires !Finishing(e) && !e.DequeueCall? && !e.ExtendCall?
    requires e.RecoverCall? ==> Q(s, q).lease[id] > e.now
    ensures var d := Q(Apply(s, e), q); id in d.active && id in d.lease && d.lease[id] == Q(s, q).lease[id]
  {
    match e
    case RecoverCall(p, now, limit) => RecoverKeeps(s, p, now, limit, q, id);
    case PromoteCall(p, now, limit) => PromoteAllKeepsActive(s, p, Due(s, p, now, limit), q);
    case EnqueueCall(x, core, at, ttl) => EnqueueKeepsActive(s, x, core, at, ttl, q);
    case RetryDeadCall(p, x) => RetryDeadKeepsActive(s, p, x, q);
    case PurgeDeadCall(_) =>
    case PauseCall(_, _) =>
    case ExpireCall(_) =>
  }

  lemma EnqueueKeepsActive(s: Store, id: Id, core: Core, at: int, ttl: int, p: QName)
    ensures var d := Q(Enqueue(s, id, core, at, ttl), p); d.active == Q(s, p).active && d.lease == Q(s, p).lease
  {}

  lemma RetryDeadKeepsActive(s: Store, q: QName, id: Id, p: QName)
    ensures var d := Q(RetryDead(s, q, id), p); d.active == Q(s, p).active && d.lease == Q(s, p).lease
  {}

  /** A step about another job leaves this one's lease as it is. */
  lemma OtherKeeps(s: Store, t: Store, p: QName, x: Id, q: QName, id: Id)
    requires Local(s, t, p, x) && x != id && id in Q(s, q).active && id in Q(s, q).lease
    ensures id in Q(t, q).active && id in Q(t, q).lease && Q(t, q).lease[id] == Q(s, q).lease[id]
  {
    assert SameIn(Q(s, p), Q(t, p), id);
  }

  /** Threads whose job kept its place and lease stay as well off as they were. */
  lemma SameLeaseOk(b: Bounds, w: World, v: World, t: Thread)
    requires HeldOk(b, w, t) && v.clock == w.clock
    requires Leasing(v, t.q, t.id) && LeaseOf(v, t.q, t.id) == LeaseOf(w, t.q, t.id)
    requires t.phase.Running? ==> (t.srv, t.id) in v.inflight && v.inflight[(t.srv, t.id)] == w.inflight[(t.srv, t.id)]
    ensures HeldOk(b, v, t)
  {}

  // ---- each act keeps the invariant ----

  lemma EnvInv(b: Bounds, w: World, e: Event)
    requires Tight(b) && Inv(b, w) && Allowed(b, w, Env(e))
    ensures Inv(b, Step(w, Env(e)))
  {
    var v := Step(w, Env(e));
    StepPlaced(w.s, e);
    forall tid | tid in v.threads && Holding(v.threads[tid]) ensures HeldOk(b, v, v.threads[tid]) {
      var t := w.threads[tid];
      HeldLeaseAhead(b, w, tid);
      assert HeldOk(b, w, t);
      EnvKeeps(w.s, e, t.q, t.id);
      SameLeaseOk(b, w, v, t);
    }
    SameBacked(w, v);
  }

  /** A dequeue takes no job that is active already, and leaves its lease alone. */
  lemma DequeueOther(s: Store, q: QName, now: int, p: QName, x: Id)
    requires Placed(s) && Head(s, q).Some? && x in Q(s, p).active && x in Q(s, p).lease
    ensures x != Head(s, q).value
    ensures var d := Q(Dequeue(s, q, now), p); x in d.active && x in d.lease && d.lease[x] == Q(s, p).lease[x]
  {
    StateByPlace(s, q, Head(s, q).value);
    StateByPlace(s, p, x);
    DequeueLocal(s, q, now);
    OtherKeeps(s, Dequeue(s, q, now), q, Head(s, q).value, p, x);
  }

  lemma TakenIsHeld(b: Bounds, w: World, tid: nat, srv: Srv, q: QName, now: int)
    requires Placed(w.s) && Allowed(b, w, Take(tid, srv, q, now)) && Head(w.s, q).Some?
    ensures var v := Step(w, Take(tid, srv, q, now));
            && v.threads == w.threads[tid := Thread(srv, q, Head(w.s, q).value, Starting(now))]
            && HeldOk(b, v, v.threads[tid])
  {
    StateByPlace(w.s, q, Head(w.s, q).value);
  }

  lemma TakeInv(b: Bounds, w: World, tid: nat, srv: Srv, q: QName, now: int)
    requires Inv(b, w) && Allowed(b, w, Take(tid, srv, q, now))
    ensures Inv(b, Step(w, Take(tid, srv, q, now)))
  {
    var v := Step(w, Take(tid, srv, q, now));
    DequeuePlaced(w.s, q, now);
    if Head(w.s, q).Some? {
      var id := Head(w.s, q).value;
      TakenIsHeld(b, w, tid, srv, q, now);
      forall u | u in w.threads && Holding(w.threads[u])
        ensures w.threads[u].id != id && HeldOk(b, v, w.threads[u])
      {
        assert HeldOk(b, w, w.threads[u]);
        DequeueOther(w.s, q, now, w.threads[u].q, w.threads[u].id);
        SameLeaseOk(b, w, v, w.threads[u]);
      }
    }
    SameBacked(w, v);
  }

  lemma RegisterInv(b: Bounds, w: World, tid: nat)
    requires Inv(b, w) && Allowed(b, w, Register(tid))
    ensures Inv(b, Step(w, Register(tid)))
  {
    var v := Step(w, Register(tid));
    assert HeldOk(b, w, w.threads[tid]);
    forall u | u in v.threads && Holding(v.threads[u]) ensures HeldOk(b, v, v.threads[u]) {
      assert HeldOk(b, w, w.threads[u]);
      if u != tid { SameLeaseOk(b, w, v, w.threads[u]); }
    }
    RegisterBacked(w, tid);
  }

  lemma FinishInv(b: Bounds, w: World, tid: nat, call: Event)
    requires Inv(b, w) && Allowed(b, w, Finish(tid, call))
    ensures Fenced(w.s, call)
    ensures Inv(b, Step(w, Finish(tid, call)))
  {
    var v := Step(w, Finish(tid, call));
    assert HeldOk(b, w, w.threads[tid]);
    FinishPlaced(w.s, call);
    FinishThreads(w, tid, call);
    forall u | u in v.threads && Holding(v.threads[u]) ensures HeldOk(b, v, v.threads[u]) {
      assert HeldOk(b, w, w.threads[u]);
      FinishOther(w, tid, call, u);
      SameLeaseOk(b, w, v, w.threads[u]);
    }
  }

  /** A finishing call lets go of its own thread's job only. */
  lemma FinishThreads(w: World, tid: nat, call: Event)
    requires AllBacked(w) && tid in w.threads && Holding(w.threads[tid])
    ensures var v := Step(w, Finish(tid, call));
            && AllBacked(v) && v.inflight == w.inflight && v.clock == w.clock
            && (forall u | u in v.threads && Holding(v.threads[u]) :: u != tid)
            && (forall u | u in w.threads && u != tid :: u in v.threads && v.threads[u] == w.threads[u])
            && v.threads.Keys <= w.threads.Keys
  {
    SameBacked(w, Step(w, Finish(tid, call)));
  }

  lemma FinishOther(w: World, tid: nat, call: Event, u: nat)
    requires tid in w.threads && Finishing(call) && u in w.threads && w.threads[u].id != call.id
    requires Leasing(w, w.threads[u].q, w.threads[u].id)
    ensures var v, t := Step(w, Finish(tid, call)), w.threads[u];
            Leasing(v, t.q, t.id) && LeaseOf(v, t.q, t.id) == LeaseOf(w, t.q, t.id)
  {
    FinishLocal(w.s, call);
    OtherKeeps(w.s, Apply(w.s, call), call.q, call.id, w.threads[u].q, w.threads[u].id);
  }

  lemma DeleteInv(b: Bounds, w: World, tid: nat)
    requires Inv(b, w) && Allowed(b, w, Delete(tid)) && OwnEntry(w, Delete(tid))
    ensures Inv(b, Step(w, Delete(tid)))
  {
    var v := Step(w, Delete(tid));
    forall u | u in v.threads && Holding(v.threads[u]) ensures HeldOk(b, v, v.threads[u]) {
      assert HeldOk(b, w, w.threads[u]) && !Shares(w, tid, u);
      SameLeaseOk(b, w, v, w.threads[u]);
    }
    DeleteBacked(w, tid);
  }

  /** Backers of an entry stay while only their phases, or other threads, change. */
  lemma SameBacked(w: World, v: World)
    requires AllBacked(w) && v.inflight.Keys <= w.inflight.Keys
    requires forall t | t in w.threads && !w.threads[t].phase.Starting? ::
               t in v.threads && v.threads[t] == w.threads[t].(phase := v.threads[t].phase) && !v.threads[t].phase.Starting?
    ensures AllBacked(v)
  {
    forall k | k in v.inflight ensures Backed(v, k) {
      var t :| t in w.threads && !w.threads[t].phase.Starting? && (w.threads[t].srv, w.threads[t].id) == k;
      assert t in v.threads;
    }
  }

  lemma DeleteBacked(w: World, tid: nat)
    requires AllBacked(w) && tid in w.threads
    ensures AllBacked(Step(w, Delete(tid)))
  {
    var v := Step(w, Delete(tid));
    forall k | k in v.inflight ensures Backed(v, k) {
      var t :| t in w.threads && !w.threads[t].phase.Starting? && (w.threads[t].srv, w.threads[t].id) == k;
      assert t in v.threads && v.threads[t] == w.threads[t];
    }
  }

  lemma RegisterBacked(w: World, tid: nat)
    requires AllBacked(w) && tid in w.threads && w.threads[tid].phase.Starting?
    ensures AllBacked(Step(w, Register(tid)))
  {
    var v := Step(w, Register(tid));
    forall k | k in v.inflight ensures Backed(v, k) {
      if k == (w.threads[tid].srv, w.threads[tid].id) {
        assert tid in v.threads && v.threads[tid].phase.Running?;
      } else {
        var t :| t in w.threads && !w.threads[t].phase.Starting? && (w.threads[t].srv, w.threads[t].id) == k;
        assert t in v.threads && v.threads[t] == w.threads[t];
      }
    }
  }

  lemma CrashBacked(w: World, srv: Srv)
    requires AllBacked(w)
    ensures AllBacked(Step(w, Crash(srv)))
  {
    var v := Step(w, Crash(srv));
    forall k | k in v.inflight ensures Backed(v, k) {
      var t :| t in w.threads && !w.threads[t].phase.Starting? && (w.threads[t].srv, w.threads[t].id) == k;
      assert t in v.threads && v.threads[t] == w.threads[t];
    }
  }

  lemma BeatInv(b: Bounds, w: World, srv: Srv, id: Id, now: int)
    requires Inv(b, w) && Allowed(b, w, Beat(srv, id, now))
    ensures Inv(b, Step(w, Beat(srv, id, now)))
  {
    var v := Step(w, Beat(srv, id, now));
    var p := w.inflight[(srv, id)].q;
    QuietPlaced(w.s, ExtendCall(p, id, now + LEASE_MS));
    forall u | u in v.threads && Holding(v.threads[u]) ensures HeldOk(b, v, v.threads[u]) {
      var t := w.threads[u];
      assert HeldOk(b, w, t);
      assert LeaseOf(v, t.q, t.id) == if t.q == p && t.id == id then now + LEASE_MS else LeaseOf(w, t.q, t.id);
    }
    SameBacked(w, v);
  }

  lemma CrashInv(b: Bounds, w: World, srv: Srv)
    requires Inv(b, w)
    ensures Inv(b, Step(w, Crash(srv)))
  {
    var v := Step(w, Crash(srv));
    forall u | u in v.threads && Holding(v.threads[u]) ensures HeldOk(b, v, v.threads[u]) {
      assert HeldOk(b, w, w.threads[u]);
      SameLeaseOk(b, w, v, w.threads[u]);
    }
    CrashBacked(w, srv);
  }

  lemma AdvanceInv(b: Bounds, w: World, ms: nat)
    requires Inv(b, w) && Allowed(b, w, Advance(ms))
    ensures Inv(b, Step(w, Advance(ms)))
  {
    var v := Step(w, Advance(ms));
    forall u | u in v.threads && Holding(v.threads[u]) ensures HeldOk(b, v, v.threads[u]) {
      assert HeldOk(b, w, w.threads[u]);
    }
    SameBacked(w, v);
  }

  lemma StepInv(b: Bounds, w: World, a: Act)
    requires Tight(b) && Inv(b, w) && Allowed(b, w, a) && OwnEntry(w, a)
    ensures Inv(b, Step(w, a))
  {
    match a
    case Advance(ms) => AdvanceInv(b, w, ms);
    case Env(e) => EnvInv(b, w, e);
    case Take(tid, srv, q, now) => TakeInv(b, w, tid, srv, q, now);
    case Register(tid) => RegisterInv(b, w, tid);
    case Finish(tid, call) => FinishInv(b, w, tid, call);
    case Delete(tid) => DeleteInv(b, w, tid);
    case Beat(srv, id, now) => BeatInv(b, w, srv, id, now);
    case Crash(srv) => CrashInv(b, w, srv);
  }

  // ---- runs ----

  function After(w: World, acts: seq<Act>): World {
    if acts == [] then w else Step(After(w, acts[..|acts| - 1]), acts[|acts| - 1])
  }

  ghost predicate AllowedRun(b: Bounds, w: World, acts: seq<Act>) {
    acts == [] ||
    (AllowedRun(b, w, acts[..|acts| - 1])
     && Allowed(b, After(w, acts[..|acts| - 1]), acts[|acts| - 1])
     && OwnEntry(After(w, acts[..|acts| - 1]), acts[|acts| - 1]))
  }

  const START := World(EMPTY, 0, map[], map[])

  /** The script calls of a run, in order. */
  function Calls(w: World, acts: seq<Act>): seq<Event> {
    if acts == [] then []
    else
      var front := acts[..|acts| - 1];
      Calls(w, front) + match CallOf(After(w, front), acts[|acts| - 1]) case None => [] case Some(e) => [e]
  }

  lemma StartInv(b: Bounds)
    ensures Inv(b, START)
  {
    EmptyPlaced();
  }

  lemma {:induction false} RunInv(b: Bounds, w: World, acts: seq<Act>)
    requires Tight(b) && Inv(b, w) && AllowedRun(b, w, acts)
    ensures Inv(b, After(w, acts))
  {
    if acts != [] {
      RunInv(b, w, acts[..|acts| - 1]);
      StepInv(b, After(w, acts[..|acts| - 1]), acts[|acts| - 1]);
    }
  }

  /** Main result: while every server keeps its heartbeat, a job that is being processed is
      held by one thread alone, its lease is strictly ahead of the clock, and no sweep run
      now or earlier can take it. */
  lemma HeldJobsAreSafe(b: Bounds, acts: seq<Act>, tid: nat, now: int, limit: int)
    requires Tight(b) && AllowedRun(b, START, acts)
    requires tid in After(START, acts).threads && Holding(After(START, acts).threads[tid])
    requires now <= After(START, acts).clock
    ensures var w := After(START, acts);
            var t := w.threads[tid];
            && Leasing(w, t.q, t.id)
            && LeaseOf(w, t.q, t.id) > w.clock
            && t.id !in Expired(w.s, t.q, now, limit)
            && forall u | u in w.threads && u != tid && Holding(w.threads[u]) :: w.threads[u].id != t.id
  {
    StartInv(b);
    RunInv(b, START, acts);
    var w := After(START, acts);
    HeldLeaseAhead(b, w, tid);
    RecoverKeeps(w.s, w.threads[tid].q, now, limit, w.threads[tid].q, w.threads[tid].id);
  }

  lemma CallFenced(b: Bounds, w: World, a: Act)
    requires Tight(b) && Inv(b, w) && Allowed(b, w, a)
    ensures CallOf(w, a).Some? ==> Fenced(w.s, CallOf(w, a).value) && Step(w, a).s == Apply(w.s, CallOf(w, a).value)
    ensures CallOf(w, a).None? ==> Step(w, a).s == w.s
  {
    if a.Finish? { FinishInv(b, w, a.tid, a.call); }
  }

  /** Main result: the script calls of such a run form a fenced run, so everything proved of
      fenced runs holds of servers that keep their heartbeat. */
  lemma {:induction false} TimedRunsAreFenced(b: Bounds, acts: seq<Act>)
    requires Tight(b) && AllowedRun(b, START, acts)
    ensures FencedRun(EMPTY, Calls(START, acts))
    ensures After(START, acts).s == Run(EMPTY, Calls(START, acts))
  {
    if acts != [] {
      var front, a := acts[..|acts| - 1], acts[|acts| - 1];
      var w := After(START, front);
      TimedRunsAreFenced(b, front);
      StartInv(b);
      RunInv(b, START, front);
      CallFenced(b, w, a);
      match CallOf(w, a)
      case Some(e) => RunSnoc(EMPTY, Calls(START, front), e);
      case None => assert Calls(START, front) + [] == Calls(START, front);
    }
  }
}
