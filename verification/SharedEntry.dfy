/** The in-flight map is keyed by job id alone: when a server runs a job again before an
    earlier thread of it has deleted its entry, that deletion leaves the job to recovery. */
module SharedEntry {
  import opened Wrappers
  import opened ZSets
  import opened Scripts
  import opened Runs
  import opened Placement
  import opened Heartbeat
  import opened JobView
  import Leases

  lemma Snoc(b: Bounds, w: World, acts: seq<Act>, a: Act)
    requires AllowedRun(b, w, acts) && Allowed(b, After(w, acts), a) && OwnEntry(After(w, acts), a)
    ensures AllowedRun(b, w, acts + [a])
    ensures After(w, acts + [a]) == Step(After(w, acts), a)
  {
    assert (acts + [a])[..|acts|] == acts;
  }

  /** Every thread still holds its job: the queue has it active, with a lease. */
  ghost predicate AllHold(w: World) {
    forall t | t in w.threads && Holding(w.threads[t]) :: Leasing(w, w.threads[t].q, w.threads[t].id)
  }

  ghost predicate AlwaysHold(b: Bounds, w: World) {
    forall acts | AllowedRun(b, w, acts) :: AllHold(After(w, acts))
  }

  // ---- after a deletion that hits another thread ----

  /** Thread u runs without an in-flight entry; nothing is known of the clock. */
  ghost predicate Exposed(w: World, u: nat) {
    && Placed(w.s) && OneHolder(w) && AllBacked(w) && AllHold(w)
    && u in w.threads && w.threads[u].phase.Running? && (w.threads[u].srv, w.threads[u].id) !in w.inflight
  }

  lemma DeleteExposes(b: Bounds, w: World, tid: nat, u: nat)
    requires Inv(b, w) && Allowed(b, w, Delete(tid)) && Shares(w, tid, u)
    ensures Exposed(Step(w, Delete(tid)), u) && Step(w, Delete(tid)).threads[u] == w.threads[u]
  {
    var v := Step(w, Delete(tid));
    DeleteBacked(w, tid);
    forall t | t in v.threads && Holding(v.threads[t]) ensures Leasing(v, v.threads[t].q, v.threads[t].id) {
      assert HeldOk(b, w, w.threads[t]);
    }
  }

  function AckOf(t: Thread): Event {
    AckCall(t.q, t.id, 0)
  }

  /** Another thread finishes its job. */
  lemma FinishExposed(b: Bounds, w: World, u: nat, t: nat)
    requires Exposed(w, u) && t in w.threads && t != u && Holding(w.threads[t])
    ensures Allowed(b, w, Finish(t, AckOf(w.threads[t])))
    ensures var v := Step(w, Finish(t, AckOf(w.threads[t])));
            && Exposed(v, u) && v.threads[u] == w.threads[u] && Holders(v) == Holders(w) - {t}
  {
    var call := AckOf(w.threads[t]);
    var v := Step(w, Finish(t, call));
    FinishPlaced(w.s, call);
    FinishThreads(w, t, call);
    forall x | x in v.threads && Holding(v.threads[x]) ensures Leasing(v, v.threads[x].q, v.threads[x].id) {
      FinishOther(w, t, call, x);
    }
  }

  function Holders(w: World): set<nat> {
    set t | t in w.threads && Holding(w.threads[t])
  }

  lemma FinishOthers(b: Bounds, w: World, acts: seq<Act>, u: nat) returns (more: seq<Act>)
    requires AllowedRun(b, w, acts) && Exposed(After(w, acts), u)
    ensures AllowedRun(b, w, more) && Exposed(After(w, more), u)
    ensures After(w, more).threads[u] == After(w, acts).threads[u] && Holders(After(w, more)) == {u}
    decreases |Holders(After(w, acts))|
  {
    var v := After(w, acts);
    if Holders(v) == {u} {
      more := acts;
    } else {
      assert u in Holders(v);
      var t :| t in Holders(v) && t != u;
      FinishExposed(b, v, u, t);
      Snoc(b, w, acts, Finish(t, AckOf(v.threads[t])));
      more := FinishOthers(b, w, acts + [Finish(t, AckOf(v.threads[t]))], u);
    }
  }

  /** Threads that have an entry of their own to delete. */
  function Leaving(w: World, u: nat): set<nat>
    requires u in w.threads
  {
    set t | t in w.threads && t != u && (w.threads[t].srv, w.threads[t].id) != (w.threads[u].srv, w.threads[u].id)
  }

  lemma DeleteExposed(b: Bounds, w: World, u: nat, t: nat)
    requires Exposed(w, u) && Holders(w) == {u} && t in Leaving(w, u)
    ensures Allowed(b, w, Delete(t)) && OwnEntry(w, Delete(t))
    ensures var v := Step(w, Delete(t));
            && Exposed(v, u) && v.threads[u] == w.threads[u] && Holders(v) == {u}
            && Leaving(v, u) == Leaving(w, u) - {t}
  {
    var v := Step(w, Delete(t));
    assert t !in Holders(w);
    forall x ensures !Shares(w, t, x) { assert x in w.threads && w.threads[x].phase.Running? ==> x in Holders(w); }
    DeleteBacked(w, t);
  }

  lemma DeleteOthers(b: Bounds, w: World, acts: seq<Act>, u: nat) returns (more: seq<Act>)
    requires AllowedRun(b, w, acts) && Exposed(After(w, acts), u) && Holders(After(w, acts)) == {u}
    ensures AllowedRun(b, w, more) && Exposed(After(w, more), u) && Holders(After(w, more)) == {u}
    ensures After(w, more).threads[u] == After(w, acts).threads[u] && Leaving(After(w, more), u) == {}
    decreases |Leaving(After(w, acts), u)|
  {
    var v := After(w, acts);
    if Leaving(v, u) == {} {
      more := acts;
    } else {
      var t :| t in Leaving(v, u);
      DeleteExposed(b, v, u, t);
      Snoc(b, w, acts, Delete(t));
      more := DeleteOthers(b, w, acts + [Delete(t)], u);
    }
  }

  /** With nobody else left, nothing keeps the clock from passing the lease. */
  lemma ClockIsFree(b: Bounds, w: World, u: nat, ms: nat)
    requires Exposed(w, u) && Holders(w) == {u} && Leaving(w, u) == {}
    ensures Allowed(b, w, Advance(ms))
  {
    var entry := (w.threads[u].srv, w.threads[u].id);
    forall t | t in w.threads ensures !w.threads[t].phase.Starting? { assert t in Holders(w) <==> t == u; }
    forall t | t in w.threads ensures (w.threads[t].srv, w.threads[t].id) == entry { assert t !in Leaving(w, u); }
    forall k | Backed(w, k) ensures k == entry {}
    assert w.inflight == map[];
  }

  /** Sweeps only take leases away. */
  lemma {:induction false} SweepsShrink(s: Store, q: QName, now: int, limit: int, n: nat)
    requires Leases.AllLeased(s)
    ensures var t := Leases.Sweeps(s, q, now, limit, n).0;
            && Leases.AllLeased(t)
            && forall x | x in Q(t, q).lease :: x in Q(s, q).lease && Q(t, q).lease[x] == Q(s, q).lease[x]
    decreases n
  {
    if n > 0 {
      var u := Recover(s, q, now, limit);
      Leases.SweepEffect(s, q, now, limit);
      SweepsShrink(u, q, now, limit, n - 1);
      assert Leases.Sweeps(s, q, now, limit, n).0 == Leases.Sweeps(u, q, now, limit, n - 1).0;
    }
  }

  lemma SweepFirst(s: Store, q: QName, now: int, limit: int, n: nat)
    requires n > 0
    ensures Leases.Sweeps(s, q, now, limit, n).0 == Leases.Sweeps(Recover(s, q, now, limit), q, now, limit, n - 1).0
  {}

  lemma SweepStep(b: Bounds, w: World, acts: seq<Act>, q: QName, limit: int) returns (more: seq<Act>)
    requires AllowedRun(b, w, acts)
    ensures AllowedRun(b, w, more)
    ensures var v := After(w, acts); After(w, more) == v.(s := Recover(v.s, q, v.clock, limit))
  {
    var sweep := Env(RecoverCall(q, After(w, acts).clock, limit));
    Snoc(b, w, acts, sweep);
    more := acts + [sweep];
  }

  lemma SweepRun(b: Bounds, w: World, acts: seq<Act>, q: QName, limit: int, n: nat) returns (more: seq<Act>)
    requires AllowedRun(b, w, acts)
    ensures AllowedRun(b, w, more)
    ensures var v := After(w, acts);
            After(w, more) == v.(s := Leases.Sweeps(v.s, q, v.clock, limit, n).0)
    decreases n
  {
    var v := After(w, acts);
    if n == 0 {
      more := acts;
    } else {
      var next := SweepStep(b, w, acts, q, limit);
      SweepFirst(v.s, q, v.clock, limit, n);
      more := SweepRun(b, w, next, q, limit, n - 1);
    }
  }

  lemma SweepsTake(s: Store, q: QName, now: int, limit: int, n: nat, id: Id)
    requires Leases.AllLeased(s) && limit > 0 && n * limit >= |Leases.Overdue(s, q, now)|
    requires id in Q(s, q).lease ==> Q(s, q).lease[id] <= now
    ensures id !in Q(Leases.Sweeps(s, q, now, limit, n).0, q).active
  {
    Leases.SweepsComplete(s, q, now, limit, n);
    SweepsShrink(s, q, now, limit, n);
    var t := Leases.Sweeps(s, q, now, limit, n).0;
    assert Leases.Leased(Q(t, q));
    forall x | x in Q(t, q).lease ensures Q(t, q).lease[x] > now { assert x !in Leases.Overdue(t, q, now); }
  }

  /** An exposed thread's job is taken from it in some run, by sweeps of any limit. */
  lemma ExposedLosesJob(b: Bounds, w: World, u: nat, limit: int) returns (more: seq<Act>)
    requires Exposed(w, u) && limit > 0
    ensures AllowedRun(b, w, more)
    ensures var v, t := After(w, more), w.threads[u];
            u in v.threads && v.threads[u] == t && t.id !in Q(v.s, t.q).active
  {
    more := FinishOthers(b, w, [], u);
    more := DeleteOthers(b, w, more, u);
    var v, t := After(w, more), w.threads[u];
    var ms := if LeaseOf(v, t.q, t.id) > v.clock then LeaseOf(v, t.q, t.id) - v.clock else 0;
    ClockIsFree(b, v, u, ms);
    Snoc(b, w, more, Advance(ms));
    more := more + [Advance(ms)];
    var x := After(w, more);
    PlacedLeased(x.s);
    var n := |Leases.Overdue(x.s, t.q, x.clock)|;
    assert n * limit >= n;
    more := SweepRun(b, w, more, t.q, limit, n);
    SweepsTake(x.s, t.q, x.clock, limit, n, t.id);
  }

  /** Main result: in a run that kept its heartbeats, the deferred deletion of an entry leaves
      every thread sure of its job exactly when the server is not running that job again. */
  lemma DeleteSafeIff(b: Bounds, acts: seq<Act>, tid: nat)
    requires Tight(b) && AllowedRun(b, START, acts) && Allowed(b, After(START, acts), Delete(tid))
    ensures var w := After(START, acts);
            AlwaysHold(b, Step(w, Delete(tid))) <==> forall u :: !Shares(w, tid, u)
  {
    StartInv(b);
    RunInv(b, START, acts);
    var w := After(START, acts);
    var v := Step(w, Delete(tid));
    if u :| Shares(w, tid, u) {
      DeleteExposes(b, w, tid, u);
      var more := ExposedLosesJob(b, v, u, 100);
      assert AllowedRun(b, v, more) && !AllHold(After(v, more));
    } else {
      DeleteInv(b, w, tid);
      forall more | AllowedRun(b, v, more) ensures AllHold(After(v, more)) {
        RunInv(b, v, more);
        InvHolds(b, After(v, more));
      }
    }
  }

  lemma InvHolds(b: Bounds, w: World)
    requires Inv(b, w)
    ensures AllHold(w)
  {
    forall t | t in w.threads && Holding(w.threads[t]) ensures Leasing(w, w.threads[t].q, w.threads[t].id) {
      assert HeldOk(b, w, w.threads[t]);
    }
  }

  // ---- it does happen ----

  /** One job, one queue: what the clash below needs to know of the store. */
  ghost predicate OneJob(s: Store, q: QName, x: Id, ready: ZSet, delayed: ZSet, lease: ZSet) {
    && Owns(H(s, x), q) && !Q(s, q).paused
    && Q(s, q).ready == ready && Q(s, q).delayed == delayed
    && Q(s, q).lease == lease && Q(s, q).active == lease.Keys
  }

  lemma EnqueueOne(q: QName, x: Id, core: Core)
    requires core.queue == q && core.uniqueKey == ""
    ensures OneJob(Enqueue(EMPTY, x, core, 0, 0), q, x, map[x := core.priority], map[], map[])
  {}

  lemma DequeueOne(s: Store, q: QName, x: Id, p: int)
    requires OneJob(s, q, x, map[x := p], map[], map[])
    ensures Head(s, q) == Some(x)
    ensures OneJob(Dequeue(s, q, 0), q, x, map[], map[], map[x := LEASE_MS])
  {
    assert map[x := p] - {x} == map[];
  }

  lemma RescheduleOne(s: Store, q: QName, x: Id)
    requires OneJob(s, q, x, map[], map[], map[x := LEASE_MS])
    ensures OneJob(Reschedule(s, q, x, 0), q, x, map[], map[x := 0], map[])
  {
    assert map[x := LEASE_MS] - {x} == map[];
  }

  lemma PromoteOneOnly(s: Store, q: QName, x: Id)
    requires OneJob(s, q, x, map[], map[x := 0], map[])
    ensures OneJob(Promote(s, q, 0, -1), q, x, map[x := PriorityOf(H(s, x))], map[], map[])
  {
    assert UpTo(map[x := 0], 0) == {x};
    assert Due(s, q, 0, -1) == [x];
    assert [x][..0] == [] && PromoteAll(s, q, []) == s;
    assert PromoteAll(s, q, [x]) == PromoteOne(PromoteAll(s, q, [x][..0]), q, x);
    assert map[x := 0] - {x} == map[];
  }

  /** The world as the clash goes through it. */
  ghost predicate Scene(w: World, q: QName, x: Id, ready: ZSet, delayed: ZSet, lease: ZSet,
                        threads: map<nat, Thread>, inflight: map<(Srv, Id), Entry>) {
    w.clock == 0 && OneJob(w.s, q, x, ready, delayed, lease) && w.threads == threads && w.inflight == inflight
  }

  lemma SceneTake(b: Bounds, w: World, tid: nat, q: QName, x: Id, p: int, threads: map<nat, Thread>, inflight: map<(Srv, Id), Entry>)
    requires Scene(w, q, x, map[x := p], map[], map[], threads, inflight) && tid !in threads
    ensures Allowed(b, w, Take(tid, 0, q, 0))
    ensures Scene(Step(w, Take(tid, 0, q, 0)), q, x, map[], map[], map[x := LEASE_MS],
                  threads[tid := Thread(0, q, x, Starting(0))], inflight)
  {
    DequeueOne(w.s, q, x, p);
  }

  lemma SceneFinish(b: Bounds, w: World, q: QName, x: Id, inflight: map<(Srv, Id), Entry>)
    requires Scene(w, q, x, map[], map[], map[x := LEASE_MS], map[0 := Thread(0, q, x, Running)], inflight)
    ensures Allowed(b, w, Finish(0, RescheduleCall(q, x, 0)))
    ensures Scene(Step(w, Finish(0, RescheduleCall(q, x, 0))), q, x, map[], map[x := 0], map[],
                  map[0 := Thread(0, q, x, Lingering)], inflight)
  {
    RescheduleOne(w.s, q, x);
  }

  lemma ScenePromote(b: Bounds, w: World, q: QName, x: Id, threads: map<nat, Thread>, inflight: map<(Srv, Id), Entry>)
    requires Scene(w, q, x, map[], map[x := 0], map[], threads, inflight)
    ensures Allowed(b, w, Env(PromoteCall(q, 0, -1)))
    ensures Scene(Step(w, Env(PromoteCall(q, 0, -1))), q, x, map[x := PriorityOf(H(w.s, x))], map[], map[], threads, inflight)
  {
    PromoteOneOnly(w.s, q, x);
  }

  lemma FirstThread(b: Bounds, q: QName, x: Id, core: Core) returns (acts: seq<Act>)
    requires core.queue == q && core.uniqueKey == ""
    ensures AllowedRun(b, START, acts)
    ensures Scene(After(START, acts), q, x, map[], map[], map[x := LEASE_MS],
                  map[0 := Thread(0, q, x, Running)], map[(0, x) := Entry(q, 0)])
  {
    var e := EnqueueCall(x, core, 0, 0);
    Snoc(b, START, [], Env(e));
    acts := [] + [Env(e)];
    EnqueueOne(q, x, core);
    SceneTake(b, After(START, acts), 0, q, x, core.priority, map[], map[]);
    Snoc(b, START, acts, Take(0, 0, q, 0));
    acts := acts + [Take(0, 0, q, 0)];
    Snoc(b, START, acts, Register(0));
    acts := acts + [Register(0)];
  }

  /** A thread reschedules its job and, before its deferred deletion runs, the same server
      dequeues the job again. */
  lemma SecondThread(b: Bounds, q: QName, x: Id, core: Core) returns (acts: seq<Act>)
    requires core.queue == q && core.uniqueKey == ""
    ensures AllowedRun(b, START, acts)
    ensures Scene(After(START, acts), q, x, map[], map[], map[x := LEASE_MS],
                  map[0 := Thread(0, q, x, Lingering), 1 := Thread(0, q, x, Starting(0))], map[(0, x) := Entry(q, 0)])
  {
    var inflight := map[(0, x) := Entry(q, 0)];
    var lingering := map[0 := Thread(0, q, x, Lingering)];
    acts := FirstThread(b, q, x, core);
    SceneFinish(b, After(START, acts), q, x, inflight);
    Snoc(b, START, acts, Finish(0, RescheduleCall(q, x, 0)));
    acts := acts + [Finish(0, RescheduleCall(q, x, 0))];
    var p := PriorityOf(H(After(START, acts).s, x));
    ScenePromote(b, After(START, acts), q, x, lingering, inflight);
    Snoc(b, START, acts, Env(PromoteCall(q, 0, -1)));
    acts := acts + [Env(PromoteCall(q, 0, -1))];
    SceneTake(b, After(START, acts), 1, q, x, p, lingering, inflight);
    Snoc(b, START, acts, Take(1, 0, q, 0));
    acts := acts + [Take(1, 0, q, 0)];
  }

  /** The second thread registers before the first has deleted the entry both share; once it
      does, the handler's job is not safe any more. */
  lemma SharedEntryLosesJob(b: Bounds, q: QName, x: Id, core: Core) returns (acts: seq<Act>)
    requires Tight(b) && core.queue == q && core.uniqueKey == ""
    ensures AllowedRun(b, START, acts) && Allowed(b, After(START, acts), Delete(0))
    ensures Shares(After(START, acts), 0, 1)
    ensures !AlwaysHold(b, Step(After(START, acts), Delete(0)))
  {
    acts := SecondThread(b, q, x, core);
    Snoc(b, START, acts, Register(1));
    acts := acts + [Register(1)];
    assert Shares(After(START, acts), 0, 1);
    DeleteSafeIff(b, acts, 0);
  }
}
