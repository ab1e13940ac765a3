/** At-least-once: whatever stale, duplicated or misdirected finishing calls occur,
    a job that still has work to do stays recorded somewhere it will be found. */
module AtLeastOnce {
  import opened Wrappers
  import opened ZSets
  import opened Scripts
  import opened Runs

  /** Queue data d holds the job where its state says it waits. */
  predicate FoundIn(d: QueueData, st: State, id: Id) {
    match st
    case Pending => id in d.ready || id in d.delayed
    case Retry => id in d.delayed
    case Active => id in d.active
    case Dead => id in d.dead
    case _ => true
  }

  ghost predicate Kept(s: Store, id: Id) {
    exists q :: FoundIn(Q(s, q), H(s, id).state, id)
  }

  ghost predicate NoneLost(s: Store) {
    forall id :: Kept(s, id)
  }

  lemma LocalKept(s: Store, t: Store, q: QName, id: Id, x: Id)
    requires NoneLost(s) && Local(s, t, q, id) && x != id
    ensures Kept(t, x)
  {
    assert Kept(s, x);
    var p :| FoundIn(Q(s, p), H(s, x).state, x);
    assert SameIn(Q(s, q), Q(t, q), x);
    InDead(Q(s, q).dead, x);
    InDead(Q(t, q).dead, x);
    assert FoundIn(Q(t, p), H(t, x).state, x);
  }

  lemma InDead(dead: seq<Id>, x: Id)
    ensures x in dead <==> multiset(dead)[x] > 0
  {}

  /** A step that leaves its own job findable where it wrote loses nothing. */
  lemma LocalNoneLost(s: Store, t: Store, q: QName, id: Id)
    requires NoneLost(s) && Local(s, t, q, id)
    requires FoundIn(Q(t, q), H(t, id).state, id)
    ensures NoneLost(t)
  {
    forall x ensures Kept(t, x) {
      if x != id { LocalKept(s, t, q, id, x); }
    }
  }

  lemma {:induction false} PromoteAllNoneLost(s: Store, q: QName, ids: seq<Id>)
    requires NoneLost(s)
    ensures NoneLost(PromoteAll(s, q, ids))
  {
    if ids != [] {
      var u := PromoteAll(s, q, ids[..|ids| - 1]);
      PromoteAllNoneLost(s, q, ids[..|ids| - 1]);
      PromoteOneLocal(u, q, ids[|ids| - 1]);
      LocalNoneLost(u, PromoteAll(s, q, ids), q, ids[|ids| - 1]);
    }
  }

  /** Dropping leases and pausing moves no job. */
  lemma SamePlacesNoneLost(s: Store, t: Store)
    requires NoneLost(s) && t.jobs == s.jobs
    requires forall q :: Q(t, q).ready == Q(s, q).ready && Q(t, q).delayed == Q(s, q).delayed
                      && Q(t, q).active == Q(s, q).active && Q(t, q).dead == Q(s, q).dead
    ensures NoneLost(t)
  {
    forall x ensures Kept(t, x) {
      assert Kept(s, x);
      var p :| FoundIn(Q(s, p), H(s, x).state, x);
      assert FoundIn(Q(t, p), H(t, x).state, x);
    }
  }

  lemma {:induction false} RecoverAllNoneLost(s: Store, q: QName, ids: seq<Id>)
    requires NoneLost(s)
    ensures NoneLost(RecoverAll(s, q, ids))
  {
    if ids != [] {
      var u := RecoverAll(s, q, ids[..|ids| - 1]);
      RecoverAllNoneLost(s, q, ids[..|ids| - 1]);
      if ids[|ids| - 1] in Q(u, q).active {
        RecoverOneLocal(u, q, ids[|ids| - 1]);
        LocalNoneLost(u, RecoverAll(s, q, ids), q, ids[|ids| - 1]);
      } else {
        SamePlacesNoneLost(u, RecoverAll(s, q, ids));
      }
    }
  }

  lemma PurgeDeadNoneLost(s: Store, q: QName)
    requires NoneLost(s)
    ensures NoneLost(PurgeDead(s, q))
  {
    var t := PurgeDead(s, q);
    forall x ensures Kept(t, x) {
      assert Kept(s, x);
      var p :| FoundIn(Q(s, p), H(s, x).state, x);
      assert x !in Q(s, q).dead ==> FoundIn(Q(t, p), H(t, x).state, x);
      assert x in Q(s, q).dead ==> FoundIn(Q(t, p), H(t, x).state, x);
    }
  }

  /** The one call that can drop a job: a nack that dies on a hash without max_retries. */
  predicate Aborts(s: Store, e: Event) {
    e.NackCall? && NackDecision(H(s, e.id), e.skip) == ScriptError
  }

  lemma FinishNoneLost(s: Store, e: Event)
    requires NoneLost(s) && Finishing(e) && !Aborts(s, e)
    ensures NoneLost(Apply(s, e))
  {
    FinishLocal(s, e);
    match e
    case NackCall(q, id, _, _, _, _) => LocalNoneLost(s, Apply(s, e), q, id);
    case AckCall(q, id, _) => LocalNoneLost(s, Apply(s, e), q, id);
    case RescheduleCall(q, id, _) => LocalNoneLost(s, Apply(s, e), q, id);
    case CancelCall(q, id, _, _) => LocalNoneLost(s, Apply(s, e), q, id);
  }

  /** Every other call, fenced or not, on any id and any queue, loses nothing. */
  lemma StepNoneLost(s: Store, e: Event)
    requires NoneLost(s) && !Aborts(s, e)
    ensures NoneLost(Apply(s, e))
  {
    if Finishing(e) {
      FinishNoneLost(s, e);
    } else if Quiet(e) {
      SamePlacesNoneLost(s, Apply(s, e));
    } else {
      match e
      case EnqueueCall(id, core, at, ttl) =>
        EnqueueNoneLost(s, id, core, at, ttl);
      case DequeueCall(q, now) => DequeueNoneLost(s, q, now);
      case RecoverCall(q, now, limit) => RecoverAllNoneLost(s, q, Expired(s, q, now, limit));
      case PromoteCall(q, now, limit) => PromoteAllNoneLost(s, q, Due(s, q, now, limit));
      case RetryDeadCall(q, id) => RetryDeadNoneLost(s, q, id);
      case PurgeDeadCall(q) => PurgeDeadNoneLost(s, q);
    }
  }

  lemma EnqueueNoneLost(s: Store, id: Id, core: Core, at: int, ttl: int)
    requires NoneLost(s)
    ensures NoneLost(Enqueue(s, id, core, at, ttl))
  {
    if !Duplicate(s, core.uniqueKey, ttl) {
      EnqueueLocal(s, id, core, at, ttl);
      LocalNoneLost(s, Enqueue(s, id, core, at, ttl), core.queue, id);
    }
  }

  lemma DequeueNoneLost(s: Store, q: QName, now: int)
    requires NoneLost(s)
    ensures NoneLost(Dequeue(s, q, now))
  {
    if Head(s, q).Some? {
      DequeueLocal(s, q, now);
      LocalNoneLost(s, Dequeue(s, q, now), q, Head(s, q).value);
    }
  }

  lemma RetryDeadNoneLost(s: Store, q: QName, id: Id)
    requires NoneLost(s)
    ensures NoneLost(RetryDead(s, q, id))
  {
    if id in Q(s, q).dead {
      RetryDeadLocal(s, q, id);
      LocalNoneLost(s, RetryDead(s, q, id), q, id);
    }
  }

  /** And the aborting nack loses its job exactly when that was the job's only active entry. */
  lemma AbortLosesIff(s: Store, e: Event)
    requires NoneLost(s) && Aborts(s, e)
    ensures NoneLost(Apply(s, e)) <==>
              (H(s, e.id).state == Active ==> exists p :: p != e.q && e.id in Q(s, p).active)
  {
    var t := Apply(s, e);
    FinishLocal(s, e);
    assert H(t, e.id).state == H(s, e.id).state;
    if H(s, e.id).state == Active {
      forall p ensures e.id in Q(t, p).active <==> p != e.q && e.id in Q(s, p).active {}
      assert Kept(t, e.id) <==> exists p :: FoundIn(Q(t, p), Active, e.id);
    } else {
      assert Kept(s, e.id);
      var p :| FoundIn(Q(s, p), H(s, e.id).state, e.id);
      assert FoundIn(Q(t, p), H(t, e.id).state, e.id);
    }
    forall x | x != e.id ensures Kept(t, x) { LocalKept(s, t, e.q, e.id, x); }
  }

  predicate NoAbort(s: Store, es: seq<Event>) {
    es == [] || (NoAbort(s, es[..|es| - 1]) && !Aborts(Run(s, es[..|es| - 1]), es[|es| - 1]))
  }

  lemma {:induction false} RunNoneLost(s: Store, es: seq<Event>)
    requires NoneLost(s) && NoAbort(s, es)
    ensures NoneLost(Run(s, es))
  {
    if es != [] {
      RunNoneLost(s, es[..|es| - 1]);
      StepNoneLost(Run(s, es[..|es| - 1]), es[|es| - 1]);
    }
  }

  // ---- a discipline callers can follow ----

  predicate Mentions(d: QueueData, id: Id) {
    id in d.ready || id in d.delayed || id in d.active || id in d.dead
  }

  /** Nothing refers to a job without a complete hash. */
  ghost predicate CoredId(s: Store, id: Id) {
    && (id in s.jobs ==> s.jobs[id].core.Some?)
    && forall q :: Mentions(Q(s, q), id) ==> id in s.jobs
  }

  ghost predicate Cored(s: Store) {
    forall id :: CoredId(s, id)
  }

  /** No purge, and finishing calls only on ids that were enqueued: by anyone, at any time. */
  predicate Known(s: Store, e: Event) {
    !e.PurgeDeadCall? && (Finishing(e) ==> e.id in s.jobs)
  }

  predicate KnownRun(s: Store, es: seq<Event>) {
    es == [] || (KnownRun(s, es[..|es| - 1]) && Known(Run(s, es[..|es| - 1]), es[|es| - 1]))
  }

  lemma LocalCored(s: Store, t: Store, q: QName, id: Id)
    requires Cored(s) && Local(s, t, q, id) && H(t, id).core.Some?
    ensures Cored(t)
  {
    forall x ensures CoredId(t, x) {
      assert CoredId(s, x);
      if x != id {
        assert SameIn(Q(s, q), Q(t, q), x);
        forall p | Mentions(Q(t, p), x) ensures x in t.jobs {
          InDead(Q(s, p).dead, x);
          InDead(Q(t, p).dead, x);
          assert Mentions(Q(s, p), x);
        }
      }
    }
  }

  lemma SamePlacesCored(s: Store, t: Store)
    requires Cored(s) && t.jobs == s.jobs
    requires forall q, x :: Mentions(Q(t, q), x) ==> Mentions(Q(s, q), x)
    ensures Cored(t)
  {
    forall x ensures CoredId(t, x) { assert CoredId(s, x); }
  }

  lemma {:induction false} PromoteAllCored(s: Store, q: QName, ids: seq<Id>)
    requires Cored(s) && forall x | x in ids :: x in s.jobs
    ensures Cored(PromoteAll(s, q, ids)) && s.jobs.Keys <= PromoteAll(s, q, ids).jobs.Keys
  {
    if ids != [] {
      var u := PromoteAll(s, q, ids[..|ids| - 1]);
      PromoteAllCored(s, q, ids[..|ids| - 1]);
      assert CoredId(u, ids[|ids| - 1]);
      PromoteOneLocal(u, q, ids[|ids| - 1]);
      LocalCored(u, PromoteAll(s, q, ids), q, ids[|ids| - 1]);
    }
  }

  lemma {:induction false} RecoverAllCored(s: Store, q: QName, ids: seq<Id>)
    requires Cored(s)
    ensures Cored(RecoverAll(s, q, ids))
  {
    if ids != [] {
      var u := RecoverAll(s, q, ids[..|ids| - 1]);
      var id := ids[|ids| - 1];
      RecoverAllCored(s, q, ids[..|ids| - 1]);
      assert CoredId(u, id);
      if id in Q(u, q).active {
        assert Mentions(Q(u, q), id);
        RecoverOneLocal(u, q, id);
        LocalCored(u, RecoverAll(s, q, ids), q, id);
      } else {
        SamePlacesCored(u, RecoverAll(s, q, ids));
      }
    }
  }

  lemma FinishCored(s: Store, e: Event)
    requires Cored(s) && Finishing(e) && e.id in s.jobs
    ensures Cored(Apply(s, e))
  {
    assert CoredId(s, e.id);
    FinishLocal(s, e);
    LocalCored(s, Apply(s, e), e.q, e.id);
  }

  lemma StepCored(s: Store, e: Event)
    requires Cored(s) && Known(s, e)
    ensures Cored(Apply(s, e))
  {
    if Finishing(e) {
      FinishCored(s, e);
    } else if Quiet(e) {
      SamePlacesCored(s, Apply(s, e));
    } else {
      match e
      case EnqueueCall(id, core, at, ttl) =>
        if !Duplicate(s, core.uniqueKey, ttl) {
          EnqueueLocal(s, id, core, at, ttl);
          LocalCored(s, Enqueue(s, id, core, at, ttl), core.queue, id);
        }
      case DequeueCall(q, now) =>
        if Head(s, q).Some? {
          assert CoredId(s, Head(s, q).value) && Mentions(Q(s, q), Head(s, q).value);
          DequeueLocal(s, q, now);
          LocalCored(s, Dequeue(s, q, now), q, Head(s, q).value);
        }
      case RecoverCall(q, now, limit) => RecoverAllCored(s, q, Expired(s, q, now, limit));
      case PromoteCall(q, now, limit) =>
        forall x | x in Due(s, q, now, limit) ensures x in s.jobs {
          assert CoredId(s, x) && Mentions(Q(s, q), x);
        }
        PromoteAllCored(s, q, Due(s, q, now, limit));
      case RetryDeadCall(q, id) =>
        if id in Q(s, q).dead {
          assert CoredId(s, id) && Mentions(Q(s, q), id);
          RetryDeadLocal(s, q, id);
          LocalCored(s, RetryDead(s, q, id), q, id);
        }
    }
  }

  lemma {:induction false} KnownRunNeverAborts(s: Store, es: seq<Event>)
    requires Cored(s) && KnownRun(s, es)
    ensures NoAbort(s, es) && Cored(Run(s, es))
  {
    if es != [] {
      var u := Run(s, es[..|es| - 1]);
      KnownRunNeverAborts(s, es[..|es| - 1]);
      StepCored(u, es[|es| - 1]);
      if es[|es| - 1].NackCall? { assert CoredId(u, es[|es| - 1].id); }
    }
  }

  /** Main result. Neither the worker, nor the queue, nor the number of calls is constrained. */
  lemma NothingLost(es: seq<Event>, id: Id)
    requires KnownRun(EMPTY, es)
    ensures Kept(Run(EMPTY, es), id)
  {
    forall x ensures Kept(EMPTY, x) { assert FoundIn(Q(EMPTY, ""), H(EMPTY, x).state, x); }
    KnownRunNeverAborts(EMPTY, es);
    RunNoneLost(EMPTY, es);
  }

  /** The discipline is needed: a late reschedule of an id that is not (or no longer)
      enqueued starts a run whose last nack leaves the job active nowhere. */
  lemma UnknownIdCanBeLost(s: Store, q: QName, id: Id)
    requires s == EMPTY
    ensures var t := Run(s, LosingRun(q, id)); H(t, id).state == Active && !Kept(t, id)
  {
    LosingRunIs(s, q, id);
    LosingSteps(s, q, id);
  }

  lemma LosingRunIs(s: Store, q: QName, id: Id)
    ensures Run(s, LosingRun(q, id)) ==
            Nack(Dequeue(Promote(Reschedule(s, q, id, 0), q, 0, -1), q, 1), q, id, "", 0, 2, false)
  {
    RunFour(s, RescheduleCall(q, id, 0), PromoteCall(q, 0, -1), DequeueCall(q, 1), NackCall(q, id, "", 0, 2, false));
    FourCalls(s, q, id);
  }

  lemma FourCalls(s: Store, q: QName, id: Id)
    ensures var t := Apply(Apply(Apply(s, RescheduleCall(q, id, 0)), PromoteCall(q, 0, -1)), DequeueCall(q, 1));
            Apply(t, NackCall(q, id, "", 0, 2, false)) ==
            Nack(Dequeue(Promote(Reschedule(s, q, id, 0), q, 0, -1), q, 1), q, id, "", 0, 2, false)
  {
    IsReschedule(s, q, id);
    IsPromote(Apply(s, RescheduleCall(q, id, 0)), q);
  }

  lemma IsReschedule(s: Store, q: QName, id: Id)
    ensures Apply(s, RescheduleCall(q, id, 0)) == Reschedule(s, q, id, 0)
  {}

  lemma IsPromote(s: Store, q: QName)
    ensures Apply(s, PromoteCall(q, 0, -1)) == Promote(s, q, 0, -1)
  {}

  lemma LosingSteps(s: Store, q: QName, id: Id)
    requires s == EMPTY
    ensures var t := Nack(Dequeue(Promote(Reschedule(s, q, id, 0), q, 0, -1), q, 1), q, id, "", 0, 2, false);
            H(t, id).state == Active && !Kept(t, id)
  {
    var s1 := Reschedule(s, q, id, 0);
    assert Q(s1, q) == NO_QUEUE.(delayed := map[id := 0]) && s1.queues.Keys == {q};
    PromoteGhost(s1, q, id);
    var s2 := Promote(s1, q, 0, -1);
    DequeueGhost(s2, q, id);
    AbortGhost(Dequeue(s2, q, 1), q, id);
  }

  function LosingRun(q: QName, id: Id): seq<Event> {
    [RescheduleCall(q, id, 0), PromoteCall(q, 0, -1), DequeueCall(q, 1), NackCall(q, id, "", 0, 2, false)]
  }

  lemma DequeueGhost(s: Store, q: QName, id: Id)
    requires Q(s, q) == NO_QUEUE.(ready := map[id := 5])
    ensures var t := Dequeue(s, q, 1);
            && t.queues.Keys == s.queues.Keys + {q}
            && Q(t, q).active == {id} && H(t, id) == H(s, id).(state := Active, startedAt := 1)
  {
    assert Head(s, q) == Some(id);
  }

  lemma AbortGhost(s: Store, q: QName, id: Id)
    requires s.queues.Keys == {q} && Q(s, q).active == {id}
    requires H(s, id).core == None && H(s, id).state == Active
    ensures var t := Nack(s, q, id, "", 0, 2, false);
            H(t, id).state == Active && !Kept(t, id)
  {
    var t := Nack(s, q, id, "", 0, 2, false);
    assert forall p :: id !in Q(t, p).active;
  }

  lemma PromoteGhost(s: Store, q: QName, id: Id)
    requires Q(s, q) == NO_QUEUE.(delayed := map[id := 0])
    requires H(s, id).core == None
    ensures var t := Promote(s, q, 0, -1);
            && Q(t, q) == NO_QUEUE.(ready := map[id := 5]) && t.queues.Keys == s.queues.Keys + {q}
            && H(t, id) == H(s, id).(state := Pending)
  {
    assert UpTo(Q(s, q).delayed, 0) == {id};
    assert Due(s, q, 0, -1) == [id];
    assert [id][..0] == [] && PromoteAll(s, q, []) == s;
    assert PromoteAll(s, q, [id]) == PromoteOne(PromoteAll(s, q, [id][..0]), q, id);
    assert Promote(s, q, 0, -1) == PromoteOne(s, q, id);
  }

  lemma RunTwo(s: Store, a: Event, b: Event)
    ensures Run(s, [a, b]) == Apply(Apply(s, a), b)
  {
    assert [a][..0] == [] && [a, b][..1] == [a];
    assert Run(s, [a]) == Apply(s, a);
  }

  lemma RunFour(s: Store, a: Event, b: Event, c: Event, d: Event)
    ensures Run(s, [a, b, c, d]) == Apply(Apply(Apply(Apply(s, a), b), c), d)
  {
    RunSplit(s, [a, b], [c, d]);
    assert [a, b] + [c, d] == [a, b, c, d];
    RunTwo(s, a, b);
    RunTwo(Run(s, [a, b]), c, d);
  }

}
