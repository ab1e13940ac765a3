/** Not before its time: under a shared clock no job becomes ready or active before the
    time it is scheduled for. */
module NotBefore {
  import opened Wrappers
  import opened ZSets
  import opened Scripts
  import opened Runs
  import opened Placement
  import opened JobView

  /** The store, the clock, and when each job was last handed to a worker. */
  datatype Timed = Timed(s: Store, clock: int, began: map<Id, int>)

  datatype Move = Wait(ms: nat) | Call(e: Event)

  function Next(w: Timed, m: Move): Timed {
    match m
    case Wait(ms) => w.(clock := w.clock + ms)
    case Call(e) =>
      w.(s := Apply(w.s, e),
         began := if e.DequeueCall? && Head(w.s, e.q).Some? then w.began[Head(w.s, e.q).value := w.clock] else w.began)
  }

  /** Clients read the shared clock before their call runs, a worker nacks with a time read
      after it got the job, and delays are not negative. */
  predicate Timely(w: Timed, m: Move) {
    m.Call? ==>
      && Fenced(w.s, m.e)
      && (m.e.PromoteCall? ==> m.e.now <= w.clock)
      && (m.e.NackCall? && m.e.id in w.began ==> m.e.now >= w.began[m.e.id])
      && (m.e.NackCall? ==> m.e.backoff >= 0)
  }

  function After(w: Timed, ms: seq<Move>): Timed {
    if ms == [] then w else Next(After(w, ms[..|ms| - 1]), ms[|ms| - 1])
  }

  predicate TimelyRun(w: Timed, ms: seq<Move>) {
    ms == [] || (TimelyRun(w, ms[..|ms| - 1]) && Timely(After(w, ms[..|ms| - 1]), ms[|ms| - 1]))
  }

  /** The score under which the job waits in its own queue's delayed set. */
  function DelayedAt(s: Store, x: Id): Option<int> {
    match H(s, x).core
    case None => None
    case Some(c) => if x in Q(s, c.queue).delayed then Some(Q(s, c.queue).delayed[x]) else None
  }

  function DelayedAfter(s: Store, e: Event, x: Id): Option<int> {
    var z := DelayedAt(s, x);
    match e
    case EnqueueCall(id, core, at, ttl) =>
      if id == x && !Duplicate(s, core.uniqueKey, ttl) then (if at > 0 then Some(at) else None) else z
    case NackCall(_, id, _, backoff, now, skip) =>
      if id == x && NackDecision(H(s, x), skip) == ToRetry then Some(now + backoff) else z
    case RescheduleCall(_, id, at) => if id == x then Some(at) else z
    case PromoteCall(q, now, limit) => if x in Due(s, q, now, limit) then None else z
    case _ => z
  }

  lemma {:induction false} PromoteAllDelayed(s: Store, q: QName, ids: seq<Id>, p: QName)
    ensures Q(PromoteAll(s, q, ids), p).delayed == if p == q then Q(s, q).delayed - Members(ids) else Q(s, p).delayed
  {
    if ids != [] {
      var front, id := ids[..|ids| - 1], ids[|ids| - 1];
      PromoteAllDelayed(s, q, front, p);
      assert ids == front + [id];
      MembersConcat(front, [id]);
      assert Members([id]) == {id};
      assert Q(s, q).delayed - Members(ids) == (Q(s, q).delayed - Members(front)) - {id};
    }
  }

  lemma {:induction false} RecoverAllDelayed(s: Store, q: QName, ids: seq<Id>, p: QName)
    ensures Q(RecoverAll(s, q, ids), p).delayed == Q(s, p).delayed
  {
    if ids != [] { RecoverAllDelayed(s, q, ids[..|ids| - 1], p); }
  }

  lemma PromoteDelayed(s: Store, q: QName, now: int, limit: int, x: Id)
    requires Placed(s)
    ensures DelayedAt(Promote(s, q, now, limit), x)
            == if x in Due(s, q, now, limit) then None else DelayedAt(s, x)
  {
    StepHash(s, PromoteCall(q, now, limit), x);
    StateByPlace(s, q, x);
    if H(s, x).core.Some? {
      PromoteAllDelayed(s, q, Due(s, q, now, limit), H(s, x).core.value.queue);
    }
  }

  lemma RecoverDelayed(s: Store, q: QName, now: int, limit: int, x: Id)
    requires Placed(s)
    ensures DelayedAt(Recover(s, q, now, limit), x) == DelayedAt(s, x)
  {
    StepHash(s, RecoverCall(q, now, limit), x);
    if H(s, x).core.Some? {
      RecoverAllDelayed(s, q, Expired(s, q, now, limit), H(s, x).core.value.queue);
    }
  }

  lemma PurgeDelayed(s: Store, q: QName, x: Id)
    requires Placed(s)
    ensures DelayedAt(PurgeDead(s, q), x) == DelayedAt(s, x)
  {
    StepHash(s, PurgeDeadCall(q), x);
    StateByPlace(s, q, x);
    if H(s, x).core.Some? { StateByPlace(s, H(s, x).core.value.queue, x); }
  }

  /** A local step leaves every other job put off as it was. */
  lemma OtherDelayed(s: Store, t: Store, q: QName, id: Id, x: Id)
    requires Local(s, t, q, id) && x != id
    ensures DelayedAt(t, x) == DelayedAt(s, x)
  {
    assert SameIn(Q(s, q), Q(t, q), x);
    assert H(t, x) == H(s, x);
  }

  /** The one job a local step is about, read in its own queue. */
  lemma OwnDelayed(t: Store, q: QName, id: Id)
    requires Owns(H(t, id), q)
    ensures DelayedAt(t, id) == if id in Q(t, q).delayed then Some(Q(t, q).delayed[id]) else None
  {}

  lemma FinishDelayed(s: Store, e: Event, x: Id)
    requires Placed(s) && Fenced(s, e) && Finishing(e)
    ensures DelayedAt(Apply(s, e), x) == DelayedAfter(s, e, x)
  {
    var t := Apply(s, e);
    FinishLocal(s, e);
    if x != e.id {
      OtherDelayed(s, t, e.q, e.id, x);
    } else {
      StateByPlace(s, e.q, x);
      StepHash(s, e, x);
      OwnDelayed(s, e.q, x);
      OwnDelayed(t, e.q, x);
      FinishOwn(s, e);
    }
  }

  lemma FinishOwn(s: Store, e: Event)
    requires Finishing(e)
    ensures var d, g := Q(s, e.q).delayed, Q(Apply(s, e), e.q).delayed;
            g == match e
                 case NackCall(_, id, _, backoff, now, skip) =>
                   if NackDecision(H(s, id), skip) == ToRetry then d[id := now + backoff] else d
                 case RescheduleCall(_, id, at) => d[id := at]
                 case _ => d
  {
    match e
    case AckCall(_, _, _) =>
    case NackCall(_, _, _, _, _, _) =>
    case RescheduleCall(_, _, _) =>
    case CancelCall(_, _, _, _) =>
  }

  lemma EnqueueDelayed(s: Store, id: Id, core: Core, at: int, ttl: int, x: Id)
    requires Placed(s) && id !in s.jobs
    ensures DelayedAt(Enqueue(s, id, core, at, ttl), x) == DelayedAfter(s, EnqueueCall(id, core, at, ttl), x)
  {
    if !Duplicate(s, core.uniqueKey, ttl) {
      var t := Enqueue(s, id, core, at, ttl);
      EnqueueLocal(s, id, core, at, ttl);
      if x != id {
        OtherDelayed(s, t, core.queue, id, x);
      } else {
        OwnDelayed(t, core.queue, id);
        assert PlacedId(s, id) && PlaceOk(H(s, id), Q(s, core.queue), core.queue, id);
      }
    }
  }

  lemma DequeueDelayed(s: Store, q: QName, now: int, x: Id)
    ensures DelayedAt(Dequeue(s, q, now), x) == DelayedAt(s, x)
  {}

  lemma RetryDeadDelayed(s: Store, q: QName, id: Id, x: Id)
    ensures DelayedAt(RetryDead(s, q, id), x) == DelayedAt(s, x)
  {}

  lemma StepDelayed(s: Store, e: Event, x: Id)
    requires Placed(s) && Fenced(s, e)
    ensures DelayedAt(Apply(s, e), x) == DelayedAfter(s, e, x)
  {
    if Finishing(e) {
      FinishDelayed(s, e, x);
    } else if !Quiet(e) {
      match e
      case EnqueueCall(id, core, at, ttl) => EnqueueDelayed(s, id, core, at, ttl, x);
      case DequeueCall(q, now) => DequeueDelayed(s, q, now, x);
      case RecoverCall(q, now, limit) => RecoverDelayed(s, q, now, limit, x);
      case PromoteCall(q, now, limit) => PromoteDelayed(s, q, now, limit, x);
      case RetryDeadCall(q, id) => RetryDeadDelayed(s, q, id, x);
      case PurgeDeadCall(q) => PurgeDelayed(s, q, x);
    }
  }

  /** Put off to its time or later; no longer put off only once that time has come. */
  predicate NotEarly(w: Timed, x: Id) {
    var h := H(w.s, x);
    && (DelayedAt(w.s, x).Some? ==> DelayedAt(w.s, x).value >= h.scheduledAt)
    && (DelayedAt(w.s, x).None? ==> h.scheduledAt <= w.clock)
    && (h.state == Active ==> x in w.began && h.scheduledAt <= w.began[x] <= w.clock)
  }

  ghost predicate NoneEarly(w: Timed) {
    w.clock >= 0 && Placed(w.s) && forall x :: NotEarly(w, x)
  }

  /** A job found in a collection is or is not in its queue's delayed set. */
  lemma DelayedByPlace(s: Store, q: QName, x: Id)
    requires Placed(s)
    ensures x in Q(s, q).ready || x in Q(s, q).active || x in Q(s, q).dead ==> DelayedAt(s, x) == None
    ensures x in Q(s, q).delayed ==> DelayedAt(s, x) == Some(Q(s, q).delayed[x])
  {
    StateByPlace(s, q, x);
    assert PlacedId(s, x) && PlaceOk(H(s, x), Q(s, q), q, x);
  }

  lemma StepNotEarly(w: Timed, e: Event, x: Id)
    requires NoneEarly(w) && Timely(w, Call(e))
    ensures NotEarly(Next(w, Call(e)), x)
  {
    StepHash(w.s, e, x);
    StateBefore(w.s, e, x);
    StepDelayed(w.s, e, x);
    assert NotEarly(w, x);
    if !e.EnqueueCall? && !e.ExpireCall? { DelayedByPlace(w.s, e.q, x); }
  }

  lemma {:induction false} RunNotEarly(w: Timed, ms: seq<Move>)
    requires NoneEarly(w) && TimelyRun(w, ms)
    ensures NoneEarly(After(w, ms))
  {
    if ms != [] {
      var u, m := After(w, ms[..|ms| - 1]), ms[|ms| - 1];
      RunNotEarly(w, ms[..|ms| - 1]);
      if m.Call? {
        StepPlaced(u.s, m.e);
        forall x ensures NotEarly(After(w, ms), x) { StepNotEarly(u, m.e, x); }
      } else {
        forall x ensures NotEarly(After(w, ms), x) { assert NotEarly(u, x); }
      }
    }
  }

  /** Main result, at any point of a timely run over any queues. */
  lemma NeverBeforeItsTime(clock: nat, ms: seq<Move>, q: QName, x: Id)
    requires TimelyRun(Timed(EMPTY, clock, map[]), ms)
    ensures var w := After(Timed(EMPTY, clock, map[]), ms);
            var d := Q(w.s, q);
            && (x in d.delayed ==> d.delayed[x] >= H(w.s, x).scheduledAt)
            && (x in d.ready || x in d.active || x in d.dead ==> H(w.s, x).scheduledAt <= w.clock)
  {
    EmptyPlaced();
    RunNotEarly(Timed(EMPTY, clock, map[]), ms);
    var w := After(Timed(EMPTY, clock, map[]), ms);
    assert NotEarly(w, x);
    DelayedByPlace(w.s, q, x);
  }
}
