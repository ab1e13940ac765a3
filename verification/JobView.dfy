/** One job's view of a step: how its hash changes, and what state it must have been in. */
module JobView {
  import opened Wrappers
  import opened ZSets
  import opened Scripts
  import opened Runs
  import opened Placement
  import Leases

  function HashAfter(s: Store, e: Event, x: Id): Hash {
    var h := H(s, x);
    match e
    case EnqueueCall(id, core, at, ttl) =>
      if id != x || (core.uniqueKey != "" && ttl > 0 && core.uniqueKey in s.unique) then h
      else Hash(Some(core), Pending, 0, at, 0, 0, "")
    case DequeueCall(q, now) => if Head(s, q) == Some(x) then h.(state := Active, startedAt := now) else h
    case AckCall(_, id, now) => if id == x then h.(state := Completed, completedAt := now) else h
    case NackCall(_, id, err, _, _, skip) =>
      if id != x then h
      else
        h.(attempt := h.attempt + 1, lastError := err,
           state := if skip then Dead
                    else if h.core.None? then h.state
                    else if h.attempt + 1 < h.core.value.maxRetries then Retry
                    else Dead)
    case RescheduleCall(_, id, at) =>
      if id == x then h.(state := Pending, scheduledAt := at, startedAt := 0) else h
    case CancelCall(_, id, now, reason) =>
      if id == x then h.(state := Cancelled, completedAt := now, lastError := reason) else h
    case RecoverCall(q, now, limit) =>
      if x in Expired(s, q, now, limit) then h.(state := Pending, startedAt := 0) else h
    case PromoteCall(q, now, limit) => if x in Due(s, q, now, limit) then h.(state := Pending) else h
    case RetryDeadCall(q, id) =>
      if id == x && x in Q(s, q).dead
      then h.(state := Pending, attempt := 0, lastError := "", completedAt := 0, startedAt := 0) else h
    case PurgeDeadCall(q) => if x in Q(s, q).dead then NO_HASH else h
    case ExtendCall(_, _, _) => h
    case PauseCall(_, _) => h
    case ExpireCall(_) => h
  }

  lemma {:induction false} PromoteAllHash(s: Store, q: QName, ids: seq<Id>, x: Id)
    ensures H(PromoteAll(s, q, ids), x) == if x in ids then H(s, x).(state := Pending) else H(s, x)
  {
    if ids != [] {
      PromoteAllHash(s, q, ids[..|ids| - 1], x);
      assert ids == ids[..|ids| - 1] + [ids[|ids| - 1]];
    }
  }

  lemma StillActive(s: Store, q: QName, ids: seq<Id>, id: Id)
    requires Leases.AllLeased(s) && Distinct(ids) && (forall y | y in ids :: y in Q(s, q).lease)
    requires id in Q(s, q).lease && id !in ids
    ensures id in Q(RecoverAll(s, q, ids), q).active
  {
    Leases.RecoverAllEffect(s, q, ids);
    assert Leases.Leased(Q(RecoverAll(s, q, ids), q));
  }

  lemma RecoverOneHash(s: Store, q: QName, id: Id, x: Id)
    requires id in Q(s, q).active
    ensures H(RecoverOne(s, q, id), x) == if x == id then H(s, x).(state := Pending, startedAt := 0) else H(s, x)
  {}

  lemma {:induction false} RecoverAllHash(s: Store, q: QName, ids: seq<Id>, x: Id)
    requires Leases.AllLeased(s) && Distinct(ids) && forall y | y in ids :: y in Q(s, q).lease
    ensures H(RecoverAll(s, q, ids), x) == if x in ids then H(s, x).(state := Pending, startedAt := 0) else H(s, x)
  {
    if ids != [] {
      var front, id := ids[..|ids| - 1], ids[|ids| - 1];
      RecoverAllHash(s, q, front, x);
      StillActive(s, q, front, id);
      RecoverOneHash(RecoverAll(s, q, front), q, id, x);
      assert ids == front + [id];
    }
  }

  /** Every script changes each hash as HashAfter says, loops included, wherever leases match
      active jobs, as they do after every run. */
  lemma StepHashLeased(s: Store, e: Event, x: Id)
    requires Leases.AllLeased(s)
    ensures H(Apply(s, e), x) == HashAfter(s, e, x)
  {
    match e
    case RecoverCall(q, now, limit) =>
      RecoverAllHash(s, q, Expired(s, q, now, limit), x);
    case PromoteCall(q, now, limit) => PromoteAllHash(s, q, Due(s, q, now, limit), x);
    case EnqueueCall(_, _, _, _) =>
    case DequeueCall(_, _) =>
    case AckCall(_, _, _) =>
    case NackCall(_, _, _, _, _, _) =>
    case RescheduleCall(_, _, _) =>
    case CancelCall(_, _, _, _) =>
    case RetryDeadCall(_, _) =>
    case PurgeDeadCall(_) =>
    case ExtendCall(_, _, _) =>
    case PauseCall(_, _) =>
    case ExpireCall(_) =>
  }

  lemma PlacedLeased(s: Store)
    requires Placed(s)
    ensures Leases.AllLeased(s)
  {
    forall q ensures Leases.Leased(Q(s, q)) {
      forall x ensures x in Q(s, q).lease <==> x in Q(s, q).active { LeasedIsActive(s, q, x); }
    }
  }

  lemma StepHash(s: Store, e: Event, x: Id)
    requires Placed(s)
    ensures H(Apply(s, e), x) == HashAfter(s, e, x)
  {
    PlacedLeased(s);
    StepHashLeased(s, e, x);
  }

  /** What each script does to every job's hash, after any run whatever. */
  lemma RunStepHash(es: seq<Event>, e: Event, x: Id)
    ensures H(Run(EMPTY, es + [e]), x) == HashAfter(Run(EMPTY, es), e, x)
  {
    Leases.ActiveIffLeased(es);
    RunSnoc(EMPTY, es, e);
    StepHashLeased(Run(EMPTY, es), e, x);
  }

  /** What a queue's collections say about a job's state. */
  lemma StateByPlace(s: Store, q: QName, x: Id)
    requires Placed(s)
    ensures x in Q(s, q).ready ==> H(s, x).state == Pending
    ensures x in Q(s, q).delayed ==> H(s, x).state == Pending || H(s, x).state == Retry
    ensures x in Q(s, q).active || x in Q(s, q).lease ==> H(s, x).state == Active
    ensures x in Q(s, q).dead ==> H(s, x).state == Dead
    ensures x in Q(s, q).ready || x in Q(s, q).delayed || x in Q(s, q).active || x in Q(s, q).dead ==> Owns(H(s, x), q)
  {
    assert PlacedId(s, x) && PlaceOk(H(s, x), Q(s, q), q, x);
    assert x in Q(s, q).dead <==> multiset(Q(s, q).dead)[x] > 0;
  }

  /** The state a step requires of the job it acts on, in a fenced run. */
  lemma StateBefore(s: Store, e: Event, x: Id)
    requires Placed(s) && Fenced(s, e)
    ensures Finishing(e) && e.id == x ==> H(s, x).state == Active
    ensures e.DequeueCall? && Head(s, e.q) == Some(x) ==> H(s, x).state == Pending
    ensures e.RecoverCall? && x in Expired(s, e.q, e.now, e.limit) ==> H(s, x).state == Active
    ensures e.PromoteCall? && x in Due(s, e.q, e.now, e.limit) ==> H(s, x).state == Pending || H(s, x).state == Retry
    ensures (e.RetryDeadCall? || e.PurgeDeadCall?) && x in Q(s, e.q).dead ==> H(s, x).state == Dead
    ensures e.EnqueueCall? && e.id == x ==> H(s, x) == NO_HASH
  {
    if !e.EnqueueCall? && !e.ExpireCall? { StateByPlace(s, e.q, x); }
  }
}
