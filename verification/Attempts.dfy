/** Retries end: how many times a job can be nacked before it is dead, and how long each
    retry is put off. */
module Attempts {
  import opened ZSets
  import opened Scripts
  import opened Runs
  import opened Placement
  import opened JobView
  import opened UniqueKeys
  import Backoff

  predicate AttemptOk(h: Hash) {
    h.core.Some? && Live(h) ==> h.attempt == 0 || 0 < h.attempt < h.core.value.maxRetries
  }

  ghost predicate AttemptsOk(s: Store) {
    forall x :: AttemptOk(H(s, x))
  }

  lemma StepAttempts(s: Store, e: Event)
    requires Placed(s) && Fenced(s, e) && AttemptsOk(s)
    ensures AttemptsOk(Apply(s, e))
  {
    forall x ensures AttemptOk(H(Apply(s, e), x)) {
      StepHash(s, e, x);
      StateBefore(s, e, x);
      assert AttemptOk(H(s, x));
    }
  }

  lemma {:induction false} RunAttempts(s: Store, es: seq<Event>)
    requires Placed(s) && AttemptsOk(s) && FencedRun(s, es)
    ensures AttemptsOk(Run(s, es))
  {
    if es != [] {
      RunAttempts(s, es[..|es| - 1]);
      RunPlaced(s, es[..|es| - 1]);
      StepAttempts(Run(s, es[..|es| - 1]), es[|es| - 1]);
    }
  }

  /** Main result: a waiting or running job never has its retries used up. */
  lemma LiveJobsHaveRetriesLeft(es: seq<Event>, id: Id)
    requires FencedRun(EMPTY, es)
    ensures var h := H(Run(EMPTY, es), id);
            Live(h) ==> h.core.Some? && (h.attempt == 0 || 0 < h.attempt < h.core.value.maxRetries)
  {
    EmptyPlaced();
    RunAttempts(EMPTY, es);
    RunPlaced(EMPTY, es);
    assert AttemptOk(H(Run(EMPTY, es), id)) && PlacedId(Run(EMPTY, es), id);
  }

  // ---- the nack budget ----

  function NacksOf(es: seq<Event>, id: Id): nat {
    if es == [] then 0
    else NacksOf(es[..|es| - 1], id) + if es[|es| - 1].NackCall? && es[|es| - 1].id == id then 1 else 0
  }

  /** The run neither enqueues the job again nor brings it back from the dead. */
  predicate NoRestart(es: seq<Event>, id: Id) {
    forall i | 0 <= i < |es| :: !((es[i].EnqueueCall? || es[i].RetryDeadCall?) && es[i].id == id)
  }

  function Budget(maxRetries: int): int {
    if maxRetries > 1 then maxRetries else 1
  }

  /** Whatever else happens to the job, only a nack moves its attempt counter. */
  lemma OneLifeStep(s: Store, e: Event, id: Id)
    requires Placed(s) && Fenced(s, e)
    requires !((e.EnqueueCall? || e.RetryDeadCall?) && e.id == id)
    ensures var h, g := H(s, id), H(Apply(s, e), id);
            && (Live(g) ==> Live(h) && g.core == h.core
                            && g.attempt == h.attempt + if e.NackCall? && e.id == id then 1 else 0)
            && (e.NackCall? && e.id == id ==> Live(h))
  {
    StepHash(s, e, id);
    StateBefore(s, e, id);
    assert PlacedId(s, id);
  }

  lemma {:induction false} NackBudgetInv(s: Store, es: seq<Event>, id: Id)
    requires Placed(s) && AttemptsOk(s) && FencedRun(s, es) && NoRestart(es, id)
    requires id in s.jobs && H(s, id).attempt == 0
    ensures var g := H(Run(s, es), id);
            && s.jobs[id].core.Some?
            && NacksOf(es, id) <= Budget(s.jobs[id].core.value.maxRetries)
            && (Live(g) ==> g.core == s.jobs[id].core && g.attempt == NacksOf(es, id))
  {
    assert PlacedId(s, id);
    if es != [] {
      var front, e := es[..|es| - 1], es[|es| - 1];
      NackBudgetInv(s, front, id);
      RunPlaced(s, front);
      RunAttempts(s, front);
      assert !((es[|es| - 1].EnqueueCall? || es[|es| - 1].RetryDeadCall?) && es[|es| - 1].id == id);
      OneLifeStep(Run(s, front), e, id);
      assert AttemptOk(H(Run(s, front), id));
    }
  }

  /** Main result: from the moment it is (re)enqueued a job is nacked at most
      max(1, max_retries) times, whatever recoveries, promotions and reschedules intervene. */
  lemma NackBudget(s: Store, es: seq<Event>, id: Id)
    requires Placed(s) && AttemptsOk(s) && FencedRun(s, es) && NoRestart(es, id)
    requires id in s.jobs && s.jobs[id].attempt == 0 && s.jobs[id].core.Some?
    ensures NacksOf(es, id) <= Budget(s.jobs[id].core.value.maxRetries)
    ensures NacksOf(es, id) == Budget(s.jobs[id].core.value.maxRetries) ==> !Live(H(Run(s, es), id))
  {
    NackBudgetInv(s, es, id);
    RunAttempts(s, es);
    assert AttemptOk(H(Run(s, es), id));
  }

  /** The states NackBudget starts from: just enqueued, or just retried from the dead list. */
  lemma FreshStart(es: seq<Event>, e: Event)
    requires FencedRun(EMPTY, es) && Fenced(Run(EMPTY, es), e)
    requires || (e.EnqueueCall? && !Duplicate(Run(EMPTY, es), e.core.uniqueKey, e.ttl))
             || (e.RetryDeadCall? && e.id in Q(Run(EMPTY, es), e.q).dead)
    ensures var s := Apply(Run(EMPTY, es), e);
            && Placed(s) && AttemptsOk(s) && e.id in s.jobs && s.jobs[e.id].attempt == 0
            && s.jobs[e.id].core.Some? && Live(s.jobs[e.id])
  {
    var s := Run(EMPTY, es);
    EmptyPlaced();
    RunPlaced(EMPTY, es);
    RunAttempts(EMPTY, es);
    StepPlaced(s, e);
    StepAttempts(s, e);
    StepHash(s, e, e.id);
    assert PlacedId(Apply(s, e), e.id);
  }

  // ---- death by the last attempt, and no sooner ----

  predicate NoSkip(es: seq<Event>, id: Id) {
    forall i | 0 <= i < |es| :: !(es[i].NackCall? && es[i].id == id && es[i].skip)
  }

  /** Only a nack buries a job, and without a skip only when the retries are used up. */
  lemma BuriedWhenUsedUp(s: Store, e: Event, id: Id)
    requires Placed(s) && Fenced(s, e)
    requires !((e.EnqueueCall? || e.RetryDeadCall?) && e.id == id) && !(e.NackCall? && e.id == id && e.skip)
    ensures var h, g := H(s, id), H(Apply(s, e), id);
            && (e.NackCall? && e.id == id ==>
                  && Live(h) && h.core.Some?
                  && (g.state == Dead <==> h.attempt + 1 >= h.core.value.maxRetries)
                  && (g.state == Retry <==> h.attempt + 1 < h.core.value.maxRetries))
            && (!(e.NackCall? && e.id == id) ==>
                  && (g.state == Dead ==> h.state == Dead)
                  && (h.state == Dead || h == NO_HASH ==> g == h || g == NO_HASH)
                  && (Live(g) ==> Live(h)))
  {
    StepHash(s, e, id);
    StateBefore(s, e, id);
    assert PlacedId(s, id);
  }

  /** Main result: from the moment it is (re)enqueued, through any fenced run in which no nack
      skips the retries, a job is dead exactly when it was nacked max(1, max_retries) times. */
  lemma {:induction false} DeadExactlyAtBudget(s: Store, es: seq<Event>, id: Id)
    requires Placed(s) && AttemptsOk(s) && FencedRun(s, es) && NoRestart(es, id) && NoSkip(es, id)
    requires id in s.jobs && s.jobs[id].attempt == 0 && s.jobs[id].core.Some? && Live(s.jobs[id])
    ensures var g, budget := H(Run(s, es), id), Budget(s.jobs[id].core.value.maxRetries);
            && (g.state == Dead ==> NacksOf(es, id) == budget)
            && (NacksOf(es, id) == budget ==> g.state == Dead || g == NO_HASH)
            && (Live(g) ==> NacksOf(es, id) < budget)
  {
    if es != [] {
      var front, e := es[..|es| - 1], es[|es| - 1];
      DeadExactlyAtBudget(s, front, id);
      RunPlaced(s, front);
      NackBudgetInv(s, front, id);
      NackBudgetInv(s, es, id);
      assert !((es[|es| - 1].EnqueueCall? || es[|es| - 1].RetryDeadCall?) && es[|es| - 1].id == id);
      assert !(es[|es| - 1].NackCall? && es[|es| - 1].id == id && es[|es| - 1].skip);
      BuriedWhenUsedUp(Run(s, front), e, id);
      RunAttempts(s, es);
      assert AttemptOk(H(Run(s, es), id));
    }
  }

  // ---- one report ----

  /** The call ends the job in a way its workflow hears of: an ack, or a nack that buries it. */
  predicate Ends(s: Store, e: Event, id: Id) {
    (e.AckCall? && e.id == id) || (e.NackCall? && e.id == id && NackDecision(H(s, id), e.skip) == ToDead)
  }

  function EndsOf(s: Store, es: seq<Event>, id: Id): nat {
    if es == [] then 0
    else EndsOf(s, es[..|es| - 1], id) + if Ends(Run(s, es[..|es| - 1]), es[|es| - 1], id) then 1 else 0
  }

  /** Main result: from the moment it is (re)enqueued a job is reported completed or dead at
      most once. */
  lemma {:induction false} ReportedOnce(s: Store, es: seq<Event>, id: Id)
    requires Placed(s) && FencedRun(s, es) && NoRestart(es, id)
    ensures EndsOf(s, es, id) + (if Live(H(Run(s, es), id)) then 1 else 0) <= 1
  {
    if es != [] {
      var front, e := es[..|es| - 1], es[|es| - 1];
      ReportedOnce(s, front, id);
      RunPlaced(s, front);
      assert !((es[|es| - 1].EnqueueCall? || es[|es| - 1].RetryDeadCall?) && es[|es| - 1].id == id);
      OneLifeStep(Run(s, front), e, id);
      if Ends(Run(s, front), e, id) { EndIsFinal(Run(s, front), e, id); }
    }
  }

  lemma EndIsFinal(s: Store, e: Event, id: Id)
    requires Placed(s) && Fenced(s, e) && Ends(s, e, id)
    ensures Live(H(s, id)) && !Live(H(Apply(s, e), id))
  {
    StepHash(s, e, id);
    StateBefore(s, e, id);
  }

  /** With max_retries at most 34 no delay ever wraps: each one is the capped doubling. */
  lemma RetryDelayNeverWraps(es: seq<Event>, id: Id, q: QName)
    requires FencedRun(EMPTY, es) && id in Q(Run(EMPTY, es), q).active
    requires H(Run(EMPTY, es), id).core.Some? && H(Run(EMPTY, es), id).core.value.maxRetries <= 34
    ensures var a := H(Run(EMPTY, es), id).attempt;
            && 0 <= a <= 33
            && Backoff.BackoffMs(a, false) == Backoff.Min(1000 * Backoff.Pow2(a), 3_600_000)
            && 1000 <= Backoff.BackoffMs(a, false) <= 3_600_000
  {
    EmptyPlaced();
    RunPlaced(EMPTY, es);
    StateByPlace(Run(EMPTY, es), q, id);
    LiveJobsHaveRetriesLeft(es, id);
    Backoff.DelayBounds(H(Run(EMPTY, es), id).attempt);
  }
}
