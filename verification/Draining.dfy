/** Priority order: a job returns to ready under the priority it was enqueued with, and
    dequeuing hands out the ready set in (priority, id) order. */
module Draining {
  import opened Wrappers
  import opened ZSets
  import opened Scripts
  import opened Runs
  import opened Placement
  import opened JobView
  import Effects

  predicate NotEnqueuedAgain(es: seq<Event>, x: Id) {
    forall i | 0 <= i < |es| :: !(es[i].EnqueueCall? && es[i].id == x)
  }

  lemma {:induction false} CoreIsKept(s: Store, es: seq<Event>, x: Id)
    requires Placed(s) && FencedRun(s, es) && NotEnqueuedAgain(es, x)
    ensures H(Run(s, es), x).core == H(s, x).core || H(Run(s, es), x) == NO_HASH
  {
    if es != [] {
      var front, e := es[..|es| - 1], es[|es| - 1];
      CoreIsKept(s, front, x);
      RunPlaced(s, front);
      StepHash(Run(s, front), e, x);
      StateBefore(Run(s, front), e, x);
      assert !(es[|es| - 1].EnqueueCall? && es[|es| - 1].id == x);
    }
  }

  /** Main result: after any retries, promotions, reschedules and recoverings a ready job
      is scored with its original priority. */
  lemma ReadyAtOriginalPriority(s: Store, es: seq<Event>, x: Id, q: QName)
    requires Placed(s) && FencedRun(s, es) && NotEnqueuedAgain(es, x)
    requires x in Q(Run(s, es), q).ready
    ensures H(s, x).core.Some? && Q(Run(s, es), q).ready[x] == H(s, x).core.value.priority
  {
    CoreIsKept(s, es, x);
    RunPlaced(s, es);
    assert PlacedId(Run(s, es), x) && PlaceOk(H(Run(s, es), x), Q(Run(s, es), q), q, x);
  }

  /** Main result: whenever a job is handed out, after any fenced run since its enqueue, it is
      handed out of its own queue and with the kind, payload, workflow and all the rest that it
      was enqueued with. */
  lemma DequeuedAsEnqueued(s: Store, id: Id, core: Core, at: int, ttl: int, es: seq<Event>, q: QName, now: int)
    requires Placed(s) && id !in s.jobs && !Duplicate(s, core.uniqueKey, ttl)
    requires FencedRun(Enqueue(s, id, core, at, ttl), es) && NotEnqueuedAgain(es, id)
    requires Head(Run(Enqueue(s, id, core, at, ttl), es), q) == Some(id)
    ensures var u := Run(Enqueue(s, id, core, at, ttl), es);
            H(Dequeue(u, q, now), id).core == Some(core) && q == core.queue
  {
    var t := Enqueue(s, id, core, at, ttl);
    EnqueuePlaced(s, id, core, at, ttl);
    Effects.EnqueueStores(s, id, core, at, ttl);
    CoreIsKept(t, es, id);
    RunPlaced(t, es);
    StateByPlace(Run(t, es), q, id);
  }

  /** The ids handed out by one dequeue after another, call i at time nows[i]. */
  function Drained(s: Store, q: QName, nows: seq<int>): seq<Id>
    decreases |nows|
  {
    if nows == [] then []
    else match Head(s, q)
      case None => []
      case Some(id) => [id] + Drained(Dequeue(s, q, nows[0]), q, nows[1..])
  }

  /** The first n members of a sorted set, popped one by one. */
  function Pops(z: ZSet, n: nat): seq<Id> {
    if n == 0 || z == map[] then [] else [First(z)] + Pops(z - {First(z)}, n - 1)
  }

  /** What n pops leave. */
  function Rest(z: ZSet, n: nat): ZSet {
    if n == 0 || z == map[] then z else Rest(z - {First(z)}, n - 1)
  }

  /** One more pop takes the first of what is left. */
  lemma {:induction false} PopsSnoc(z: ZSet, n: nat)
    ensures var left := Rest(z, n);
            if left == map[] then Pops(z, n + 1) == Pops(z, n) && Rest(z, n + 1) == left
            else Pops(z, n + 1) == Pops(z, n) + [First(left)] && Rest(z, n + 1) == left - {First(left)}
  {
    if n > 0 && z != map[] {
      PopsSnoc(z - {First(z)}, n - 1);
    }
  }

  lemma {:induction false} DrainedPops(s: Store, q: QName, nows: seq<int>)
    requires !Q(s, q).paused
    ensures Drained(s, q, nows) == Pops(Q(s, q).ready, |nows|)
    decreases |nows|
  {
    if nows != [] && Q(s, q).ready != map[] {
      DrainedPops(Dequeue(s, q, nows[0]), q, nows[1..]);
    }
  }

  lemma {:induction false} PopsSorted(z: ZSet, n: nat)
    ensures InOrder(z, Pops(z, n)) && Distinct(Pops(z, n))
    ensures |Pops(z, n)| == if n <= |z| then n else |z|
    decreases n
  {
    if n > 0 && z != map[] {
      var m := First(z);
      assert (z - {m}).Keys == z.Keys - {m};
      PopsSorted(z - {m}, n - 1);
      var rest := Pops(z - {m}, n - 1);
      InOrderCons(z, m, rest);
      assert m !in rest;
    }
  }

  /** Main result: draining an unpaused queue yields its ready set, once each, in order;
      with fewer calls than jobs it yields that many of them. */
  lemma DrainSorts(s: Store, q: QName, nows: seq<int>)
    requires !Q(s, q).paused
    ensures var z := Q(s, q).ready;
            var ids := Drained(s, q, nows);
            && InOrder(z, ids) && Distinct(ids)
            && |ids| == (if |nows| <= |z| then |nows| else |z|)
            && (|nows| >= |z| ==> Members(ids) == z.Keys)
  {
    var z := Q(s, q).ready;
    DrainedPops(s, q, nows);
    PopsSorted(z, |nows|);
    if |nows| >= |z| {
      DistinctCardinality(Pops(z, |nows|));
      SubsetSameSize(Members(Pops(z, |nows|)), z.Keys);
    }
  }
}
