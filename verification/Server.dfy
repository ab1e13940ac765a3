/** The server: what processJob does with one job, and the two polling loops. */
module Server {
  import opened Wrappers
  import opened ZSets
  import opened Scripts
  import opened Runs
  import opened RedisQueue
  import Attempts
  import Backoff
  import Draining
  import Heartbeat

  const MILLI_NS := 1_000_000
  const MIN_LIMIT_DELAY_NS := 50 * MILLI_NS

  /** What a handler returns. */
  datatype Outcome =
    | Succeeds
    | Reschedules(delayNs: int)
    | Cancels(reason: string)
    | SkipsRetry(msg: string)
    | Fails(msg: string)

  /** What the rate limiter says; an error lets the job through. */
  datatype Gate = Unlimited | LimiterError | Allowed | Limited(retryInNs: int)

  datatype Notice = NoNotice | JobCompleted(workflowId: string) | JobFailed(workflowId: string)

  function Workflow(rec: Hash): string {
    if rec.core.Some? then rec.core.value.workflowId else ""
  }

  function LimitDelay(retryInNs: int): int {
    if retryInNs < MIN_LIMIT_DELAY_NS then MIN_LIMIT_DELAY_NS else retryInNs
  }

  /** Whether the handler runs, which is when the job is put in the in-flight map. */
  predicate HandlerRuns(known: bool, gate: Gate) {
    known && !gate.Limited?
  }

  /** The call a handler's outcome leads to. */
  function OutcomeCall(id: Id, rec: Hash, outcome: Outcome, nowNs: int): Event {
    var q, now := Heartbeat.QueueOf(rec), nowNs / MILLI_NS;
    match outcome
    case Succeeds => AckCall(q, id, now)
    case Reschedules(d) => RescheduleCall(q, id, (nowNs + d) / MILLI_NS)
    case Cancels(reason) => CancelCall(q, id, now, reason)
    case SkipsRetry(msg) => NackCall(q, id, msg, 0, now, true)
    case Fails(msg) => NackCall(q, id, msg, Backoff.BackoffMs(rec.attempt, false), now, false)
  }

  /** The one finishing call a job gets. */
  function FinishingCall(id: Id, rec: Hash, known: bool, gate: Gate, outcome: Outcome, nowNs: int): Event {
    var q, now := Heartbeat.QueueOf(rec), nowNs / MILLI_NS;
    if !known then NackCall(q, id, "no handler registered", 0, now, true)
    else if gate.Limited? then RescheduleCall(q, id, (nowNs + LimitDelay(gate.retryInNs)) / MILLI_NS)
    else OutcomeCall(id, rec, outcome, nowNs)
  }

  /** What a workflow hears of a handled job: that it completed, or that it died. */
  function NoticeOf(s: Store, id: Id, rec: Hash, outcome: Outcome): Notice {
    if rec.core.None? || rec.core.value.workflowId == "" then NoNotice
    else
      var w := rec.core.value.workflowId;
      match outcome
      case Succeeds => JobCompleted(w)
      case SkipsRetry(_) => JobFailed(w)
      case Fails(_) => if LastTry(H(s, id)) then JobFailed(w) else NoNotice
      case Reschedules(_) => NoNotice
      case Cancels(_) => NoNotice
  }

  /** A notice means the job ended for good in the way it says. */
  lemma NoticeMeansEnd(s: Store, id: Id, rec: Hash, outcome: Outcome, nowNs: int)
    ensures NoticeOf(s, id, rec, outcome) != NoNotice ==>
              && rec.core.Some? && rec.core.value.workflowId != ""
              && Attempts.Ends(s, OutcomeCall(id, rec, outcome, nowNs), id)
    ensures rec.core.Some? && rec.core.value.workflowId != "" && Attempts.Ends(s, OutcomeCall(id, rec, outcome, nowNs), id) ==>
              NoticeOf(s, id, rec, outcome) == (if outcome.Succeeds? then JobCompleted(rec.core.value.workflowId)
                                                else JobFailed(rec.core.value.workflowId))
  {}

  /** A nack that does not skip buries a job whose attempts, this one counted, reach its limit. */
  predicate LastTry(h: Hash) {
    h.core.Some? && h.attempt + 1 >= h.core.value.maxRetries
  }

  /** The job's hash and its queue's data, h and d before, g and e after, for each outcome of
      its handler. */
  ghost predicate Concluded(h: Hash, d: QueueData, g: Hash, e: QueueData, id: Id, rec: Hash, outcome: Outcome, nowNs: int) {
    var now := nowNs / 1_000_000;
    match outcome
    case Succeeds =>
      && g == h.(state := Completed, completedAt := now)
      && e.delayed == d.delayed && e.dead == d.dead
      && Stat(e.stats, CompletedCount) == Stat(d.stats, CompletedCount) + 1
    case Reschedules(delay) =>
      && g == h.(state := Pending, scheduledAt := (nowNs + delay) / 1_000_000, startedAt := 0)
      && e.delayed == d.delayed[id := (nowNs + delay) / 1_000_000] && e.dead == d.dead
    case Cancels(reason) =>
      && g == h.(state := Cancelled, completedAt := now, lastError := reason)
      && e.delayed == d.delayed && e.dead == d.dead
    case SkipsRetry(msg) =>
      && g == h.(state := Dead, attempt := h.attempt + 1, lastError := msg)
      && e.delayed == d.delayed && e.dead == [id] + d.dead
    case Fails(msg) =>
      var tried := h.(attempt := h.attempt + 1, lastError := msg);
      if LastTry(h) then g == tried.(state := Dead) && e.delayed == d.delayed && e.dead == [id] + d.dead
      else if h.core.None? then g == tried && e.delayed == d.delayed && e.dead == d.dead
      else
        && g == tried.(state := Retry)
        && e.delayed == d.delayed[id := now + Backoff.BackoffMs(rec.attempt, false)] && e.dead == d.dead
  }

  /** The store after processJob, from store s before: for every kind of job, every answer of
      the rate limiter and every outcome. */
  ghost predicate Processed(s: Store, t: Store, id: Id, rec: Hash, known: bool, gate: Gate, outcome: Outcome, nowNs: int) {
    var q := if rec.core.Some? then rec.core.value.queue else "";
    var h, d, g, e := H(s, id), Q(s, q), H(t, id), Q(t, q);
    && id !in e.active && id !in e.lease && e.ready == d.ready
    && if !known then
         Concluded(h, d, g, e, id, rec, SkipsRetry("no handler registered"), nowNs)
       else if gate.Limited? then
         Concluded(h, d, g, e, id, rec, Reschedules(if gate.retryInNs < 50_000_000 then 50_000_000 else gate.retryInNs), nowNs)
       else
         Concluded(h, d, g, e, id, rec, outcome, nowNs)
  }

  lemma OutcomeMeans(s: Store, id: Id, rec: Hash, outcome: Outcome, nowNs: int)
    ensures var q, t := Heartbeat.QueueOf(rec), Apply(s, OutcomeCall(id, rec, outcome, nowNs));
            var d, e := Q(s, q), Q(t, q);
            && id !in e.active && id !in e.lease && e.ready == d.ready
            && Concluded(H(s, id), d, H(t, id), e, id, rec, outcome, nowNs)
  {
    match outcome
    case Fails(msg) => NackMeans(s, id, rec, msg, Backoff.BackoffMs(rec.attempt, false), nowNs / 1_000_000, false);
    case SkipsRetry(msg) => NackMeans(s, id, rec, msg, 0, nowNs / 1_000_000, true);
    case Succeeds =>
    case Reschedules(_) =>
    case Cancels(_) =>
  }

  lemma NackMeans(s: Store, id: Id, rec: Hash, msg: string, backoff: int, now: int, skip: bool)
    ensures var q := Heartbeat.QueueOf(rec);
            var t := Nack(s, q, id, msg, backoff, now, skip);
            var h, d, g, e := H(s, id), Q(s, q), H(t, id), Q(t, q);
            var tried := h.(attempt := h.attempt + 1, lastError := msg);
            && id !in e.active && id !in e.lease && e.ready == d.ready
            && if skip || LastTry(h) then
                 g == tried.(state := Dead) && e.delayed == d.delayed && e.dead == [id] + d.dead
               else if h.core.None? then g == tried && e.delayed == d.delayed && e.dead == d.dead
               else g == tried.(state := Retry) && e.delayed == d.delayed[id := now + backoff] && e.dead == d.dead
  {}

  /** Main result: what becomes of the job on every path through processJob. */
  lemma FinishingCallMeans(s: Store, id: Id, rec: Hash, known: bool, gate: Gate, outcome: Outcome, nowNs: int)
    ensures Processed(s, Apply(s, FinishingCall(id, rec, known, gate, outcome, nowNs)), id, rec, known, gate, outcome, nowNs)
  {
    if !known {
      NackMeans(s, id, rec, "no handler registered", 0, nowNs / 1_000_000, true);
    } else if gate.Limited? {
      OutcomeMeans(s, id, rec, Reschedules(LimitDelay(gate.retryInNs)), nowNs);
    } else {
      OutcomeMeans(s, id, rec, outcome, nowNs);
    }
  }

  /** Main result: while heartbeats are kept, whichever path processJob takes, the one call
      it makes finishes a job that is still active on the queue named, and a run that goes on
      with that call is one the guarantee covers. */
  lemma FinishingCallIsFenced(b: Heartbeat.Bounds, acts: seq<Heartbeat.Act>, tid: nat, rec: Hash,
                              known: bool, gate: Gate, outcome: Outcome, nowNs: int)
    requires Heartbeat.Tight(b) && Heartbeat.AllowedRun(b, Heartbeat.START, acts)
    requires var w := Heartbeat.After(Heartbeat.START, acts);
             tid in w.threads && Heartbeat.Holding(w.threads[tid]) && w.threads[tid].q == Heartbeat.QueueOf(rec)
    ensures var w := Heartbeat.After(Heartbeat.START, acts);
            var call := FinishingCall(w.threads[tid].id, rec, known, gate, outcome, nowNs);
            && Finishing(call) && Fenced(w.s, call)
            && Heartbeat.AllowedRun(b, Heartbeat.START, acts + [Heartbeat.Finish(tid, call)])
  {
    var w := Heartbeat.After(Heartbeat.START, acts);
    var call := FinishingCall(w.threads[tid].id, rec, known, gate, outcome, nowNs);
    Heartbeat.HeldJobsAreSafe(b, acts, tid, w.clock, 0);
    assert (acts + [Heartbeat.Finish(tid, call)])[..|acts|] == acts;
  }

  datatype QueueWeight = QueueWeight(name: QName, weight: int)

  /** Weights below one count as one. */
  function Normal(qw: QueueWeight): QueueWeight {
    if qw.weight < 1 then qw.(weight := 1) else qw
  }

  function TotalWeight(qws: seq<QueueWeight>, name: QName): int {
    if qws == [] then 0
    else
      var qw := qws[|qws| - 1];
      TotalWeight(qws[..|qws| - 1], name) + if qw.name == name then qw.weight else 0
  }

  predicate Descending(qws: seq<QueueWeight>) {
    forall i, j | 0 <= i < j < |qws| :: qws[i].weight >= qws[j].weight
  }

  function NamesOf(qws: seq<QueueWeight>): seq<QName> {
    seq(|qws|, i requires 0 <= i < |qws| => qws[i].name)
  }

  lemma InsertKeepsAll(sorted: seq<QueueWeight>, k: nat, qw: QueueWeight)
    requires k <= |sorted|
    ensures multiset(sorted[..k] + [qw] + sorted[k..]) == multiset(sorted) + multiset{qw}
  {
    assert sorted == sorted[..k] + sorted[k..];
  }

  lemma InsertDescending(sorted: seq<QueueWeight>, k: nat, qw: QueueWeight)
    requires Descending(sorted) && k <= |sorted|
    requires k > 0 ==> sorted[k - 1].weight >= qw.weight
    requires forall j | k <= j < |sorted| :: sorted[j].weight < qw.weight
    ensures Descending(sorted[..k] + [qw] + sorted[k..])
  {
    var r := sorted[..k] + [qw] + sorted[k..];
    forall i, j | 0 <= i < j < |r| ensures r[i].weight >= r[j].weight {
      if j < k {
        assert r[i] == sorted[i] && r[j] == sorted[j];
      } else if j == k {
        assert r[i] == sorted[i] && sorted[i].weight >= sorted[k - 1].weight;
      } else if i < k {
        assert r[i] == sorted[i] && r[j] == sorted[j - 1];
      } else if i > k {
        assert r[i] == sorted[i - 1] && r[j] == sorted[j - 1];
      }
    }
  }

  // ---- what a pass does ----

  function PassCalls(names: seq<QName>, nows: seq<int>): seq<Event>
    requires |names| == |nows|
  {
    seq(|names|, i requires 0 <= i < |names| => DequeueCall(names[i], nows[i]))
  }

  /** The jobs a weighted pass hands out, with the queue each came from. */
  function Handed(s: Store, names: seq<QName>, nows: seq<int>): seq<(QName, Id)>
    requires |names| == |nows|
  {
    if names == [] then []
    else
      var n := |names| - 1;
      Handed(s, names[..n], nows[..n])
      + match Head(Run(s, PassCalls(names[..n], nows[..n])), names[n])
        case None => []
        case Some(id) => [(names[n], id)]
  }

  function HandedFrom(handed: seq<(QName, Id)>, q: QName): nat {
    if handed == [] then 0
    else HandedFrom(handed[..|handed| - 1], q) + if handed[|handed| - 1].0 == q then 1 else 0
  }

  lemma PassSnoc(s: Store, names: seq<QName>, nows: seq<int>)
    requires |names| == |nows| > 0
    ensures var n := |names| - 1;
            Run(s, PassCalls(names, nows)) == Dequeue(Run(s, PassCalls(names[..n], nows[..n])), names[n], nows[n])
  {
    var n := |names| - 1;
    assert PassCalls(names, nows)[..n] == PassCalls(names[..n], nows[..n]);
  }

  /** One more dequeue at the end of a pass. */
  lemma PassStep(s: Store, names: seq<QName>, nows: seq<int>, q: QName, now: int)
    requires |names| == |nows|
    ensures var u := Run(s, PassCalls(names, nows));
            && Run(s, PassCalls(names + [q], nows + [now])) == Dequeue(u, q, now)
            && Handed(s, names + [q], nows + [now])
               == Handed(s, names, nows) + match Head(u, q) case None => [] case Some(id) => [(q, id)]
  {
    var n := |names|;
    assert (names + [q])[..n] == names && (nows + [now])[..n] == nows;
    PassSnoc(s, names + [q], nows + [now]);
  }

  /** The entries of a list whose dequeue does not fail. */
  function Answered<T>(xs: seq<T>, fails: seq<bool>): (r: seq<T>)
    requires |xs| == |fails|
    ensures (forall i | 0 <= i < |fails| :: !fails[i]) ==> r == xs
  {
    if xs == [] then []
    else
      var n := |xs| - 1;
      assert xs == xs[..n] + [xs[n]] && forall i | 0 <= i < n :: fails[..n][i] == fails[i];
      Answered(xs[..n], fails[..n]) + if fails[n] then [] else [xs[n]]
  }

  function Turn<T>(xs: seq<T>, x: T, fails: bool): (r: seq<T>)
    ensures |r| == |xs| + if fails then 0 else 1
  {
    if fails then xs else xs + [x]
  }

  /** What one more entry of the list, asked or not, adds to a pass. */
  lemma TurnStep(s: Store, names: seq<QName>, nows: seq<int>, q: QName, now: int, fails: bool)
    requires |names| == |nows|
    ensures var u, names1, nows1 := Run(s, PassCalls(names, nows)), Turn(names, q, fails), Turn(nows, now, fails);
            && Run(s, PassCalls(names1, nows1)) == (if fails then u else Dequeue(u, q, now))
            && Handed(s, names1, nows1) == Handed(s, names, nows)
                 + if fails || Head(u, q).None? then [] else [(q, Head(u, q).value)]
  {
    if !fails { PassStep(s, names, nows, q, now); }
  }

  lemma AnsweredSnoc<T>(xs: seq<T>, fails: seq<bool>, i: nat)
    requires i < |xs| == |fails|
    ensures Answered(xs[..i + 1], fails[..i + 1])
            == Turn(Answered(xs[..i], fails[..i]), xs[i], fails[i])
  {
    assert xs[..i + 1][..i] == xs[..i] && fails[..i + 1][..i] == fails[..i];
  }

  lemma SameLength<S, T>(xs: seq<S>, ys: seq<T>, fails: seq<bool>)
    requires |xs| == |ys| == |fails|
    ensures |Answered(xs, fails)| == |Answered(ys, fails)|
  {
    if xs != [] { SameLength(xs[..|xs| - 1], ys[..|ys| - 1], fails[..|xs| - 1]); }
  }

  lemma HandedFromSnoc(handed: seq<(QName, Id)>, more: (QName, Id), q: QName)
    ensures HandedFrom(handed + [more], q) == HandedFrom(handed, q) + if more.0 == q then 1 else 0
  {
    assert (handed + [more])[..|handed|] == handed;
  }

  lemma DequeueShrinks(s: Store, p: QName, now: int, q: QName)
    ensures Q(Dequeue(s, p, now), q).paused == Q(s, q).paused
    ensures |Q(Dequeue(s, p, now), q).ready|
            == |Q(s, q).ready| - if p == q && Head(s, p).Some? then 1 else 0
  {
    if Head(s, p).Some? {
      var z, m := Q(s, p).ready, Head(s, p).value;
      assert (z - {m}).Keys == z.Keys - {m};
    }
  }

  /** Main result: a pass takes from each unpaused queue as many jobs as it has slots in the
      list, or all its ready jobs if they are fewer. */
  lemma {:induction false} PassTakes(s: Store, names: seq<QName>, nows: seq<int>, q: QName)
    requires |names| == |nows| && !Q(s, q).paused
    ensures HandedFrom(Handed(s, names, nows), q) == Backoff.Min(multiset(names)[q], |Q(s, q).ready|)
    ensures var t := Run(s, PassCalls(names, nows));
            !Q(t, q).paused && |Q(t, q).ready| == |Q(s, q).ready| - HandedFrom(Handed(s, names, nows), q)
  {
    if names != [] {
      var n := |names| - 1;
      PassTakes(s, names[..n], nows[..n], q);
      PassSnoc(s, names, nows);
      var u := Run(s, PassCalls(names[..n], nows[..n]));
      DequeueShrinks(u, names[n], nows[n], q);
      HandedSnoc(s, names, nows, q);
      CountSnoc(names, q);
    }
  }

  lemma CountSnoc(names: seq<QName>, q: QName)
    requires names != []
    ensures var n := |names| - 1;
            multiset(names)[q] == multiset(names[..n])[q] + if names[n] == q then 1 else 0
  {
    assert names == names[..|names| - 1] + [names[|names| - 1]];
  }

  lemma HandedSnoc(s: Store, names: seq<QName>, nows: seq<int>, q: QName)
    requires |names| == |nows| > 0
    ensures var n := |names| - 1;
            var u := Run(s, PassCalls(names[..n], nows[..n]));
            HandedFrom(Handed(s, names, nows), q)
            == HandedFrom(Handed(s, names[..n], nows[..n]), q) + if names[n] == q && Head(u, names[n]).Some? then 1 else 0
  {
    var n := |names| - 1;
    match Head(Run(s, PassCalls(names[..n], nows[..n])), names[n])
    case None => assert Handed(s, names, nows) == Handed(s, names[..n], nows[..n]);
    case Some(id) => HandedFromSnoc(Handed(s, names[..n], nows[..n]), (names[n], id), q);
  }

  /** The jobs handed out of queue q, in order. */
  function HandedOf(handed: seq<(QName, Id)>, q: QName): seq<Id> {
    if handed == [] then []
    else
      var n := |handed| - 1;
      HandedOf(handed[..n], q) + if handed[n].0 == q then [handed[n].1] else []
  }

  lemma HandedOfSnoc(handed: seq<(QName, Id)>, more: (QName, Id), q: QName)
    ensures HandedOf(handed + [more], q) == HandedOf(handed, q) + if more.0 == q then [more.1] else []
  {
    assert (handed + [more])[..|handed|] == handed;
  }

  lemma DequeueTakesFirst(s: Store, p: QName, now: int, q: QName)
    requires !Q(s, q).paused
    ensures var z := Q(s, q).ready;
            Q(Dequeue(s, p, now), q).ready == (if p == q && z != map[] then z - {First(z)} else z)
    ensures p == q ==> Head(s, p) == if Q(s, q).ready == map[] then None else Some(First(Q(s, q).ready))
  {}

  lemma HandedNext(s: Store, names: seq<QName>, nows: seq<int>, q: QName, p: QName, now: int)
    requires |names| == |nows|
    ensures HandedOf(Handed(s, names + [p], nows + [now]), q)
            == HandedOf(Handed(s, names, nows), q)
               + match Head(Run(s, PassCalls(names, nows)), p) case None => [] case Some(id) => if p == q then [id] else []
  {
    PassStep(s, names, nows, p, now);
    match Head(Run(s, PassCalls(names, nows)), p)
    case None => assert Handed(s, names, nows) + [] == Handed(s, names, nows);
    case Some(id) => HandedOfSnoc(Handed(s, names, nows), (p, id), q);
  }

  /** What a pass has handed out of queue q, and left in it. */
  ghost predicate PassedInOrder(s: Store, names: seq<QName>, nows: seq<int>, q: QName, n: nat)
    requires |names| == |nows|
  {
    var t := Run(s, PassCalls(names, nows));
    && HandedOf(Handed(s, names, nows), q) == Draining.Pops(Q(s, q).ready, n)
    && Q(t, q).ready == Draining.Rest(Q(s, q).ready, n) && !Q(t, q).paused
  }

  lemma PassedOneMore(s: Store, names: seq<QName>, nows: seq<int>, q: QName, n: nat, p: QName, now: int)
    requires |names| == |nows| && PassedInOrder(s, names, nows, q, n)
    ensures PassedInOrder(s, names + [p], nows + [now], q, if p == q then n + 1 else n)
  {
    var u := Run(s, PassCalls(names, nows));
    PassStep(s, names, nows, p, now);
    HandedNext(s, names, nows, q, p, now);
    DequeueTakesFirst(u, p, now, q);
    DequeueShrinks(u, p, now, q);
    Draining.PopsSnoc(Q(s, q).ready, n);
  }

  lemma PassedLast(s: Store, names: seq<QName>, nows: seq<int>, q: QName, n: nat)
    requires |names| == |nows| > 0 && PassedInOrder(s, names[..|names| - 1], nows[..|names| - 1], q, n)
    ensures PassedInOrder(s, names, nows, q, if names[|names| - 1] == q then n + 1 else n)
  {
    var k := |names| - 1;
    PassedOneMore(s, names[..k], nows[..k], q, n, names[k], nows[k]);
    assert names[..k] + [names[k]] == names && nows[..k] + [nows[k]] == nows;
  }

  lemma PassedNone(s: Store, q: QName)
    requires !Q(s, q).paused
    ensures PassedInOrder(s, [], [], q, 0)
  {
    assert PassCalls([], []) == [];
  }

  function CountOf(names: seq<QName>, q: QName): nat {
    if names == [] then 0 else CountOf(names[..|names| - 1], q) + if names[|names| - 1] == q then 1 else 0
  }

  lemma {:induction false} CountIsMultiplicity(names: seq<QName>, q: QName)
    ensures CountOf(names, q) == multiset(names)[q]
  {
    if names != [] {
      CountIsMultiplicity(names[..|names| - 1], q);
      CountSnoc(names, q);
    }
  }

  lemma {:induction false} HandedByCount(s: Store, names: seq<QName>, nows: seq<int>, q: QName)
    requires |names| == |nows| && !Q(s, q).paused
    ensures PassedInOrder(s, names, nows, q, CountOf(names, q))
  {
    if names == [] {
      PassedNone(s, q);
      assert names == [] && nows == [];
    } else {
      HandedByCount(s, names[..|names| - 1], nows[..|names| - 1], q);
      PassedLast(s, names, nows, q, CountOf(names[..|names| - 1], q));
    }
  }

  /** Main result: the jobs a pass hands out of a queue are the first of its ready set, in
      order of priority and id. */
  lemma HandedInOrder(s: Store, names: seq<QName>, nows: seq<int>, q: QName)
    requires |names| == |nows| && !Q(s, q).paused
    ensures HandedOf(Handed(s, names, nows), q) == Draining.Pops(Q(s, q).ready, multiset(names)[q])
  {
    HandedByCount(s, names, nows, q);
    CountIsMultiplicity(names, q);
  }

  // ---- strict order ----

  /** Repeated strict passes with no other activity: where each dispatched job came from,
      as a position in the queue order. */
  function StrictRun(s: Store, order: seq<QName>, nows: seq<int>): seq<nat>
    decreases |nows|
  {
    if nows == [] then []
    else match FirstReady(s, order, NoFailures(|order|), 0)
      case None => []
      case Some(k) => [k] + StrictRun(Dequeue(s, order[k], nows[0]), order, nows[1..])
  }

  function NoFailures(n: nat): seq<bool> {
    seq(n, _ => false)
  }

  /** The dequeue of queue j answers with a job. */
  predicate Yields(s: Store, order: seq<QName>, fails: seq<bool>, j: nat)
    requires j < |order| == |fails|
  {
    !fails[j] && Head(s, order[j]).Some?
  }

  /** The first queue at or after position k that yields a job. */
  function FirstReady(s: Store, order: seq<QName>, fails: seq<bool>, k: nat): (r: Option<nat>)
    requires k <= |order| == |fails|
    ensures r.Some? ==> k <= r.value < |order| && Yields(s, order, fails, r.value)
                        && forall j | k <= j < r.value :: !Yields(s, order, fails, j)
    ensures r.None? ==> forall j | k <= j < |order| :: !Yields(s, order, fails, j)
    decreases |order| - k
  {
    if k == |order| then None
    else if Yields(s, order, fails, k) then Some(k)
    else FirstReady(s, order, fails, k + 1)
  }

  lemma HeadStaysEmpty(s: Store, p: QName, now: int, q: QName)
    requires Head(s, q).None?
    ensures Head(Dequeue(s, p, now), q).None?
  {
    DequeueShrinks(s, p, now, q);
    assert Q(s, q).ready == map[] ==> |Q(s, q).ready| == 0;
  }

  /** Positions from low up to below high, never going back. */
  predicate Climbs(r: seq<nat>, low: nat, high: nat) {
    && (forall i | 0 <= i < |r| :: low <= r[i] < high)
    && (forall i, j | 0 <= i < j < |r| :: r[i] <= r[j])
  }

  /** Main result: strict polling drains every queue before it touches a later one. */
  lemma {:induction false} StrictDrainsInOrder(s: Store, order: seq<QName>, nows: seq<int>, k: nat)
    requires k <= |order| && forall j | 0 <= j < k :: Head(s, order[j]).None?
    ensures Climbs(StrictRun(s, order, nows), k, |order|)
    decreases |nows|
  {
    var none := NoFailures(|order|);
    if nows != [] && FirstReady(s, order, none, 0).Some? {
      var m := FirstReady(s, order, none, 0).value;
      var t := Dequeue(s, order[m], nows[0]);
      forall j | 0 <= j < m ensures Head(s, order[j]).None? { assert !Yields(s, order, none, j); }
      assert Yields(s, order, none, m);
      forall j | 0 <= j < m ensures Head(t, order[j]).None? { HeadStaysEmpty(s, order[m], nows[0], order[j]); }
      StrictDrainsInOrder(t, order, nows[1..], m);
      assert k <= m < |order|;
      PrependLeast(k, m, StrictRun(t, order, nows[1..]), |order|);
    }
  }

  lemma PrependLeast(k: nat, m: nat, rest: seq<nat>, n: nat)
    requires k <= m < n && Climbs(rest, m, n)
    ensures Climbs([m] + rest, k, n)
  {
    var r := [m] + rest;
    forall i, j | 0 <= i < j < |r| ensures r[i] <= r[j] {
      assert r[j] == rest[j - 1];
      if i > 0 { assert r[i] == rest[i - 1]; }
    }
  }

  /** Queue q after the leases of these in-flight jobs were extended. */
  ghost predicate Extended(d: QueueData, e: QueueData, q: QName, inflight: map<Id, QName>, nows: map<Id, int>, ids: set<Id>)
    requires ids <= inflight.Keys == nows.Keys
  {
    && e == d.(lease := e.lease) && e.lease.Keys == d.lease.Keys
    && forall x | x in d.lease :: e.lease[x] == if x in ids && inflight[x] == q then nows[x] + 30_000 else d.lease[x]
  }

  lemma ExtendOne(s: Store, t: Store, q: QName, inflight: map<Id, QName>, nows: map<Id, int>, ids: set<Id>, id: Id)
    requires ids <= inflight.Keys == nows.Keys && id in inflight && id !in ids
    requires Extended(Q(s, q), Q(t, q), q, inflight, nows, ids)
    ensures Extended(Q(s, q), Q(ExtendLease(t, inflight[id], id, nows[id] + LEASE_MS), q), q, inflight, nows, ids + {id})
  {}

  class Server {
    const queue: Queue
    const handlers: set<string>
    const queues: seq<QueueWeight>
    const concurrency: nat
    var inflight: map<Id, QName>
    var running: nat

    constructor (queue: Queue, handlers: set<string>, cfg: seq<QueueWeight>, concurrency: int)
      ensures this.queue == queue && this.handlers == handlers && inflight == map[] && running == 0
      ensures this.concurrency == (if concurrency <= 0 then 10 else concurrency) && this.concurrency > 0
      ensures if cfg == [] then this.queues == [QueueWeight("default", 1)]
              else
                && |this.queues| == |cfg|
                && forall i | 0 <= i < |cfg| ::
                     this.queues[i] == QueueWeight(cfg[i].name, if cfg[i].weight < 1 then 1 else cfg[i].weight)
    {
      this.queue := queue;
      this.handlers := handlers;
      this.concurrency := if concurrency <= 0 then 10 else concurrency;
      this.queues := if cfg == [] then [QueueWeight("default", 1)]
                     else seq(|cfg|, i requires 0 <= i < |cfg| => Normal(cfg[i]));
      this.inflight := map[];
      this.running := 0;
    }

    /** One job from dequeue to deferred deletion. The gate is consulted only for a known
        kind, the outcome only when the handler runs. */
    method ProcessJob(id: Id, rec: Hash, gate: Gate, outcome: Outcome, nowNs: int) returns (notice: Notice)
      modifies this`inflight, queue
      ensures var known := rec.core.Some? && rec.core.value.kind in handlers;
              var call := FinishingCall(id, rec, known, gate, outcome, nowNs);
              && queue.View() == Apply(old(queue.View()), call)
              && (HandlerRuns(known, gate) ==> inflight == old(inflight) - {id})
              && (!HandlerRuns(known, gate) ==> inflight == old(inflight))
              && Processed(old(queue.View()), queue.View(), id, rec, known, gate, outcome, nowNs)
              && notice == if known && !gate.Limited? then NoticeOf(old(queue.View()), id, rec, outcome) else NoNotice
    {
      FinishingCallMeans(queue.View(), id, rec, rec.core.Some? && rec.core.value.kind in handlers, gate, outcome, nowNs);
      notice := NoNotice;
      if rec.core.None? || rec.core.value.kind !in handlers {
        Bury(id, rec, gate, outcome, nowNs);
      } else if gate.Limited? {
        PutOff(id, rec, gate, outcome, nowNs);
      } else {
        inflight := inflight[id := Heartbeat.QueueOf(rec)];
        notice := Conclude(id, rec, outcome, nowNs);
        inflight := inflight - {id};
      }
    }

    /** A job of a kind nobody handles goes straight to the dead list. */
    method Bury(id: Id, rec: Hash, ghost gate: Gate, ghost outcome: Outcome, nowNs: int)
      modifies queue
      ensures queue.View() == Apply(old(queue.View()), FinishingCall(id, rec, false, gate, outcome, nowNs))
    {
      var _ := queue.Nack(Heartbeat.QueueOf(rec), id, "no handler registered", 0, nowNs / MILLI_NS, true);
    }

    /** A job over its rate limit is rescheduled for when a token is due, 50ms at least. */
    method PutOff(id: Id, rec: Hash, gate: Gate, ghost outcome: Outcome, nowNs: int)
      requires gate.Limited?
      modifies queue
      ensures queue.View() == Apply(old(queue.View()), FinishingCall(id, rec, true, gate, outcome, nowNs))
    {
      var delay := gate.retryInNs;
      if delay < MIN_LIMIT_DELAY_NS {
        delay := MIN_LIMIT_DELAY_NS;
      }
      queue.RescheduleJob(Heartbeat.QueueOf(rec), id, (nowNs + delay) / MILLI_NS);
    }

    /** Turn the handler's outcome into the job's finishing call. */
    method Conclude(id: Id, rec: Hash, outcome: Outcome, nowNs: int) returns (notice: Notice)
      modifies queue
      ensures queue.View() == Apply(old(queue.View()), OutcomeCall(id, rec, outcome, nowNs))
      ensures notice == NoticeOf(old(queue.View()), id, rec, outcome)
    {
      notice := NoNotice;
      var q := Heartbeat.QueueOf(rec);
      var now := nowNs / MILLI_NS;
      if outcome.Succeeds? {
        queue.Ack(q, id, now);
        if Workflow(rec) != "" {
          notice := JobCompleted(Workflow(rec));
        }
        return;
      }
      if outcome.Reschedules? {
        queue.RescheduleJob(q, id, (nowNs + outcome.delayNs) / MILLI_NS);
        return;
      }
      if outcome.Cancels? {
        queue.CancelJob(q, id, now, outcome.reason);
        return;
      }
      var skip := outcome.SkipsRetry?;
      var backoff := 0;
      if !skip {
        backoff := Backoff.TruncDiv(Backoff.Next(Backoff.SECOND, rec.attempt), Backoff.MILLISECOND);
      }
      var result := queue.Nack(q, id, outcome.msg, backoff, now, skip);
      if result == ToDead && Workflow(rec) != "" {
        notice := JobFailed(Workflow(rec));
      }
    }

    method BuildWeightedQueues() returns (names: seq<QName>)
      requires forall i | 0 <= i < |queues| :: queues[i].weight >= 1
      ensures forall q :: multiset(names)[q] == TotalWeight(queues, q)
    {
      names := [];
      for i := 0 to |queues|
        invariant forall q :: multiset(names)[q] == TotalWeight(queues[..i], q)
      {
        assert queues[..i + 1][..i] == queues[..i];
        ghost var before := names;
        for j := 0 to queues[i].weight
          invariant forall q :: multiset(names)[q] == multiset(before)[q] + if q == queues[i].name then j else 0
        {
          names := names + [queues[i].name];
        }
      }
      assert queues[..|queues|] == queues;
    }

    method BuildStrictQueues() returns (names: seq<QName>)
      ensures exists sorted: seq<QueueWeight> ::
                multiset(sorted) == multiset(queues) && Descending(sorted) && names == NamesOf(sorted)
    {
      var sorted: seq<QueueWeight> := [];
      for i := 0 to |queues|
        invariant multiset(sorted) == multiset(queues[..i]) && Descending(sorted)
      {
        var qw := queues[i];
        var k := |sorted|;
        while k > 0 && sorted[k - 1].weight < qw.weight
          invariant 0 <= k <= |sorted|
          invariant forall j | k <= j < |sorted| :: sorted[j].weight < qw.weight
        {
          k := k - 1;
        }
        assert queues[..i + 1] == queues[..i] + [qw];
        InsertDescending(sorted, k, qw);
        InsertKeepsAll(sorted, k, qw);
        sorted := sorted[..k] + [qw] + sorted[k..];
      }
      assert queues[..|queues|] == queues;
      names := NamesOf(sorted);
    }

    /** One pass over the weighted list; the dequeue of entry i may fail. Before each dequeue a
        slot is taken, waiting until enough handlers have finished; nothing else touches the
        queues meanwhile. */
    method PollWeightedPass(names: seq<QName>, nows: seq<int>, fails: seq<bool>) returns (handed: seq<(QName, Id)>)
      requires |names| == |nows| == |fails| && 0 < concurrency && running <= concurrency
      modifies this`running, queue
      ensures running <= concurrency && |Answered(names, fails)| == |Answered(nows, fails)|
      ensures handed == Handed(old(queue.View()), Answered(names, fails), Answered(nows, fails))
      ensures queue.View() == Run(old(queue.View()), PassCalls(Answered(names, fails), Answered(nows, fails)))
    {
      ghost var s := queue.View();
      ghost var asked, times := [], [];
      handed := [];
      for i := 0 to |names|
        invariant running <= concurrency && |asked| == |times|
        invariant asked == Answered(names[..i], fails[..i]) && times == Answered(nows[..i], fails[..i])
        invariant handed == Handed(s, asked, times)
        invariant queue.View() == Run(s, PassCalls(asked, times))
      {
        TurnStep(s, asked, times, names[i], nows[i], fails[i]);
        AnsweredSnoc(names, fails, i);
        AnsweredSnoc(nows, fails, i);
        var rec := PollOne(names[i], nows[i], fails[i]);
        if rec.Some? {
          handed := handed + [(names[i], rec.value)];
        }
        asked, times := Turn(asked, names[i], fails[i]), Turn(times, nows[i], fails[i]);
      }
      assert names[..|names|] == names && nows[..|nows|] == nows && fails[..|fails|] == fails;
    }

    /** One tick of the heartbeat: the lease of every in-flight job, if it still has one, is
        moved to 30 seconds after the reading of the clock made for it. */
    method ExtendInflight(nows: map<Id, int>)
      requires nows.Keys == inflight.Keys
      modifies queue
      ensures queue.View().jobs == old(queue.View()).jobs && queue.View().unique == old(queue.View()).unique
      ensures forall q :: Extended(Q(old(queue.View()), q), Q(queue.View(), q), q, inflight, nows, inflight.Keys)
    {
      ghost var s := queue.View();
      var rest := inflight.Keys;
      while rest != {}
        invariant rest <= inflight.Keys
        invariant queue.View().jobs == s.jobs && queue.View().unique == s.unique
        invariant forall q :: Extended(Q(s, q), Q(queue.View(), q), q, inflight, nows, inflight.Keys - rest)
        decreases |rest|
      {
        var id :| id in rest;
        ghost var before := queue.View();
        queue.ExtendLease(inflight[id], id, nows[id] + LEASE_MS);
        forall q ensures Extended(Q(s, q), Q(queue.View(), q), q, inflight, nows, inflight.Keys - (rest - {id})) {
          ExtendOne(s, before, q, inflight, nows, inflight.Keys - rest, id);
        }
        rest := rest - {id};
      }
    }

    /** Take a slot, dequeue, and give the slot back when there was an error or no job. */
    method PollOne(q: QName, now: int, fails: bool) returns (id: Option<Id>)
      requires 0 < concurrency && running <= concurrency
      modifies this`running, queue
      ensures running <= concurrency
      ensures id == if fails then None else Head(old(queue.View()), q)
      ensures queue.View() == if fails then old(queue.View()) else Dequeue(old(queue.View()), q, now)
    {
      Acquire();
      if fails {
        running := running - 1;
        return None;
      }
      var rec := queue.Dequeue(q, now);
      if rec == None {
        running := running - 1;
        return None;
      }
      id := Some(rec.value.0);
    }

    /** sem <- struct{}{}: any number of handlers finish first, at least enough for a slot. */
    method Acquire()
      requires 0 < concurrency && running <= concurrency
      modifies this`running
      ensures 0 < running <= concurrency
    {
      assert 0 <= running - running < concurrency;
      var finished: nat :| finished <= running && running - finished < concurrency;
      running := running - finished + 1;
    }

    /** One strict pass: it stops at the first queue that yields a job. */
    method PollStrictPass(order: seq<QName>, now: int, fails: seq<bool>) returns (from: Option<nat>)
      requires |order| == |fails| && 0 < concurrency && running <= concurrency
      modifies this`running, queue
      ensures running <= concurrency
      ensures from == FirstReady(old(queue.View()), order, fails, 0)
      ensures queue.View() == if from.None? then old(queue.View()) else Dequeue(old(queue.View()), order[from.value], now)
    {
      from := None;
      var i := 0;
      ghost var s := queue.View();
      while i < |order| && from == None
        invariant 0 <= i <= |order| && running <= concurrency
        invariant from == None ==> queue.View() == s && forall j | 0 <= j < i :: !Yields(s, order, fails, j)
        invariant from != None ==>
                    && from.value < |order| && Yields(s, order, fails, from.value)
                    && (forall j | 0 <= j < from.value :: !Yields(s, order, fails, j))
                    && queue.View() == Dequeue(s, order[from.value], now)
        decreases |order| - i
      {
        var rec := PollOne(order[i], now, fails[i]);
        if rec.Some? {
          from := Some(i);
        }
        i := i + 1;
      }
    }
  }

  /** Main result: a strict pass dispatches from a queue only when every heavier queue has
      nothing to give or could not be asked, however ties are ordered. */
  lemma StrictPassByWeight(queues: seq<QueueWeight>, sorted: seq<QueueWeight>, s: Store, fails: seq<bool>)
    requires multiset(sorted) == multiset(queues) && Descending(sorted) && |fails| == |sorted|
    requires FirstReady(s, NamesOf(sorted), fails, 0).Some?
    ensures var k := FirstReady(s, NamesOf(sorted), fails, 0).value;
            forall qw | qw in queues && qw.weight > sorted[k].weight ::
              exists j :: 0 <= j < |sorted| && sorted[j] == qw && (fails[j] || Head(s, qw.name).None?)
  {
    var k := FirstReady(s, NamesOf(sorted), fails, 0).value;
    forall qw | qw in queues && qw.weight > sorted[k].weight
      ensures exists j :: 0 <= j < |sorted| && sorted[j] == qw && (fails[j] || Head(s, qw.name).None?)
    {
      assert multiset(queues)[qw] > 0;
      assert qw in sorted;
      var j :| 0 <= j < |sorted| && sorted[j] == qw;
      assert j < k && !Yields(s, NamesOf(sorted), fails, j);
      assert NamesOf(sorted)[j] == qw.name;
    }
  }

  /** Main result: with the list buildWeightedQueues makes, one pass dispatches exactly
      min(total weight, ready jobs) from every unpaused queue. */
  lemma WeightedPassByWeight(queues: seq<QueueWeight>, names: seq<QName>, nows: seq<int>, s: Store, q: QName)
    requires forall p :: multiset(names)[p] == TotalWeight(queues, p)
    requires |names| == |nows| && !Q(s, q).paused
    ensures HandedFrom(Handed(s, names, nows), q) == Backoff.Min(TotalWeight(queues, q), |Q(s, q).ready|)
  {
    PassTakes(s, names, nows, q);
  }
}
