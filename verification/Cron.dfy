/** Cron across servers: every tick reads, compares-and-swaps and enqueues in separate Redis
    calls, each server by its own clock, however skewed. */
module Cron {

  type Name = string

  /** A schedule gives, for an entry and a time in nanoseconds, the entry's next run: later,
      and on a whole millisecond, as five-field cron times are. */
  type Sched = (Name, int) -> int

  const MILLI := 1_000_000

  ghost predicate IsSchedule(sched: Sched) {
    forall e, t :: sched(e, t) > t && sched(e, t) % MILLI == 0
  }

  datatype Claim = Claim(name: Name, window: int, at: int)

  /** A tick under way: its one reading of the clock, the entries left, and how far it has
      come with the first of them. */
  datatype Phase = Idle | HasRead(value: int) | Swapped(window: int)
  datatype Tick = Tick(now: int, todo: seq<Name>, phase: Phase)

  /** next: the stored next_run of each entry, in milliseconds. claims: the successful swaps.
      enqueued: the jobs enqueued, as (entry, window). */
  datatype World = World(next: map<Name, int>, claims: seq<Claim>, enqueued: seq<(Name, int)>, ticks: map<nat, Tick>)

  datatype Act =
    | Seed(name: Name, now: int)
    | Start(pid: nat, now: int, names: seq<Name>)
    | Read(pid: nat)
    | Swap(pid: nat)
    | Enqueue(pid: nat)
    | Fail(pid: nat)
    | Stop(pid: nat)

  predicate Ready(w: World, a: Act) {
    match a
    case Seed(_, _) => true
    case Start(pid, _, _) => pid !in w.ticks
    case Read(pid) => pid in w.ticks && w.ticks[pid].todo != [] && w.ticks[pid].phase.Idle?
    case Swap(pid) => pid in w.ticks && w.ticks[pid].todo != [] && w.ticks[pid].phase.HasRead?
    case Enqueue(pid) => pid in w.ticks && w.ticks[pid].todo != [] && w.ticks[pid].phase.Swapped?
    case Fail(pid) => pid in w.ticks && w.ticks[pid].todo != []
    case Stop(pid) => pid in w.ticks
  }

  /** On to the next entry of the tick. */
  function Skip(t: Tick): Tick
    requires t.todo != []
  {
    t.(todo := t.todo[1..], phase := Idle)
  }

  function Step(sched: Sched, w: World, a: Act): World
    requires Ready(w, a)
  {
    match a
    case Seed(name, now) => if name in w.next then w else w.(next := w.next[name := sched(name, now) / MILLI])
    case Start(pid, now, names) => w.(ticks := w.ticks[pid := Tick(now, names, Idle)])
    case Read(pid) =>
      var t := w.ticks[pid];
      var name := t.todo[0];
      if name !in w.next || t.now < w.next[name] * MILLI then w.(ticks := w.ticks[pid := Skip(t)])
      else w.(ticks := w.ticks[pid := t.(phase := HasRead(w.next[name]))])
    case Swap(pid) =>
      var t := w.ticks[pid];
      var name, v := t.todo[0], t.phase.value;
      if name in w.next && w.next[name] == v then
        w.(next := w.next[name := sched(name, t.now) / MILLI],
           claims := w.claims + [Claim(name, v, t.now)],
           ticks := w.ticks[pid := t.(phase := Swapped(v))])
      else w.(ticks := w.ticks[pid := Skip(t)])
    case Enqueue(pid) =>
      var t := w.ticks[pid];
      w.(enqueued := w.enqueued + [(t.todo[0], t.phase.window)], ticks := w.ticks[pid := Skip(t)])
    case Fail(pid) => w.(ticks := w.ticks[pid := Skip(w.ticks[pid])])
    case Stop(pid) => w.(ticks := w.ticks - {pid})
  }

  function After(sched: Sched, w: World, acts: seq<Act>): World {
    if acts == [] then w
    else
      var u, a := After(sched, w, acts[..|acts| - 1]), acts[|acts| - 1];
      if Ready(u, a) then Step(sched, u, a) else u
  }

  const START := World(map[], [], [], map[])

  // ---- the stored time only moves forward ----

  ghost predicate Forward(w: World, v: World) {
    forall name | name in w.next :: name in v.next && v.next[name] >= w.next[name]
  }

  /** A read that passed the due test. */
  ghost predicate ReadsDue(w: World) {
    forall p | p in w.ticks && w.ticks[p].phase.HasRead? :: w.ticks[p].now >= w.ticks[p].phase.value * MILLI
  }

  lemma NextBeyond(sched: Sched, name: Name, now: int, v: int)
    requires IsSchedule(sched) && now >= v * MILLI
    ensures sched(name, now) / MILLI > v && (sched(name, now) / MILLI) * MILLI == sched(name, now) > now
  {}

  // ---- claims ----

  /** The stored time lies beyond every claim made of the entry. */
  ghost predicate ClaimsBehind(w: World) {
    forall c | c in w.claims :: c.name in w.next && c.window < w.next[c.name] && c.at < w.next[c.name] * MILLI
                                && c.at >= c.window * MILLI
  }

  /** Later claims of an entry are of later windows, beyond the clock of the earlier claim. */
  ghost predicate ClaimsClimb(w: World) {
    forall i, j | 0 <= i < j < |w.claims| && w.claims[i].name == w.claims[j].name ::
      w.claims[i].window < w.claims[j].window && w.claims[i].at < w.claims[j].window * MILLI
  }

  ghost predicate Claimed(w: World, name: Name, window: int) {
    exists i :: 0 <= i < |w.claims| && w.claims[i].name == name && w.claims[i].window == window
  }

  /** A claim is still to be enqueued by at most one tick, or was enqueued once. */
  ghost predicate EnqueuesOnce(w: World) {
    && (forall i, j | 0 <= i < j < |w.enqueued| :: w.enqueued[i] != w.enqueued[j])
    && (forall x | x in w.enqueued :: Claimed(w, x.0, x.1))
    && (forall p | Pends(w, p) :: Claimed(w, Pend(w, p).0, Pend(w, p).1) && Pend(w, p) !in w.enqueued)
    && (forall p, q | Pends(w, p) && Pends(w, q) && p != q :: Pend(w, p) != Pend(w, q))
  }

  predicate Pends(w: World, p: nat) {
    p in w.ticks && w.ticks[p].todo != [] && w.ticks[p].phase.Swapped?
  }

  function Pend(w: World, p: nat): (Name, int)
    requires Pends(w, p)
  {
    (w.ticks[p].todo[0], w.ticks[p].phase.window)
  }

  ghost predicate Inv(w: World) {
    ReadsDue(w) && ClaimsBehind(w) && ClaimsClimb(w) && EnqueuesOnce(w)
  }

  /** What a swap claims was not claimed before. */
  lemma NotClaimedYet(w: World, name: Name)
    requires ClaimsBehind(w) && name in w.next
    ensures !Claimed(w, name, w.next[name])
  {
    forall i | 0 <= i < |w.claims| ensures !(w.claims[i].name == name && w.claims[i].window == w.next[name]) {
      assert w.claims[i] in w.claims;
    }
  }

  lemma ClaimedGrows(w: World, v: World)
    requires w.claims <= v.claims
    ensures forall n, x | Claimed(w, n, x) :: Claimed(v, n, x)
  {
    forall n, x | Claimed(w, n, x) ensures Claimed(v, n, x) {
      var i :| 0 <= i < |w.claims| && w.claims[i].name == n && w.claims[i].window == x;
      assert v.claims[i] == w.claims[i];
    }
  }

  lemma SwapClaims(sched: Sched, w: World, pid: nat)
    requires IsSchedule(sched) && Inv(w) && Ready(w, Swap(pid))
    ensures ClaimsBehind(Step(sched, w, Swap(pid))) && ClaimsClimb(Step(sched, w, Swap(pid)))
  {
    var v, t := Step(sched, w, Swap(pid)), w.ticks[pid];
    NextBeyond(sched, t.todo[0], t.now, t.phase.value);
    forall i, j | 0 <= i < j < |v.claims| && v.claims[i].name == v.claims[j].name
      ensures v.claims[i].window < v.claims[j].window && v.claims[i].at < v.claims[j].window * MILLI
    {
      assert w.claims[i] in w.claims;
    }
  }

  lemma SwapEnqueues(sched: Sched, w: World, pid: nat)
    requires Inv(w) && Ready(w, Swap(pid))
    ensures EnqueuesOnce(Step(sched, w, Swap(pid)))
  {
    var v, t := Step(sched, w, Swap(pid)), w.ticks[pid];
    ClaimedGrows(w, v);
    if t.todo[0] in w.next && w.next[t.todo[0]] == t.phase.value {
      NotClaimedYet(w, t.todo[0]);
      assert v.claims[|w.claims|] == Claim(t.todo[0], t.phase.value, t.now);
      assert Claimed(v, t.todo[0], t.phase.value);
    }
    forall p | Pends(v, p) && p != pid ensures Pends(w, p) && Pend(v, p) == Pend(w, p) {}
  }

  lemma SwapInv(sched: Sched, w: World, pid: nat)
    requires IsSchedule(sched) && Inv(w) && Ready(w, Swap(pid))
    ensures Inv(Step(sched, w, Swap(pid))) && Forward(w, Step(sched, w, Swap(pid)))
  {
    SwapClaims(sched, w, pid);
    SwapEnqueues(sched, w, pid);
    NextBeyond(sched, w.ticks[pid].todo[0], w.ticks[pid].now, w.ticks[pid].phase.value);
  }

  /** An enqueue moves one pending claim into the log. */
  lemma EnqueueInv(sched: Sched, w: World, pid: nat)
    requires Inv(w) && Ready(w, Enqueue(pid))
    ensures Inv(Step(sched, w, Enqueue(pid)))
  {
    var v := Step(sched, w, Enqueue(pid));
    assert v.claims == w.claims && v.next == w.next;
    EnqueueMoves(sched, w, pid);
  }

  lemma EnqueueMoves(sched: Sched, w: World, pid: nat)
    requires EnqueuesOnce(w) && Ready(w, Enqueue(pid))
    ensures EnqueuesOnce(Step(sched, w, Enqueue(pid)))
  {
    var v := Step(sched, w, Enqueue(pid));
    ClaimedGrows(w, v);
    assert Pends(w, pid) && v.enqueued == w.enqueued + [Pend(w, pid)];
    forall p | Pends(v, p) ensures p != pid && Pends(w, p) && Pend(v, p) == Pend(w, p) {}
  }

  /** A step that neither claims nor enqueues leaves no tick with more to enqueue. */
  lemma OtherInv(sched: Sched, w: World, a: Act)
    requires IsSchedule(sched) && Inv(w) && Ready(w, a) && !a.Swap? && !a.Enqueue?
    ensures Inv(Step(sched, w, a)) && Forward(w, Step(sched, w, a))
  {
    var v := Step(sched, w, a);
    assert v.claims == w.claims && v.enqueued == w.enqueued;
    assert Forward(w, v);
    ClaimedGrows(w, v);
    forall p | Pends(v, p) ensures Pends(w, p) && Pend(v, p) == Pend(w, p) {}
  }

  lemma StepInv(sched: Sched, w: World, a: Act)
    requires IsSchedule(sched) && Inv(w) && Ready(w, a)
    ensures Inv(Step(sched, w, a)) && Forward(w, Step(sched, w, a))
  {
    if a.Swap? {
      SwapInv(sched, w, a.pid);
    } else if a.Enqueue? {
      EnqueueInv(sched, w, a.pid);
    } else {
      OtherInv(sched, w, a);
    }
  }

  lemma {:induction false} RunInv(sched: Sched, acts: seq<Act>)
    requires IsSchedule(sched)
    ensures Inv(After(sched, START, acts))
  {
    if acts != [] {
      RunInv(sched, acts[..|acts| - 1]);
      var u := After(sched, START, acts[..|acts| - 1]);
      if Ready(u, acts[|acts| - 1]) { StepInv(sched, u, acts[|acts| - 1]); }
    }
  }

  /** Main result: each window of an entry is claimed at most once and enqueued at most once;
      nothing is enqueued that was not claimed; and between one claim and the next of the same
      entry no window the first claimer had already missed is made up for. */
  lemma AtMostOncePerWindow(sched: Sched, acts: seq<Act>)
    requires IsSchedule(sched)
    ensures var w := After(sched, START, acts);
            && (forall i, j | 0 <= i < j < |w.claims| && w.claims[i].name == w.claims[j].name ::
                  w.claims[i].window < w.claims[j].window && w.claims[i].at < w.claims[j].window * MILLI)
            && (forall i, j | 0 <= i < j < |w.enqueued| :: w.enqueued[i] != w.enqueued[j])
            && (forall x | x in w.enqueued :: Claimed(w, x.0, x.1))
            && (forall c | c in w.claims :: c.name in w.next && c.window * MILLI <= c.at < w.next[c.name] * MILLI)
  {
    RunInv(sched, acts);
  }

  /** Main result: a successful swap strictly increases the stored time, past the clock of the
      server that made it. */
  lemma SwapAdvances(sched: Sched, acts: seq<Act>, pid: nat)
    requires IsSchedule(sched) && Ready(After(sched, START, acts), Swap(pid))
    ensures var w := After(sched, START, acts);
            var v, t := Step(sched, w, Swap(pid)), w.ticks[pid];
            |v.claims| > |w.claims| ==>
              v.next[t.todo[0]] > w.next[t.todo[0]] == t.phase.value && v.next[t.todo[0]] * MILLI > t.now
  {
    RunInv(sched, acts);
    var t := After(sched, START, acts).ticks[pid];
    NextBeyond(sched, t.todo[0], t.now, t.phase.value);
  }

  lemma AfterSplit(sched: Sched, w: World, acts: seq<Act>, more: seq<Act>)
    requires more != []
    ensures (acts + more)[..|acts + more| - 1] == acts + more[..|more| - 1]
    ensures (acts + more)[|acts + more| - 1] == more[|more| - 1]
  {}

  /** Main result: no step of any server ever moves a stored time back or removes it, so a
      value once replaced never returns for a compare-and-swap to mistake for the one read. */
  lemma {:induction false} NextNeverGoesBack(sched: Sched, acts: seq<Act>, more: seq<Act>)
    requires IsSchedule(sched)
    ensures Forward(After(sched, START, acts), After(sched, START, acts + more))
    decreases |more|
  {
    if more == [] {
      assert acts + more == acts;
    } else {
      AfterSplit(sched, START, acts, more);
      var front, a := acts + more[..|more| - 1], more[|more| - 1];
      NextNeverGoesBack(sched, acts, more[..|more| - 1]);
      RunInv(sched, front);
      if Ready(After(sched, START, front), a) { StepInv(sched, After(sched, START, front), a); }
    }
  }

  // ---- at most once, not exactly once ----

  /** Some tick is about to enqueue this window of this entry. */
  ghost predicate PendedBy(w: World, job: (Name, int)) {
    exists p :: Pends(w, p) && Pend(w, p) == job
  }

  /** Claimed, but neither enqueued nor about to be. */
  ghost predicate Lost(w: World, job: (Name, int)) {
    Claimed(w, job.0, job.1) && job !in w.enqueued && !PendedBy(w, job)
  }

  ghost predicate Kept(w: World, job: (Name, int)) {
    Claimed(w, job.0, job.1) ==> job in w.enqueued || PendedBy(w, job)
  }

  /** The steps that drop a claim: its tick fails, or its server stops, before the enqueue. */
  predicate Drops(w: World, a: Act, job: (Name, int)) {
    (a.Fail? || a.Stop?) && Pends(w, a.pid) && Pend(w, a.pid) == job
  }

  /** Main result: of all the steps of all the servers, exactly these lose a window; every
      other one leaves each claim enqueued or about to be. */
  lemma LostIffDropped(sched: Sched, w: World, a: Act, job: (Name, int))
    requires IsSchedule(sched) && Inv(w) && Ready(w, a) && Kept(w, job)
    ensures Lost(Step(sched, w, a), job) <==> Drops(w, a, job)
  {
    var v := Step(sched, w, a);
    if Drops(w, a, job) {
      ClaimedGrows(w, v);
      assert job !in w.enqueued;
      forall p | Pends(v, p) ensures Pend(v, p) != job {
        assert p != a.pid && Pends(w, p) && Pend(w, p) == Pend(v, p);
      }
    } else if a.Swap? && |v.claims| > |w.claims| {
      SwapKeeps(sched, w, a.pid, job);
    } else if Claimed(v, job.0, job.1) {
      assert v.claims == w.claims;
      OtherKeeps(sched, w, a, job);
    }
  }

  lemma SwapKeeps(sched: Sched, w: World, pid: nat, job: (Name, int))
    requires Ready(w, Swap(pid)) && Kept(w, job) && |Step(sched, w, Swap(pid)).claims| > |w.claims|
    ensures !Lost(Step(sched, w, Swap(pid)), job)
  {
    var v := Step(sched, w, Swap(pid));
    assert Pends(v, pid);
    if Claimed(v, job.0, job.1) && Pend(v, pid) != job {
      var i :| 0 <= i < |v.claims| && v.claims[i].name == job.0 && v.claims[i].window == job.1;
      assert v.claims[i] == w.claims[i];
      assert Claimed(w, job.0, job.1);
      if job !in w.enqueued {
        var p :| Pends(w, p) && Pend(w, p) == job;
        assert Pends(v, p) && Pend(v, p) == job;
      }
    }
  }

  lemma OtherKeeps(sched: Sched, w: World, a: Act, job: (Name, int))
    requires Ready(w, a) && Kept(w, job) && Claimed(w, job.0, job.1) && !Drops(w, a, job)
    requires Step(sched, w, a).claims == w.claims
    ensures !Lost(Step(sched, w, a), job)
  {
    var v := Step(sched, w, a);
    if job !in v.enqueued {
      var p :| Pends(w, p) && Pend(w, p) == job;
      assert Pends(v, p) && Pend(v, p) == job;
    }
  }

  /** And nobody ever makes up for a lost window. */
  lemma {:induction false} LostStaysLost(sched: Sched, acts: seq<Act>, more: seq<Act>, job: (Name, int))
    requires IsSchedule(sched) && Lost(After(sched, START, acts), job)
    ensures Lost(After(sched, START, acts + more), job)
    decreases |more|
  {
    if more == [] {
      assert acts + more == acts;
    } else {
      AfterSplit(sched, START, acts, more);
      var front, a := acts + more[..|more| - 1], more[|more| - 1];
      LostStaysLost(sched, acts, more[..|more| - 1], job);
      RunInv(sched, front);
      var w := After(sched, START, front);
      if Ready(w, a) { StepLost(sched, w, a, job); }
    }
  }

  lemma StepLost(sched: Sched, w: World, a: Act, job: (Name, int))
    requires Inv(w) && Ready(w, a) && Lost(w, job)
    ensures Lost(Step(sched, w, a), job)
  {
    ClaimedGrows(w, Step(sched, w, a));
    if a.Swap? {
      SwapStaysLost(sched, w, a.pid, job);
    } else {
      OtherStaysLost(sched, w, a, job);
    }
  }

  lemma SwapStaysLost(sched: Sched, w: World, pid: nat, job: (Name, int))
    requires Inv(w) && Ready(w, Swap(pid)) && Lost(w, job)
    ensures var v := Step(sched, w, Swap(pid)); job !in v.enqueued && !PendedBy(v, job)
  {
    var v, name := Step(sched, w, Swap(pid)), w.ticks[pid].todo[0];
    if name in w.next { NotClaimedYet(w, name); }
    forall p | Pends(v, p) ensures Pend(v, p) != job {
      assert p != pid ==> Pends(w, p) && Pend(w, p) == Pend(v, p);
    }
  }

  lemma OtherStaysLost(sched: Sched, w: World, a: Act, job: (Name, int))
    requires Ready(w, a) && Lost(w, job) && !a.Swap?
    ensures var v := Step(sched, w, a); job !in v.enqueued && !PendedBy(v, job)
  {
    var v := Step(sched, w, a);
    forall p | Pends(v, p) ensures Pend(v, p) != job {
      assert Pends(w, p) && Pend(w, p) == Pend(v, p);
    }
    if a.Enqueue? {
      assert Pends(w, a.pid) && v.enqueued == w.enqueued + [Pend(w, a.pid)];
    } else {
      assert v.enqueued == w.enqueued;
    }
  }

  // ---- job ids ----

  function Digit(d: nat): char
    requires d < 10
  {
    "0123456789"[d]
  }

  function Digits(n: nat): (s: string)
    ensures s != [] && forall c | c in s :: c != ':' && c != '-'
  {
    if n < 10 then [Digit(n)] else Digits(n / 10) + [Digit(n % 10)]
  }

  /** %d */
  function Decimal(n: int): (s: string)
    ensures forall c | c in s :: c != ':'
  {
    if n < 0 then "-" + Digits(-n) else Digits(n)
  }

  function JobId(name: Name, window: int): string {
    "cron:" + name + ":" + Decimal(window)
  }

  function DigitOf(c: char): int {
    c as int - '0' as int
  }

  /** The number a text of digits stands for. */
  function NumberOf(s: string): int {
    if s == "" then 0 else NumberOf(s[..|s| - 1]) * 10 + DigitOf(s[|s| - 1])
  }

  /** Reading back what was written. */
  lemma {:induction false} DigitsReadBack(n: nat)
    ensures NumberOf(Digits(n)) == n
  {
    if n < 10 {
      assert Digits(n)[..0] == "";
    } else {
      DigitsReadBack(n / 10);
      assert Digits(n)[..|Digits(n)| - 1] == Digits(n / 10);
    }
  }

  function IntegerOf(s: string): int {
    if s != "" && s[0] == '-' then -NumberOf(s[1..]) else NumberOf(s)
  }

  /** A window's text reads back as the window, sign included. */
  lemma DecimalReadsBack(n: int)
    ensures IntegerOf(Decimal(n)) == n
  {
    var s := Decimal(n);
    MinusIsFirst(n);
    if n < 0 {
      ReadsNegative(-n, s);
    } else {
      ReadsNatural(n, s);
    }
  }

  lemma ReadsNegative(n: nat, s: string)
    requires s == "-" + Digits(n)
    ensures IntegerOf(s) == 0 - n
  {
    var digits := Digits(n);
    DigitsReadBack(n);
    IntegerOfMinus(digits);
  }

  lemma ReadsNatural(n: nat, s: string)
    requires s == Digits(n) && s[0] != '-'
    ensures IntegerOf(s) == n
  {
    DigitsReadBack(n);
  }

  lemma IntegerOfMinus(digits: string)
    ensures IntegerOf("-" + digits) == -NumberOf(digits)
  {
    AfterMinus(digits, "-" + digits);
  }

  lemma AfterMinus(digits: string, s: string)
    requires s == "-" + digits
    ensures s[1..] == digits
  {}

  lemma MinusIsFirst(n: int)
    ensures Decimal(n) != [] && (Decimal(n)[0] == '-' <==> n < 0)
  {
    if n >= 0 { assert Decimal(n)[0] in Digits(n); }
  }

  lemma DecimalInjective(a: int, b: int)
    requires Decimal(a) == Decimal(b)
    ensures a == b
  {
    DecimalReadsBack(a);
    DecimalReadsBack(b);
  }

  lemma NoLaterColon(a: string, x: string, k: nat)
    requires k < |a + ":" + x| && (a + ":" + x)[k] == ':'
    requires forall c | c in x :: c != ':'
    ensures k <= |a|
  {
    var s := a + ":" + x;
    forall i | |a| < i < |s| ensures s[i] != ':' {
      assert s[i] == x[i - |a| - 1];
      assert x[i - |a| - 1] in x;
    }
  }

  /** The text after the last colon is determined. */
  lemma SplitAtLastColon(a: string, b: string, x: string, y: string)
    requires a + ":" + x == b + ":" + y
    requires forall c | c in x :: c != ':'
    requires forall c | c in y :: c != ':'
    ensures a == b && x == y
  {
    var s := a + ":" + x;
    NoLaterColon(a, x, |b|);
    NoLaterColon(b, y, |a|);
    assert s[..|a|] == a && s[..|b|] == b && s[|a| + 1..] == x && s[|b| + 1..] == y;
  }

  lemma JobIdInjective(n1: Name, w1: int, n2: Name, w2: int)
    requires JobId(n1, w1) == JobId(n2, w2)
    ensures n1 == n2 && w1 == w2
  {
    SplitAtLastColon("cron:" + n1, "cron:" + n2, Decimal(w1), Decimal(w2));
    assert ("cron:" + n1)[5..] == n1 && ("cron:" + n2)[5..] == n2;
    DecimalInjective(w1, w2);
  }

  /** Main result: no two cron jobs, of the same entry or of different ones, ever get the same
      id, so each enqueue is of a fresh id. */
  lemma JobIdsNeverRepeat(sched: Sched, acts: seq<Act>, i: nat, j: nat)
    requires IsSchedule(sched)
    requires i < j < |After(sched, START, acts).enqueued|
    ensures var log := After(sched, START, acts).enqueued;
            JobId(log[i].0, log[i].1) != JobId(log[j].0, log[j].1)
  {
    RunInv(sched, acts);
    var log := After(sched, START, acts).enqueued;
    if JobId(log[i].0, log[i].1) == JobId(log[j].0, log[j].1) {
      JobIdInjective(log[i].0, log[i].1, log[j].0, log[j].1);
    }
  }

  lemma AfterSnoc(sched: Sched, w: World, acts: seq<Act>, a: Act)
    requires Ready(After(sched, w, acts), a)
    ensures After(sched, w, acts + [a]) == Step(sched, After(sched, w, acts), a)
  {
    assert (acts + [a])[..|acts|] == acts;
  }
}
