/** The scheduler of one server: seeding, and one tick after another. */
module Ticks {
  import opened Wrappers
  import opened RedisQueue
  import opened Cron
  import Scripts

  /** What the scheduler keeps in Redis: the next_run hash, and the jobs it enqueued. */
  datatype Store = Store(next: map<Name, int>, enqueued: seq<(Name, int)>)

  predicate IsDue(next: map<Name, int>, name: Name, now: int) {
    name in next && now >= next[name] * MILLI
  }

  function TickOne(sched: Sched, s: Store, name: Name, now: int): Store {
    if IsDue(s.next, name, now) then
      Store(s.next[name := sched(name, now) / MILLI], s.enqueued + [(name, s.next[name])])
    else s
  }

  function TickAll(sched: Sched, s: Store, names: seq<Name>, now: int): Store {
    if names == [] then s
    else TickOne(sched, TickAll(sched, s, names[..|names| - 1], now), names[|names| - 1], now)
  }

  function Seeded(sched: Sched, next: map<Name, int>, names: seq<Name>, now: int): map<Name, int> {
    if names == [] then next
    else
      var m, name := Seeded(sched, next, names[..|names| - 1], now), names[|names| - 1];
      if name in m then m else m[name := sched(name, now) / MILLI]
  }

  /** A configured entry, its queue filled in. */
  datatype Entry = Entry(name: Name, kind: string, queue: string, payload: string)

  function NamesOf(entries: seq<Entry>): seq<Name> {
    seq(|entries|, i requires 0 <= i < |entries| => entries[i].name)
  }

  /** The job of one window of an entry, as the tick at this time enqueues it. */
  function CronJob(e: Entry, window: int, now: int): NewJob {
    NewJob(JobId(e.name, window), Scripts.Core.Core(e.kind, e.queue, 5, e.payload, 3, now / MILLI, "", ""), 0)
  }

  /** The jobs one tick enqueues, in order. */
  function TickJobs(sched: Sched, s: Store, entries: seq<Entry>, now: int): seq<NewJob> {
    if entries == [] then []
    else
      var n := |entries| - 1;
      var u, e := TickAll(sched, s, NamesOf(entries[..n]), now), entries[n];
      TickJobs(sched, s, entries[..n], now) + if IsDue(u.next, e.name, now) then [CronJob(e, u.next[e.name], now)] else []
  }

  lemma NamesSnoc(entries: seq<Entry>, i: nat)
    requires i < |entries|
    ensures NamesOf(entries[..i + 1])[..i] == NamesOf(entries[..i])
    ensures NamesOf(entries[..i + 1]) == NamesOf(entries[..i]) + [entries[i].name]
    ensures entries[..i + 1][..i] == entries[..i]
  {
    assert NamesOf(entries[..i + 1])[..i] == NamesOf(entries[..i]);
  }

  /** Entry i's turn in a tick. */
  lemma TurnOf(sched: Sched, s: Store, entries: seq<Entry>, i: nat, now: int)
    requires i < |entries|
    ensures var u, e := TickAll(sched, s, NamesOf(entries[..i]), now), entries[i];
            && TickAll(sched, s, NamesOf(entries[..i + 1]), now) == TickOne(sched, u, e.name, now)
            && TickJobs(sched, s, entries[..i + 1], now)
               == TickJobs(sched, s, entries[..i], now)
                  + if IsDue(u.next, e.name, now) then [CronJob(e, u.next[e.name], now)] else []
  {
    NamesSnoc(entries, i);
  }

  /** The queue after one entry's turn. */
  function EnqueueDue(s: Scripts.Store, e: Entry, next: map<Name, int>, now: int): Scripts.Store {
    if IsDue(next, e.name, now) then
      var job := CronJob(e, next[e.name], now);
      Scripts.Enqueue(s, job.id, job.core, 0, 0)
    else s
  }

  lemma EnqueueDueSnoc(s: Scripts.Store, jobs: seq<NewJob>, e: Entry, next: map<Name, int>, now: int)
    ensures EnqueueAll(s, jobs + if IsDue(next, e.name, now) then [CronJob(e, next[e.name], now)] else [])
            == EnqueueDue(EnqueueAll(s, jobs), e, next, now)
  {
    if IsDue(next, e.name, now) {
      assert (jobs + [CronJob(e, next[e.name], now)])[..|jobs|] == jobs;
    } else {
      assert jobs + [] == jobs;
    }
  }

  class Scheduler {
    const sched: Sched
    const queue: Queue
    const entries: seq<Entry>
    var next: map<Name, int>
    var enqueued: seq<(Name, int)>

    ghost function View(): Store
      reads this
    {
      Store(next, enqueued)
    }

    constructor (sched: Sched, queue: Queue, entries: seq<Entry>)
      ensures this.sched == sched && this.queue == queue && View() == Store(map[], [])
      ensures |this.entries| == |entries|
      ensures forall i | 0 <= i < |entries| ::
                this.entries[i] == entries[i].(queue := if entries[i].queue == "" then "default" else entries[i].queue)
    {
      this.sched, this.queue, next, enqueued := sched, queue, map[], [];
      this.entries := seq(|entries|, i requires 0 <= i < |entries| =>
                            if entries[i].queue == "" then entries[i].(queue := "default") else entries[i]);
    }

    /** HSETNX for each entry. */
    method SeedNextRuns(now: int)
      modifies this`next
      ensures next == Seeded(sched, old(next), NamesOf(entries), now)
    {
      for i := 0 to |entries|
        invariant next == Seeded(sched, old(next), NamesOf(entries[..i]), now)
      {
        NamesSnoc(entries, i);
        if entries[i].name !in next {
          next := next[entries[i].name := sched(entries[i].name, now) / MILLI];
        }
      }
      assert entries[..|entries|] == entries;
    }

    method CompareAndSwap(name: Name, expected: int, value: int) returns (swapped: bool)
      modifies this`next
      ensures swapped <==> name in old(next) && old(next)[name] == expected
      ensures next == if swapped then old(next)[name := value] else old(next)
    {
      if name in next && next[name] == expected {
        next := next[name := value];
        return true;
      }
      return false;
    }

    method Tick(now: int)
      modifies this, queue
      ensures View() == TickAll(sched, old(View()), NamesOf(entries), now)
      ensures queue.View() == EnqueueAll(old(queue.View()), TickJobs(sched, old(View()), entries, now))
    {
      for i := 0 to |entries|
        invariant View() == TickAll(sched, old(View()), NamesOf(entries[..i]), now)
        invariant queue.View() == EnqueueAll(old(queue.View()), TickJobs(sched, old(View()), entries[..i], now))
      {
        TurnOf(sched, old(View()), entries, i, now);
        ghost var jobs := TickJobs(sched, old(View()), entries[..i], now);
        EnqueueDueSnoc(old(queue.View()), jobs, entries[i], next, now);
        TakeTurn(entries[i], now);
      }
      assert entries[..|entries|] == entries;
    }

    /** One entry's turn: read, compare-and-swap, enqueue. */
    method TakeTurn(e: Entry, now: int)
      modifies this, queue
      ensures View() == TickOne(sched, old(View()), e.name, now)
      ensures queue.View() == EnqueueDue(old(queue.View()), e, old(next), now)
    {
      if e.name !in next { return; }
      var state := next[e.name];
      if now < state * MILLI { return; }
      var following := sched(e.name, now) / MILLI;
      var swapped := CompareAndSwap(e.name, state, following);
      if !swapped { return; }
      var id := JobId(e.name, state);
      var _ := queue.Enqueue(id, Scripts.Core.Core(e.kind, e.queue, 5, e.payload, 3, now / MILLI, "", ""), 0, "", 0);
      enqueued := enqueued + [(e.name, state)];
    }
  }

  /** Main result: seeding touches no entry that has a time already, and gives every other
      entry of the list the schedule's next time. */
  lemma {:induction false} SeedKeeps(sched: Sched, next: map<Name, int>, names: seq<Name>, now: int)
    requires IsSchedule(sched)
    ensures var m := Seeded(sched, next, names, now);
            && m.Keys == next.Keys + (set n | n in names)
            && (forall n | n in next :: m[n] == next[n])
            && (forall n | n in m && n !in next :: m[n] * MILLI == sched(n, now) > now)
  {
    if names != [] {
      SeedKeeps(sched, next, names[..|names| - 1], now);
      assert names == names[..|names| - 1] + [names[|names| - 1]];
    }
  }

  function SeedActs(names: seq<Name>, now: int): seq<Act> {
    seq(|names|, i requires 0 <= i < |names| => Seed(names[i], now))
  }

  /** Seeding that nothing interrupts is one call of SeedNextRuns. */
  lemma {:induction false} SeedsAreOneCall(sched: Sched, w: World, names: seq<Name>, now: int)
    ensures After(sched, w, SeedActs(names, now)) == w.(next := Seeded(sched, w.next, names, now))
  {
    if names != [] {
      var n := |names| - 1;
      SeedsAreOneCall(sched, w, names[..n], now);
      AfterSnoc(sched, w, SeedActs(names[..n], now), Seed(names[n], now));
      assert SeedActs(names, now) == SeedActs(names[..n], now) + [Seed(names[n], now)];
    }
  }

  /** The stored times after the turns of these entries. */
  ghost predicate TimesMoved(sched: Sched, was: map<Name, int>, next: map<Name, int>, names: seq<Name>, now: int) {
    && next.Keys == was.Keys
    && forall n | n in was :: next[n] == if n in names && IsDue(was, n, now) then sched(n, now) / MILLI else was[n]
  }

  /** What one tick does to the entry names: the due ones move past the clock, however many of
      their windows were missed, and each of them gets one job, of the window stored. */
  ghost predicate OnePerDue(sched: Sched, s: Store, v: Store, names: seq<Name>, now: int) {
    && TimesMoved(sched, s.next, v.next, names, now)
    && s.enqueued <= v.enqueued
    && OneJobEach(s.next, v.enqueued[|s.enqueued|..], names, now)
  }

  /** The jobs are one for each due entry. */
  ghost predicate OneJobEach(next: map<Name, int>, jobs: seq<(Name, int)>, names: seq<Name>, now: int) {
    && (forall n | n in names && IsDue(next, n, now) :: (n, next[n]) in jobs)
    && (forall x | x in jobs :: x.0 in names && IsDue(next, x.0, now) && x.1 == next[x.0])
    && (forall j, k | 0 <= j < k < |jobs| :: jobs[j].0 != jobs[k].0)
  }

  /** Main result: one tick enqueues exactly one job for each due entry and none for the rest. */
  lemma {:induction false} TickEnqueuesOnePerDue(sched: Sched, s: Store, names: seq<Name>, now: int)
    requires IsSchedule(sched)
    ensures OnePerDue(sched, s, TickAll(sched, s, names, now), names, now)
  {
    if names != [] {
      var rest, name := names[..|names| - 1], names[|names| - 1];
      TickEnqueuesOnePerDue(sched, s, rest, now);
      assert names == rest + [name];
      TickOneMore(sched, s, TickAll(sched, s, rest, now), rest, name, now);
    }
  }

  lemma TickOneMore(sched: Sched, s: Store, u: Store, rest: seq<Name>, name: Name, now: int)
    requires IsSchedule(sched) && OnePerDue(sched, s, u, rest, now)
    ensures OnePerDue(sched, s, TickOne(sched, u, name, now), rest + [name], now)
  {
    var jobs := u.enqueued[|s.enqueued|..];
    DueOnce(sched, s.next, u.next, rest, name, now);
    TimeOneMore(sched, s.next, u.next, rest, name, now);
    if IsDue(u.next, name, now) {
      JobOneMore(s.next, jobs, rest, name, now);
      assert (u.enqueued + [(name, s.next[name])])[|s.enqueued|..] == jobs + [(name, s.next[name])];
    } else {
      JobNoMore(s.next, jobs, rest, name, now);
    }
  }

  lemma TimeOneMore(sched: Sched, was: map<Name, int>, next: map<Name, int>, rest: seq<Name>, name: Name, now: int)
    requires IsSchedule(sched) && TimesMoved(sched, was, next, rest, now)
    ensures var after := if IsDue(next, name, now) then next[name := sched(name, now) / MILLI] else next;
            TimesMoved(sched, was, after, rest + [name], now)
  {
    DueOnce(sched, was, next, rest, name, now);
    forall n ensures n in rest + [name] <==> n in rest || n == name {}
  }

  /** An entry is due when its turn comes if it was due at the start and had no turn yet. */
  lemma DueOnce(sched: Sched, was: map<Name, int>, next: map<Name, int>, rest: seq<Name>, name: Name, now: int)
    requires IsSchedule(sched) && TimesMoved(sched, was, next, rest, now)
    ensures IsDue(next, name, now) <==> IsDue(was, name, now) && name !in rest
    ensures IsDue(next, name, now) ==> next[name] == was[name]
  {
    if IsDue(was, name, now) { NextBeyond(sched, name, now, was[name]); }
  }

  lemma JobOneMore(next: map<Name, int>, jobs: seq<(Name, int)>, rest: seq<Name>, name: Name, now: int)
    requires OneJobEach(next, jobs, rest, now) && name !in rest && IsDue(next, name, now)
    ensures OneJobEach(next, jobs + [(name, next[name])], rest + [name], now)
  {
    forall j | 0 <= j < |jobs| ensures jobs[j].0 != name { assert jobs[j] in jobs; }
  }

  lemma JobNoMore(next: map<Name, int>, jobs: seq<(Name, int)>, rest: seq<Name>, name: Name, now: int)
    requires OneJobEach(next, jobs, rest, now) && (name in rest || !IsDue(next, name, now))
    ensures OneJobEach(next, jobs, rest + [name], now)
  {}

  /** A tick nothing interrupts is one call of Tick. */
  lemma {:induction false} AloneIsOneTick(sched: Sched, w: World, pid: nat, names: seq<Name>, now: int, k: nat)
    returns (acts: seq<Act>)
    requires pid !in w.ticks && k <= |names|
    ensures var v := After(sched, w, acts);
            && pid in v.ticks && v.ticks[pid] == Tick(now, names[k..], Idle)
            && Store(v.next, v.enqueued) == TickAll(sched, Store(w.next, w.enqueued), names[..k], now)
  {
    if k == 0 {
      acts := [];
      AfterSnoc(sched, w, acts, Start(pid, now, names));
      acts := [Start(pid, now, names)];
      return;
    }
    acts := AloneIsOneTick(sched, w, pid, names, now, k - 1);
    assert names[..k][..k - 1] == names[..k - 1] && names[k - 1..][1..] == names[k..];
    var u := After(sched, w, acts);
    AfterSnoc(sched, w, acts, Read(pid));
    acts := acts + [Read(pid)];
    if IsDue(u.next, names[k - 1], now) {
      AfterSnoc(sched, w, acts, Swap(pid));
      acts := acts + [Swap(pid)];
      AfterSnoc(sched, w, acts, Enqueue(pid));
      acts := acts + [Enqueue(pid)];
    }
  }

  // ---- the first window after a seed ----

  function TicksAt(sched: Sched, s: Store, names: seq<Name>, times: seq<int>): Store {
    if times == [] then s
    else TickAll(sched, TicksAt(sched, s, names, times[..|times| - 1]), names, times[|times| - 1])
  }

  /** The windows of one entry among the jobs enqueued. */
  function WindowsOf(jobs: seq<(Name, int)>, n: Name): seq<int> {
    if jobs == [] then []
    else
      var k := |jobs| - 1;
      WindowsOf(jobs[..k], n) + if jobs[k].0 == n then [jobs[k].1] else []
  }

  lemma {:induction false} WindowsConcat(a: seq<(Name, int)>, b: seq<(Name, int)>, n: Name)
    ensures WindowsOf(a + b, n) == WindowsOf(a, n) + WindowsOf(b, n)
    decreases |b|
  {
    if b == [] {
      assert a + b == a;
    } else {
      assert (a + b)[..|a + b| - 1] == a + b[..|b| - 1];
      WindowsConcat(a, b[..|b| - 1], n);
    }
  }

  lemma {:induction false} WindowsOfNone(jobs: seq<(Name, int)>, n: Name)
    requires forall x | x in jobs :: x.0 != n
    ensures WindowsOf(jobs, n) == []
  {
    if jobs != [] {
      assert jobs[|jobs| - 1] in jobs;
      WindowsOfNone(jobs[..|jobs| - 1], n);
    }
  }

  lemma {:induction false} WindowsOfOne(jobs: seq<(Name, int)>, n: Name, window: int)
    requires (n, window) in jobs && forall j, k | 0 <= j < k < |jobs| :: jobs[j].0 != jobs[k].0
    ensures WindowsOf(jobs, n) == [window]
  {
    var k := |jobs| - 1;
    if jobs[k].0 == n {
      WindowsOfNone(jobs[..k], n);
    } else {
      assert jobs == jobs[..k] + [jobs[k]];
      WindowsOfOne(jobs[..k], n, window);
    }
  }

  /** What a tick adds for one entry: its window when it is due, nothing before. */
  lemma TickWindows(sched: Sched, s: Store, names: seq<Name>, n: Name, now: int)
    requires IsSchedule(sched) && n in names && n in s.next
    ensures var v := TickAll(sched, s, names, now);
            && n in v.next
            && if now >= s.next[n] * MILLI
               then WindowsOf(v.enqueued, n) == WindowsOf(s.enqueued, n) + [s.next[n]] && v.next[n] == sched(n, now) / MILLI
               else WindowsOf(v.enqueued, n) == WindowsOf(s.enqueued, n) && v.next[n] == s.next[n]
  {
    TickEnqueuesOnePerDue(sched, s, names, now);
    var v := TickAll(sched, s, names, now);
    var jobs := v.enqueued[|s.enqueued|..];
    assert v.enqueued == s.enqueued + jobs;
    WindowsConcat(s.enqueued, jobs, n);
    if now >= s.next[n] * MILLI {
      WindowsOfOne(jobs, n, s.next[n]);
    } else {
      WindowsOfNone(jobs, n);
    }
  }

  /** Main result: an entry seeded at one time is enqueued by no tick before the schedule's next
      time after it, and by the first tick from then on for exactly that window. */
  lemma {:induction false} FirstWindowAfterSeed(sched: Sched, s: Store, names: seq<Name>, seededAt: int, n: Name, times: seq<int>, now: int)
    requires IsSchedule(sched) && n in names && n !in s.next
    requires forall k | 0 <= k < |times| :: times[k] < sched(n, seededAt)
    ensures var seeded := Store(Seeded(sched, s.next, names, seededAt), s.enqueued);
            var u := TicksAt(sched, seeded, names, times);
            var v := TickAll(sched, u, names, now);
            && n in u.next && u.next[n] * MILLI == sched(n, seededAt)
            && WindowsOf(u.enqueued, n) == WindowsOf(s.enqueued, n)
            && (now >= sched(n, seededAt) ==>
                  WindowsOf(v.enqueued, n) == WindowsOf(s.enqueued, n) + [sched(n, seededAt) / MILLI])
  {
    var seeded := Store(Seeded(sched, s.next, names, seededAt), s.enqueued);
    SeedKeeps(sched, s.next, names, seededAt);
    if times != [] {
      var k := |times| - 1;
      FirstWindowAfterSeed(sched, s, names, seededAt, n, times[..k], now);
      TickWindows(sched, TicksAt(sched, seeded, names, times[..k]), names, n, times[k]);
    }
    TickWindows(sched, TicksAt(sched, seeded, names, times), names, n, now);
  }

  // ---- the jobs a tick enqueues ----

  /** Main result: the jobs of a tick are those its log names, in order, each with the id of its
      window and the kind, queue and payload of an entry of that name. */
  lemma {:induction false} TickJobsMatch(sched: Sched, s: Store, entries: seq<Entry>, now: int)
    ensures var jobs, log := TickJobs(sched, s, entries, now), TickAll(sched, s, NamesOf(entries), now).enqueued;
            && |log| == |s.enqueued| + |jobs|
            && forall i | 0 <= i < |jobs| :: JobFor(entries, jobs[i], log[|s.enqueued| + i], now)
  {
    if entries != [] {
      var n := |entries| - 1;
      TickJobsMatch(sched, s, entries[..n], now);
      TurnOf(sched, s, entries, n, now);
      assert entries[..n + 1] == entries;
      var jobs, log := TickJobs(sched, s, entries, now), TickAll(sched, s, NamesOf(entries), now).enqueued;
      var u, e := TickAll(sched, s, NamesOf(entries[..n]), now), entries[n];
      forall i | 0 <= i < |jobs| ensures JobFor(entries, jobs[i], log[|s.enqueued| + i], now) {
        if i < |TickJobs(sched, s, entries[..n], now)| {
          assert JobFor(entries[..n], jobs[i], log[|s.enqueued| + i], now);
        } else {
          assert entries[n] == e;
        }
      }
    }
  }

  ghost predicate JobFor(entries: seq<Entry>, job: NewJob, logged: (Name, int), now: int) {
    exists k :: 0 <= k < |entries|
      && entries[k].name == logged.0 && job.id == "cron:" + logged.0 + ":" + Decimal(logged.1) && job.scheduledAt == 0
      && job.core == Scripts.Core.Core(entries[k].kind, entries[k].queue, 5, entries[k].payload, 3, now / 1_000_000, "", "")
  }
}
