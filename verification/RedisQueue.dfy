/** The queue as an object: its fields are the Redis keys, each method runs one
    script (or one Go method around it) statement by statement. Every method is
    proved against the script's state function in Scripts. */
module RedisQueue {
  import opened Wrappers
  import opened ZSets
  import opened Scripts

  const SECOND_NS := 1_000_000_000
  const CHUNK := 100

  /** A job as a caller hands it over; its unique key is chosen by Enqueue. */
  datatype NewJob = NewJob(id: Id, core: Core, scheduledAt: int)

  /** The key name stored in the hash, and the whole seconds it is claimed for. */
  function StoredKey(uniqKey: string, periodNs: int): string {
    if uniqKey != "" && periodNs > 0 then "winter:unique:" + uniqKey else ""
  }

  function TtlSeconds(uniqKey: string, periodNs: int): int {
    if uniqKey != "" && periodNs > 0 then periodNs / SECOND_NS else 0
  }

  function EnqueueAll(s: Store, jobs: seq<NewJob>): Store {
    if jobs == [] then s
    else
      var j := jobs[|jobs| - 1];
      Enqueue(EnqueueAll(s, jobs[..|jobs| - 1]), j.id, j.core.(uniqueKey := ""), j.scheduledAt, 0)
  }

  lemma {:induction false} EnqueueAllSplit(s: Store, a: seq<NewJob>, b: seq<NewJob>)
    ensures EnqueueAll(s, a + b) == EnqueueAll(EnqueueAll(s, a), b)
    decreases |b|
  {
    if b == [] {
      assert a + b == a;
    } else {
      assert (a + b)[..|a + b| - 1] == a + b[..|b| - 1];
      EnqueueAllSplit(s, a, b[..|b| - 1]);
    }
  }

  lemma EnqueueChunk(s: Store, jobs: seq<NewJob>, i: nat, end: nat)
    requires i <= end <= |jobs|
    ensures EnqueueAll(s, jobs[..end]) == EnqueueAll(EnqueueAll(s, jobs[..i]), jobs[i..end])
  {
    EnqueueAllSplit(s, jobs[..i], jobs[i..end]);
    assert jobs[..i] + jobs[i..end] == jobs[..end];
  }

  /** QueueStats: the depths, then the stored counters merged over them. */
  function StatsView(d: QueueData): map<StatName, int> {
    map[ReadyDepth := |d.ready|, ActiveDepth := |d.active|, DelayedDepth := |d.delayed|, DeadDepth := |d.dead|] + d.stats
  }

  lemma MergeOne(depths: map<StatName, int>, m: map<StatName, int>, rest: set<StatName>, k: StatName)
    requires k in rest && rest <= m.Keys
    ensures (depths + (m - rest))[k := m[k]] == depths + (m - (rest - {k}))
  {}

  class Queue {
    var jobs: map<Id, Hash>
    var unique: map<string, Id>
    var queues: map<QName, QueueData>

    constructor ()
      ensures View() == EMPTY
    {
      jobs, unique, queues := map[], map[], map[];
    }

    function View(): Store
      reads this
    {
      Store(jobs, unique, queues)
    }

    method Enqueue(id: Id, job: Core, scheduledAt: int, uniqKey: string, periodNs: int) returns (ok: bool)
      modifies this
      ensures var core := job.(uniqueKey := StoredKey(uniqKey, periodNs));
              var ttl := TtlSeconds(uniqKey, periodNs);
              && ok == !Duplicate(old(View()), core.uniqueKey, ttl)
              && View() == Scripts.Enqueue(old(View()), id, core, scheduledAt, ttl)
    {
      var key, ttl := "", 0;
      if uniqKey != "" && periodNs > 0 {
        key := "winter:unique:" + uniqKey;
        ttl := periodNs / SECOND_NS;
      }
      if key != "" && ttl > 0 {
        if key in unique {
          return false;
        }
        unique := unique[key := id];
      }
      jobs := jobs[id := NewHash(job.(uniqueKey := key), scheduledAt)];
      var d := DataOf(queues, job.queue);
      if scheduledAt > 0 {
        d := d.(delayed := d.delayed[id := scheduledAt]);
      } else {
        d := d.(ready := d.ready[id := job.priority]);
      }
      d := d.(stats := Bump(d.stats, EnqueuedCount));
      queues := queues[job.queue := d];
      ok := true;
    }

    method EnqueueMany(batch: seq<NewJob>)
      modifies this
      ensures View() == EnqueueAll(old(View()), batch)
    {
      ghost var s := View();
      var i := 0;
      while i < |batch|
        invariant 0 <= i <= |batch|
        invariant View() == EnqueueAll(s, batch[..i])
      {
        var end := i + CHUNK;
        if end > |batch| {
          end := |batch|;
        }
        EnqueueChunk(s, batch, i, end);
        EnqueueBatch(batch[i..end]);
        i := end;
      }
      assert batch[..i] == batch;
    }

    method EnqueueBatch(batch: seq<NewJob>)
      modifies this
      ensures View() == EnqueueAll(old(View()), batch)
    {
      for i := 0 to |batch|
        invariant View() == EnqueueAll(old(View()), batch[..i])
      {
        assert batch[..i + 1][..i] == batch[..i];
        var _ := Enqueue(batch[i].id, batch[i].core, batch[i].scheduledAt, "", 0);
      }
      assert batch[..|batch|] == batch;
    }

    method Dequeue(q: QName, now: int) returns (r: Option<(Id, Hash)>)
      modifies this
      ensures View() == Scripts.Dequeue(old(View()), q, now)
      ensures match Head(old(View()), q)
              case None => r == None
              case Some(id) => r == Some((id, H(View(), id)))
    {
      var d := DataOf(queues, q);
      if d.paused {
        return None;
      }
      if d.ready == map[] {
        return None;
      }
      var id := First(d.ready);
      d := d.(ready := d.ready - {id});
      d := d.(active := d.active + {id});
      jobs := jobs[id := HashOf(jobs, id).(state := Active, startedAt := now)];
      d := d.(lease := d.lease[id := now + LEASE_MS]);
      queues := queues[q := d];
      r := Some((id, jobs[id]));
    }

    method Ack(q: QName, id: Id, now: int)
      modifies this
      ensures View() == Scripts.Ack(old(View()), q, id, now)
    {
      var d := DataOf(queues, q);
      d := d.(active := d.active - {id}, lease := d.lease - {id});
      jobs := jobs[id := HashOf(jobs, id).(state := Completed, completedAt := now)];
      queues := queues[q := d.(stats := Bump(d.stats, CompletedCount))];
      ReleaseKey(id);
    }

    method Nack(q: QName, id: Id, err: string, backoff: int, now: int, skip: bool) returns (r: NackResult)
      modifies this
      ensures r == NackDecision(H(old(View()), id), skip)
      ensures View() == Scripts.Nack(old(View()), q, id, err, backoff, now, skip)
    {
      var d := DataOf(queues, q);
      d := d.(active := d.active - {id}, lease := d.lease - {id});
      var h := HashOf(jobs, id);
      h := h.(attempt := h.attempt + 1, lastError := err);
      d := d.(stats := Bump(d.stats, FailedCount));
      if !skip && h.core == None {
        r := ScriptError;
      } else if skip || h.attempt >= h.core.value.maxRetries {
        d := d.(dead := [id] + d.dead, stats := Bump(d.stats, DeadTotal));
        h := h.(state := Dead);
        r := ToDead;
      } else {
        d := d.(delayed := d.delayed[id := now + backoff]);
        h := h.(state := Retry);
        r := ToRetry;
      }
      jobs := jobs[id := h];
      queues := queues[q := d];
      if r == ToDead {
        ReleaseKey(id);
      }
    }

    method RescheduleJob(q: QName, id: Id, at: int)
      modifies this
      ensures View() == Reschedule(old(View()), q, id, at)
    {
      var d := DataOf(queues, q);
      d := d.(active := d.active - {id}, lease := d.lease - {id});
      queues := queues[q := d.(delayed := d.delayed[id := at])];
      jobs := jobs[id := HashOf(jobs, id).(state := Pending, scheduledAt := at, startedAt := 0)];
    }

    method CancelJob(q: QName, id: Id, now: int, reason: string)
      modifies this
      ensures View() == Cancel(old(View()), q, id, now, reason)
    {
      var d := DataOf(queues, q);
      queues := queues[q := d.(active := d.active - {id}, lease := d.lease - {id})];
      jobs := jobs[id := HashOf(jobs, id).(state := Cancelled, completedAt := now, lastError := reason)];
      ReleaseKey(id);
    }

    method ExtendLease(q: QName, id: Id, expiry: int)
      modifies this
      ensures View() == Scripts.ExtendLease(old(View()), q, id, expiry)
    {
      var d := DataOf(queues, q);
      if id in d.lease {
        queues := queues[q := d.(lease := d.lease[id := expiry])];
      }
    }

    method RecoverExpiredLeasesAt(q: QName, limit: int, now: int) returns (recovered: seq<Id>)
      modifies this
      ensures View() == Recover(old(View()), q, now, limit)
      ensures recovered == Recovered(old(View()), q, Expired(old(View()), q, now, limit))
    {
      var expired := RangeByScore(DataOf(queues, q).lease, now, limit);
      recovered := [];
      for i := 0 to |expired|
        invariant View() == RecoverAll(old(View()), q, expired[..i])
        invariant recovered == Recovered(old(View()), q, expired[..i])
      {
        assert expired[..i + 1][..i] == expired[..i];
        var moved := RecoverLease(q, expired[i]);
        if moved {
          recovered := recovered + [expired[i]];
        }
      }
      assert expired[..|expired|] == expired;
    }

    method RecoverLease(q: QName, id: Id) returns (removed: bool)
      modifies this
      ensures removed == (id in Q(old(View()), q).active)
      ensures View() == RecoverOne(old(View()), q, id)
    {
      var d := DataOf(queues, q);
      removed := id in d.active;
      if removed {
        var h := HashOf(jobs, id);
        d := d.(active := d.active - {id}, lease := d.lease - {id});
        var priority := if h.core.Some? then h.core.value.priority else 5;
        queues := queues[q := d.(ready := d.ready[id := priority])];
        jobs := jobs[id := h.(state := Pending, startedAt := 0)];
      } else {
        queues := queues[q := d.(lease := d.lease - {id})];
      }
    }

    method Promote(q: QName, now: int, limit: int) returns (n: int)
      modifies this
      ensures View() == Scripts.Promote(old(View()), q, now, limit)
      ensures n == |Due(old(View()), q, now, limit)|
    {
      var due := RangeByScore(DataOf(queues, q).delayed, now, limit);
      for i := 0 to |due|
        invariant View() == PromoteAll(old(View()), q, due[..i])
      {
        assert due[..i + 1][..i] == due[..i];
        PromoteJob(q, due[i]);
      }
      assert due[..|due|] == due;
      n := |due|;
    }

    method PromoteJob(q: QName, id: Id)
      modifies this
      ensures View() == PromoteOne(old(View()), q, id)
    {
      var d := DataOf(queues, q);
      d := d.(delayed := d.delayed - {id});
      var h := HashOf(jobs, id);
      var priority := if h.core.Some? then h.core.value.priority else 5;
      queues := queues[q := d.(ready := d.ready[id := priority])];
      jobs := jobs[id := h.(state := Pending)];
    }

    method RetryDead(q: QName, id: Id) returns (found: bool)
      modifies this
      ensures found == (id in Q(old(View()), q).dead)
      ensures View() == Scripts.RetryDead(old(View()), q, id)
    {
      var d := DataOf(queues, q);
      if id !in d.dead {
        return false;
      }
      d := d.(dead := RemoveFirst(d.dead, id));
      var h := HashOf(jobs, id);
      var priority := if h.core.Some? then h.core.value.priority else 5;
      jobs := jobs[id := h.(state := Pending, attempt := 0, lastError := "", completedAt := 0, startedAt := 0)];
      queues := queues[q := d.(ready := d.ready[id := priority], stats := Bump(d.stats, RetriedCount))];
      found := true;
    }

    method PurgeDead(q: QName) returns (n: int)
      modifies this
      ensures View() == Scripts.PurgeDead(old(View()), q)
      ensures n == |Q(old(View()), q).dead|
    {
      var ids := DataOf(queues, q).dead;
      for i := 0 to |ids|
        invariant unique == old(unique) && queues == old(queues)
        invariant jobs == old(jobs) - (set x | x in ids[..i])
      {
        jobs := jobs - {ids[i]};
        assert ids[..i + 1] == ids[..i] + [ids[i]];
      }
      assert ids[..|ids|] == ids;
      queues := queues[q := DataOf(queues, q).(dead := [])];
      n := |ids|;
    }

    method QueueStats(q: QName) returns (stats: map<StatName, int>)
      ensures stats == StatsView(Q(View(), q))
    {
      var d := DataOf(queues, q);
      stats := map[ReadyDepth := |d.ready|, ActiveDepth := |d.active|, DelayedDepth := |d.delayed|, DeadDepth := |d.dead|];
      ghost var depths := stats;
      var rest := d.stats.Keys;
      while rest != {}
        invariant rest <= d.stats.Keys
        invariant stats == depths + (d.stats - rest)
      {
        var k :| k in rest;
        MergeOne(depths, d.stats, rest, k);
        stats := stats[k := d.stats[k]];
        rest := rest - {k};
      }
      assert d.stats - {} == d.stats;
    }

    method Pause(q: QName)
      modifies this
      ensures View() == SetPaused(old(View()), q, true)
    {
      queues := queues[q := DataOf(queues, q).(paused := true)];
    }

    method Resume(q: QName)
      modifies this
      ensures View() == SetPaused(old(View()), q, false)
    {
      queues := queues[q := DataOf(queues, q).(paused := false)];
    }

    method ReleaseKey(id: Id)
      modifies `unique
      ensures unique == FreeKey(old(unique), KeyOf(HashOf(jobs, id)), id)
    {
      var h := HashOf(jobs, id);
      if h.core.Some? && h.core.value.uniqueKey != "" {
        var key := h.core.value.uniqueKey;
        if key in unique && unique[key] == id {
          unique := unique - {key};
        }
      }
    }
  }
}
