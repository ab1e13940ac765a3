/** The Redis data of Winter and, for every Lua script, the state it leaves behind.

    One Store value is the whole key space: the job hashes, the unique keys and,
    per queue, the keys derived from the queue's name. A key that Redis would
    delete because it became empty is an empty collection here. */
module Scripts {
  import opened Wrappers
  import opened ZSets

  type QName = string

  datatype State = Unset | Pending | Active | Completed | Failed | Retry | Dead | Cancelled

  /** The hash fields only the enqueue script writes. They are all present or all absent. */
  datatype Core = Core(
    kind: string, queue: QName, priority: int, payload: string,
    maxRetries: int, createdAt: int, uniqueKey: string, workflowId: string)

  /** A job hash. An absent numeric field reads as 0, as HINCRBY and the record parser read it. */
  datatype Hash = Hash(
    core: Option<Core>, state: State, attempt: nat, scheduledAt: int,
    startedAt: int, completedAt: int, lastError: string)

  /** The names QueueStats reports: four depths, then the counters the scripts keep. */
  datatype StatName =
    | ReadyDepth | ActiveDepth | DelayedDepth | DeadDepth
    | EnqueuedCount | CompletedCount | FailedCount | DeadTotal | RetriedCount

  datatype QueueData = QueueData(
    ready: ZSet, delayed: ZSet, active: set<Id>, lease: ZSet,
    dead: seq<Id>, paused: bool, stats: map<StatName, int>)

  datatype Store = Store(jobs: map<Id, Hash>, unique: map<string, Id>, queues: map<QName, QueueData>)

  const NO_HASH := Hash(None, Unset, 0, 0, 0, 0, "")
  const NO_QUEUE := QueueData(map[], map[], {}, map[], [], false, map[])
  const EMPTY := Store(map[], map[], map[])
  const LEASE_MS := 30_000

  function HashOf(jobs: map<Id, Hash>, id: Id): Hash {
    if id in jobs then jobs[id] else NO_HASH
  }

  function DataOf(queues: map<QName, QueueData>, q: QName): QueueData {
    if q in queues then queues[q] else NO_QUEUE
  }

  function H(s: Store, id: Id): Hash { HashOf(s.jobs, id) }

  function Q(s: Store, q: QName): QueueData { DataOf(s.queues, q) }

  function Put(s: Store, q: QName, d: QueueData): Store {
    s.(queues := s.queues[q := d])
  }

  /** Store one job's hash and one queue's data. */
  function Write(s: Store, q: QName, id: Id, h: Hash, d: QueueData): Store {
    s.(jobs := s.jobs[id := h], queues := s.queues[q := d])
  }

  function Stat(stats: map<StatName, int>, name: StatName): int {
    if name in stats then stats[name] else 0
  }

  /** HINCRBY stats name 1 */
  function Bump(stats: map<StatName, int>, name: StatName): map<StatName, int> {
    stats[name := Stat(stats, name) + 1]
  }

  /** The priority a script restores, with the script's own default. */
  function PriorityOf(h: Hash): int {
    if h.core.Some? then h.core.value.priority else 5
  }

  function KeyOf(h: Hash): string {
    if h.core.Some? then h.core.value.uniqueKey else ""
  }

  /** SREM active, ZREM lease. */
  function Leave(d: QueueData, id: Id): QueueData {
    d.(active := d.active - {id}, lease := d.lease - {id})
  }

  /** Delete the hash's unique key when this job owns it. */
  function FreeKey(unique: map<string, Id>, key: string, id: Id): map<string, Id> {
    if key != "" && key in unique && unique[key] == id then unique - {key} else unique
  }

  // ---- enqueue ----

  predicate Duplicate(s: Store, key: string, ttl: int) {
    key != "" && ttl > 0 && key in s.unique
  }

  function NewHash(core: Core, scheduledAt: int): Hash {
    Hash(Some(core), Pending, 0, scheduledAt, 0, 0, "")
  }

  function Enqueue(s: Store, id: Id, core: Core, scheduledAt: int, ttl: int): Store {
    if Duplicate(s, core.uniqueKey, ttl) then s
    else
      var d := Q(s, core.queue);
      var placed := if scheduledAt > 0 then d.(delayed := d.delayed[id := scheduledAt])
                                       else d.(ready := d.ready[id := core.priority]);
      var unique := if core.uniqueKey != "" && ttl > 0 then s.unique[core.uniqueKey := id] else s.unique;
      Write(s, core.queue, id, NewHash(core, scheduledAt), placed.(stats := Bump(placed.stats, EnqueuedCount)))
      .(unique := unique)
  }

  // ---- dequeue ----

  /** The job a dequeue takes, if any. */
  function Head(s: Store, q: QName): Option<Id> {
    var d := Q(s, q);
    if d.paused || d.ready == map[] then None else Some(First(d.ready))
  }

  function Dequeue(s: Store, q: QName, now: int): Store {
    match Head(s, q)
    case None => s
    case Some(id) =>
      var d := Q(s, q);
      Write(s, q, id, H(s, id).(state := Active, startedAt := now),
            d.(ready := d.ready - {id}, active := d.active + {id}, lease := d.lease[id := now + LEASE_MS]))
  }

  // ---- finishing calls ----

  function Ack(s: Store, q: QName, id: Id, now: int): Store {
    var d := Leave(Q(s, q), id);
    var h := H(s, id);
    Write(s, q, id, h.(state := Completed, completedAt := now), d.(stats := Bump(d.stats, CompletedCount)))
    .(unique := FreeKey(s.unique, KeyOf(h), id))
  }

  datatype NackResult = ToDead | ToRetry | ScriptError

  /** What nack decides. Comparing the attempt with an absent max_retries raises a Lua error. */
  function NackDecision(h: Hash, skip: bool): NackResult {
    if skip then ToDead
    else match h.core
      case None => ScriptError
      case Some(c) => if h.attempt + 1 >= c.maxRetries then ToDead else ToRetry
  }

  function NackQueue(d: QueueData, id: Id, r: NackResult, at: int): QueueData {
    var e := Leave(d, id).(stats := Bump(d.stats, FailedCount));
    match r
    case ToDead => e.(dead := [id] + e.dead, stats := Bump(e.stats, DeadTotal))
    case ToRetry => e.(delayed := e.delayed[id := at])
    case ScriptError => e  // Redis keeps the writes made before the error
  }

  function NackHash(h: Hash, err: string, r: NackResult): Hash {
    h.(attempt := h.attempt + 1, lastError := err,
       state := match r case ToDead => Dead case ToRetry => Retry case ScriptError => h.state)
  }

  function Nack(s: Store, q: QName, id: Id, err: string, backoff: int, now: int, skip: bool): Store {
    var h := H(s, id);
    var r := NackDecision(h, skip);
    Write(s, q, id, NackHash(h, err, r), NackQueue(Q(s, q), id, r, now + backoff))
    .(unique := if r == ToDead then FreeKey(s.unique, KeyOf(h), id) else s.unique)
  }

  function Reschedule(s: Store, q: QName, id: Id, at: int): Store {
    var d := Leave(Q(s, q), id);
    Write(s, q, id, H(s, id).(state := Pending, scheduledAt := at, startedAt := 0),
          d.(delayed := d.delayed[id := at]))
  }

  function Cancel(s: Store, q: QName, id: Id, now: int, reason: string): Store {
    var h := H(s, id);
    Write(s, q, id, h.(state := Cancelled, completedAt := now, lastError := reason), Leave(Q(s, q), id))
    .(unique := FreeKey(s.unique, KeyOf(h), id))
  }

  // ---- leases ----

  function ExtendLease(s: Store, q: QName, id: Id, expiry: int): Store {
    var d := Q(s, q);
    if id in d.lease then Put(s, q, d.(lease := d.lease[id := expiry])) else s
  }

  function RecoverOne(s: Store, q: QName, id: Id): Store {
    var d := Q(s, q);
    if id in d.active then
      var h := H(s, id);
      Write(s, q, id, h.(state := Pending, startedAt := 0),
            Leave(d, id).(ready := d.ready[id := PriorityOf(h)]))
    else Put(s, q, d.(lease := d.lease - {id}))
  }

  function RecoverAll(s: Store, q: QName, ids: seq<Id>): Store {
    if ids == [] then s else RecoverOne(RecoverAll(s, q, ids[..|ids| - 1]), q, ids[|ids| - 1])
  }

  /** The ids recovery reports: those still in the active set when their turn comes. */
  function Recovered(s: Store, q: QName, ids: seq<Id>): seq<Id> {
    if ids == [] then []
    else
      var front, id := ids[..|ids| - 1], ids[|ids| - 1];
      Recovered(s, q, front) + if id in Q(RecoverAll(s, q, front), q).active then [id] else []
  }

  /** The leases a sweep looks at. */
  function Expired(s: Store, q: QName, now: int, limit: int): seq<Id> {
    RangeByScore(Q(s, q).lease, now, limit)
  }

  function Recover(s: Store, q: QName, now: int, limit: int): Store {
    RecoverAll(s, q, Expired(s, q, now, limit))
  }

  // ---- promote ----

  function PromoteOne(s: Store, q: QName, id: Id): Store {
    var d := Q(s, q);
    var h := H(s, id);
    Write(s, q, id, h.(state := Pending),
          d.(delayed := d.delayed - {id}, ready := d.ready[id := PriorityOf(h)]))
  }

  function PromoteAll(s: Store, q: QName, ids: seq<Id>): Store {
    if ids == [] then s else PromoteOne(PromoteAll(s, q, ids[..|ids| - 1]), q, ids[|ids| - 1])
  }

  function Due(s: Store, q: QName, now: int, limit: int): seq<Id> {
    RangeByScore(Q(s, q).delayed, now, limit)
  }

  function Promote(s: Store, q: QName, now: int, limit: int): Store {
    PromoteAll(s, q, Due(s, q, now, limit))
  }

  // ---- dead letters ----

  /** LREM list 1 id */
  function RemoveFirst(ids: seq<Id>, id: Id): (r: seq<Id>)
    ensures multiset(r) == multiset(ids) - multiset{id}
  {
    if ids == [] then []
    else
      assert ids == [ids[0]] + ids[1..];
      if ids[0] == id then ids[1..] else [ids[0]] + RemoveFirst(ids[1..], id)
  }

  function RetryDead(s: Store, q: QName, id: Id): Store {
    var d := Q(s, q);
    if id !in d.dead then s
    else
      var h := H(s, id);
      Write(s, q, id, h.(state := Pending, attempt := 0, lastError := "", completedAt := 0, startedAt := 0),
            d.(dead := RemoveFirst(d.dead, id), ready := d.ready[id := PriorityOf(h)],
               stats := Bump(d.stats, RetriedCount)))
  }

  function PurgeDead(s: Store, q: QName): Store {
    var d := Q(s, q);
    Put(s.(jobs := s.jobs - (set x | x in d.dead)), q, d.(dead := []))
  }

  function SetPaused(s: Store, q: QName, paused: bool): Store {
    Put(s, q, Q(s, q).(paused := paused))
  }

  /** A unique key reaches the end of its time to live. */
  function ExpireKey(s: Store, key: string): Store {
    s.(unique := s.unique - {key})
  }
}
