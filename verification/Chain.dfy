/** A chain under any interleaving of servers: OnJobCompleted and OnJobFailed taken apart
    into the Redis calls they make, each process with its own copy of the record. */
module Chain {
  import opened Wrappers
  import opened Workflow
  import opened ZSets

  /** Where a process is: after the load, after the INCR, after the save that precedes an
      enqueue; or after the load of OnJobFailed. */
  datatype Proc = Loaded(rec: Record) | Counted(rec: Record) | Saved(rec: Record) | FailLoaded(rec: Record)

  /** created: the first task is enqueued. enqueued logs positions in the task list,
      reported the positions whose job was reported completed or dead. */
  datatype World = World(
    stored: Record, counter: nat, created: bool, enqueued: seq<nat>, procs: map<nat, Proc>, reported: set<nat>)

  datatype Act =
    | EnqueueFirst
    | Load(pid: nat, job: nat)
    | Incr(pid: nat)
    | Save(pid: nat)
    | EnqueueNext(pid: nat)
    | LoadFailed(pid: nat, job: nat)
    | SaveFailed(pid: nat)
    | Stop(pid: nat)

  function Initial(tasks: seq<TaskSpec>): World {
    World(NewRecord(ChainKind, tasks, None), 0, false, [], map[], {})
  }

  /** A process can take this step now; acts on absent processes do nothing. */
  predicate Ready(w: World, a: Act) {
    match a
    case EnqueueFirst => !w.created
    case Load(pid, _) => pid !in w.procs
    case Incr(pid) => pid in w.procs && w.procs[pid].Loaded?
    case Save(pid) => pid in w.procs && w.procs[pid].Counted?
    case EnqueueNext(pid) => pid in w.procs && w.procs[pid].Saved?
    case LoadFailed(pid, _) => pid !in w.procs
    case SaveFailed(pid) => pid in w.procs && w.procs[pid].FailLoaded?
    case Stop(pid) => pid in w.procs
  }

  function Step(w: World, a: Act): World
    requires Ready(w, a)
  {
    match a
    case EnqueueFirst => w.(created := true, enqueued := w.enqueued + [0])
    case Load(pid, job) =>
      var v := w.(reported := w.reported + {job});
      if w.stored.status != Running then v else v.(procs := w.procs[pid := Loaded(w.stored)])
    case Incr(pid) =>
      var n, rec := w.counter + 1, w.procs[pid].rec;
      var rec1 := rec.(current := n, status := if n >= |rec.tasks| then Completed else rec.status);
      w.(counter := n, procs := w.procs[pid := Counted(rec1)])
    case Save(pid) =>
      var rec := w.procs[pid].rec;
      w.(stored := rec,
         procs := if rec.current >= |rec.tasks| then w.procs - {pid} else w.procs[pid := Saved(rec)])
    case EnqueueNext(pid) =>
      w.(enqueued := w.enqueued + [w.procs[pid].rec.current], procs := w.procs - {pid})
    case LoadFailed(pid, job) => w.(reported := w.reported + {job}, procs := w.procs[pid := FailLoaded(w.stored)])
    case SaveFailed(pid) => w.(stored := w.procs[pid].rec.(status := Failed), procs := w.procs - {pid})
    case Stop(pid) => w.(procs := w.procs - {pid})
  }

  function After(w: World, acts: seq<Act>): World {
    if acts == [] then w
    else
      var u, a := After(w, acts[..|acts| - 1]), acts[|acts| - 1];
      if Ready(u, a) then Step(u, a) else u
  }

  // ---- any calls whatever: duplicates, failures, servers that stop ----

  ghost predicate ProcOk(w: World, tasks: seq<TaskSpec>, p: Proc) {
    && p.rec.tasks == tasks
    && (p.Counted? || p.Saved? ==> 1 <= p.rec.current <= w.counter && p.rec.current !in w.enqueued)
    && (p.Counted? ==> (p.rec.status == Completed <==> p.rec.current >= |tasks|))
    && (p.Saved? ==> p.rec.current < |tasks|)
  }

  ghost predicate DueOnce(w: World) {
    forall p, q | p in w.procs && q in w.procs && p != q
                  && (w.procs[p].Counted? || w.procs[p].Saved?) && (w.procs[q].Counted? || w.procs[q].Saved?) ::
      w.procs[p].rec.current != w.procs[q].rec.current
  }

  ghost predicate OnceInv(w: World, tasks: seq<TaskSpec>) {
    && w.stored.tasks == tasks
    && Distinct(w.enqueued) && (0 in w.enqueued ==> w.created)
    && (forall k | k in w.enqueued :: k < |tasks| && k <= w.counter)
    && (forall p | p in w.procs :: ProcOk(w, tasks, w.procs[p]))
    && DueOnce(w)
    && (w.stored.status == Running || w.stored.status == Failed || w.counter >= |tasks|)
    && (forall p | p in w.procs && w.procs[p].Loaded? :: w.procs[p].rec.status == Running)
  }

  lemma StepOnce(w: World, tasks: seq<TaskSpec>, a: Act)
    requires OnceInv(w, tasks) && Ready(w, a) && tasks != []
    ensures OnceInv(Step(w, a), tasks)
  {
    match a
    case EnqueueFirst => FirstOnce(w, tasks);
    case Load(pid, job) => LoadOnce(w, tasks, pid, job);
    case Incr(pid) => IncrOnce(w, tasks, pid);
    case Save(pid) => SaveOnce(w, tasks, pid);
    case EnqueueNext(pid) => EnqueueOnce(w, tasks, pid);
    case LoadFailed(pid, job) => LoadFailedOnce(w, tasks, pid, job);
    case SaveFailed(pid) => SaveFailedOnce(w, tasks, pid);
    case Stop(pid) => StopOnce(w, tasks, pid);
  }

  lemma FirstOnce(w: World, tasks: seq<TaskSpec>)
    requires OnceInv(w, tasks) && !w.created && tasks != []
    ensures OnceInv(Step(w, EnqueueFirst), tasks)
  {
    var v := Step(w, EnqueueFirst);
    forall p | p in v.procs ensures ProcOk(v, tasks, v.procs[p]) { assert ProcOk(w, tasks, w.procs[p]); }
  }

  lemma LoadOnce(w: World, tasks: seq<TaskSpec>, pid: nat, job: nat)
    requires OnceInv(w, tasks) && pid !in w.procs
    ensures OnceInv(Step(w, Load(pid, job)), tasks)
  {
    var v := Step(w, Load(pid, job));
    forall p | p in v.procs ensures ProcOk(v, tasks, v.procs[p]) {
      if p != pid { assert ProcOk(w, tasks, w.procs[p]); }
    }
  }

  lemma LoadFailedOnce(w: World, tasks: seq<TaskSpec>, pid: nat, job: nat)
    requires OnceInv(w, tasks) && pid !in w.procs
    ensures OnceInv(Step(w, LoadFailed(pid, job)), tasks)
  {
    var v := Step(w, LoadFailed(pid, job));
    forall p | p in v.procs ensures ProcOk(v, tasks, v.procs[p]) {
      if p != pid { assert ProcOk(w, tasks, w.procs[p]); }
    }
  }

  lemma SaveOnce(w: World, tasks: seq<TaskSpec>, pid: nat)
    requires OnceInv(w, tasks) && Ready(w, Save(pid))
    ensures OnceInv(Step(w, Save(pid)), tasks)
  {
    var v := Step(w, Save(pid));
    assert ProcOk(w, tasks, w.procs[pid]);
    forall p | p in v.procs ensures ProcOk(v, tasks, v.procs[p]) { assert ProcOk(w, tasks, w.procs[p]); }
  }

  lemma SaveFailedOnce(w: World, tasks: seq<TaskSpec>, pid: nat)
    requires OnceInv(w, tasks) && Ready(w, SaveFailed(pid))
    ensures OnceInv(Step(w, SaveFailed(pid)), tasks)
  {
    var v := Step(w, SaveFailed(pid));
    assert ProcOk(w, tasks, w.procs[pid]);
    forall p | p in v.procs ensures ProcOk(v, tasks, v.procs[p]) { assert ProcOk(w, tasks, w.procs[p]); }
  }

  lemma StopOnce(w: World, tasks: seq<TaskSpec>, pid: nat)
    requires OnceInv(w, tasks) && pid in w.procs
    ensures OnceInv(Step(w, Stop(pid)), tasks)
  {
    var v := Step(w, Stop(pid));
    forall p | p in v.procs ensures ProcOk(v, tasks, v.procs[p]) { assert ProcOk(w, tasks, w.procs[p]); }
  }

  lemma IncrOnce(w: World, tasks: seq<TaskSpec>, pid: nat)
    requires OnceInv(w, tasks) && Ready(w, Incr(pid))
    ensures OnceInv(Step(w, Incr(pid)), tasks)
  {
    var v := Step(w, Incr(pid));
    forall p | p in v.procs ensures ProcOk(v, tasks, v.procs[p]) {
      assert ProcOk(w, tasks, w.procs[p]);
    }
  }

  lemma EnqueueOnce(w: World, tasks: seq<TaskSpec>, pid: nat)
    requires OnceInv(w, tasks) && Ready(w, EnqueueNext(pid))
    ensures OnceInv(Step(w, EnqueueNext(pid)), tasks)
  {
    var v := Step(w, EnqueueNext(pid));
    assert ProcOk(w, tasks, w.procs[pid]);
    forall p | p in v.procs ensures ProcOk(v, tasks, v.procs[p]) {
      assert ProcOk(w, tasks, w.procs[p]);
    }
  }

  lemma {:induction false} RunOnce(tasks: seq<TaskSpec>, acts: seq<Act>)
    requires tasks != []
    ensures OnceInv(After(Initial(tasks), acts), tasks)
  {
    if acts != [] {
      RunOnce(tasks, acts[..|acts| - 1]);
      var u := After(Initial(tasks), acts[..|acts| - 1]);
      if Ready(u, acts[|acts| - 1]) { StepOnce(u, tasks, acts[|acts| - 1]); }
    }
  }

  /** Main result: however often completions and failures are reported, and wherever servers
      stop, each step of the chain is enqueued at most once. */
  lemma EachStepOnce(tasks: seq<TaskSpec>, acts: seq<Act>)
    requires tasks != []
    ensures Distinct(After(Initial(tasks), acts).enqueued)
    ensures forall k | k in After(Initial(tasks), acts).enqueued :: k < |tasks|
  {
    RunOnce(tasks, acts);
  }

  // ---- each job reported once ----

  /** Only enqueued jobs are reported, each of them once, and servers do not stop midway. */
  predicate Orderly(w: World, a: Act) {
    match a
    case Load(_, job) => job in w.enqueued && job !in w.reported
    case LoadFailed(_, job) => job in w.enqueued && job !in w.reported
    case Stop(_) => false
    case _ => true
  }

  predicate OrderlyRun(w: World, acts: seq<Act>) {
    acts == [] || (OrderlyRun(w, acts[..|acts| - 1]) && Orderly(After(w, acts[..|acts| - 1]), acts[|acts| - 1]))
  }

  /** The last enqueued job is still to be reported. */
  predicate Outstanding(w: World) {
    w.enqueued != [] && |w.enqueued| - 1 !in w.reported
  }

  /** How far the process that reported job n - 1 has come. */
  ghost predicate StageOk(w: World, total: nat, p: Proc) {
    var n := |w.enqueued|;
    && p.rec.tasks == w.stored.tasks && (p.rec.status == Running || p.Counted?)
    && w.stored.status == Running
    && match p
       case Loaded(rec) => w.counter == n - 1
       case Counted(rec) => w.counter == n == rec.current && (rec.status == if n >= total then Completed else Running)
       case Saved(rec) => w.counter == n == rec.current < total
       case FailLoaded(_) => w.counter == n - 1
  }

  ghost predicate Lined(w: World, tasks: seq<TaskSpec>) {
    var n, total := |w.enqueued|, |tasks|;
    && w.stored.tasks == tasks && n <= total
    && (forall i | 0 <= i < n :: w.enqueued[i] == i)
    && (forall k | k in w.reported :: k < n) && (forall k | 0 <= k < n - 1 :: k in w.reported)
    && (forall p, q | p in w.procs && q in w.procs :: p == q)
    && (forall p | p in w.procs :: StageOk(w, total, w.procs[p]))
    && (n == 0 ==> !w.created)
    && (!w.created ==> n == 0 && w.stored.status == Running && w.counter == 0)
    && (n == 0 || Outstanding(w) ==> w.procs == map[])
    && (Outstanding(w) ==> w.stored.status == Running && w.counter == n - 1)
    && (n > 0 && !Outstanding(w) && w.procs == map[] ==>
          || (w.counter == n == total && w.stored.status == Completed)
          || (w.counter == n - 1 && w.stored.status == Failed))
  }

  lemma StepLined(w: World, tasks: seq<TaskSpec>, a: Act)
    requires Lined(w, tasks) && Ready(w, a) && Orderly(w, a) && tasks != []
    ensures Lined(Step(w, a), tasks)
  {
    var v, n := Step(w, a), |w.enqueued|;
    match a
    case EnqueueFirst =>
    case Load(pid, job) => assert job == n - 1 && v.procs == map[pid := Loaded(w.stored)];
    case LoadFailed(pid, job) => assert job == n - 1 && v.procs == map[pid := FailLoaded(w.stored)];
    case Incr(pid) => assert StageOk(w, |tasks|, w.procs[pid]); assert v.procs.Keys == {pid};
    case Save(pid) => assert StageOk(w, |tasks|, w.procs[pid]); assert w.procs.Keys == {pid};
    case EnqueueNext(pid) => assert StageOk(w, |tasks|, w.procs[pid]); assert v.procs == map[];
    case SaveFailed(pid) => assert StageOk(w, |tasks|, w.procs[pid]); assert v.procs == map[];
  }

  lemma {:induction false} RunLined(tasks: seq<TaskSpec>, acts: seq<Act>)
    requires tasks != [] && OrderlyRun(Initial(tasks), acts)
    ensures Lined(After(Initial(tasks), acts), tasks)
  {
    if acts != [] {
      RunLined(tasks, acts[..|acts| - 1]);
      var u := After(Initial(tasks), acts[..|acts| - 1]);
      if Ready(u, acts[|acts| - 1]) { StepLined(u, tasks, acts[|acts| - 1]); }
    }
  }

  /** The tasks enqueued, in the order they were. */
  function Specs(tasks: seq<TaskSpec>, enqueued: seq<nat>): seq<TaskSpec>
    requires forall i | 0 <= i < |enqueued| :: enqueued[i] < |tasks|
  {
    seq(|enqueued|, i requires 0 <= i < |enqueued| => tasks[enqueued[i]])
  }

  /** Main result: when each job is reported once, the enqueued tasks are a prefix of the
      chain in order, at most one job is outstanding or being advanced, the stored state is
      completed only once the counter reached the total and, with no call in flight, exactly
      then. */
  lemma ChainRunsInOrder(tasks: seq<TaskSpec>, acts: seq<Act>)
    requires tasks != [] && OrderlyRun(Initial(tasks), acts)
    ensures var w := After(Initial(tasks), acts);
            && (forall i | 0 <= i < |w.enqueued| :: w.enqueued[i] < |tasks|)
            && Specs(tasks, w.enqueued) <= tasks
            && |w.procs| + (if Outstanding(w) then 1 else 0) <= 1
            && (w.stored.status == Completed ==> w.counter == |tasks|)
            && (w.procs == map[] ==> (w.stored.status == Completed <==> w.counter == |tasks|))
  {
    RunLined(tasks, acts);
    var w := After(Initial(tasks), acts);
    assert Specs(tasks, w.enqueued) == tasks[..|w.enqueued|];
    if w.procs != map[] {
      var pid :| pid in w.procs;
      assert w.procs.Keys == {pid};
      assert StageOk(w, |tasks|, w.procs[pid]);
    }
  }

  /** One process left alone does what OnJobCompleted does in one piece. */
  lemma AloneIsOneCall(w: World, pid: nat, job: nat, id: string, newId: string)
    requires pid !in w.procs && w.stored.kind == ChainKind && w.stored.status == Running
    ensures var u := Step(Step(Step(w, Load(pid, job)), Incr(pid)), Save(pid));
            var v := if Ready(u, EnqueueNext(pid)) then Step(u, EnqueueNext(pid)) else u;
            var f := OnCompleted(Flow(Some(w.stored), w.counter, {}, []), id, newId);
            && v.procs == w.procs && f.record == Some(v.stored) && f.counter == v.counter
            && (if f.jobs == [] then v.enqueued == w.enqueued
                else v.counter < |w.stored.tasks| && v.enqueued == w.enqueued + [v.counter]
                     && f.jobs == [Enqueued(newId, w.stored.tasks[v.counter])])
  {}
}
