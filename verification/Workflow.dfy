/** Workflows as one server at a time sees them: the stored record, the shared counter,
    the chord's dependency set, and the tasks enqueued so far.

    Chain, Group and Chord take the same calls apart into their Redis steps and let any
    number of servers interleave them. */
module Workflow {
  import opened Wrappers
  import opened ZSets

  datatype Kind = ChainKind | GroupKind | ChordKind
  datatype Status = Running | Completed | Failed

  datatype TaskSpec = TaskSpec(kind: string, payload: string, queue: string, priority: int, maxRetries: int)

  /** The stored record; its total is the number of tasks. */
  datatype Record = Record(
    kind: Kind, status: Status, tasks: seq<TaskSpec>, callback: Option<TaskSpec>, current: nat, done: int)

  datatype Job = Job(id: Id, spec: TaskSpec)

  datatype Flow = Flow(record: Option<Record>, counter: nat, deps: set<Id>, jobs: seq<Job>)

  function NewRecord(kind: Kind, tasks: seq<TaskSpec>, callback: Option<TaskSpec>): Record {
    Record(kind, Running, tasks, callback, 0, 0)
  }

  /** Creation fills in the workflow's queue, enqueueing the general defaults. */
  function WithQueue(spec: TaskSpec, queue: string): TaskSpec {
    if spec.queue == "" then spec.(queue := queue) else spec
  }

  function Enqueued(id: Id, spec: TaskSpec): Job {
    Job(id, spec.(queue := if spec.queue == "" then "default" else spec.queue,
                  maxRetries := if spec.maxRetries == 0 then 3 else spec.maxRetries))
  }

  // ---- one call, start to end ----

  function AdvanceChain(f: Flow, rec: Record, newId: Id): Flow {
    var n := f.counter + 1;
    if n >= |rec.tasks| then f.(counter := n, record := Some(rec.(current := n, status := Completed)))
    else f.(counter := n, record := Some(rec.(current := n)), jobs := f.jobs + [Enqueued(newId, rec.tasks[n])])
  }

  function AdvanceGroup(f: Flow, rec: Record): Flow {
    var n := f.counter + 1;
    f.(counter := n,
       record := Some(rec.(done := n, status := if n >= |rec.tasks| then Completed else rec.status)))
  }

  function AdvanceChord(f: Flow, rec: Record, id: Id, newId: Id): Flow {
    var deps := f.deps - {id};
    var rec1 := rec.(done := |rec.tasks| - |deps|);
    if deps != {} then f.(deps := deps, record := Some(rec1))
    else
      f.(deps := deps, record := Some(rec1.(status := Completed)),
         jobs := f.jobs + if rec.callback.Some? then [Enqueued(newId, rec.callback.value)] else [])
  }

  function OnCompleted(f: Flow, id: Id, newId: Id): Flow {
    if f.record.None? || f.record.value.status != Running then f
    else
      var rec := f.record.value;
      match rec.kind
      case ChainKind => AdvanceChain(f, rec, newId)
      case GroupKind => AdvanceGroup(f, rec)
      case ChordKind => AdvanceChord(f, rec, id, newId)
  }

  function OnFailed(f: Flow, id: Id): Flow {
    if f.record.None? then f else f.(record := Some(f.record.value.(status := Failed)))
  }

  function Launched(ids: seq<Id>, specs: seq<TaskSpec>): seq<Job>
    requires |ids| == |specs|
  {
    seq(|ids|, i requires 0 <= i < |ids| => Enqueued(ids[i], specs[i]))
  }

  function Filled(specs: seq<TaskSpec>, queue: string): seq<TaskSpec> {
    seq(|specs|, i requires 0 <= i < |specs| => WithQueue(specs[i], queue))
  }

  /** What a workflow task is enqueued as: its own kind, payload, priority and retries, three
      retries if it names none, on its own queue, or the workflow's, or the default one. */
  lemma JobOfTask(task: TaskSpec, queue: string, id: Id)
    ensures var job := Enqueued(id, WithQueue(task, queue));
            && job.id == id && job.spec.kind == task.kind && job.spec.payload == task.payload
            && job.spec.priority == task.priority
            && job.spec.maxRetries == (if task.maxRetries == 0 then 3 else task.maxRetries)
            && job.spec.queue == (if task.queue != "" then task.queue else if queue != "" then queue else "default")
  {}

  /** Main result: a group or a chord launches one job per task, in the order of the tasks. */
  lemma LaunchesTasks(tasks: seq<TaskSpec>, queue: string, ids: seq<Id>, i: nat)
    requires |ids| == |tasks| && i < |tasks|
    ensures var jobs := Launched(ids, Filled(tasks, queue));
            && |jobs| == |tasks| && jobs[i].id == ids[i]
            && jobs[i].spec.kind == tasks[i].kind && jobs[i].spec.payload == tasks[i].payload
            && jobs[i].spec.priority == tasks[i].priority
            && jobs[i].spec.maxRetries == (if tasks[i].maxRetries == 0 then 3 else tasks[i].maxRetries)
            && jobs[i].spec.queue
               == (if tasks[i].queue != "" then tasks[i].queue else if queue != "" then queue else "default")
  {
    JobOfTask(tasks[i], queue, ids[i]);
  }

  /** Main result: what a completion does to a workflow that is still running, by its kind: the
      record counts the completion, is completed with the last one, and at most one job is
      enqueued, the chain's next task or the chord's callback. */
  lemma CompletionCounts(f: Flow, id: Id, newId: Id)
    requires f.record.Some? && f.record.value.status == Running
    ensures var rec, g := f.record.value, OnCompleted(f, id, newId);
            var total := |rec.tasks|;
            && g.record.Some? && g.record.value.tasks == rec.tasks && g.record.value.kind == rec.kind
            && match rec.kind
               case ChainKind =>
                 && g.counter == f.counter + 1 == g.record.value.current && g.deps == f.deps
                 && (g.record.value.status == Completed <==> g.counter >= total)
                 && g.jobs == f.jobs + if g.counter < total then [Enqueued(newId, rec.tasks[g.counter])] else []
               case GroupKind =>
                 && g.counter == f.counter + 1 == g.record.value.done && g.deps == f.deps && g.jobs == f.jobs
                 && (g.record.value.status == Completed <==> g.counter >= total)
               case ChordKind =>
                 && g.deps == f.deps - {id} && g.counter == f.counter && g.record.value.done + |g.deps| == total
                 && (g.record.value.status == Completed <==> g.deps == {})
                 && g.jobs == f.jobs + if g.deps == {} && rec.callback.Some? then [Enqueued(newId, rec.callback.value)] else []
  {}

  /** A workflow that is over, or unknown, is left alone by completions. */
  lemma OverIsOver(f: Flow, id: Id, newId: Id)
    requires f.record.None? || f.record.value.status != Running
    ensures OnCompleted(f, id, newId) == f
  {}

  /** A failure fails the record, whatever it was, and does nothing else. */
  lemma FailureFails(f: Flow, id: Id)
    ensures var g := OnFailed(f, id);
            && g.counter == f.counter && g.deps == f.deps && g.jobs == f.jobs
            && (f.record.None? ==> g.record.None?)
            && (f.record.Some? ==>
                  && g.record.Some? && g.record.value.status == Failed
                  && g.record.value.(status := f.record.value.status) == f.record.value)
  {}

  lemma LaunchedSnoc(ids: seq<Id>, specs: seq<TaskSpec>, i: nat)
    requires i < |ids| == |specs|
    ensures Launched(ids[..i + 1], specs[..i + 1]) == Launched(ids[..i], specs[..i]) + [Enqueued(ids[i], specs[i])]
  {}

  lemma MembersSnoc(ids: seq<Id>, i: nat)
    requires i < |ids|
    ensures Members(ids[..i + 1]) == Members(ids[..i]) + {ids[i]}
  {
    assert ids[..i + 1] == ids[..i] + [ids[i]];
    MembersConcat(ids[..i], [ids[i]]);
  }

  class Manager {
    var record: Option<Record>
    var counter: nat
    var deps: set<Id>
    var jobs: seq<Job>

    constructor ()
      ensures View() == Flow(None, 0, {}, [])
    {
      record, counter, deps, jobs := None, 0, {}, [];
    }

    function View(): Flow
      reads this
    {
      Flow(record, counter, deps, jobs)
    }

    method FillQueues(tasks: seq<TaskSpec>, queue: string) returns (specs: seq<TaskSpec>)
      ensures specs == Filled(tasks, queue)
    {
      specs := [];
      for i := 0 to |tasks|
        invariant specs == Filled(tasks[..i], queue)
      {
        var spec := tasks[i];
        if spec.queue == "" {
          spec := spec.(queue := queue);
        }
        specs := specs + [spec];
      }
      assert tasks[..|tasks|] == tasks;
    }

    /** False, and nothing stored, for an empty chain. */
    method CreateChain(tasks: seq<TaskSpec>, queue: string, newId: Id) returns (ok: bool)
      modifies this
      ensures ok <==> tasks != []
      ensures !ok ==> View() == old(View())
      ensures ok ==> View() == old(View()).(record := Some(NewRecord(ChainKind, Filled(tasks, queue), None)),
                                            jobs := old(jobs) + [Enqueued(newId, Filled(tasks, queue)[0])])
    {
      if tasks == [] {
        return false;
      }
      var specs := FillQueues(tasks, queue);
      record := Some(NewRecord(ChainKind, specs, None));
      jobs := jobs + [Enqueued(newId, specs[0])];
      ok := true;
    }

    method CreateGroup(tasks: seq<TaskSpec>, queue: string, newIds: seq<Id>) returns (ok: bool)
      requires |newIds| == |tasks|
      modifies this
      ensures ok <==> tasks != []
      ensures !ok ==> View() == old(View())
      ensures ok ==> View() == old(View()).(record := Some(NewRecord(GroupKind, Filled(tasks, queue), None)),
                                            jobs := old(jobs) + Launched(newIds, Filled(tasks, queue)))
    {
      if tasks == [] {
        return false;
      }
      var specs := FillQueues(tasks, queue);
      record := Some(NewRecord(GroupKind, specs, None));
      for i := 0 to |specs|
        invariant record == Some(NewRecord(GroupKind, specs, None)) && counter == old(counter) && deps == old(deps)
        invariant jobs == old(jobs) + Launched(newIds[..i], specs[..i])
      {
        jobs := jobs + [Enqueued(newIds[i], specs[i])];
        LaunchedSnoc(newIds, specs, i);
      }
      assert newIds[..|specs|] == newIds && specs[..|specs|] == specs;
      ok := true;
    }

    /** Each header is enqueued before it is added to the dependency set. */
    method CreateChord(headers: seq<TaskSpec>, callback: TaskSpec, queue: string, newIds: seq<Id>) returns (ok: bool)
      requires |newIds| == |headers|
      modifies this
      ensures ok <==> headers != []
      ensures !ok ==> View() == old(View())
      ensures ok ==> View() == old(View()).(
                       record := Some(NewRecord(ChordKind, Filled(headers, queue), Some(WithQueue(callback, queue)))),
                       deps := old(deps) + Members(newIds),
                       jobs := old(jobs) + Launched(newIds, Filled(headers, queue)))
    {
      if headers == [] {
        return false;
      }
      var specs := FillQueues(headers, queue);
      var rec := NewRecord(ChordKind, specs, Some(WithQueue(callback, queue)));
      record := Some(rec);
      assert Members(newIds[..0]) == {};
      for i := 0 to |specs|
        invariant record == Some(rec) && counter == old(counter)
        invariant deps == old(deps) + Members(newIds[..i])
        invariant jobs == old(jobs) + Launched(newIds[..i], specs[..i])
      {
        jobs := jobs + [Enqueued(newIds[i], specs[i])];
        deps := deps + {newIds[i]};
        MembersSnoc(newIds, i);
        LaunchedSnoc(newIds, specs, i);
      }
      assert newIds[..|specs|] == newIds && specs[..|specs|] == specs;
      ok := true;
    }

    method OnJobCompleted(id: Id, newId: Id)
      modifies this
      ensures View() == OnCompleted(old(View()), id, newId)
    {
      if record.None? {
        return;
      }
      var rec := record.value;
      if rec.status == Completed || rec.status == Failed {
        return;
      }
      match rec.kind
      case ChainKind =>
        counter := counter + 1;
        rec := rec.(current := counter);
        if rec.current >= |rec.tasks| {
          record := Some(rec.(status := Completed));
          return;
        }
        record := Some(rec);
        jobs := jobs + [Enqueued(newId, rec.tasks[rec.current])];
      case GroupKind =>
        counter := counter + 1;
        rec := rec.(done := counter);
        if rec.done >= |rec.tasks| {
          rec := rec.(status := Completed);
        }
        record := Some(rec);
      case ChordKind =>
        deps := deps - {id};
        var remaining := |deps|;
        rec := rec.(done := |rec.tasks| - remaining);
        if remaining == 0 {
          record := Some(rec.(status := Completed));
          if rec.callback.Some? {
            jobs := jobs + [Enqueued(newId, rec.callback.value)];
          }
          return;
        }
        record := Some(rec);
    }

    method OnJobFailed(id: Id)
      modifies this
      ensures View() == OnFailed(old(View()), id)
    {
      if record.None? {
        return;
      }
      record := Some(record.value.(status := Failed));
    }
  }

  // ---- a group whose calls never overlap ----

  /** The calls made so far: true for a completed task, false for a failed one. */
  function Calls(f: Flow, outcomes: seq<bool>): Flow {
    if outcomes == [] then f
    else
      var before := Calls(f, outcomes[..|outcomes| - 1]);
      if outcomes[|outcomes| - 1] then OnCompleted(before, "", "") else OnFailed(before, "")
  }

  /** Main result: with one call per task, in any order, the record is failed once a task has
      failed, and completed exactly when every task has completed. */
  lemma {:induction false} GroupInSequence(f: Flow, tasks: seq<TaskSpec>, outcomes: seq<bool>)
    requires f.record == Some(NewRecord(GroupKind, tasks, None)) && f.counter == 0 && tasks != []
    requires |outcomes| <= |tasks|
    ensures var g := Calls(f, outcomes);
            && g.record.Some? && g.record.value.kind == GroupKind && g.record.value.tasks == tasks
            && g.record.value.status == (if false in outcomes then Failed
                                         else if |outcomes| == |tasks| then Completed else Running)
            && (false !in outcomes ==> g.counter == |outcomes| && g.record.value.done == |outcomes|)
  {
    if outcomes != [] {
      GroupInSequence(f, tasks, outcomes[..|outcomes| - 1]);
      assert outcomes == outcomes[..|outcomes| - 1] + [outcomes[|outcomes| - 1]];
    }
  }
}
