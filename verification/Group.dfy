/** A group whose tasks each complete once, on any servers, in any interleaving: the
    counter is exact, but the stored record can forget that the group completed. */
module Group {
  import opened Wrappers
  import opened Workflow

  /** A task, from its ack on: the load, the INCR, the save; or, from its death on, the load
      and the save of OnJobFailed. */
  datatype Phase = Waiting | Loaded(rec: Record) | Counted(rec: Record) | FailLoaded(rec: Record) | Finished

  /** created: tasks enqueued so far. results: what the INCRs returned, in order. alone: set
      when the task whose INCR returned the total saves; true if no other task had a record
      still to save. */
  datatype World = World(
    stored: Record, counter: nat, created: nat, phases: seq<Phase>,
    results: seq<nat>, alone: Option<bool>)

  datatype Act =
    | EnqueueOne
    | Load(job: nat) | Incr(job: nat) | Save(job: nat)
    | LoadFailed(job: nat) | SaveFailed(job: nat)

  function Initial(tasks: seq<TaskSpec>): World {
    World(NewRecord(GroupKind, tasks, None), 0, 0, seq(|tasks|, _ => Waiting), [], None)
  }

  predicate Ready(w: World, a: Act) {
    match a
    case EnqueueOne => w.created < |w.phases|
    case Load(j) => j < w.created <= |w.phases| && w.phases[j].Waiting?
    case Incr(j) => j < |w.phases| && w.phases[j].Loaded?
    case Save(j) => j < |w.phases| && w.phases[j].Counted?
    case LoadFailed(j) => j < w.created <= |w.phases| && w.phases[j].Waiting?
    case SaveFailed(j) => j < |w.phases| && w.phases[j].FailLoaded?
  }

  /** Some other task holds a record it has not saved yet. */
  predicate Pending(w: World, j: nat) {
    exists k :: 0 <= k < |w.phases| && k != j && (w.phases[k].Loaded? || w.phases[k].Counted?)
  }

  function Step(w: World, a: Act): World
    requires Ready(w, a)
  {
    match a
    case EnqueueOne => w.(created := w.created + 1)
    case Load(j) =>
      w.(phases := w.phases[j := if w.stored.status != Running then Finished else Loaded(w.stored)])
    case Incr(j) =>
      var n, rec := w.counter + 1, w.phases[j].rec;
      var rec1 := rec.(done := n, status := if n >= |rec.tasks| then Completed else rec.status);
      w.(counter := n, results := w.results + [n], phases := w.phases[j := Counted(rec1)])
    case Save(j) =>
      var rec := w.phases[j].rec;
      w.(stored := rec, phases := w.phases[j := Finished],
         alone := if rec.done == |rec.tasks| then Some(!Pending(w, j)) else w.alone)
    case LoadFailed(j) => w.(phases := w.phases[j := FailLoaded(w.stored)])
    case SaveFailed(j) => w.(stored := w.phases[j].rec.(status := Failed), phases := w.phases[j := Finished])
  }

  function After(w: World, acts: seq<Act>): World {
    if acts == [] then w
    else
      var u, a := After(w, acts[..|acts| - 1]), acts[|acts| - 1];
      if Ready(u, a) then Step(u, a) else u
  }

  predicate Counts(p: Phase) {
    p.Counted? || p.Finished?
  }

  function CountIn(ps: seq<Phase>): nat {
    if ps == [] then 0 else CountIn(ps[..|ps| - 1]) + if Counts(ps[|ps| - 1]) then 1 else 0
  }

  lemma {:induction false} CountInUpdate(ps: seq<Phase>, j: nat, p: Phase)
    requires j < |ps|
    ensures CountIn(ps[j := p]) == CountIn(ps) + (if Counts(p) then 1 else 0) - (if Counts(ps[j]) then 1 else 0)
    decreases |ps|
  {
    var n := |ps| - 1;
    if j == n {
      assert ps[j := p][..n] == ps[..n];
    } else {
      assert ps[j := p][..n] == ps[..n][j := p];
      CountInUpdate(ps[..n], j, p);
    }
  }

  lemma {:induction false} CountInFull(ps: seq<Phase>)
    ensures CountIn(ps) <= |ps|
    ensures CountIn(ps) == |ps| <==> forall j | 0 <= j < |ps| :: Counts(ps[j])
  {
    if ps != [] {
      var n := |ps| - 1;
      CountInFull(ps[..n]);
      assert (forall j | 0 <= j < n :: Counts(ps[j])) <==> (forall j | 0 <= j < n :: Counts(ps[..n][j]));
    }
  }

  lemma {:induction false} NoneCounted(n: nat)
    ensures CountIn(seq(n, _ => Waiting)) == 0
  {
    if n > 0 {
      NoneCounted(n - 1);
      assert seq(n, _ => Waiting)[..n - 1] == seq(n - 1, _ => Waiting);
    }
  }

  ghost predicate PhaseOk(w: World, total: nat, j: nat)
    requires j < |w.phases|
  {
    match w.phases[j]
    case Loaded(rec) => rec.tasks == w.stored.tasks && rec.status == Running
    case Counted(rec) =>
      && rec.tasks == w.stored.tasks && 1 <= rec.done <= w.counter
      && rec.status == (if rec.done == total then Completed else Running)
    case FailLoaded(_) => false
    case Waiting => true
    case Finished => true
  }

  /** Once the task that saw the total has saved: the stored state is completed and stays
      so if it was alone; otherwise a running record is stored or about to be. */
  ghost predicate OutcomeOk(w: World) {
    match w.alone
    case None =>
      w.stored.status == Running
      && (w.counter == |w.phases| ==>
            exists j :: 0 <= j < |w.phases| && w.phases[j].Counted? && w.phases[j].rec.done == |w.phases|)
    case Some(true) =>
      w.counter == |w.phases| && w.stored.status == Completed && forall j | 0 <= j < |w.phases| :: w.phases[j].Finished?
    case Some(false) =>
      w.counter == |w.phases|
      && (w.stored.status == Running || exists j :: 0 <= j < |w.phases| && w.phases[j].Counted?)
      && forall j | 0 <= j < |w.phases| && w.phases[j].Counted? :: w.phases[j].rec.status == Running
  }

  ghost predicate Inv(w: World, tasks: seq<TaskSpec>) {
    && w.stored.tasks == tasks && w.stored.status != Failed && |w.phases| == |tasks| && w.created <= |tasks|
    && w.counter == CountIn(w.phases)
    && |w.results| == w.counter && (forall i | 0 <= i < w.counter :: w.results[i] == i + 1)
    && (forall j | 0 <= j < |w.phases| :: PhaseOk(w, |tasks|, j))
    && OneSeer(w)
    && OutcomeOk(w)
  }

  /** At most one unsaved record counts all tasks. */
  ghost predicate OneSeer(w: World) {
    forall j, k | 0 <= j < k < |w.phases| && w.phases[j].Counted? && w.phases[k].Counted? ::
      w.phases[j].rec.done != w.phases[k].rec.done
  }

  lemma IncrInv(w: World, tasks: seq<TaskSpec>, j: nat)
    requires Inv(w, tasks) && Ready(w, Incr(j))
    ensures Inv(Step(w, Incr(j)), tasks)
  {
    var v := Step(w, Incr(j));
    assert PhaseOk(w, |tasks|, j);
    CountInUpdate(w.phases, j, v.phases[j]);
    CountInFull(w.phases);
    CountInFull(v.phases);
    forall k | 0 <= k < |v.phases| ensures PhaseOk(v, |tasks|, k) { assert PhaseOk(w, |tasks|, k); }
    forall i, k | 0 <= i < k < |v.phases| && v.phases[i].Counted? && v.phases[k].Counted?
      ensures v.phases[i].rec.done != v.phases[k].rec.done
    {
      assert PhaseOk(w, |tasks|, i) && PhaseOk(w, |tasks|, k);
    }
    assert w.alone == None;
    if v.counter == |v.phases| { assert v.phases[j].Counted? && v.phases[j].rec.done == |v.phases|; }
  }

  lemma SaveInv(w: World, tasks: seq<TaskSpec>, j: nat)
    requires Inv(w, tasks) && Ready(w, Save(j))
    ensures Inv(Step(w, Save(j)), tasks)
  {
    var v := Step(w, Save(j));
    assert PhaseOk(w, |tasks|, j);
    CountInUpdate(w.phases, j, Finished);
    CountInFull(w.phases);
    forall k | 0 <= k < |v.phases| ensures PhaseOk(v, |tasks|, k) { assert PhaseOk(w, |tasks|, k); }
    SaveOutcome(w, tasks, j);
  }

  lemma SaveOutcome(w: World, tasks: seq<TaskSpec>, j: nat)
    requires Inv(w, tasks) && Ready(w, Save(j))
    ensures OutcomeOk(Step(w, Save(j)))
  {
    var v := Step(w, Save(j));
    CountInFull(w.phases);
    assert PhaseOk(w, |tasks|, j);
    forall k | 0 <= k < |w.phases| ensures PhaseOk(w, |tasks|, k) {}
    if w.phases[j].rec.done == |tasks| {
      if Pending(w, j) {
        var k :| 0 <= k < |w.phases| && k != j && (w.phases[k].Loaded? || w.phases[k].Counted?);
        assert v.phases[k].Counted?;
        forall i | 0 <= i < |v.phases| && v.phases[i].Counted? ensures v.phases[i].rec.status == Running {
          assert PhaseOk(w, |tasks|, i) && w.phases[i].rec.done != w.phases[j].rec.done;
        }
      }
    } else if w.alone == None && w.counter == |w.phases| {
      var k :| 0 <= k < |w.phases| && w.phases[k].Counted? && w.phases[k].rec.done == |w.phases|;
      assert v.phases[k] == w.phases[k];
    }
  }

  lemma NoneFails(w: World, tasks: seq<TaskSpec>)
    requires Inv(w, tasks)
    ensures forall j | 0 <= j < |w.phases| :: !w.phases[j].FailLoaded?
  {
    forall j | 0 <= j < |w.phases| ensures !w.phases[j].FailLoaded? { assert PhaseOk(w, |tasks|, j); }
  }

  lemma StepInv(w: World, tasks: seq<TaskSpec>, a: Act)
    requires Inv(w, tasks) && Ready(w, a) && !a.LoadFailed?
    ensures Inv(Step(w, a), tasks)
  {
    match a
    case EnqueueOne => assert forall k | 0 <= k < |w.phases| && PhaseOk(w, |tasks|, k) :: PhaseOk(Step(w, a), |tasks|, k);
    case Load(j) => LoadInv(w, tasks, j);
    case Incr(j) => IncrInv(w, tasks, j);
    case Save(j) => SaveInv(w, tasks, j);
    case SaveFailed(_) => NoneFails(w, tasks);
  }

  lemma LoadInv(w: World, tasks: seq<TaskSpec>, j: nat)
    requires Inv(w, tasks) && Ready(w, Load(j))
    ensures Inv(Step(w, Load(j)), tasks)
  {
    var v := Step(w, Load(j));
    CountInFull(w.phases);
    assert !Counts(w.phases[j]);
    assert w.alone == None;
    CountInUpdate(w.phases, j, v.phases[j]);
    forall k | 0 <= k < |v.phases| ensures PhaseOk(v, |tasks|, k) { assert PhaseOk(w, |tasks|, k); }
  }

  predicate NoFailure(acts: seq<Act>) {
    forall i | 0 <= i < |acts| :: !acts[i].LoadFailed?
  }

  lemma {:induction false} RunInv(tasks: seq<TaskSpec>, acts: seq<Act>)
    requires tasks != [] && NoFailure(acts)
    ensures Inv(After(Initial(tasks), acts), tasks)
  {
    if acts == [] {
      NoneCounted(|tasks|);
    } else {
      assert !acts[|acts| - 1].LoadFailed?;
      RunInv(tasks, acts[..|acts| - 1]);
      var u := After(Initial(tasks), acts[..|acts| - 1]);
      if Ready(u, acts[|acts| - 1]) { StepInv(u, tasks, acts[|acts| - 1]); }
    }
  }

  predicate AllDone(w: World) {
    forall j | 0 <= j < |w.phases| :: w.phases[j].Finished?
  }

  /** Main result: the INCRs return 1, 2, up to the number of tasks, so exactly one of them
      sees the total; the stored state is never completed before every task has been counted. */
  lemma CountsAreExact(tasks: seq<TaskSpec>, acts: seq<Act>)
    requires tasks != [] && NoFailure(acts)
    ensures var w := After(Initial(tasks), acts);
            && |w.phases| == |tasks| && w.counter <= |tasks| && |w.results| == w.counter
            && (forall i | 0 <= i < |w.results| :: w.results[i] == i + 1)
            && (w.stored.status == Completed ==> w.counter == |tasks| && forall j | 0 <= j < |tasks| :: Counts(w.phases[j]))
            && w.stored.status != Failed
            && (AllDone(w) ==> w.counter == |tasks|)
  {
    RunInv(tasks, acts);
    var w := After(Initial(tasks), acts);
    CountInFull(w.phases);
  }

  /** Main result: once all calls are over, the record says completed exactly when the task
      that saw the total was, at its save, the only one with a record left to save. */
  lemma CompletedIffAlone(tasks: seq<TaskSpec>, acts: seq<Act>)
    requires tasks != [] && NoFailure(acts) && AllDone(After(Initial(tasks), acts))
    ensures var w := After(Initial(tasks), acts);
            && w.alone.Some?
            && (w.stored.status == Completed <==> w.alone.value)
            && (w.stored.status == Running <==> !w.alone.value)
  {
    RunInv(tasks, acts);
    CountInFull(After(Initial(tasks), acts).phases);
  }

  /** And not being alone does happen: two tasks, the slower save wins. */
  lemma CompletionCanBeForgotten(t: TaskSpec) returns (acts: seq<Act>)
    ensures NoFailure(acts) && AllDone(After(Initial([t, t]), acts)) && After(Initial([t, t]), acts).stored.status == Running
  {
    acts := [];
    acts := Extend([t, t], acts, EnqueueOne);
    acts := Extend([t, t], acts, EnqueueOne);
    acts := Extend([t, t], acts, Load(0));
    acts := Extend([t, t], acts, Load(1));
    acts := Extend([t, t], acts, Incr(0));
    acts := Extend([t, t], acts, Incr(1));
    acts := Extend([t, t], acts, Save(1));
    acts := Extend([t, t], acts, Save(0));
  }

  lemma Extend(tasks: seq<TaskSpec>, acts: seq<Act>, a: Act) returns (more: seq<Act>)
    requires Ready(After(Initial(tasks), acts), a)
    ensures After(Initial(tasks), more) == Step(After(Initial(tasks), acts), a)
    ensures NoFailure(acts) && !a.LoadFailed? ==> NoFailure(more)
  {
    more := acts + [a];
    assert more[..|acts|] == acts;
  }

  // ---- groups in which a task fails ----

  /** Task k has a completion record to save. */
  predicate Completing(w: World, k: nat) {
    k < |w.phases| && (w.phases[k].Loaded? || w.phases[k].Counted?)
  }

  /** No completion carries a failed record. */
  ghost predicate Unfailed(w: World) {
    forall j: nat | Completing(w, j) :: w.phases[j].rec.status != Failed
  }

  lemma {:induction false} RunUnfailed(tasks: seq<TaskSpec>, acts: seq<Act>)
    ensures Unfailed(After(Initial(tasks), acts))
  {
    if acts != [] {
      RunUnfailed(tasks, acts[..|acts| - 1]);
      var u, a := After(Initial(tasks), acts[..|acts| - 1]), acts[|acts| - 1];
      if Ready(u, a) {
        forall j: nat | Completing(Step(u, a), j) ensures Step(u, a).phases[j].rec.status != Failed {
          assert Completing(u, j) || (a.Load? && a.job == j);
        }
      }
    }
  }

  /** Failed, and nobody left to store anything else. */
  ghost predicate ForeverFailed(w: World) {
    w.stored.status == Failed && forall k: nat :: !Completing(w, k)
  }

  lemma {:induction false} RunFailed(w: World, acts: seq<Act>)
    requires ForeverFailed(w)
    ensures ForeverFailed(After(w, acts))
  {
    if acts != [] {
      RunFailed(w, acts[..|acts| - 1]);
      var u, a := After(w, acts[..|acts| - 1]), acts[|acts| - 1];
      if Ready(u, a) {
        forall k: nat ensures !Completing(Step(u, a), k) { assert !Completing(u, k); }
        if a.Incr? || a.Save? { assert Completing(u, a.job); }
      }
    }
  }

  /** The record says failed in every run from here. */
  ghost predicate StaysFailed(w: World) {
    forall more: seq<Act> :: After(w, more).stored.status == Failed
  }

  /** Main result: under any interleaving of completions and failures, a failure that has been
      saved stays in the record for good exactly when no completion had a save to come. */
  lemma FailedStaysIff(tasks: seq<TaskSpec>, acts: seq<Act>, j: nat)
    requires Ready(After(Initial(tasks), acts), SaveFailed(j))
    ensures var w := After(Initial(tasks), acts);
            StaysFailed(Step(w, SaveFailed(j))) <==> forall k: nat :: !Completing(w, k)
  {
    var w := After(Initial(tasks), acts);
    var v := Step(w, SaveFailed(j));
    RunUnfailed(tasks, acts);
    if k: nat :| Completing(w, k) {
      assert v.phases[k] == w.phases[k];
      var more := OverwriteFailed(v, k);
      assert After(v, more).stored.status != Failed;
    } else {
      forall k: nat ensures !Completing(v, k) { assert !Completing(w, k); }
      forall more: seq<Act> ensures After(v, more).stored.status == Failed { RunFailed(v, more); }
    }
  }

  lemma OverwriteFailed(v: World, k: nat) returns (more: seq<Act>)
    requires Completing(v, k) && v.phases[k].rec.status != Failed
    ensures After(v, more).stored.status != Failed
  {
    assert [Save(k)][..0] == [] && [Incr(k)][..0] == [] && [Incr(k), Save(k)][..1] == [Incr(k)];
    if v.phases[k].Counted? {
      more := [Save(k)];
      assert After(v, more) == Step(v, Save(k));
    } else {
      more := [Incr(k), Save(k)];
      assert After(v, [Incr(k)]) == Step(v, Incr(k));
      assert After(v, more) == Step(Step(v, Incr(k)), Save(k));
    }
  }

  /** One call left alone does what OnJobCompleted does in one piece. */
  lemma AloneIsOneCall(w: World, j: nat, id: string, newId: string)
    requires Ready(w, Load(j)) && w.stored.kind == GroupKind && w.stored.status == Running
    ensures var u := Step(w, Load(j));
            var v := Step(Step(u, Incr(j)), Save(j));
            OnCompleted(Flow(Some(w.stored), w.counter, {}, []), id, newId) == Flow(Some(v.stored), v.counter, {}, [])
  {}
}
