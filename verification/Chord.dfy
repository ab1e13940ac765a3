/** A chord under any interleaving of servers: who fires the callback, when, and how often. */
module Chord {
  import opened Wrappers
  import opened Workflow

  /** A job, from its ack (or its death) on. Jobs below the number of headers are headers,
      the others are the callbacks fired so far. */
  datatype Phase = Waiting | Loaded(rec: Record) | Removed(rec: Record) | Firing | FailLoaded(rec: Record) | Finished

  /** launched, added: headers enqueued and headers in the dependency set, during creation.
      gone: headers whose SREM ran. last: the header whose SREM left the set empty.
      firers: the jobs that enqueued the callback, in order. alone: set when last saves;
      true if no other header had a record still to save. */
  datatype World = World(
    stored: Record, deps: set<nat>, launched: nat, added: nat, phases: seq<Phase>,
    gone: set<nat>, last: Option<nat>, firers: seq<nat>, alone: Option<bool>)

  datatype Act =
    | Launch | AddDep
    | Load(job: nat) | Remove(job: nat) | Save(job: nat) | Fire(job: nat)
    | LoadFailed(job: nat) | SaveFailed(job: nat)

  function Initial(headers: seq<TaskSpec>, callback: TaskSpec): World {
    World(NewRecord(ChordKind, headers, Some(callback)), {}, 0, 0, seq(|headers|, _ => Waiting), {}, None, [], None)
  }

  function Total(w: World): nat { |w.stored.tasks| }

  /** The job has been enqueued and nothing was reported of it yet. */
  predicate Reportable(w: World, j: nat) {
    j < |w.phases| && w.phases[j].Waiting? && (j < Total(w) ==> j < w.launched)
  }

  predicate Ready(w: World, a: Act) {
    match a
    case Launch => w.launched == w.added < Total(w)
    case AddDep => w.added < w.launched
    case Load(j) => Reportable(w, j)
    case LoadFailed(j) => Reportable(w, j)
    case Remove(j) => j < |w.phases| && w.phases[j].Loaded?
    case Save(j) => j < |w.phases| && w.phases[j].Removed?
    case Fire(j) => j < |w.phases| && w.phases[j].Firing?
    case SaveFailed(j) => j < |w.phases| && w.phases[j].FailLoaded?
  }

  predicate OthersPending(w: World, j: nat) {
    exists k :: 0 <= k < |w.phases| && k != j && k < Total(w)
                && (w.phases[k].Loaded? || w.phases[k].Removed? || w.phases[k].FailLoaded?)
  }

  function Step(w: World, a: Act): World
    requires Ready(w, a)
  {
    match a
    case Launch => w.(launched := w.launched + 1)
    case AddDep => w.(deps := w.deps + {w.added}, added := w.added + 1)
    case Load(j) =>
      w.(phases := w.phases[j := if w.stored.status != Running then Finished else Loaded(w.stored)])
    case Remove(j) =>
      var deps, rec := w.deps - {j}, w.phases[j].rec;
      var rec1 := rec.(done := |rec.tasks| - |deps|, status := if |deps| == 0 then Completed else rec.status);
      w.(deps := deps, phases := w.phases[j := Removed(rec1)],
         gone := if j < Total(w) then w.gone + {j} else w.gone,
         last := if j < Total(w) && |deps| == 0 then Some(j) else w.last)
    case Save(j) =>
      var rec := w.phases[j].rec;
      w.(stored := rec,
         phases := w.phases[j := if rec.status == Completed && rec.callback.Some? then Firing else Finished],
         alone := if w.last == Some(j) then Some(!OthersPending(w, j)) else w.alone)
    case Fire(j) => w.(phases := w.phases[j := Finished] + [Waiting], firers := w.firers + [j])
    case LoadFailed(j) => w.(phases := w.phases[j := FailLoaded(w.stored)])
    case SaveFailed(j) => w.(stored := w.phases[j].rec.(status := Failed), phases := w.phases[j := Finished])
  }

  function After(w: World, acts: seq<Act>): World {
    if acts == [] then w
    else
      var u, a := After(w, acts[..|acts| - 1]), acts[|acts| - 1];
      if Ready(u, a) then Step(u, a) else u
  }

  /** A header is taken out of the dependency set only once it is in it, and the set is
      emptied only once every header was added. */
  predicate Safe(w: World, a: Act) {
    a.Remove? && a.job < Total(w) ==> a.job < w.added && (w.deps == {a.job} ==> w.added == Total(w))
  }

  predicate SafeRun(w: World, acts: seq<Act>) {
    acts == [] || (SafeRun(w, acts[..|acts| - 1]) && Safe(After(w, acts[..|acts| - 1]), acts[|acts| - 1]))
  }

  /** The numbers below n. */
  function Below(n: nat): (r: set<nat>)
    ensures forall k: nat :: k in r <==> k < n
  {
    if n == 0 then {} else Below(n - 1) + {n - 1}
  }

  predicate AllGone(w: World) {
    w.gone == Below(Total(w))
  }

  ghost predicate JobOk(w: World, j: nat)
    requires j < |w.phases|
  {
    var header := j < Total(w);
    match w.phases[j]
    case Waiting => j !in w.gone
    case Loaded(rec) => rec.tasks == w.stored.tasks && rec.callback.Some? && rec.status == Running && j !in w.gone
    case Removed(rec) =>
      && rec.tasks == w.stored.tasks && rec.callback.Some? && rec.status != Failed
      && (header ==> j in w.gone && (rec.status == Completed <==> w.last == Some(j)))
    case Firing => j !in w.firers && (header ==> w.last == Some(j) && j in w.gone)
    case FailLoaded(rec) => rec.tasks == w.stored.tasks && rec.callback.Some? && j !in w.gone
    case Finished => w.last == Some(j) ==> j in w.firers
  }

  ghost predicate FirersOk(w: World) {
    && |w.phases| == Total(w) + |w.firers|
    && (forall i | 0 <= i < |w.firers| :: w.firers[i] < |w.phases| && w.phases[w.firers[i]].Finished?)
    && (forall i, k | 0 <= i < k < |w.firers| :: w.firers[i] != w.firers[k])
    && (forall i | 0 <= i < |w.firers| && w.firers[i] < Total(w) :: w.last == Some(w.firers[i]))
    && (w.firers != [] ==> w.last.Some?)
  }

  ghost predicate Inv(w: World, headers: seq<TaskSpec>) {
    && w.stored.tasks == headers && w.stored.callback.Some?
    && w.added <= w.launched <= w.added + 1 && w.launched <= |headers| <= |w.phases|
    && (forall j | w.launched <= j < |headers| :: w.phases[j].Waiting?)
    && w.gone <= Below(w.added) && w.deps == Below(w.added) - w.gone
    && (w.deps == {} ==> w.added == 0 || w.added == |headers|)
    && (w.last.Some? <==> AllGone(w))
    && (w.last.Some? ==> w.last.value < |headers|)
    && (w.stored.status == Completed ==> w.last.Some?)
    && (forall j | 0 <= j < |w.phases| :: JobOk(w, j))
    && FirersOk(w)
  }

  /** Taking a header out of the set empties it exactly when all are gone. */
  lemma LastOut(deps: set<nat>, gone: set<nat>, n: nat, j: nat)
    requires j < n && gone <= Below(n) && deps == Below(n) - gone
    ensures deps - {j} == Below(n) - (gone + {j}) && gone + {j} <= Below(n)
    ensures |deps - {j}| == 0 <==> gone + {j} == Below(n)
  {
    assert |deps - {j}| == 0 <==> deps - {j} == {};
  }

  lemma RemoveHeader(w: World, headers: seq<TaskSpec>, j: nat)
    requires Inv(w, headers) && Ready(w, Remove(j)) && Safe(w, Remove(j)) && j < |headers|
    ensures Inv(Step(w, Remove(j)), headers)
  {
    var v := Step(w, Remove(j));
    RemoveEmpties(w, headers, j);
    RemoveJobs(w, headers, j);
    assert w.firers == [] && v.firers == [];
  }

  lemma RemoveJobs(w: World, headers: seq<TaskSpec>, j: nat)
    requires Inv(w, headers) && Ready(w, Remove(j)) && Safe(w, Remove(j)) && j < |headers|
    ensures var v := Step(w, Remove(j));
            && (forall k | 0 <= k < |v.phases| :: JobOk(v, k))
            && (forall k | v.launched <= k < |headers| :: v.phases[k].Waiting?)
  {
    var v := Step(w, Remove(j));
    forall k | 0 <= k < |v.phases| ensures JobOk(v, k) { RemoveJob(w, headers, j, k); }
    forall k | v.launched <= k < |headers| ensures v.phases[k].Waiting? { assert v.phases[k] == w.phases[k]; }
  }

  lemma RemoveEmpties(w: World, headers: seq<TaskSpec>, j: nat)
    requires Inv(w, headers) && Ready(w, Remove(j)) && Safe(w, Remove(j)) && j < |headers|
    ensures var v := Step(w, Remove(j));
            && w.last == None && v.gone <= Below(v.added) && v.deps == Below(v.added) - v.gone
            && (v.deps == {} ==> v.added == |headers|)
            && (v.last == Some(j) <==> AllGone(v)) && (v.last == Some(j) <==> v.deps == {})
            && (v.last == Some(j) || v.last == None)
  {
    assert JobOk(w, j);
    assert j in Below(|headers|);
    LastOut(w.deps, w.gone, w.added, j);
    assert w.deps - {j} == {} ==> w.deps == {j};
  }

  lemma RemoveJob(w: World, headers: seq<TaskSpec>, j: nat, k: nat)
    requires Inv(w, headers) && Ready(w, Remove(j)) && Safe(w, Remove(j)) && j < |headers| && k < |w.phases|
    ensures JobOk(Step(w, Remove(j)), k)
  {
    RemoveEmpties(w, headers, j);
    assert JobOk(w, j) && JobOk(w, k);
  }

  lemma RemoveCallback(w: World, headers: seq<TaskSpec>, j: nat)
    requires Inv(w, headers) && Ready(w, Remove(j)) && j >= |headers|
    ensures Inv(Step(w, Remove(j)), headers)
  {
    var v := Step(w, Remove(j));
    assert JobOk(w, j);
    assert v.deps == w.deps;
    forall k | 0 <= k < |v.phases| ensures JobOk(v, k) { assert JobOk(w, k); }
  }

  lemma RemoveInv(w: World, headers: seq<TaskSpec>, j: nat)
    requires Inv(w, headers) && Ready(w, Remove(j)) && Safe(w, Remove(j))
    ensures Inv(Step(w, Remove(j)), headers)
  {
    if j < |headers| { RemoveHeader(w, headers, j); } else { RemoveCallback(w, headers, j); }
  }

  lemma SaveInv(w: World, headers: seq<TaskSpec>, j: nat)
    requires Inv(w, headers) && Ready(w, Save(j))
    ensures Inv(Step(w, Save(j)), headers)
  {
    var v := Step(w, Save(j));
    assert JobOk(w, j);
    forall k | 0 <= k < |v.phases| ensures JobOk(v, k) { assert JobOk(w, k); }
  }

  lemma FireInv(w: World, headers: seq<TaskSpec>, j: nat)
    requires Inv(w, headers) && Ready(w, Fire(j))
    ensures Inv(Step(w, Fire(j)), headers)
  {
    var v := Step(w, Fire(j));
    assert JobOk(w, j);
    forall k | 0 <= k < |v.phases| ensures JobOk(v, k) {
      if k < |w.phases| { assert JobOk(w, k); }
    }
  }

  lemma StepInv(w: World, headers: seq<TaskSpec>, a: Act)
    requires Inv(w, headers) && Ready(w, a) && Safe(w, a) && headers != []
    ensures Inv(Step(w, a), headers)
  {
    match a
    case Remove(j) => RemoveInv(w, headers, j);
    case Save(j) => SaveInv(w, headers, j);
    case Fire(j) => FireInv(w, headers, j);
    case Launch => CreateInv(w, headers, a);
    case AddDep => CreateInv(w, headers, a);
    case Load(_) => ReportInv(w, headers, a);
    case LoadFailed(_) => ReportInv(w, headers, a);
    case SaveFailed(_) => ReportInv(w, headers, a);
  }

  lemma CreateInv(w: World, headers: seq<TaskSpec>, a: Act)
    requires Inv(w, headers) && Ready(w, a) && (a.Launch? || a.AddDep?)
    ensures Inv(Step(w, a), headers)
  {
    var v := Step(w, a);
    forall k | 0 <= k < |v.phases| ensures JobOk(v, k) { assert JobOk(w, k); }
  }

  lemma ReportInv(w: World, headers: seq<TaskSpec>, a: Act)
    requires Inv(w, headers) && Ready(w, a) && (a.Load? || a.LoadFailed? || a.SaveFailed?)
    ensures Inv(Step(w, a), headers)
  {
    var v := Step(w, a);
    assert JobOk(w, a.job);
    forall k | 0 <= k < |v.phases| ensures JobOk(v, k) { assert JobOk(w, k); }
  }

  lemma InitialInv(headers: seq<TaskSpec>, callback: TaskSpec)
    requires headers != []
    ensures Inv(Initial(headers, callback), headers) && Before(Initial(headers, callback))
    ensures Clean(Initial(headers, callback), headers)
  {
    assert 0 in Below(|headers|);
  }

  lemma {:induction false} RunInv(w: World, headers: seq<TaskSpec>, acts: seq<Act>)
    requires headers != [] && Inv(w, headers) && SafeRun(w, acts)
    ensures Inv(After(w, acts), headers)
  {
    if acts != [] {
      RunInv(w, headers, acts[..|acts| - 1]);
      var u := After(w, acts[..|acts| - 1]);
      if Ready(u, acts[|acts| - 1]) { StepInv(u, headers, acts[|acts| - 1]); }
    }
  }

  /** Main result: the callback is enqueued only after every header's completion has left the
      dependency set, so not at all while a header is unfinished or has failed; and at most
      one header enqueues it. */
  lemma CallbackOnlyAfterAll(headers: seq<TaskSpec>, callback: TaskSpec, acts: seq<Act>)
    requires headers != [] && SafeRun(Initial(headers, callback), acts)
    ensures var w := After(Initial(headers, callback), acts);
            && (w.firers != [] ==> w.gone == Below(|headers|) && w.deps == {})
            && (forall i, k | 0 <= i < |w.firers| && 0 <= k < |w.firers| && w.firers[i] < |headers| && w.firers[k] < |headers| ::
                  i == k)
  {
    InitialInv(headers, callback);
    RunInv(Initial(headers, callback), headers, acts);
  }

  predicate NoFailure(acts: seq<Act>) {
    forall i | 0 <= i < |acts| :: !acts[i].LoadFailed?
  }

  /** Without failures a header that is finished has been taken out of the set. */
  ghost predicate Clean(w: World, headers: seq<TaskSpec>) {
    && w.stored.status != Failed
    && forall j | 0 <= j < |w.phases| ::
         && !w.phases[j].FailLoaded?
         && (j < |headers| && (w.phases[j].Finished? || w.phases[j].Firing?) ==> j in w.gone)
  }

  lemma StepClean(w: World, headers: seq<TaskSpec>, a: Act)
    requires Inv(w, headers) && Clean(w, headers) && Ready(w, a) && !a.LoadFailed?
    ensures Clean(Step(w, a), headers)
  {
    match a
    case Load(j) => LoadClean(w, headers, j);
    case Remove(j) => assert JobOk(w, j);
    case Save(j) => SaveClean(w, headers, j);
    case Fire(j) => FireClean(w, headers, j);
    case SaveFailed(_) =>
    case Launch =>
    case AddDep =>
  }

  lemma LoadClean(w: World, headers: seq<TaskSpec>, j: nat)
    requires Inv(w, headers) && Clean(w, headers) && Ready(w, Load(j))
    ensures Clean(Step(w, Load(j)), headers)
  {
    var v := Step(w, Load(j));
    assert w.stored.status == Completed ==> AllGone(w);
    forall k | 0 <= k < |v.phases| && k != j ensures v.phases[k] == w.phases[k] {}
  }

  lemma SaveClean(w: World, headers: seq<TaskSpec>, j: nat)
    requires Inv(w, headers) && Clean(w, headers) && Ready(w, Save(j))
    ensures Clean(Step(w, Save(j)), headers)
  {
    assert JobOk(w, j);
    var v := Step(w, Save(j));
    forall k | 0 <= k < |v.phases| && k != j ensures v.phases[k] == w.phases[k] {}
  }

  lemma FireClean(w: World, headers: seq<TaskSpec>, j: nat)
    requires Inv(w, headers) && Clean(w, headers) && Ready(w, Fire(j))
    ensures Clean(Step(w, Fire(j)), headers)
  {
    var v := Step(w, Fire(j));
    forall k | 0 <= k < |w.phases| && k != j ensures v.phases[k] == w.phases[k] {}
  }

  lemma {:induction false} RunClean(w: World, headers: seq<TaskSpec>, acts: seq<Act>)
    requires headers != [] && Inv(w, headers) && Clean(w, headers) && SafeRun(w, acts) && NoFailure(acts)
    ensures Clean(After(w, acts), headers)
  {
    if acts != [] {
      var front := acts[..|acts| - 1];
      assert !acts[|acts| - 1].LoadFailed?;
      RunClean(w, headers, front);
      RunInv(w, headers, front);
      var u := After(w, front);
      if Ready(u, acts[|acts| - 1]) { StepClean(u, headers, acts[|acts| - 1]); }
    }
  }

  predicate HeadersDone(w: World, n: nat) {
    n <= |w.phases| && forall j | 0 <= j < n :: w.phases[j].Finished?
  }

  /** Entry i of the firers is a header, and no other entry is. */
  predicate SoleHeader(firers: seq<nat>, n: nat, i: nat) {
    i < |firers| && firers[i] < n && forall k | 0 <= k < |firers| && firers[k] < n :: k == i
  }

  lemma LastIsSole(w: World, i: nat)
    requires FirersOk(w) && w.last.Some? && w.last.value < Total(w)
    requires i < |w.firers| && w.firers[i] == w.last.value
    ensures SoleHeader(w.firers, Total(w), i)
  {
    forall k | 0 <= k < |w.firers| && w.firers[k] < Total(w) ensures k == i {
      assert w.last == Some(w.firers[k]);
    }
  }

  /** What a chord whose headers all complete is for: no callback before the last of them,
      and, once they are all done, one callback for the lot. */
  ghost predicate Right(w: World, n: nat) {
    && (w.firers != [] ==> AllGone(w))
    && (HeadersDone(w, n) ==> exists i :: SoleHeader(w.firers, n, i))
  }

  /** Main result: if no header fails, then once all of them are done exactly one has
      enqueued the callback, and none before. */
  lemma ExactlyOneHeaderFires(headers: seq<TaskSpec>, callback: TaskSpec, acts: seq<Act>)
    requires headers != [] && SafeRun(Initial(headers, callback), acts) && NoFailure(acts)
    ensures Right(After(Initial(headers, callback), acts), |headers|)
  {
    InitialInv(headers, callback);
    StaysRight(Initial(headers, callback), headers, acts);
  }

  lemma StaysRight(w: World, headers: seq<TaskSpec>, acts: seq<Act>)
    requires headers != [] && Inv(w, headers) && Clean(w, headers) && SafeRun(w, acts) && NoFailure(acts)
    ensures Right(After(w, acts), |headers|)
  {
    RunInv(w, headers, acts);
    RunClean(w, headers, acts);
    if HeadersDone(After(w, acts), |headers|) { DoneMeansFired(After(w, acts), headers); }
  }

  lemma DoneMeansFired(w: World, headers: seq<TaskSpec>)
    requires Inv(w, headers) && Clean(w, headers) && HeadersDone(w, |headers|)
    ensures exists i :: SoleHeader(w.firers, |headers|, i)
  {
    forall j: nat | j < |headers| ensures j in w.gone { assert w.phases[j].Finished?; }
    assert w.gone == Below(|headers|);
    assert JobOk(w, w.last.value);
    var i :| 0 <= i < |w.firers| && w.firers[i] == w.last.value;
    LastIsSole(w, i);
  }

  // ---- how often the callback runs ----

  /** The firing header was the only one with a record to save: from then on the stored
      record is settled and no callback finds it running. */
  ghost predicate Settled(w: World) {
    w.alone == Some(true) ==>
      && w.stored.status != Running
      && (forall j | 0 <= j < |w.phases| :: !w.phases[j].Loaded? && !w.phases[j].Removed?)
      && (forall j | 0 <= j < |w.phases| && w.phases[j].Firing? :: j < Total(w))
      && (forall i | 0 <= i < |w.firers| :: w.firers[i] < Total(w))
  }

  /** Until the firing header has saved, nobody has fired; once it has, it is past saving. */
  ghost predicate Before(w: World) {
    && (w.alone == None ==>
          && w.firers == []
          && (forall j | 0 <= j < |w.phases| :: !w.phases[j].Firing?)
          && (w.last.Some? ==> w.last.value < |w.phases| && w.phases[w.last.value].Removed?))
    && (w.alone.Some? ==>
          w.last.Some? && w.last.value < |w.phases| && (w.phases[w.last.value].Firing? || w.phases[w.last.value].Finished?))
  }

  lemma RemoveSettled(w: World, headers: seq<TaskSpec>, j: nat)
    requires Inv(w, headers) && Before(w) && Settled(w) && Ready(w, Remove(j)) && Safe(w, Remove(j))
    ensures Before(Step(w, Remove(j))) && Settled(Step(w, Remove(j)))
  {
    assert JobOk(w, j);
  }

  lemma SaveSettled(w: World, headers: seq<TaskSpec>, j: nat)
    requires Inv(w, headers) && Before(w) && Settled(w) && Ready(w, Save(j))
    ensures Before(Step(w, Save(j))) && Settled(Step(w, Save(j)))
  {
    assert JobOk(w, j);
    if w.last == Some(j) {
      assert w.alone == None && |w.phases| == |headers|;
      forall k | 0 <= k < |w.phases| ensures !w.phases[k].Loaded? && !w.phases[k].FailLoaded? { assert JobOk(w, k); }
    }
  }

  lemma FireSettled(w: World, headers: seq<TaskSpec>, j: nat)
    requires Inv(w, headers) && Before(w) && Settled(w) && Ready(w, Fire(j))
    ensures Before(Step(w, Fire(j))) && Settled(Step(w, Fire(j)))
  {
    assert JobOk(w, j);
  }

  lemma LoadSettled(w: World, a: Act)
    requires Before(w) && Settled(w) && Ready(w, a) && (a.Load? || a.LoadFailed?)
    ensures Before(Step(w, a)) && Settled(Step(w, a))
  {}

  lemma SaveFailedSettled(w: World, headers: seq<TaskSpec>, j: nat)
    requires Inv(w, headers) && Before(w) && Settled(w) && Ready(w, SaveFailed(j))
    ensures Before(Step(w, SaveFailed(j))) && Settled(Step(w, SaveFailed(j)))
  {
    assert JobOk(w, j);
  }

  lemma StepSettled(w: World, headers: seq<TaskSpec>, a: Act)
    requires Inv(w, headers) && Before(w) && Settled(w) && Ready(w, a) && Safe(w, a)
    ensures Before(Step(w, a)) && Settled(Step(w, a))
  {
    match a
    case Remove(j) => RemoveSettled(w, headers, j);
    case Save(j) => SaveSettled(w, headers, j);
    case Fire(j) => FireSettled(w, headers, j);
    case Load(_) => LoadSettled(w, a);
    case LoadFailed(_) => LoadSettled(w, a);
    case SaveFailed(j) => SaveFailedSettled(w, headers, j);
    case Launch =>
    case AddDep =>
  }

  lemma {:induction false} RunSettled(w: World, headers: seq<TaskSpec>, acts: seq<Act>)
    requires headers != [] && Inv(w, headers) && Before(w) && Settled(w) && SafeRun(w, acts)
    ensures Before(After(w, acts)) && Settled(After(w, acts))
    ensures w.alone == Some(true) ==> After(w, acts).alone == Some(true)
  {
    if acts != [] {
      var front := acts[..|acts| - 1];
      RunSettled(w, headers, front);
      RunInv(w, headers, front);
      var u, a := After(w, front), acts[|acts| - 1];
      if Ready(u, a) {
        StepSettled(u, headers, a);
        if a.Save? { assert JobOk(u, a.job); }
      }
    }
  }

  /** The header that emptied the set is about to save. */
  predicate LastSaves(w: World, j: nat) {
    w.last == Some(j) && Ready(w, Save(j))
  }

  /** The callback is enqueued a second time in some run from here. */
  ghost predicate CanFireTwice(w: World) {
    exists more :: SafeRun(w, more) && |After(w, more).firers| >= 2
  }

  /** Main result: the callback can be enqueued twice exactly when another header still has a
      record to save while the header that emptied the set saves its own. */
  lemma TwiceIffOthersPending(headers: seq<TaskSpec>, callback: TaskSpec, acts: seq<Act>, j: nat)
    requires headers != [] && SafeRun(Initial(headers, callback), acts)
    requires LastSaves(After(Initial(headers, callback), acts), j)
    ensures var w := After(Initial(headers, callback), acts);
            CanFireTwice(Step(w, Save(j))) <==> OthersPending(w, j)
  {
    InitialInv(headers, callback);
    var w := After(Initial(headers, callback), acts);
    RunInv(Initial(headers, callback), headers, acts);
    RunSettled(Initial(headers, callback), headers, acts);
    assert JobOk(w, j) && w.alone == None;
    if OthersPending(w, j) {
      var k :| 0 <= k < |w.phases| && k != j && k < Total(w)
               && (w.phases[k].Loaded? || w.phases[k].Removed? || w.phases[k].FailLoaded?);
      var more := FireTwice(w, headers, j, k);
      assert SafeRun(Step(w, Save(j)), more);
    } else {
      forall more | SafeRun(Step(w, Save(j)), more) ensures |After(Step(w, Save(j)), more).firers| <= 1 {
        AloneFiresOnce(w, headers, j, more);
      }
    }
  }

  /** If it saves alone the callback is enqueued at most once for good, its own completion
      included. */
  lemma AloneFiresOnce(w: World, headers: seq<TaskSpec>, j: nat, more: seq<Act>)
    requires headers != [] && Inv(w, headers) && Before(w) && Settled(w)
    requires LastSaves(w, j) && !OthersPending(w, j) && SafeRun(Step(w, Save(j)), more)
    ensures |After(Step(w, Save(j)), more).firers| <= 1
  {
    var v := Step(w, Save(j));
    SaveInv(w, headers, j);
    SaveSettled(w, headers, j);
    RunInv(v, headers, more);
    RunSettled(v, headers, more);
    AtMostOneHeader(After(v, more));
  }

  /** The slower header stores its running record over the completed one, and the callback's
      own completion finds the set empty. */
  lemma FireTwice(w: World, headers: seq<TaskSpec>, j: nat, k: nat) returns (more: seq<Act>)
    requires Inv(w, headers) && Before(w) && w.alone == None && LastSaves(w, j)
    requires k < |headers| && k != j && (w.phases[k].Loaded? || w.phases[k].Removed? || w.phases[k].FailLoaded?)
    ensures SafeRun(Step(w, Save(j)), more) && |After(Step(w, Save(j)), more).firers| == 2
  {
    var v := Step(w, Save(j));
    SlowerSaves(w, headers, j, k);
    more := Extend(v, [], Fire(j));
    more := Extend(v, more, Save(k));
    more := CallbackAgain(v, more, |headers|);
  }

  lemma SlowerSaves(w: World, headers: seq<TaskSpec>, j: nat, k: nat)
    requires Inv(w, headers) && Before(w) && w.alone == None && LastSaves(w, j)
    requires k < |headers| && k != j && (w.phases[k].Loaded? || w.phases[k].Removed? || w.phases[k].FailLoaded?)
    ensures Ready(Step(w, Save(j)), Fire(j)) && Ready(Step(Step(w, Save(j)), Fire(j)), Save(k))
    ensures var u, n := Step(Step(Step(w, Save(j)), Fire(j)), Save(k)), |headers|;
            && n == Total(u) && |u.phases| == n + 1 && u.phases[n].Waiting?
            && u.stored.status == Running && u.stored.callback.Some? && u.deps == {} && |u.firers| == 1
  {
    assert JobOk(w, j) && JobOk(w, k);
    assert w.phases[k].Removed? && w.phases[k].rec.status == Running;
    assert w.gone == Below(|headers|) && w.added == |headers|;
    assert |w.phases| == |headers| && w.deps == {};
  }

  lemma CallbackAgain(v: World, acts: seq<Act>, n: nat) returns (more: seq<Act>)
    requires var u := After(v, acts);
             && SafeRun(v, acts) && n == Total(u) && |u.phases| == n + 1 && u.phases[n].Waiting?
             && u.stored.status == Running && u.stored.callback.Some? && u.deps == {}
    ensures SafeRun(v, more) && |After(v, more).firers| == |After(v, acts).firers| + 1
  {
    assert After(v, acts).deps - {n} == {};
    more := Extend(v, acts, Load(n));
    more := Extend(v, more, Remove(n));
    more := Extend(v, more, Save(n));
    more := Extend(v, more, Fire(n));
  }

  lemma AtMostOneHeader(w: World)
    requires FirersOk(w) && forall i | 0 <= i < |w.firers| :: w.firers[i] < Total(w)
    ensures |w.firers| <= 1
  {
    if |w.firers| >= 2 {
      SameHeader(w, 0, 1);
      assert false;
    }
  }

  lemma SameHeader(w: World, i: nat, k: nat)
    requires FirersOk(w) && i < |w.firers| && k < |w.firers|
    requires w.firers[i] < Total(w) && w.firers[k] < Total(w)
    ensures i == k
  {
    assert w.last == Some(w.firers[i]) && w.last == Some(w.firers[k]);
  }

  lemma Extend(w0: World, acts: seq<Act>, a: Act) returns (more: seq<Act>)
    requires Ready(After(w0, acts), a)
    ensures After(w0, more) == Step(After(w0, acts), a)
    ensures SafeRun(w0, more) <==> SafeRun(w0, acts) && Safe(After(w0, acts), a)
    ensures NoFailure(more) <==> NoFailure(acts) && !a.LoadFailed?
  {
    more := acts + [a];
    assert more[..|acts|] == acts && more[|acts|] == a;
    forall i | 0 <= i < |acts| ensures more[i] == acts[i] {}
    assert NoFailure(more) ==> forall i | 0 <= i < |acts| :: !more[i].LoadFailed?;
  }

  /** Both headers of two are in the set, and nothing was reported yet. */
  lemma CreateTwo(h: TaskSpec, callback: TaskSpec) returns (acts: seq<Act>)
    ensures SafeRun(Initial([h, h], callback), acts)
    ensures After(Initial([h, h], callback), acts)
            == Initial([h, h], callback).(deps := {0, 1}, launched := 2, added := 2)
  {
    var w0 := Initial([h, h], callback);
    acts := Extend(w0, [], Launch);
    acts := Extend(w0, acts, AddDep);
    acts := Extend(w0, acts, Launch);
    acts := Extend(w0, acts, AddDep);
    assert After(w0, acts).deps == {0, 1};
  }

  lemma BothLoaded(h: TaskSpec, callback: TaskSpec) returns (acts: seq<Act>)
    ensures SafeRun(Initial([h, h], callback), acts)
    ensures var w0 := Initial([h, h], callback);
            After(w0, acts) == w0.(deps := {0, 1}, launched := 2, added := 2,
                                   phases := [Loaded(w0.stored), Loaded(w0.stored)])
  {
    var w0 := Initial([h, h], callback);
    acts := CreateTwo(h, callback);
    acts := Extend(w0, acts, Load(0));
    acts := Extend(w0, acts, Load(1));
  }

  /** Others being pending happens: header 1 empties the set while header 0 still has its
      record to save. */
  lemma CallbackCanRunTwice(h: TaskSpec, callback: TaskSpec) returns (acts: seq<Act>)
    ensures SafeRun(Initial([h, h], callback), acts)
    ensures LastSaves(After(Initial([h, h], callback), acts), 1)
    ensures CanFireTwice(Step(After(Initial([h, h], callback), acts), Save(1)))
  {
    var w0 := Initial([h, h], callback);
    acts := BothLoaded(h, callback);
    acts := Extend(w0, acts, Remove(0));
    assert After(w0, acts).deps == {1};
    acts := Extend(w0, acts, Remove(1));
    assert After(w0, acts).deps == {};
    assert After(w0, acts).phases[0].Removed?;
    TwiceIffOthersPending([h, h], callback, acts, 1);
  }

  // ---- exactly when a chord goes right ----

  /** Right now and in every run from here on whose steps are safe. */
  ghost predicate AlwaysRight(w: World, n: nat) {
    forall more | SafeRun(w, more) && NoFailure(more) :: Right(After(w, more), n)
  }

  /** Main result: when headers complete, their SREMs go right until one is not safe; that one
      lets the chord go wrong by safe steps alone, unless it has a single header. */
  lemma RightIffSafe(headers: seq<TaskSpec>, callback: TaskSpec, acts: seq<Act>, j: nat)
    requires headers != [] && SafeRun(Initial(headers, callback), acts) && NoFailure(acts)
    requires j < |headers| && Ready(After(Initial(headers, callback), acts), Remove(j))
    ensures var w := After(Initial(headers, callback), acts);
            AlwaysRight(Step(w, Remove(j)), |headers|) <==> Safe(w, Remove(j)) || |headers| == 1
  {
    var w0 := Initial(headers, callback);
    var w := After(w0, acts);
    var v := Step(w, Remove(j));
    InitialInv(headers, callback);
    RunInv(w0, headers, acts);
    RunClean(w0, headers, acts);
    if Safe(w, Remove(j)) {
      StepInv(w, headers, Remove(j));
      StepClean(w, headers, Remove(j));
      forall more | SafeRun(v, more) && NoFailure(more) ensures Right(After(v, more), |headers|) {
        StaysRight(v, headers, more);
      }
    } else if |headers| == 1 {
      RunSingle(w0, acts);
      SingleStep(w, Remove(j));
      forall more | SafeRun(v, more) && NoFailure(more) ensures Right(After(v, more), |headers|) {
        RunSingle(v, more);
        SingleRight(After(v, more));
      }
    } else {
      var more := UnsafeGoesWrong(w, headers, j);
      assert SafeRun(v, more) && NoFailure(more) && !Right(After(v, more), |headers|);
    }
  }

  /** Before any header finds the set empty, no record of a header is completed. */
  lemma RunningPhase(w: World, headers: seq<TaskSpec>, k: nat)
    requires Inv(w, headers) && Clean(w, headers) && w.last == None && k < |headers|
    ensures HungPhase(headers, w.phases[k]) && !w.phases[k].FailLoaded?
  {
    assert JobOk(w, k);
  }

  /** Until a header finds the set empty, no callback is enqueued. */
  lemma StillRunning(w: World, headers: seq<TaskSpec>, j: nat)
    requires Inv(w, headers) && Clean(w, headers) && j < |headers| && Ready(w, Remove(j))
    ensures w.last == None && w.firers == [] && |w.phases| == |headers| && w.stored.status == Running
    ensures j !in w.gone && j < w.launched
    ensures w.phases[j].rec.tasks == headers && w.phases[j].rec.callback.Some? && w.phases[j].rec.status == Running
    ensures forall k | 0 <= k < |headers| :: HungPhase(headers, w.phases[k]) && !w.phases[k].FailLoaded?
  {
    assert JobOk(w, j);
    assert j in Below(|headers|) && w.last == None;
    forall k | 0 <= k < |headers| ensures HungPhase(headers, w.phases[k]) && !w.phases[k].FailLoaded? {
      RunningPhase(w, headers, k);
    }
  }

  lemma UnsafeGoesWrong(w: World, headers: seq<TaskSpec>, j: nat) returns (more: seq<Act>)
    requires Inv(w, headers) && Clean(w, headers) && |headers| >= 2
    requires j < |headers| && Ready(w, Remove(j)) && !Safe(w, Remove(j))
    ensures var v := Step(w, Remove(j));
            SafeRun(v, more) && NoFailure(more) && !Right(After(v, more), |headers|)
  {
    if w.deps - {j} == {} {
      more := FiresEarly(w, headers, j);
    } else {
      more := HangsToTheEnd(w, headers, j);
    }
  }

  /** The set ran empty with a header still to be added: the callback goes out without it. */
  lemma FiresEarly(w: World, headers: seq<TaskSpec>, j: nat) returns (more: seq<Act>)
    requires Inv(w, headers) && Clean(w, headers) && |headers| >= 2
    requires j < |headers| && Ready(w, Remove(j)) && !Safe(w, Remove(j)) && w.deps - {j} == {}
    ensures var v := Step(w, Remove(j));
            SafeRun(v, more) && NoFailure(more) && !Right(After(v, more), |headers|)
  {
    EarlyFires(w, headers, j);
    var v := Step(w, Remove(j));
    more := Extend(v, [], Save(j));
    more := Extend(v, more, Fire(j));
  }

  lemma EarlyFires(w: World, headers: seq<TaskSpec>, j: nat)
    requires Inv(w, headers) && Clean(w, headers) && |headers| >= 2
    requires j < |headers| && Ready(w, Remove(j)) && !Safe(w, Remove(j)) && w.deps - {j} == {}
    ensures var v := Step(w, Remove(j));
            && Ready(v, Save(j)) && Ready(Step(v, Save(j)), Fire(j))
            && var u := Step(Step(v, Save(j)), Fire(j)); u.firers == [j] && !AllGone(u)
  {
    StillRunning(w, headers, j);
    MissingHeader(w, headers, j);
    var v := Step(w, Remove(j));
    assert v.phases[j].rec.status == Completed && v.phases[j].rec.tasks == headers;
  }

  lemma MissingHeader(w: World, headers: seq<TaskSpec>, j: nat)
    requires Inv(w, headers) && |headers| >= 2
    requires j < |headers| && Ready(w, Remove(j)) && !Safe(w, Remove(j)) && w.deps - {j} == {}
    ensures w.gone + {j} != Below(|headers|)
  {
    var missing := if j < w.added then w.added else 1;
    assert j >= w.added ==> w.deps == {};
    assert missing in Below(|headers|) && missing !in w.gone + {j};
  }

  // ---- a dependency nobody removes ----

  /** Header j has spent its SREM and is in the set; nobody has found the set empty. */
  ghost predicate Hung(w: World, j: nat) {
    && j in w.deps && j < |w.phases| == Total(w) && !w.phases[j].Waiting? && !w.phases[j].Loaded?
    && w.firers == [] && w.stored.status != Completed
    && (forall k | 0 <= k < |w.phases| :: HungPhase(w.stored.tasks, w.phases[k]))
  }

  predicate HungPhase(tasks: seq<TaskSpec>, p: Phase) {
    match p
    case Loaded(rec) => rec.tasks == tasks && rec.status != Completed
    case Removed(rec) => rec.tasks == tasks && rec.status != Completed
    case FailLoaded(rec) => rec.tasks == tasks
    case Firing => false
    case Waiting => true
    case Finished => true
  }

  lemma StepHung(w: World, j: nat, a: Act)
    requires Hung(w, j) && Ready(w, a)
    ensures Hung(Step(w, a), j)
  {
    if a.Remove? {
      assert HungPhase(w.stored.tasks, w.phases[a.job]);
      assert j in w.deps - {a.job};
    } else if a.Save? || a.SaveFailed? {
      assert HungPhase(w.stored.tasks, w.phases[a.job]);
    }
  }

  lemma {:induction false} RunHung(w: World, j: nat, acts: seq<Act>)
    requires Hung(w, j)
    ensures Hung(After(w, acts), j)
  {
    if acts != [] {
      RunHung(w, j, acts[..|acts| - 1]);
      var u := After(w, acts[..|acts| - 1]);
      if Ready(u, acts[|acts| - 1]) { StepHung(u, j, acts[|acts| - 1]); }
    }
  }

  /** A header that leaves the set before it is in it is added afterwards. */
  lemma LateIsHung(w: World, headers: seq<TaskSpec>, j: nat)
    requires Inv(w, headers) && Clean(w, headers)
    requires j < |headers| && Ready(w, Remove(j)) && !Safe(w, Remove(j)) && w.deps - {j} != {}
    ensures var v := Step(w, Remove(j));
            && Ready(v, AddDep) && Hung(Step(v, AddDep), j) && !HasFailed(Step(v, AddDep))
            && w.added == j && Step(v, AddDep).launched == Step(v, AddDep).added == j + 1
            && Total(Step(v, AddDep)) == |headers|
  {
    StillRunning(w, headers, j);
    assert w.deps != {j};
    assert j == w.added;
    var v := Step(Step(w, Remove(j)), AddDep);
    assert v.phases[j].rec.status == Running;
    forall k | 0 <= k < |v.phases| ensures HungPhase(headers, v.phases[k]) && !v.phases[k].FailLoaded? {
      assert k != j ==> v.phases[k] == w.phases[k];
    }
  }

  predicate HasFailed(w: World) {
    exists k :: 0 <= k < |w.phases| && w.phases[k].FailLoaded?
  }

  /** Main result: after such an SREM the callback is never enqueued, whatever happens next. */
  lemma LateDependencyHangs(headers: seq<TaskSpec>, callback: TaskSpec, acts: seq<Act>, j: nat, more: seq<Act>)
    requires headers != [] && SafeRun(Initial(headers, callback), acts) && NoFailure(acts)
    requires var w := After(Initial(headers, callback), acts);
             j < |headers| && Ready(w, Remove(j)) && j >= w.added && w.deps != {}
    ensures var v := Step(After(Initial(headers, callback), acts), Remove(j));
            && Ready(v, AddDep)
            && After(Step(v, AddDep), more).firers == [] && j in After(Step(v, AddDep), more).deps
  {
    InitialInv(headers, callback);
    var w := After(Initial(headers, callback), acts);
    RunInv(Initial(headers, callback), headers, acts);
    RunClean(Initial(headers, callback), headers, acts);
    assert w.deps - {j} == w.deps;
    LateIsHung(w, headers, j);
    RunHung(Step(Step(w, Remove(j)), AddDep), j, more);
  }

  /** One more safe step from a hung state. */
  lemma ExtendHung(v: World, acts: seq<Act>, j: nat, a: Act) returns (more: seq<Act>)
    requires SafeRun(v, acts) && NoFailure(acts) && Hung(After(v, acts), j) && !HasFailed(After(v, acts))
    requires Ready(After(v, acts), a) && Safe(After(v, acts), a) && !a.LoadFailed?
    ensures SafeRun(v, more) && NoFailure(more) && Hung(After(v, more), j) && !HasFailed(After(v, more))
    ensures After(v, more) == Step(After(v, acts), a)
  {
    StepHung(After(v, acts), j, a);
    more := Extend(v, acts, a);
    var u := After(v, more);
    forall k | 0 <= k < |u.phases| ensures !u.phases[k].FailLoaded? {}
  }

  lemma FinishCreation(v: World, acts: seq<Act>, headers: seq<TaskSpec>, j: nat) returns (more: seq<Act>)
    requires SafeRun(v, acts) && NoFailure(acts) && Hung(After(v, acts), j) && !HasFailed(After(v, acts))
    requires var u := After(v, acts); u.added <= u.launched <= u.added + 1 && u.launched <= Total(u) == |headers|
    ensures SafeRun(v, more) && NoFailure(more) && Hung(After(v, more), j) && !HasFailed(After(v, more))
    ensures var u := After(v, more); u.added == u.launched == Total(u) == |headers|
    decreases 2 * |headers| - After(v, acts).launched - After(v, acts).added
  {
    var u := After(v, acts);
    if u.added == |headers| {
      more := acts;
    } else {
      more := ExtendHung(v, acts, j, if u.launched == u.added then Launch else AddDep);
      more := FinishCreation(v, more, headers, j);
    }
  }

  /** Bring header k to its end, whatever it has done so far. */
  lemma FinishOne(v: World, acts: seq<Act>, headers: seq<TaskSpec>, j: nat, k: nat) returns (more: seq<Act>)
    requires SafeRun(v, acts) && NoFailure(acts) && Hung(After(v, acts), j) && !HasFailed(After(v, acts))
    requires var u := After(v, acts); u.added == u.launched == Total(u) == |headers| && k < |headers|
    ensures SafeRun(v, more) && NoFailure(more) && Hung(After(v, more), j) && !HasFailed(After(v, more))
    ensures var u := After(v, more); u.added == u.launched == Total(u) == |headers|
    ensures var p := After(v, acts).phases; After(v, more).phases == p[k := Finished]
    decreases match After(v, acts).phases[k] case Waiting => 3 case Loaded(_) => 2 case Removed(_) => 1 case _ => 0
  {
    var u := After(v, acts);
    assert HungPhase(u.stored.tasks, u.phases[k]);
    match u.phases[k]
    case Waiting =>
      more := ExtendHung(v, acts, j, Load(k));
      more := FinishOne(v, more, headers, j, k);
    case Loaded(_) =>
      more := ExtendHung(v, acts, j, Remove(k));
      more := FinishOne(v, more, headers, j, k);
    case Removed(_) =>
      more := ExtendHung(v, acts, j, Save(k));
      more := FinishOne(v, more, headers, j, k);
    case Finished => more := acts;
  }

  lemma FinishFrom(v: World, acts: seq<Act>, headers: seq<TaskSpec>, j: nat, k: nat) returns (more: seq<Act>)
    requires SafeRun(v, acts) && NoFailure(acts) && Hung(After(v, acts), j) && !HasFailed(After(v, acts))
    requires var u := After(v, acts); u.added == u.launched == Total(u) == |headers| && k <= |headers|
    requires HeadersDone(After(v, acts), k)
    ensures SafeRun(v, more) && NoFailure(more) && Hung(After(v, more), j)
    ensures HeadersDone(After(v, more), |headers|)
    decreases |headers| - k
  {
    if k == |headers| {
      more := acts;
    } else {
      more := FinishOne(v, acts, headers, j, k);
      more := FinishFrom(v, more, headers, j, k + 1);
    }
  }

  lemma HangsToTheEnd(w: World, headers: seq<TaskSpec>, j: nat) returns (more: seq<Act>)
    requires Inv(w, headers) && Clean(w, headers)
    requires j < |headers| && Ready(w, Remove(j)) && !Safe(w, Remove(j)) && w.deps - {j} != {}
    ensures var v := Step(w, Remove(j));
            SafeRun(v, more) && NoFailure(more) && !Right(After(v, more), |headers|)
  {
    LateIsHung(w, headers, j);
    var v := Step(w, Remove(j));
    more := Extend(v, [], AddDep);
    more := FinishCreation(v, more, headers, j);
    more := FinishFrom(v, more, headers, j, 0);
  }

  // ---- a single header ----

  ghost predicate Single(w: World) {
    && Total(w) == 1 && w.stored.callback.Some? && |w.phases| == 1 + |w.firers| && w.deps <= {0} && w.launched <= 1
    && (w.phases[0].Waiting? || w.phases[0].Loaded? ==> w.gone == {})
    && match w.phases[0]
       case Waiting => w.firers == [] && w.stored.status == Running
       case Loaded(rec) => w.firers == [] && w.stored.status == Running
                           && |rec.tasks| == 1 && rec.status == Running && rec.callback.Some?
       case Removed(rec) => w.firers == [] && w.stored.status == Running && w.gone == {0}
                            && |rec.tasks| == 1 && rec.status == Completed && rec.callback.Some?
       case Firing => w.firers == [] && w.stored.status == Completed && w.gone == {0}
       case Finished => w.firers == [0] && w.stored.status == Completed && w.gone == {0}
                        && (w.phases[1].Waiting? || w.phases[1].Finished?)
       case FailLoaded(_) => false
  }

  lemma SingleStep(w: World, a: Act)
    requires Single(w) && Ready(w, a) && !a.LoadFailed?
    ensures Single(Step(w, a))
  {
    match a
    case Remove(j) => SingleRemove(w, j);
    case Fire(j) => SingleFire(w, j);
    case Save(j) => SingleSave(w, j);
    case AddDep => assert w.added == 0;
    case Launch =>
    case Load(j) => SingleLoad(w, j);
  }

  lemma SingleLoad(w: World, j: nat)
    requires Single(w) && Ready(w, Load(j))
    ensures Single(Step(w, Load(j)))
  {}

  lemma SingleSave(w: World, j: nat)
    requires Single(w) && Ready(w, Save(j))
    ensures Single(Step(w, Save(j)))
  {
    assert j == 0;
  }

  lemma SingleRemove(w: World, j: nat)
    requires Single(w) && Ready(w, Remove(j))
    ensures Single(Step(w, Remove(j)))
  {
    assert j == 0 && w.deps - {0} == {} && {} + {0} == {0};
  }

  lemma SingleFire(w: World, j: nat)
    requires Single(w) && Ready(w, Fire(j))
    ensures Single(Step(w, Fire(j)))
  {
    assert j == 0;
  }

  lemma {:induction false} RunSingle(w: World, acts: seq<Act>)
    requires Single(w) && NoFailure(acts)
    ensures Single(After(w, acts))
  {
    if acts != [] {
      assert !acts[|acts| - 1].LoadFailed?;
      RunSingle(w, acts[..|acts| - 1]);
      var u := After(w, acts[..|acts| - 1]);
      if Ready(u, acts[|acts| - 1]) { SingleStep(u, acts[|acts| - 1]); }
    }
  }

  lemma SingleRight(w: World)
    requires Single(w)
    ensures Right(w, 1)
  {
    assert Below(1) == {0};
    if HeadersDone(w, 1) {
      assert w.phases[0].Finished?;
      assert SoleHeader(w.firers, 1, 0);
    }
  }

  // ---- both ways of going wrong, in a chord of two ----

  /** A header that completes before it is in the dependency set fires the callback with
      the other header not even enqueued. */
  lemma CallbackCanFireEarly(h: TaskSpec, callback: TaskSpec) returns (acts: seq<Act>)
    ensures var w := After(Initial([h, h], callback), acts);
            w.firers == [0] && w.launched == 1 && !SafeRun(Initial([h, h], callback), acts)
  {
    var w0 := Initial([h, h], callback);
    acts := Extend(w0, [], Launch);
    acts := Extend(w0, acts, Load(0));
    assert !Safe(After(w0, acts), Remove(0));
    acts := Extend(w0, acts, Remove(0));
    acts := Extend(w0, acts, Save(0));
    acts := Extend(w0, acts, Fire(0));
  }

  /** Header 1 is taken out of the set before it is added. */
  lemma SecondComesLate(h: TaskSpec, callback: TaskSpec) returns (acts: seq<Act>)
    ensures NoFailure(acts) && !SafeRun(Initial([h, h], callback), acts)
    ensures var w := After(Initial([h, h], callback), acts);
            && w.phases == [Waiting, Finished] && w.deps == {0, 1} && w.firers == []
            && w.stored.status == Running && w.stored.tasks == [h, h] && w.launched == 2
  {
    var w0 := Initial([h, h], callback);
    acts := SecondIsLoaded(h, callback);
    assert After(w0, acts).deps - {1} == {0} && !Safe(After(w0, acts), Remove(1));
    acts := Extend(w0, acts, Remove(1));
    acts := Extend(w0, acts, Save(1));
    acts := Extend(w0, acts, AddDep);
  }

  lemma SecondIsLoaded(h: TaskSpec, callback: TaskSpec) returns (acts: seq<Act>)
    ensures NoFailure(acts)
    ensures var w0 := Initial([h, h], callback);
            After(w0, acts) == w0.(deps := {0}, added := 1, launched := 2, phases := [Waiting, Loaded(w0.stored)])
  {
    var w0 := Initial([h, h], callback);
    acts := Extend(w0, [], Launch);
    acts := Extend(w0, acts, AddDep);
    acts := Extend(w0, acts, Launch);
    acts := Extend(w0, acts, Load(1));
    assert After(w0, acts).deps == {0};
  }

  /** Or it is added after it completed, and stays: all headers are done, none failed, and the
      callback is never enqueued. */
  lemma CallbackCanBeForgotten(h: TaskSpec, callback: TaskSpec) returns (acts: seq<Act>)
    ensures NoFailure(acts)
    ensures var w := After(Initial([h, h], callback), acts);
            HeadersDone(w, 2) && w.deps == {1} && w.firers == [] && w.stored.status == Running
  {
    var w0 := Initial([h, h], callback);
    acts := SecondComesLate(h, callback);
    acts := Extend(w0, acts, Load(0));
    assert After(w0, acts).deps - {0} == {1};
    acts := Extend(w0, acts, Remove(0));
    acts := Extend(w0, acts, Save(0));
  }

  /** One completion left alone does what OnJobCompleted does in one piece. */
  lemma AloneIsOneCall(w: World, j: nat, newId: string)
    requires Ready(w, Load(j)) && w.stored.kind == ChordKind && w.stored.status == Running && w.stored.callback.Some?
    ensures var u := Step(Step(Step(w, Load(j)), Remove(j)), Save(j));
            var v := if Ready(u, Fire(j)) then Step(u, Fire(j)) else u;
            var rec := w.stored.(done := |w.stored.tasks| - |v.deps|, status := if v.deps == {} then Completed else Running);
            && v.stored == rec && v.deps == w.deps - {j}
            && v.firers == w.firers + (if v.deps == {} then [j] else [])
            && forall deps: set<string>, id | |deps - {id}| == |v.deps| ::
                 var f := OnCompleted(Flow(Some(w.stored), 0, deps, []), id, newId);
                 f.record == Some(v.stored)
                 && f.jobs == if v.deps == {} then [Enqueued(newId, w.stored.callback.value)] else []
  {
    assert |w.deps - {j}| == 0 <==> w.deps - {j} == {};
  }
}
