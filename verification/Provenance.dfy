/** Where a published archive comes from: the step of its own worker in which `Generate` succeeded. */
module Provenance {
  import opened Model
  import opened Protocol
  import opened ProtocolInvariant
  import opened ProtocolSteps
  import opened JobLifecycle

  /** In step `i` of the run `Generate` succeeds for worker `w`: it has written every file of its
      plan, and now the directories and the trailer. */
  predicate Generates(run: seq<State>, i: nat, w: nat) {
    i + 1 < |run| && TrailerStep(run[i], w, run[i + 1])
  }

  /** The worker has a whole archive in its temp file. */
  predicate HasArchive(x: Worker) {
    (x.Closing? && x.done) || x.Renaming?
  }

  // ----- one step -----

  lemma {:induction false} ArchiveOrigin(s: State, v: nat, m: WorkerMove, t: State, w: nat)
    requires WorkerDoes(s, v, m, t) && w < |t.workers| && HasArchive(t.workers[w])
    ensures w < |s.workers|
    ensures t.workers[w] != s.workers[w] ==>
              && w == v && (s.workers[w].Writing? || s.workers[w].Closing?)
              && s.workers[w].job == t.workers[w].job && s.workers[w].plan == t.workers[w].plan
              && (if m == Trailer then TrailerStep(s, w, t) else HasArchive(s.workers[w]))
  {
    match m
    case Dequeue =>
    case Exit =>
    case Vanished =>
    case Get =>
    case Mark =>
    case Manifest(_) =>
    case RecordTotals =>
    case Fail =>
    case CreateTemp(_) =>
    case Write =>
    case Trailer =>
    case Break(_) =>
    case Report =>
    case Close =>
    case Rename =>
    case Undo =>
    case UnlinkTemp =>
    case UnlinkFinal =>
    case UnlinkError =>
    case TakeTime =>
    case Issue(_) =>
    case Finish =>
  }

  /** A worker publishes only by renaming its own temp file. */
  lemma {:induction false} FinalOrigin(s: State, v: nat, m: WorkerMove, t: State, id: JobId)
    requires WorkerDoes(s, v, m, t) && id in t.disk.final && id !in s.disk.final
    ensures v < |s.workers| && s.workers[v].Renaming? && s.workers[v].job.id == id
  {
    match m
    case Dequeue =>
    case Exit =>
    case Vanished =>
    case Get =>
    case Mark =>
    case Manifest(_) =>
    case RecordTotals =>
    case Fail =>
    case CreateTemp(_) =>
    case Write =>
    case Trailer =>
    case Break(_) =>
    case Report =>
    case Close =>
    case Rename =>
    case Undo =>
    case UnlinkTemp =>
    case UnlinkFinal =>
    case UnlinkError =>
    case TakeTime =>
    case Issue(_) =>
    case Finish =>
  }

  lemma {:induction false} WorkerKeepsBorn(s: State, v: nat, m: WorkerMove, t: State)
    requires WorkerDoes(s, v, m, t)
    ensures t.born == s.born && |t.workers| == |s.workers|
  {
    match m
    case Dequeue =>
    case Exit =>
    case Vanished =>
    case Get =>
    case Mark =>
    case Manifest(_) =>
    case RecordTotals =>
    case Fail =>
    case CreateTemp(_) =>
    case Write =>
    case Trailer =>
    case Break(_) =>
    case Report =>
    case Close =>
    case Rename =>
    case Undo =>
    case UnlinkTemp =>
    case UnlinkFinal =>
    case UnlinkError =>
    case TakeTime =>
    case Issue(_) =>
    case Finish =>
  }

  /** Creators leave disk and workers alone, and never take an ID that names an old file. */
  lemma {:induction false} CreatorLeavesDisk(s: State, c: nat, m: CreatorMove, t: State)
    requires CreatorDoes(s, c, m, t) && s.disk.final.Keys <= s.born + s.leftovers
    ensures t.disk == s.disk && t.workers == s.workers
    ensures forall id :: id in t.born && id in s.disk.final ==> id in s.born
  {
    match m
    case Admit =>
    case Abandon =>
    case Stamp =>
    case Insert(_) =>
    case Enqueue =>
    case QueueFull =>
    case RollBack =>
  }

  lemma {:induction false} SweepOnlyUnlinks(s: State, m: SweepMove, t: State)
    requires SweepDoes(s, m, t)
    ensures Submap(t.disk.final, s.disk.final) && Submap(t.disk.temp, s.disk.temp)
    ensures t.workers == s.workers && t.born == s.born
  {
    match m
    case List =>
    case ReadClock =>
    case Track(_) =>
    case Condemn(_) =>
    case RemoveTemp =>
    case RemoveFinal =>
    case RemoveError =>
    case Revoke =>
    case Erase =>
    case ListFiles =>
    case Skip(_) =>
    case Orphan(_) =>
    case PurgeTemp =>
    case PurgeFinal =>
    case PurgeError =>
    case Rest =>
  }

  /** Between two states of a run: a worker that has an archive had it before or has just generated
      it. */
  lemma {:induction false} StepArchiveOrigin(s: State, t: State, w: nat)
    requires s.disk.final.Keys <= s.born + s.leftovers && Next(s, t) && w < |t.workers| && HasArchive(t.workers[w])
    ensures w < |s.workers| && (s.workers[w].Writing? || HasArchive(s.workers[w]))
    ensures s.workers[w].job.id == t.workers[w].job.id && s.workers[w].plan == t.workers[w].plan
    ensures HasArchive(s.workers[w]) || TrailerStep(s, w, t)
  {
    if CreatorActs(s, t) {
      var c: nat, m :| CreatorDoes(s, c, m, t);
      CreatorLeavesDisk(s, c, m, t);
    } else if WorkerActs(s, t) {
      var v: nat, m :| WorkerDoes(s, v, m, t);
      ArchiveOrigin(s, v, m, t, w);
    } else if SweepActs(s, t) {
      var m :| SweepDoes(s, m, t);
      SweepOnlyUnlinks(s, m, t);
    }
  }

  /** Worker `v` is about to give its archive the final name of `id`. */
  predicate Publishes(s: State, v: nat, id: JobId) {
    v < |s.workers| && s.workers[v].Renaming? && s.workers[v].job.id == id
  }

  lemma {:induction false} StepFinalOrigin(s: State, t: State, id: JobId)
    requires s.disk.final.Keys <= s.born + s.leftovers && Next(s, t) && id in t.born && id in t.disk.final
    ensures (id in s.born && id in s.disk.final) || exists v :: Publishes(s, v, id)
  {
    if CreatorActs(s, t) {
      var c: nat, m :| CreatorDoes(s, c, m, t);
      CreatorLeavesDisk(s, c, m, t);
    } else if WorkerActs(s, t) {
      var v: nat, m :| WorkerDoes(s, v, m, t);
      WorkerKeepsBorn(s, v, m, t);
      if id !in s.disk.final {
        FinalOrigin(s, v, m, t, id);
        assert Publishes(s, v, id);
      }
    } else if SweepActs(s, t) {
      var m :| SweepDoes(s, m, t);
      SweepOnlyUnlinks(s, m, t);
    }
  }

  // ----- whole runs -----

  lemma {:induction false} OnDiskIsKnown(run: seq<State>, k: nat)
    requires Run(run) && k < |run|
    ensures run[k].disk.final.Keys <= run[k].born + run[k].leftovers
  {
    RunInv(run, k);
  }

  /** The step in which worker `w` generated, for job `id`, what `plan` says. */
  predicate GeneratedAt(run: seq<State>, i: nat, w: nat, id: JobId, plan: Plan) {
    && Generates(run, i, w) && w < |run[i].workers| && run[i].workers[w].Writing?
    && run[i].workers[w].job.id == id && run[i].workers[w].plan == plan
  }

  lemma {:induction false} ArchiveWasGenerated(run: seq<State>, k: nat, w: nat) returns (i: nat)
    requires Run(run) && k < |run| && w < |run[k].workers| && HasArchive(run[k].workers[w])
    ensures i < k && GeneratedAt(run, i, w, run[k].workers[w].job.id, run[k].workers[w].plan)
  {
    assert k > 0;
    OnDiskIsKnown(run, k - 1);
    NextAt(run, k - 1);
    StepArchiveOrigin(run[k - 1], run[k], w);
    if HasArchive(run[k - 1].workers[w]) {
      i := ArchiveWasGenerated(run, k - 1, w);
    } else {
      i := k - 1;
    }
  }

  lemma {:induction false} PublishedPlan(run: seq<State>, k: nat, v: nat, id: JobId)
    requires Run(run) && k < |run| && Publishes(run[k], v, id)
    ensures id in run[k].plans && run[k].plans[id] == run[k].workers[v].plan
  {
    RunInv(run, k);
    assert FilesOk(run[k].disk, run[k].plans, run[k].workers[v]);
  }

  /** Whatever sits at the final path of a job was generated earlier in the run, by a worker of
      that job and to the job's one plan. */
  lemma {:induction false} FinalWasGenerated(run: seq<State>, k: nat, id: JobId) returns (i: nat, w: nat)
    requires Run(run) && k < |run| && id in run[k].born && id in run[k].disk.final
    ensures i < k && id in run[k].plans && GeneratedAt(run, i, w, id, run[k].plans[id])
  {
    assert k > 0;
    OnDiskIsKnown(run, k - 1);
    NextAt(run, k - 1);
    StepFinalOrigin(run[k - 1], run[k], id);
    if id in run[k - 1].born && id in run[k - 1].disk.final {
      i, w := FinalWasGenerated(run, k - 1, id);
    } else {
      w :| Publishes(run[k - 1], w, id);
      PublishedPlan(run, k - 1, w, id);
      i := ArchiveWasGenerated(run, k - 1, w);
    }
    RunAdvances(run, k - 1, id);
  }
}
