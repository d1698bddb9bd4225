/** Temp files: a job never has both its files, and a temp file that no worker tends was left by an
    unlink that failed. */
module TempFiles {
  import opened Model
  import opened Protocol
  import opened ProtocolInvariant
  import opened ProtocolSteps
  import opened JobLifecycle
  import opened Provenance

  // ----- never both files -----

  /** A temp file is made only where there is no final one, and publishing takes the temp name away. */
  lemma {:induction false} WorkerNamesOne(s: State, v: nat, m: WorkerMove, t: State, id: JobId)
    requires WorkerDoes(s, v, m, t) && v < |s.workers|
    requires s.workers[v].Opening? ==> s.workers[v].job.id !in s.disk.final
    requires id in t.disk.temp && id in t.disk.final
    ensures id in s.disk.temp && id in s.disk.final
  {
    match m
    case Dequeue =>
    case Exit =>
    case Vanished =>
    case Get =>
    case Mark =>
    case Manifest(_) =>
    case RecordTotals =>
    case Fail =>
    case CreateTemp(_) =>
    case Write =>
    case Trailer =>
    case Break(_) =>
    case Report =>
    case Close =>
    case Rename =>
    case Undo =>
    case UnlinkTemp =>
    case UnlinkFinal =>
    case UnlinkError =>
    case TakeTime =>
    case Issue(_) =>
    case Finish =>
  }

  lemma {:induction false} WorkerFiles(run: seq<State>, k: nat, v: nat, m: WorkerMove)
    requires Run(run) && k + 1 < |run| && WorkerDoes(run[k], v, m, run[k + 1])
    ensures v < |run[k].workers|
    ensures run[k].workers[v].Opening? ==> run[k].workers[v].job.id !in run[k].disk.final
  {
    RunInv(run, k);
    MoverIn(run[k], v, m, run[k + 1]);
    assert FilesOk(run[k].disk, run[k].plans, run[k].workers[v]);
  }

  lemma {:induction false} MoverIn(s: State, v: nat, m: WorkerMove, t: State)
    requires WorkerDoes(s, v, m, t)
    ensures v < |s.workers|
  {
    match m
    case Dequeue =>
    case Exit =>
    case Vanished =>
    case Get =>
    case Mark =>
    case Manifest(_) =>
    case RecordTotals =>
    case Fail =>
    case CreateTemp(_) =>
    case Write =>
    case Trailer =>
    case Break(_) =>
    case Report =>
    case Close =>
    case Rename =>
    case Undo =>
    case UnlinkTemp =>
    case UnlinkFinal =>
    case UnlinkError =>
    case TakeTime =>
    case Issue(_) =>
    case Finish =>
  }

  /** No job of this process ever has both its files: only an earlier process can have left both. */
  lemma {:induction false} NeverBoth(run: seq<State>, k: nat, id: JobId)
    requires Run(run) && k < |run| && id in run[k].disk.temp && id in run[k].disk.final
    ensures id in run[0].disk.temp && id in run[0].disk.final
  {
    if k > 0 {
      var s, t := run[k - 1], run[k];
      NextAt(run, k - 1);
      OnDiskIsKnown(run, k - 1);
      if CreatorActs(s, t) {
        var c: nat, m :| CreatorDoes(s, c, m, t);
        CreatorLeavesDisk(s, c, m, t);
      } else if WorkerActs(s, t) {
        var v: nat, m :| WorkerDoes(s, v, m, t);
        WorkerFiles(run, k - 1, v, m);
        WorkerNamesOne(s, v, m, t, id);
      } else if SweepActs(s, t) {
        var m :| SweepDoes(s, m, t);
        SweepOnlyUnlinks(s, m, t);
      }
      NeverBoth(run, k - 1, id);
    }
  }

  // ----- whose temp file it is -----

  /** A worker writes the job's temp file, or is about to delete it. */
  predicate Tends(x: Worker, id: JobId) {
    (HasHandle(x) || x.UndoingTemp?) && x.job.id == id
  }

  ghost predicate Tended(s: State, id: JobId) {
    exists w :: 0 <= w < |s.workers| && Tends(s.workers[w], id)
  }

  /** In step `j` a worker of the job fails to delete one of its files. */
  predicate UnlinkFails(run: seq<State>, j: nat, w: nat, id: JobId) {
    && j + 1 < |run| && UnlinkErrorStep(run[j], w, run[j + 1])
    && w < |run[j].workers| && Holds(run[j].workers[w]) == Some(id)
  }

  ghost predicate UnlinkFailed(run: seq<State>, k: nat, id: JobId) {
    exists j: nat, w: nat :: j < k && UnlinkFails(run, j, w, id)
  }

  /** A worker stops tending a temp file only by taking its name away, or by failing to. */
  lemma {:induction false} StopsTending(s: State, v: nat, m: WorkerMove, t: State, id: JobId)
    requires WorkerDoes(s, v, m, t) && v < |s.workers| && Tends(s.workers[v], id) && id in t.disk.temp
    ensures v < |t.workers| && (Tends(t.workers[v], id) || UnlinkErrorStep(s, v, t))
  {
    match m
    case Dequeue =>
    case Exit =>
    case Vanished =>
    case Get =>
    case Mark =>
    case Manifest(_) =>
    case RecordTotals =>
    case Fail =>
    case CreateTemp(_) =>
    case Write =>
    case Trailer =>
    case Break(_) =>
    case Report =>
    case Close =>
    case Rename =>
    case Undo =>
    case UnlinkTemp =>
    case UnlinkFinal =>
    case UnlinkError =>
    case TakeTime =>
    case Issue(_) =>
    case Finish =>
  }

  /** The others go on, and a new temp file is tended by its worker. */
  lemma {:induction false} WorkerTends(s: State, v: nat, m: WorkerMove, t: State, id: JobId)
    requires WorkerDoes(s, v, m, t) && v < |s.workers|
    ensures |t.workers| == |s.workers| && t.born == s.born
    ensures forall w :: 0 <= w < |s.workers| && w != v ==> t.workers[w] == s.workers[w]
    ensures id in t.disk.temp && id !in s.disk.temp ==> Tends(t.workers[v], id)
  {
    match m
    case Dequeue =>
    case Exit =>
    case Vanished =>
    case Get =>
    case Mark =>
    case Manifest(_) =>
    case RecordTotals =>
    case Fail =>
    case CreateTemp(_) =>
    case Write =>
    case Trailer =>
    case Break(_) =>
    case Report =>
    case Close =>
    case Rename =>
    case Undo =>
    case UnlinkTemp =>
    case UnlinkFinal =>
    case UnlinkError =>
    case TakeTime =>
    case Issue(_) =>
    case Finish =>
  }

  lemma {:induction false} WorkerLeavesTended(s: State, v: nat, m: WorkerMove, t: State, id: JobId)
    requires WorkerDoes(s, v, m, t) && v < |s.workers| && id in t.disk.temp
    requires id in s.disk.temp ==> Tended(s, id)
    ensures Tended(t, id) || (UnlinkErrorStep(s, v, t) && Tends(s.workers[v], id))
  {
    WorkerTends(s, v, m, t, id);
    if id in s.disk.temp {
      var w :| 0 <= w < |s.workers| && Tends(s.workers[w], id);
      if w == v {
        StopsTending(s, v, m, t, id);
      } else {
        assert Tends(t.workers[w], id);
      }
    }
  }

  lemma {:induction false} TempIsKnown(run: seq<State>, k: nat)
    requires Run(run) && k < |run|
    ensures run[k].disk.temp.Keys <= run[k].born + run[k].leftovers && run[k].born !! run[k].leftovers
    ensures run[k].disk.final.Keys <= run[k].born + run[k].leftovers
  {
    RunInv(run, k);
  }

  lemma {:induction false} CreatorTakesNew(s: State, c: nat, m: CreatorMove, t: State)
    requires CreatorDoes(s, c, m, t) && s.disk.temp.Keys <= s.born + s.leftovers
    ensures t.disk == s.disk && t.workers == s.workers
    ensures forall id :: id in t.born && id in s.disk.temp ==> id in s.born
  {
    match m
    case Admit =>
    case Abandon =>
    case Stamp =>
    case Insert(_) =>
    case Enqueue =>
    case QueueFull =>
    case RollBack =>
  }

  /** One step: a temp file was there, or a worker tends it, or an unlink has just failed. */
  lemma {:induction false} StepTends(run: seq<State>, k: nat, id: JobId)
    requires Run(run) && 0 < k < |run| && id in run[k].born && id in run[k].disk.temp
    requires id in run[k - 1].born && id in run[k - 1].disk.temp ==> Tended(run[k - 1], id)
    ensures Tended(run[k], id) || UnlinkFailed(run, k, id)
  {
    var s, t := run[k - 1], run[k];
    NextAt(run, k - 1);
    TempIsKnown(run, k - 1);
    if CreatorActs(s, t) {
      var c: nat, m :| CreatorDoes(s, c, m, t);
      CreatorTakesNew(s, c, m, t);
    } else if WorkerActs(s, t) {
      var v: nat, m :| WorkerDoes(s, v, m, t);
      MoverIn(s, v, m, t);
      WorkerKeepsBorn(s, v, m, t);
      WorkerLeavesTended(s, v, m, t, id);
      assert UnlinkErrorStep(s, v, t) && Tends(s.workers[v], id) ==> UnlinkFails(run, k - 1, v, id);
    } else if SweepActs(s, t) {
      var m :| SweepDoes(s, m, t);
      SweepOnlyUnlinks(s, m, t);
    }
  }

  /** In every run, the temp file of a job of this process is one its worker is writing or about to
      delete, unless deleting it has failed. */
  lemma {:induction false} TempIsTended(run: seq<State>, k: nat, id: JobId)
    requires Run(run) && k < |run| && id in run[k].born && id in run[k].disk.temp
    ensures Tended(run[k], id) || UnlinkFailed(run, k, id)
  {
    assert k > 0;
    if id in run[k - 1].born && id in run[k - 1].disk.temp {
      TempIsTended(run, k - 1, id);
    }
    if UnlinkFailed(run, k - 1, id) {
      var j: nat, w: nat :| j < k - 1 && UnlinkFails(run, j, w, id);
      assert UnlinkFailed(run, k, id);
    } else {
      StepTends(run, k, id);
    }
  }

  /** So a job whose `ProcessJob` has returned, however it ended, has left no temp file, unless
      deleting it failed. */
  lemma {:induction false} FinishedLeavesNoTemp(run: seq<State>, k: nat, id: JobId) returns (j: nat, w: nat)
    requires Run(run) && k < |run| && id in run[k].finished && id in run[k].disk.temp
    ensures j < k && UnlinkFails(run, j, w, id)
  {
    NotHeld(run, k, id);
    TempIsTended(run, k, id);
    var i: nat, v: nat :| i < k && UnlinkFails(run, i, v, id);
    j, w := i, v;
  }

  lemma {:induction false} NotHeld(run: seq<State>, k: nat, id: JobId)
    requires Run(run) && k < |run| && id in run[k].finished
    ensures !Tended(run[k], id) && id in run[k].born
  {
    RunInv(run, k);
    forall w | 0 <= w < |run[k].workers| ensures !Tends(run[k].workers[w], id) {
      assert Holds(run[k].workers[w]) != Some(id);
      TenderHolds(run[k].workers[w], id);
    }
  }

  lemma {:induction false} TenderHolds(x: Worker, id: JobId)
    requires Holds(x) != Some(id)
    ensures !Tends(x, id)
  {
  }
}
