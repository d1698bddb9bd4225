/** Why the condition on the sweep is needed: a run in which a sweep lists the jobs, a job is then
    created and completed, and the same sweep deletes its archive as an orphan. */
module StaleSweep {
  import opened Model
  import opened Protocol
  import opened ProtocolInvariant
  import opened ProtocolSteps
  import opened Downloads
  import opened SweepThreat
  import opened Scenario

  /** A sweep that has just listed an empty store. */
  const STALE := Scene(0, Listed(map[]))

  lemma {:induction false} SweepLists()
    ensures Reached(Making(Listed(map[]), map[], map[]))
  {
    ProcessStarts();
    SweepStep(Making(Resting, map[], map[]), List, Making(Listed(map[]), map[], map[]));
  }

  lemma {:induction false} JobCompletesUnseen()
    ensures Reached(AllDone(STALE))
  {
    SweepLists();
    JobIsAccepted(Listed(map[]));
    JobIsReady(STALE);
    JobIsCompleted(STALE);
  }

  /** A run of the protocol, in a configuration the program accepts, in which a completed job can
      be downloaded, and then, before it expires, no longer. */
  lemma {:induction false} ArchiveIsLost() returns (run: seq<State>, k: nat)
    ensures Run(run) && Configured(run[0]) && k < |run|
    ensures Downloadable(run[k], ID, DoneJob(0))
    ensures var last := run[|run| - 1];
            last.now <= DoneJob(0).expiresAt.value && !Serves(last, last, last, ID, DoneJob(0))
  {
    JobCompletesUnseen();
    DoneIsExposed();
    var first :| Run(first) && Configured(first[0]) && first[|first| - 1] == AllDone(STALE);
    run, k := ExposedLoses(first, ID, DoneJob(0));
  }

  lemma {:induction false} DoneIsExposed()
    ensures Exposed(AllDone(STALE), ID, DoneJob(0))
  {
  }

  lemma {:induction false} ExposedLoses(first: seq<State>, id: JobId, job: JobRecord) returns (run: seq<State>, k: nat)
    requires Run(first) && Exposed(first[|first| - 1], id, job)
    ensures Run(run) && run[0] == first[0] && k < |run|
    ensures Downloadable(run[k], id, job)
    ensures var last := run[|run| - 1];
            last.now <= job.expiresAt.value && !Serves(last, last, last, id, job)
  {
    RunInv(first, |first| - 1);
    var rest := LosingPath(first[|first| - 1], id, job);
    k := |first| - 1;
    run := Chained(first, rest);
  }

  lemma {:induction false} LosingPath(s: State, id: JobId, job: JobRecord) returns (path: seq<State>)
    requires Inv(s) && Exposed(s, id, job)
    ensures Path(path) && path[0] == s && Downloadable(s, id, job)
    ensures var last := path[|path| - 1];
            last.now <= job.expiresAt.value && !Serves(last, last, last, id, job)
  {
    ExposedServes(s, id, job);
    ExposedFrozen(s, id, job);
    path := CanBeLost(s, id, job);
    LostPathServesNothing(path, id, job);
  }

  lemma {:induction false} ExposedServes(s: State, id: JobId, job: JobRecord)
    requires Inv(s) && Exposed(s, id, job)
    ensures Downloadable(s, id, job)
  {
    TerminalFinished(s, id);
    GoodIsDownloadable(s, id, job);
  }

  lemma {:induction false} Chained(first: seq<State>, rest: seq<State>) returns (run: seq<State>)
    requires Run(first) && Path(rest) && rest[0] == first[|first| - 1]
    ensures Run(run) && |run| == |first| + |rest| - 1 && run[0] == first[0]
    ensures run[|first| - 1] == rest[0] && run[|run| - 1] == rest[|rest| - 1]
  {
    run := first + rest[1..];
    forall i | 0 <= i < |run| - 1 ensures Linked(run, i) {
      if i < |first| - 1 {
        assert Linked(first, i);
      } else {
        assert Linked(rest, i - |first| + 1);
      }
    }
  }
}
