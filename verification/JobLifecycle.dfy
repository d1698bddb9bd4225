/** Theorems about every run of the job protocol: who owns a job, how its record moves and
    what can sit at its final path. */
module JobLifecycle {
  import opened Model
  import opened Protocol
  import opened ProtocolInvariant
  import opened ProtocolSteps

  // ----- single ownership and conservation -----

  function Holders(workers: seq<Worker>, id: JobId): nat {
    if workers == [] then 0
    else (if Holds(workers[0]) == Some(id) then 1 else 0) + Holders(workers[1..], id)
  }

  function Busy(workers: seq<Worker>): nat {
    if workers == [] then 0 else (if Holds(workers[0]).Some? then 1 else 0) + Busy(workers[1..])
  }

  /** In how many places an accepted job is: queue slots, workers, the finished set. */
  function Places(s: State, id: JobId): nat {
    multiset(s.queue)[id] + Holders(s.workers, id) + (if id in s.finished then 1 else 0)
  }

  ghost predicate Apart(workers: seq<Worker>) {
    forall v, w :: 0 <= v < w < |workers| && Holds(workers[v]).Some? ==> Holds(workers[v]) != Holds(workers[w])
  }

  lemma {:induction false} HoldersCount(workers: seq<Worker>, id: JobId)
    requires Apart(workers)
    ensures Holders(workers, id) == if HeldByWorker(workers, id) then 1 else 0
  {
    if workers != [] {
      var rest := workers[1..];
      assert Apart(rest) by {
        assert forall v :: 0 <= v < |rest| ==> rest[v] == workers[v + 1];
      }
      HoldersCount(rest, id);
      if HeldByWorker(rest, id) {
        var w :| 0 <= w < |rest| && Holds(rest[w]) == Some(id);
        assert Holds(workers[w + 1]) == Some(id);
      }
      if HeldByWorker(workers, id) && Holds(workers[0]) != Some(id) {
        var w :| 0 <= w < |workers| && Holds(workers[w]) == Some(id);
        assert Holds(rest[w - 1]) == Some(id);
      }
    }
  }

  lemma {:induction false} DistinctCount(q: seq<JobId>, id: JobId)
    requires Distinct(q)
    ensures multiset(q)[id] == if id in q then 1 else 0
  {
    if q != [] {
      DistinctTail(q);
      DistinctCount(q[1..], id);
      assert q == [q[0]] + q[1..];
    }
  }

  ghost function Held(workers: seq<Worker>): set<JobId> {
    set w | 0 <= w < |workers| && Holds(workers[w]).Some? :: Holds(workers[w]).value
  }

  lemma {:induction false} HeldSize(workers: seq<Worker>)
    requires Apart(workers)
    ensures |Held(workers)| == Busy(workers) <= |workers|
  {
    if workers != [] {
      var rest := workers[1..];
      assert forall v :: 0 <= v < |rest| ==> rest[v] == workers[v + 1];
      HeldSize(rest);
      if Holds(workers[0]).Some? {
        var id := Holds(workers[0]).value;
        assert id !in Held(rest);
        assert Held(workers) == Held(rest) + {id} by {
          forall x | x in Held(workers) ensures x in Held(rest) + {id} {
            var w :| 0 <= w < |workers| && Holds(workers[w]) == Some(x);
            assert w > 0 ==> Holds(rest[w - 1]) == Some(x);
          }
          forall x | x in Held(rest) ensures x in Held(workers) {
            var w :| 0 <= w < |rest| && Holds(rest[w]) == Some(x);
            assert Holds(workers[w + 1]) == Some(x);
          }
          assert Holds(workers[0]) == Some(id);
        }
      } else {
        assert Held(workers) == Held(rest) by {
          forall x | x in Held(workers) ensures x in Held(rest) {
            var w :| 0 <= w < |workers| && Holds(workers[w]) == Some(x);
            assert Holds(rest[w - 1]) == Some(x);
          }
          forall x | x in Held(rest) ensures x in Held(workers) {
            var w :| 0 <= w < |rest| && Holds(rest[w]) == Some(x);
            assert Holds(workers[w + 1]) == Some(x);
          }
        }
      }
    }
  }

  lemma {:induction false} DistinctSize(q: seq<JobId>)
    requires Distinct(q)
    ensures |set x | x in q| == |q|
  {
    if q != [] {
      DistinctTail(q);
      DistinctSize(q[1..]);
      assert (set x | x in q) == (set x | x in q[1..]) + {q[0]};
    }
  }

  lemma {:induction false} OwnedPlaces(s: State, id: JobId)
    requires Owned(s)
    ensures Places(s, id) == if id in s.accepted then 1 else 0
  {
    DistinctCount(s.queue, id);
    HoldersCount(s.workers, id);
  }

  lemma {:induction false} OwnedTotal(s: State)
    requires Owned(s)
    ensures |s.accepted| == |s.queue| + Busy(s.workers) + |s.finished|
    ensures Busy(s.workers) <= |s.workers|
  {
    DistinctSize(s.queue);
    HeldSize(s.workers);
    var waiting := set x | x in s.queue;
    forall id | id in s.accepted ensures id in waiting + Held(s.workers) + s.finished {
      if id !in s.finished && id !in s.queue {
        var w :| 0 <= w < |s.workers| && Holds(s.workers[w]) == Some(id);
      }
    }
    assert s.accepted == waiting + Held(s.workers) + s.finished;
    assert waiting !! Held(s.workers) && (waiting + Held(s.workers)) !! s.finished;
  }

  /** In every state of every run each accepted job is in exactly one place, no job is lost
      or duplicated, and queue and pool stay within their bounds. */
  lemma {:induction false} SingleOwnership(run: seq<State>, i: nat)
    requires Run(run) && i < |run|
    ensures forall id :: Places(run[i], id) == if id in run[i].accepted then 1 else 0
    ensures |run[i].accepted| == |run[i].queue| + Busy(run[i].workers) + |run[i].finished|
    ensures |run[i].queue| <= run[0].cfg.queueSize && Busy(run[i].workers) <= |run[0].workers|
  {
    RunInv(run, i);
    RunConstants(run, i);
    forall id ensures Places(run[i], id) == if id in run[i].accepted then 1 else 0 {
      OwnedPlaces(run[i], id);
    }
    OwnedTotal(run[i]);
  }

  // ----- one step, seen from one job -----

  /** What any step leaves true of one job: its record only advances or goes, an absent
      record stays absent, its plan is fixed, and the configuration does not change. */
  ghost predicate Kept(s: State, t: State, id: JobId) {
    && (id in s.jobs && id in t.jobs ==> Advances(s.jobs[id], t.jobs[id]))
    && (id in s.born ==> id in t.born && (id in t.jobs ==> id in s.jobs))
    && (id in s.plans ==> SameAt(s.plans, t.plans, id))
    && t.cfg == s.cfg && |t.workers| == |s.workers| && s.now <= t.now
  }

  lemma {:induction false} EffectAdvances(s: State, t: State, w: nat, x: JobId, ino: nat, id: JobId)
    requires Effect(s, t, w, x, ino)
    ensures Kept(s, t, id) && (id in s.jobs <==> id in t.jobs)
  {
    if x != id {
      assert SameAt(s.jobs, t.jobs, id) && SameAt(s.plans, t.plans, id);
    }
  }

  lemma {:induction false} WorkerAdvances(s: State, w: nat, m: WorkerMove, t: State, id: JobId)
    requires Inv(s) && WorkerDoes(s, w, m, t)
    ensures Kept(s, t, id) && (id in s.jobs <==> id in t.jobs)
  {
    if m != Exit {
      var x, ino := WorkerEffect(s, w, m, t);
      EffectAdvances(s, t, w, x, ino, id);
    }
  }

  lemma {:induction false} CreatorAdvances(s: State, c: nat, m: CreatorMove, t: State, id: JobId)
    requires s.jobs.Keys <= s.born && CreatorDoes(s, c, m, t)
    ensures id in s.jobs && id in t.jobs ==> s.jobs[id] == t.jobs[id]
    ensures id in s.born && id !in s.jobs ==> id !in t.jobs
    ensures s.born <= t.born && t.cfg == s.cfg && t.workers == s.workers && t.plans == s.plans && t.now == s.now
  {
    match m
    case Admit =>
    case Abandon =>
    case Stamp =>
    case Insert(x) =>
    case Enqueue =>
    case QueueFull =>
    case RollBack =>
  }

  lemma {:induction false} WorkerActKeeps(s: State, t: State, id: JobId)
    requires Inv(s) && WorkerActs(s, t)
    ensures Kept(s, t, id)
  {
    var w, m :| WorkerDoes(s, w, m, t);
    WorkerAdvances(s, w, m, t, id);
  }

  lemma {:induction false} CreatorActKeeps(s: State, t: State, id: JobId)
    requires Inv(s) && CreatorActs(s, t)
    ensures Kept(s, t, id)
  {
    var c, m :| CreatorDoes(s, c, m, t);
    CreatorAdvances(s, c, m, t, id);
  }

  lemma {:induction false} SweepActKeeps(s: State, t: State, id: JobId)
    requires Inv(s) && SweepActs(s, t)
    ensures Kept(s, t, id)
  {
    var m :| SweepDoes(s, m, t);
    SweepKeeps(s, m, t);
  }

  lemma {:induction false} StepAdvances(s: State, t: State, id: JobId)
    requires Inv(s) && Next(s, t)
    ensures Kept(s, t, id)
  {
    var who := WhoActs(s, t);
    match who
    case SomeCreator =>
      CreatorActKeeps(s, t, id);
    case SomeWorker =>
      WorkerActKeeps(s, t, id);
    case TheSweep =>
      SweepActKeeps(s, t, id);
    case Outside =>
      OutsideActKeeps(s, t, id);
  }

  lemma {:induction false} OutsideActKeeps(s: State, t: State, id: JobId)
    requires OutsideActs(s, t)
    ensures Kept(s, t, id)
  {
    assert t.jobs == s.jobs && t.born == s.born && t.plans == s.plans;
    assert t.cfg == s.cfg && t.workers == s.workers && s.now <= t.now;
  }

  /** The same for consecutive states of a run. */
  lemma {:induction false} RunAdvances(run: seq<State>, i: nat, id: JobId)
    requires Run(run) && i + 1 < |run|
    ensures Kept(run[i], run[i + 1], id)
  {
    RunInv(run, i);
    NextAt(run, i);
    StepAdvances(run[i], run[i + 1], id);
  }

  lemma {:induction false} RunConstants(run: seq<State>, i: nat)
    requires Run(run) && i < |run|
    ensures run[i].cfg == run[0].cfg && |run[i].workers| == |run[0].workers|
  {
    if i > 0 {
      RunConstants(run, i - 1);
      RunAdvances(run, i - 1, JobId(""));
    }
  }

  // ----- status, removal, and return of ProcessJob -----

  /** Along every run a stored record only advances, a removed job never reappears and the
      plan of a job never changes. */
  lemma {:induction false} RecordsAdvance(run: seq<State>, i: nat, j: nat, id: JobId)
    requires Run(run) && i <= j < |run|
    ensures id in run[i].jobs && id in run[j].jobs ==> Advances(run[i].jobs[id], run[j].jobs[id])
    ensures id in run[i].born && id !in run[i].jobs ==> id !in run[j].jobs
    ensures id in run[i].born ==> id in run[j].born
    ensures id in run[i].plans ==> id in run[j].plans && run[j].plans[id] == run[i].plans[id]
    ensures id in run[i].jobs && id in run[j].jobs ==>
              var a, b := run[i].jobs[id], run[j].jobs[id];
              && b.id == a.id && b.createdAt == a.createdAt
              && (a.status == Processing ==> b.status != Queued)
              && (a.status == Completed || a.status == Failed ==> b == a)
              && a.processedFiles <= b.processedFiles && a.processedBytes <= b.processedBytes
              && (a.totalFiles != 0 || a.totalBytes != 0 ==>
                    b.totalFiles == a.totalFiles && b.totalBytes == a.totalBytes)
    decreases j - i
  {
    StoredIsBorn(run, i, id);
    if i < j {
      RunAdvances(run, i, id);
      RecordsAdvance(run, i + 1, j, id);
    }
  }

  lemma {:induction false} StoredIsBorn(run: seq<State>, i: nat, id: JobId)
    requires Run(run) && i < |run|
    ensures id in run[i].jobs ==> id in run[i].born && (Terminal(run[i].jobs[id].status) ==> id in run[i].finished)
  {
    RunInv(run, i);
    if id in run[i].jobs && Terminal(run[i].jobs[id].status) {
      TerminalFinished(run[i], id);
    }
  }

  ghost predicate Started(x: Worker) {
    x != Idle && x != Exited && !x.Fetching? && !x.Starting?
  }

  /** Who answers for a record of each status. */
  ghost predicate Answered(s: State, id: JobId)
    requires id in s.jobs
  {
    match s.jobs[id].status
    case Queued =>
      || HeldByCreator(s.creators, id) || id in s.queue
      || exists w :: 0 <= w < |s.workers| && Holds(s.workers[w]) == Some(id) && !Started(s.workers[w])
    case Processing =>
      exists w :: 0 <= w < |s.workers| && Holds(s.workers[w]) == Some(id) && Started(s.workers[w])
    case Completed => id in s.finished
    case Failed => id in s.finished
    case Expired => false
  }

  lemma {:induction false} RecordAnswered(s: State, id: JobId)
    requires Owned(s) && RecordsOk(s) && id in s.jobs
    ensures Answered(s, id) && s.jobs[id].processedFiles <= s.jobs[id].totalFiles
  {
    if id in s.accepted && id !in s.queue && id !in s.finished {
      var w :| 0 <= w < |s.workers| && Holds(s.workers[w]) == Some(id);
      assert CopyOk(s.jobs, s.workers[w]);
    }
  }

  /** Worker `w` is busy with `id`. */
  predicate Has(s: State, w: nat, id: JobId) {
    w < |s.workers| && Holds(s.workers[w]) == Some(id)
  }

  lemma {:induction false} OneHolder(s: State, id: JobId)
    requires Owned(s)
    ensures forall v, w :: Has(s, v, id) && Has(s, w, id) ==> v == w
  {
  }

  /** In every state of every run: a Queued record is with its creator, in the queue or with
      a worker that has not started it; a Processing record is with a worker that has, and no
      two workers have the same job; a
      job whose `ProcessJob` returned is terminal or gone; a rejected request left nothing. */
  lemma {:induction false} NoneStuck(run: seq<State>, i: nat, id: JobId)
    requires Run(run) && i < |run|
    ensures id in run[i].jobs ==>
              Answered(run[i], id) && run[i].jobs[id].processedFiles <= run[i].jobs[id].totalFiles
    ensures id in run[i].finished ==> id !in run[i].jobs || Terminal(run[i].jobs[id].status)
    ensures id in run[i].rejected ==> id !in run[i].jobs && id !in run[i].accepted
    ensures forall v, w :: Has(run[i], v, id) && Has(run[i], w, id) ==> v == w
  {
    RunInv(run, i);
    OneHolder(run[i], id);
    if id in run[i].jobs {
      RecordAnswered(run[i], id);
    }
  }

  // ----- what is published -----

  /** In every state of every run, what sits at a job's final path is the complete, closed
      output of the one plan its manifest fixed. */
  lemma {:induction false} FinalIsComplete(run: seq<State>, i: nat, j: nat, id: JobId)
    requires Run(run) && i <= j < |run|
    requires id in run[i].born && id in run[i].disk.final && id in run[j].disk.final
    ensures id in run[i].plans && id in run[j].plans && run[j].plans[id] == run[i].plans[id]
    ensures var ino := run[j].disk.final[id];
            && ino in run[j].disk.inodes
            && run[j].disk.inodes[ino] == Inode(Output(run[i].plans[id]), true)
  {
    RunInv(run, i);
    RunInv(run, j);
    RecordsAdvance(run, i, j, id);
  }

  /** A worker on its way to a failed end: it still has a handle, or is cleaning up, or is
      about to record the failure. */
  predicate Failing(x: Worker) {
    HasHandle(x) || x.UndoingTemp? || x.UndoingFinal? || (x.Finishing? && x.job.status == Failed)
  }

  /** The temp file of `id` vanished while its worker was still writing it. */
  ghost predicate Lost(s: State, id: JobId) {
    && id in s.accepted && id !in s.disk.temp && id !in s.disk.final && id !in s.queue
    && (id in s.finished ==> id in s.jobs ==> s.jobs[id].status == Failed)
    && (forall w :: 0 <= w < |s.workers| && Holds(s.workers[w]) == Some(id) ==> Failing(s.workers[w]))
  }

  lemma {:induction false} EffectKeepsOthersLost(s: State, t: State, w: nat, x: JobId, ino: nat, id: JobId)
    requires Owned(s) && Lost(s, id) && Effect(s, t, w, x, ino) && x != id
    ensures Lost(t, id)
  {
    OthersApart(s, t, w, x);
    assert SameAt(s.jobs, t.jobs, id) && SameAt(s.disk.temp, t.disk.temp, id) && SameAt(s.disk.final, t.disk.final, id);
  }

  lemma {:induction false} WriterStaysLost(s: State, w: nat, m: WorkerMove, t: State, id: JobId)
    requires Lost(s, id) && Apart(s.workers) && WorkerDoes(s, w, m, t) && Holds(s.workers[w]) == Some(id)
    requires HasHandle(s.workers[w]) && id !in s.finished
    ensures Lost(t, id)
  {
    match m
    case Write =>
    case Trailer =>
    case Break(_) =>
    case Report =>
    case Close =>
    case Undo =>
    case _ =>
  }

  lemma {:induction false} UnlinkTempStaysLost(s: State, w: nat, t: State, id: JobId)
    requires Lost(s, id) && Apart(s.workers) && UnlinkTempStep(s, w, t) && Holds(s.workers[w]) == Some(id)
    requires !HasHandle(s.workers[w]) && CopyOk(s.jobs, s.workers[w])
    ensures Lost(t, id)
  {
    assert Failing(s.workers[w]);
  }

  lemma {:induction false} UnlinkFinalStaysLost(s: State, w: nat, t: State, id: JobId)
    requires Lost(s, id) && Apart(s.workers) && UnlinkFinalStep(s, w, t) && Holds(s.workers[w]) == Some(id)
    requires !HasHandle(s.workers[w]) && CopyOk(s.jobs, s.workers[w])
    ensures Lost(t, id)
  {
    assert Failing(s.workers[w]);
  }

  lemma {:induction false} UnlinkErrorStaysLost(s: State, w: nat, t: State, id: JobId)
    requires Lost(s, id) && Apart(s.workers) && UnlinkErrorStep(s, w, t) && Holds(s.workers[w]) == Some(id)
    requires !HasHandle(s.workers[w]) && CopyOk(s.jobs, s.workers[w])
    ensures Lost(t, id)
  {
    assert Failing(s.workers[w]);
  }

  lemma {:induction false} FinishStaysLost(s: State, w: nat, t: State, id: JobId)
    requires Lost(s, id) && Apart(s.workers) && FinishStep(s, w, t) && Holds(s.workers[w]) == Some(id)
    requires !HasHandle(s.workers[w]) && CopyOk(s.jobs, s.workers[w])
    ensures Lost(t, id)
  {
    assert Failing(s.workers[w]);
  }

  /** A worker that is failing and has no handle left can only clean up and finish. */
  lemma {:induction false} LoserMoves(s: State, w: nat, m: WorkerMove, t: State)
    requires WorkerDoes(s, w, m, t) && w < |s.workers| && Failing(s.workers[w]) && !HasHandle(s.workers[w])
    ensures m == UnlinkTemp || m == UnlinkFinal || m == UnlinkError || m == Finish
  {
  }

  lemma {:induction false} LoserStaysLost(s: State, w: nat, m: WorkerMove, t: State, id: JobId)
    requires Lost(s, id) && Apart(s.workers) && WorkerDoes(s, w, m, t) && Holds(s.workers[w]) == Some(id)
    requires !HasHandle(s.workers[w]) && CopyOk(s.jobs, s.workers[w])
    ensures Lost(t, id)
  {
    LoserMoves(s, w, m, t);
    if m == UnlinkTemp {
      UnlinkTempStaysLost(s, w, t, id);
    } else if m == UnlinkFinal {
      UnlinkFinalStaysLost(s, w, t, id);
    } else if m == UnlinkError {
      UnlinkErrorStaysLost(s, w, t, id);
    } else {
      FinishStaysLost(s, w, t, id);
    }
  }

  lemma {:induction false} WorkerStaysLost(s: State, w: nat, m: WorkerMove, t: State, id: JobId)
    requires Inv(s) && Lost(s, id) && WorkerDoes(s, w, m, t)
    ensures Lost(t, id)
  {
    if m != Exit {
      var x, ino := WorkerEffect(s, w, m, t);
      if x != id {
        EffectKeepsOthersLost(s, t, w, x, ino, id);
      } else {
        if HasHandle(s.workers[w]) {
          WriterStaysLost(s, w, m, t, id);
        } else {
          LoserStaysLost(s, w, m, t, id);
        }
      }
    }
  }

  lemma {:induction false} CreatorStaysLost(s: State, c: nat, m: CreatorMove, t: State, id: JobId)
    requires CreatorsOk(s) && s.accepted <= s.born && Lost(s, id) && CreatorDoes(s, c, m, t)
    ensures Lost(t, id)
  {
    match m
    case Admit =>
    case Abandon =>
    case Stamp =>
    case Insert(x) =>
    case Enqueue => assert CreatorId(s.creators[c]) != Some(id);
    case QueueFull =>
    case RollBack =>
  }

  lemma {:induction false} StepStaysLost(s: State, t: State, id: JobId)
    requires Inv(s) && Lost(s, id) && Next(s, t)
    ensures Lost(t, id)
  {
    var who := WhoActs(s, t);
    match who
    case SomeCreator =>
      CreatorActStaysLost(s, t, id);
    case SomeWorker =>
      WorkerActStaysLost(s, t, id);
    case TheSweep =>
      SweepActStaysLost(s, t, id);
    case Outside =>
      OutsideStaysLost(s, t, id);
  }

  lemma {:induction false} OutsideStaysLost(s: State, t: State, id: JobId)
    requires Lost(s, id) && OutsideActs(s, t)
    ensures Lost(t, id)
  {
    assert t.jobs == s.jobs && t.disk == s.disk && t.workers == s.workers;
  }

  lemma {:induction false} CreatorActStaysLost(s: State, t: State, id: JobId)
    requires Inv(s) && Lost(s, id) && CreatorActs(s, t)
    ensures Lost(t, id)
  {
    var c, m :| CreatorDoes(s, c, m, t);
    CreatorStaysLost(s, c, m, t, id);
  }

  lemma {:induction false} WorkerActStaysLost(s: State, t: State, id: JobId)
    requires Inv(s) && Lost(s, id) && WorkerActs(s, t)
    ensures Lost(t, id)
  {
    var w, m :| WorkerDoes(s, w, m, t);
    WorkerStaysLost(s, w, m, t, id);
  }

  lemma {:induction false} SweepActStaysLost(s: State, t: State, id: JobId)
    requires Inv(s) && Lost(s, id) && SweepActs(s, t)
    ensures Lost(t, id)
  {
    var m :| SweepDoes(s, m, t);
    SweepKeeps(s, m, t);
  }

  lemma {:induction false} LostNext(run: seq<State>, i: nat, id: JobId)
    requires Run(run) && i + 1 < |run| && Lost(run[i], id)
    ensures Lost(run[i + 1], id)
  {
    RunInv(run, i);
    NextAt(run, i);
    StepStaysLost(run[i], run[i + 1], id);
  }

  lemma {:induction false} LostStays(run: seq<State>, i: nat, j: nat, id: JobId)
    requires Run(run) && i <= j < |run| && Lost(run[i], id)
    ensures Lost(run[j], id)
    decreases j - i
  {
    if i < j {
      LostNext(run, i, id);
      LostStays(run, i + 1, j, id);
    }
  }

  /** A temp file deleted while its worker writes it is never published: from then on the
      final path stays empty, and the job ends Failed or gone. */
  lemma {:induction false} DeletedTempNeverPublishes(run: seq<State>, i: nat, j: nat, w: nat)
    requires Run(run) && i <= j < |run| && w < |run[i].workers|
    requires HasHandle(run[i].workers[w]) && run[i].workers[w].job.id !in run[i].disk.temp
    ensures var id := run[i].workers[w].job.id;
            && id !in run[j].disk.final
            && (id in run[j].finished ==> id !in run[j].jobs || run[j].jobs[id].status == Failed)
            && (id in run[j].jobs ==> run[j].jobs[id].status != Completed)
  {
    var id := run[i].workers[w].job.id;
    RunInv(run, i);
    assert Holds(run[i].workers[w]) == Some(id);
    assert FilesOk(run[i].disk, run[i].plans, run[i].workers[w]);
    assert Lost(run[i], id);
    LostStays(run, i, j, id);
    NoneStuck(run, j, id);
  }

  // ----- building executions -----

  lemma {:induction false} SingletonPath(t: State)
    ensures Path([t])
  {
  }

  lemma {:induction false} Prepended(s: State, rest: seq<State>) returns (path: seq<State>)
    requires Path(rest) && Next(s, rest[0])
    ensures Path(path) && path == [s] + rest
  {
    path := [s] + rest;
    forall i | 0 <= i < |path| - 1 ensures Linked(path, i) {
      if i > 0 {
        assert Linked(rest, i - 1);
        assert path[i] == rest[i - 1] && path[i + 1] == rest[i];
      }
    }
  }
}
