/** Intake and queue: who is refused, in which order jobs are taken, when a job was born, and when a
    worker may leave. */
module Admission {
  import opened Model
  import opened Protocol
  import opened ProtocolInvariant
  import opened ProtocolSteps
  import opened JobLifecycle

  // ----- first in, first out -----

  /** `a` waits in the queue somewhere before `b`. */
  ghost predicate Ahead(queue: seq<JobId>, a: JobId, b: JobId) {
    exists p, q :: 0 <= p < q < |queue| && queue[p] == a && queue[q] == b
  }

  /** What one step may do to the queue. */
  ghost predicate QueueStep(s: State, t: State) {
    && s.accepted <= t.accepted
    && (|| t.queue == s.queue
        || (s.queue != [] && t.queue == s.queue[1..])
        || exists x :: x !in s.accepted && t.queue == s.queue + [x])
  }

  lemma {:induction false} WorkerQueue(s: State, w: nat, m: WorkerMove, t: State)
    requires WorkerDoes(s, w, m, t)
    ensures t.accepted == s.accepted && t.rejected == s.rejected
    ensures t.queue == s.queue || (s.queue != [] && t.queue == s.queue[1..])
  {
    match m
    case Dequeue =>
    case Exit =>
    case Vanished =>
    case Get =>
    case Mark =>
    case Manifest(_) =>
    case RecordTotals =>
    case Fail =>
    case CreateTemp(_) =>
    case Write =>
    case Trailer =>
    case Break(_) =>
    case Report =>
    case Close =>
    case Rename =>
    case Undo =>
    case UnlinkTemp =>
    case UnlinkFinal =>
    case UnlinkError =>
    case TakeTime =>
    case Issue(_) =>
    case Finish =>
  }

  lemma {:induction false} CreatorQueue(s: State, c: nat, m: CreatorMove, t: State)
    requires CreatorsOk(s) && CreatorDoes(s, c, m, t)
    ensures QueueStep(s, t)
  {
    match m
    case Admit =>
    case Abandon =>
    case Stamp =>
    case Insert(_) =>
    case Enqueue => assert CreatorId(s.creators[c]) == Some(s.creators[c].id);
    case QueueFull =>
    case RollBack =>
  }

  lemma {:induction false} SweepQueue(s: State, m: SweepMove, t: State)
    requires SweepDoes(s, m, t)
    ensures t.queue == s.queue && t.accepted == s.accepted && t.rejected == s.rejected && t.creators == s.creators
    ensures t.workers == s.workers
  {
    match m
    case List =>
    case ReadClock =>
    case Track(_) =>
    case Condemn(_) =>
    case RemoveTemp =>
    case RemoveFinal =>
    case RemoveError =>
    case Revoke =>
    case Erase =>
    case ListFiles =>
    case Skip(_) =>
    case Orphan(_) =>
    case PurgeTemp =>
    case PurgeFinal =>
    case PurgeError =>
    case Rest =>
  }

  lemma {:induction false} NextQueue(s: State, t: State)
    requires CreatorsOk(s) && Next(s, t)
    ensures QueueStep(s, t)
  {
    if CreatorActs(s, t) {
      var c: nat, m :| CreatorDoes(s, c, m, t);
      CreatorQueue(s, c, m, t);
    } else if WorkerActs(s, t) {
      var w: nat, m :| WorkerDoes(s, w, m, t);
      WorkerQueue(s, w, m, t);
    } else if SweepActs(s, t) {
      var m :| SweepDoes(s, m, t);
      SweepQueue(s, m, t);
    }
  }

  lemma {:induction false} StillAhead(s: State, t: State, a: JobId, b: JobId)
    requires QueueStep(s, t) && Distinct(s.queue) && a in s.accepted && (a in s.queue ==> Ahead(s.queue, a, b))
    ensures a in t.accepted && (a in t.queue ==> Ahead(t.queue, a, b))
  {
    if a in t.queue {
      if t.queue == s.queue {
      } else if s.queue != [] && t.queue == s.queue[1..] {
        var p, q :| 0 <= p < q < |s.queue| && s.queue[p] == a && s.queue[q] == b;
        var r :| 0 <= r < |t.queue| && t.queue[r] == a;
        assert s.queue[r + 1] == a;
        assert p == r + 1;
        assert t.queue[p - 1] == a && t.queue[q - 1] == b;
      } else {
        var x :| x !in s.accepted && t.queue == s.queue + [x];
        assert a in s.queue;
        var p, q :| 0 <= p < q < |s.queue| && s.queue[p] == a && s.queue[q] == b;
        assert t.queue[p] == a && t.queue[q] == b;
      }
    }
  }

  lemma {:induction false} QueueFacts(run: seq<State>, k: nat)
    requires Run(run) && k < |run|
    ensures CreatorsOk(run[k]) && Distinct(run[k].queue) && forall x :: x in run[k].queue ==> x in run[k].accepted
  {
    RunInv(run, k);
  }

  /** Jobs are taken in the order they were accepted: of two jobs in the queue the one behind is not taken
      while the one ahead still waits. */
  lemma {:induction false} FirstInFirstOut(run: seq<State>, i: nat, k: nat, a: JobId, b: JobId)
    requires Run(run) && i <= k < |run| && Ahead(run[i].queue, a, b)
    ensures a in run[k].accepted && (a in run[k].queue ==> Ahead(run[k].queue, a, b) && b in run[k].queue)
  {
    if i == k {
      QueueFacts(run, i);
    } else {
      FirstInFirstOut(run, i, k - 1, a, b);
      QueueFacts(run, k - 1);
      NextAt(run, k - 1);
      NextQueue(run[k - 1], run[k]);
      StillAhead(run[k - 1], run[k], a, b);
    }
  }

  // ----- refusals -----

  /** A creator waits with this job, and the queue is full. */
  predicate FullFor(s: State, c: nat, id: JobId) {
    c in s.creators && s.creators[c] == Inserted(id) && |s.queue| >= s.cfg.queueSize
  }

  lemma {:induction false} CreatorOrigin(s: State, c: nat, m: CreatorMove, t: State)
    requires CreatorDoes(s, c, m, t)
    ensures forall d :: d in t.creators ==>
              || (d in s.creators && t.creators[d] == s.creators[d])
              || (d == c && (t.creators[d].Rejecting? ==> FullFor(s, c, t.creators[d].id)))
    ensures forall d :: d in t.creators && t.creators[d].Stamped? ==>
              (d in s.creators && t.creators[d] == s.creators[d]) || t.creators[d].at == s.now
    ensures forall id :: id in t.rejected && id !in s.rejected ==> c in s.creators && s.creators[c] == Rejecting(id)
  {
    match m
    case Admit =>
    case Abandon =>
    case Stamp =>
    case Insert(_) =>
    case Enqueue =>
    case QueueFull =>
    case RollBack =>
  }

  lemma {:induction false} CreatorsOnlyByCreators(s: State, t: State)
    requires Next(s, t) && !CreatorActs(s, t)
    ensures t.creators == s.creators && t.rejected == s.rejected
  {
    if WorkerActs(s, t) {
      var w: nat, m :| WorkerDoes(s, w, m, t);
      WorkerQueue(s, w, m, t);
      WorkerCreators(s, w, m, t);
    } else if SweepActs(s, t) {
      var m :| SweepDoes(s, m, t);
      SweepQueue(s, m, t);
    }
  }

  lemma {:induction false} WorkerCreators(s: State, w: nat, m: WorkerMove, t: State)
    requires WorkerDoes(s, w, m, t)
    ensures t.creators == s.creators
  {
    match m
    case Dequeue =>
    case Exit =>
    case Vanished =>
    case Get =>
    case Mark =>
    case Manifest(_) =>
    case RecordTotals =>
    case Fail =>
    case CreateTemp(_) =>
    case Write =>
    case Trailer =>
    case Break(_) =>
    case Report =>
    case Close =>
    case Rename =>
    case Undo =>
    case UnlinkTemp =>
    case UnlinkFinal =>
    case UnlinkError =>
    case TakeTime =>
    case Issue(_) =>
    case Finish =>
  }

  /** A creator that is rolling back met a full queue. */
  lemma {:induction false} RollingBackMetFull(run: seq<State>, k: nat, d: nat) returns (j: nat)
    requires Run(run) && k < |run| && d in run[k].creators && run[k].creators[d].Rejecting?
    ensures j < k && FullFor(run[j], d, run[k].creators[d].id)
  {
    assert k > 0;
    NextAt(run, k - 1);
    if d in run[k - 1].creators && run[k - 1].creators[d] == run[k].creators[d] {
      j := RollingBackMetFull(run, k - 1, d);
    } else {
      j := k - 1;
      if CreatorActs(run[k - 1], run[k]) {
        var c: nat, m :| CreatorDoes(run[k - 1], c, m, run[k]);
        CreatorOrigin(run[k - 1], c, m, run[k]);
      } else {
        CreatorsOnlyByCreators(run[k - 1], run[k]);
      }
    }
  }

  /** Only a full queue refuses: a request that was rejected met one. */
  lemma {:induction false} RejectedMetFull(run: seq<State>, k: nat, id: JobId) returns (j: nat, c: nat)
    requires Run(run) && k < |run| && id in run[k].rejected
    ensures j < k && FullFor(run[j], c, id)
  {
    assert k > 0;
    if id in run[k - 1].rejected {
      j, c := RejectedMetFull(run, k - 1, id);
    } else {
      NextAt(run, k - 1);
      c := RollsBack(run[k - 1], run[k], id);
      j := RollingBackMetFull(run, k - 1, c);
    }
  }

  lemma {:induction false} RollsBack(s: State, t: State, id: JobId) returns (c: nat)
    requires Next(s, t) && id in t.rejected && id !in s.rejected
    ensures c in s.creators && s.creators[c] == Rejecting(id)
  {
    if CreatorActs(s, t) {
      var m;
      c, m :| CreatorDoes(s, c, m, t);
      CreatorOrigin(s, c, m, t);
    } else {
      CreatorsOnlyByCreators(s, t);
    }
  }

  // ----- birth -----

  lemma {:induction false} StampWasNow(run: seq<State>, k: nat, d: nat) returns (j: nat)
    requires Run(run) && k < |run| && d in run[k].creators && run[k].creators[d].Stamped?
    ensures j < k && run[j].now == run[k].creators[d].at
  {
    assert k > 0;
    NextAt(run, k - 1);
    if d in run[k - 1].creators && run[k - 1].creators[d] == run[k].creators[d] {
      j := StampWasNow(run, k - 1, d);
    } else {
      j := k - 1;
      if CreatorActs(run[k - 1], run[k]) {
        var c: nat, m :| CreatorDoes(run[k - 1], c, m, run[k]);
        CreatorOrigin(run[k - 1], c, m, run[k]);
      } else {
        CreatorsOnlyByCreators(run[k - 1], run[k]);
      }
    }
  }

  lemma {:induction false} Inserts(s: State, t: State, id: JobId) returns (c: nat)
    requires s.jobs.Keys <= s.born && Next(s, t) && id !in s.born && id in t.jobs
    ensures c in s.creators && s.creators[c].Stamped? && t.jobs[id].createdAt == s.creators[c].at
    ensures t.jobs[id].id == id && t.jobs[id].status == Queued
  {
    if CreatorActs(s, t) {
      var m;
      c, m :| CreatorDoes(s, c, m, t);
      CreatorInserts(s, c, m, t, id);
    } else if WorkerActs(s, t) {
      var w: nat, m :| WorkerDoes(s, w, m, t);
      WorkerInsertsNothing(s, w, m, t);
    } else if SweepActs(s, t) {
      var m :| SweepDoes(s, m, t);
      SweepInsertsNothing(s, m, t);
    }
  }

  lemma {:induction false} CreatorInserts(s: State, c: nat, m: CreatorMove, t: State, id: JobId)
    requires CreatorDoes(s, c, m, t) && id !in s.jobs && id in t.jobs
    ensures c in s.creators && s.creators[c].Stamped? && t.jobs[id].createdAt == s.creators[c].at
    ensures t.jobs[id].id == id && t.jobs[id].status == Queued
  {
    match m
    case Admit =>
    case Abandon =>
    case Stamp =>
    case Insert(_) =>
    case Enqueue =>
    case QueueFull =>
    case RollBack =>
  }

  lemma {:induction false} WorkerInsertsNothing(s: State, w: nat, m: WorkerMove, t: State)
    requires WorkerDoes(s, w, m, t)
    ensures t.jobs.Keys == s.jobs.Keys
  {
    match m
    case Dequeue =>
    case Exit =>
    case Vanished =>
    case Get =>
    case Mark =>
    case Manifest(_) =>
    case RecordTotals =>
    case Fail =>
    case CreateTemp(_) =>
    case Write =>
    case Trailer =>
    case Break(_) =>
    case Report =>
    case Close =>
    case Rename =>
    case Undo =>
    case UnlinkTemp =>
    case UnlinkFinal =>
    case UnlinkError =>
    case TakeTime =>
    case Issue(_) =>
    case Finish =>
  }

  lemma {:induction false} SweepInsertsNothing(s: State, m: SweepMove, t: State)
    requires SweepDoes(s, m, t)
    ensures t.jobs.Keys <= s.jobs.Keys
  {
    match m
    case List =>
    case ReadClock =>
    case Track(_) =>
    case Condemn(_) =>
    case RemoveTemp =>
    case RemoveFinal =>
    case RemoveError =>
    case Revoke =>
    case Erase =>
    case ListFiles =>
    case Skip(_) =>
    case Orphan(_) =>
    case PurgeTemp =>
    case PurgeFinal =>
    case PurgeError =>
    case Rest =>
  }

  lemma {:induction false} BornFirst(run: seq<State>, k: nat, id: JobId)
    requires Run(run) && k < |run|
    ensures run[k].jobs.Keys <= run[k].born
  {
    RunInv(run, k);
  }

  /** A record's creation time is what the clock showed before the job was stored. */
  lemma {:induction false} CreatedThen(run: seq<State>, k: nat, id: JobId) returns (j: nat)
    requires Run(run) && k < |run| && id in run[k].jobs
    ensures j < k && run[j].now == run[k].jobs[id].createdAt && id !in run[j].jobs
  {
    assert k > 0;
    BornFirst(run, k - 1, id);
    RunAdvances(run, k - 1, id);
    if id in run[k - 1].jobs {
      j := CreatedThen(run, k - 1, id);
    } else {
      NextAt(run, k - 1);
      var c := Inserts(run[k - 1], run[k], id);
      j := StampWasNow(run, k - 1, c);
      NotYet(run, j, k - 1, id);
    }
  }

  /** A job that is not born yet was not stored before. */
  lemma {:induction false} NotYet(run: seq<State>, j: nat, k: nat, id: JobId)
    requires Run(run) && j <= k < |run| && id !in run[k].born
    ensures id !in run[j].jobs
  {
    BornFirst(run, j, id);
    RecordsAdvance(run, j, k, id);
  }

  // ----- leaving -----

  lemma {:induction false} WorkerLeaves(s: State, v: nat, m: WorkerMove, t: State, w: nat)
    requires WorkerDoes(s, v, m, t) && w < |s.workers| && w < |t.workers|
    requires t.workers[w] == Exited && s.workers[w] != Exited
    ensures s.cancelled
  {
    match m
    case Dequeue =>
    case Exit =>
    case Vanished =>
    case Get =>
    case Mark =>
    case Manifest(_) =>
    case RecordTotals =>
    case Fail =>
    case CreateTemp(_) =>
    case Write =>
    case Trailer =>
    case Break(_) =>
    case Report =>
    case Close =>
    case Rename =>
    case Undo =>
    case UnlinkTemp =>
    case UnlinkFinal =>
    case UnlinkError =>
    case TakeTime =>
    case Issue(_) =>
    case Finish =>
  }

  lemma {:induction false} CancelStays(s: State, t: State)
    requires Inv(s) && Next(s, t) && s.cancelled
    ensures t.cancelled
  {
    if CreatorActs(s, t) {
      var c: nat, m :| CreatorDoes(s, c, m, t);
      CreatorKeepsCancel(s, c, m, t);
    } else if WorkerActs(s, t) {
      var w: nat, m :| WorkerDoes(s, w, m, t);
      if m != Exit {
        var id, ino := WorkerEffect(s, w, m, t);
      }
    } else if SweepActs(s, t) {
      var m :| SweepDoes(s, m, t);
      SweepKeeps(s, m, t);
    }
  }

  lemma {:induction false} CreatorKeepsCancel(s: State, c: nat, m: CreatorMove, t: State)
    requires CreatorDoes(s, c, m, t)
    ensures t.cancelled == s.cancelled && t.workers == s.workers
  {
    match m
    case Admit =>
    case Abandon =>
    case Stamp =>
    case Insert(_) =>
    case Enqueue =>
    case QueueFull =>
    case RollBack =>
  }

  lemma {:induction false} StepLeaves(s: State, t: State, w: nat)
    requires Next(s, t) && w < |s.workers| && w < |t.workers| && t.workers[w] == Exited && s.workers[w] != Exited
    ensures s.cancelled
  {
    if CreatorActs(s, t) {
      var c: nat, m :| CreatorDoes(s, c, m, t);
      CreatorKeepsCancel(s, c, m, t);
    } else if WorkerActs(s, t) {
      var v: nat, m :| WorkerDoes(s, v, m, t);
      WorkerLeaves(s, v, m, t, w);
    } else if SweepActs(s, t) {
      var m :| SweepDoes(s, m, t);
      SweepQueue(s, m, t);
    }
  }

  lemma {:induction false} LeftAt(run: seq<State>, k: nat, w: nat)
    requires Run(run) && 0 < k < |run| && w < |run[k].workers| && w < |run[k - 1].workers|
    requires run[k].workers[w] == Exited && run[k - 1].workers[w] != Exited
    ensures run[k - 1].cancelled
  {
    NextAt(run, k - 1);
    StepLeaves(run[k - 1], run[k], w);
  }

  /** No worker leaves before the pool is cancelled. */
  lemma {:induction false} ExitedAfterCancel(run: seq<State>, k: nat, w: nat)
    requires Run(run) && k < |run| && w < |run[k].workers| && run[k].workers[w] == Exited
    ensures run[k].cancelled
  {
    if k > 0 {
      RunConstants(run, k);
      RunConstants(run, k - 1);
      if run[k - 1].workers[w] == Exited {
        ExitedAfterCancel(run, k - 1, w);
      } else {
        LeftAt(run, k, w);
      }
      CancelNext(run, k - 1);
    }
  }

  lemma {:induction false} CancelNext(run: seq<State>, k: nat)
    requires Run(run) && k + 1 < |run| && run[k].cancelled
    ensures run[k + 1].cancelled
  {
    RunInv(run, k);
    NextAt(run, k);
    CancelStays(run[k], run[k + 1]);
  }
}
