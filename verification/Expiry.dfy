/** The sweep takes nothing before its time: a record that disappears was seen past its deadline. */
module Expiry {
  import opened Model
  import opened Protocol
  import opened ProtocolInvariant
  import opened ProtocolSteps
  import opened JobLifecycle
  import opened Downloads
  import opened OrphanTokens
  import opened JobTruth

  // ----- where the sweep's list comes from -----

  lemma {:induction false} ListOrigin(s: State, m: SweepMove, t: State)
    requires SweepDoes(s, m, t) && !t.sweep.Resting?
    ensures if m == List then t.sweep.snap == s.jobs
            else !s.sweep.Resting? && t.sweep.snap == s.sweep.snap
  {
    match m
    case List =>
    case ReadClock =>
    case Track(_) =>
    case Condemn(_) =>
    case RemoveTemp =>
    case RemoveFinal =>
    case RemoveError =>
    case Revoke =>
    case Erase =>
    case ListFiles =>
    case Skip(_) =>
    case Orphan(_) =>
    case PurgeTemp =>
    case PurgeFinal =>
    case PurgeError =>
    case Rest =>
  }

  lemma {:induction false} StepListOrigin(s: State, t: State)
    requires Next(s, t) && !t.sweep.Resting?
    ensures t.sweep.snap == s.jobs || (!s.sweep.Resting? && t.sweep.snap == s.sweep.snap)
  {
    if CreatorActs(s, t) {
      var c: nat, m :| CreatorDoes(s, c, m, t);
      CreatorMoveTokens(s, c, m, t);
    } else if WorkerActs(s, t) {
      var w: nat, m :| WorkerDoes(s, w, m, t);
      WorkerMoveTokens(s, w, m, t);
    } else if SweepActs(s, t) {
      var m :| SweepDoes(s, m, t);
      ListOrigin(s, m, t);
    }
  }

  /** A record in the sweep's list is the one stored in some earlier state. */
  lemma {:induction false} ListedWasStored(run: seq<State>, k: nat, id: JobId) returns (j: nat)
    requires Run(run) && k < |run| && !run[k].sweep.Resting? && id in run[k].sweep.snap
    ensures j < k && id in run[j].jobs && run[j].jobs[id] == run[k].sweep.snap[id]
  {
    assert k > 0;
    NextAt(run, k - 1);
    StepListOrigin(run[k - 1], run[k]);
    if run[k].sweep.snap == run[k - 1].jobs {
      j := k - 1;
    } else {
      j := ListedWasStored(run, k - 1, id);
    }
  }

  // ----- how a record goes -----

  /** Only the sweep erases the record of an accepted job. */
  lemma {:induction false} StepErases(s: State, t: State, id: JobId)
    requires CreatorsOk(s) && s.accepted <= s.born && Next(s, t)
    requires id in s.accepted && id in s.jobs && id !in t.jobs
    ensures Erasing(s.sweep, id)
  {
    if CreatorActs(s, t) {
      var c: nat, m :| CreatorDoes(s, c, m, t);
      CreatorKeepsFinished(s, c, m, t, id);
    } else if WorkerActs(s, t) {
      var w: nat, m :| WorkerDoes(s, w, m, t);
      WorkerMoveTokens(s, w, m, t);
    } else if SweepActs(s, t) {
      var m :| SweepDoes(s, m, t);
      SweepMoveTokens(s, m, t);
    }
  }

  lemma {:induction false} Condemned(s: State, id: JobId)
    requires SweepOk(s) && Erasing(s.sweep, id)
    ensures id in s.sweep.snap && s.sweep.at <= s.now && IsExpired(s.sweep.snap[id], s.cfg.ttlFallback, s.sweep.at)
  {
  }

  /** The step at which a record goes. */
  lemma {:induction false} Vanishes(run: seq<State>, i: nat, k: nat, id: JobId) returns (q: nat)
    requires Run(run) && i <= k < |run| && id in run[i].jobs && id !in run[k].jobs
    ensures i <= q < k && id in run[q].jobs && id !in run[q + 1].jobs
  {
    if id in run[k - 1].jobs {
      q := k - 1;
    } else {
      q := Vanishes(run, i, k - 1, id);
    }
  }

  lemma {:induction false} StaysAccepted(run: seq<State>, i: nat, k: nat, id: JobId)
    requires Run(run) && i <= k < |run| && id in run[i].accepted
    ensures id in run[k].accepted
  {
    if i < k {
      StaysAccepted(run, i, k - 1, id);
      NextAt(run, k - 1);
      AcceptedGrows(run[k - 1], run[k]);
    }
  }

  lemma {:induction false} AcceptedGrows(s: State, t: State)
    requires Next(s, t)
    ensures s.accepted <= t.accepted
  {
    if CreatorActs(s, t) {
      var c: nat, m :| CreatorDoes(s, c, m, t);
      CreatorMoveTokens(s, c, m, t);
    } else if WorkerActs(s, t) {
      var w: nat, m :| WorkerDoes(s, w, m, t);
      WorkerMoveTokens(s, w, m, t);
    } else if SweepActs(s, t) {
      var m :| SweepDoes(s, m, t);
      SweepMoveTokens(s, m, t);
    }
  }

  lemma {:induction false} ErasedWasCondemned(run: seq<State>, q: nat, id: JobId)
    requires Run(run) && q + 1 < |run| && id in run[q].accepted && id in run[q].jobs && id !in run[q + 1].jobs
    ensures !run[q].sweep.Resting? && id in run[q].sweep.snap
    ensures IsExpired(run[q].sweep.snap[id], run[q].cfg.ttlFallback, run[q].now)
  {
    RunInv(run, q);
    NextAt(run, q);
    StepErases(run[q], run[q + 1], id);
    Condemned(run[q], id);
  }

  /** In every run: a record of an accepted job that is there at `i` and gone at `k` was, in some
      state `j` before, stored with an expiry that is past at `k`, or without one and with its
      creation plus the fallback past at `k`. */
  lemma {:induction false} RemovedOnlyExpired(run: seq<State>, i: nat, k: nat, id: JobId) returns (j: nat)
    requires Run(run) && i <= k < |run| && id in run[i].accepted && id in run[i].jobs && id !in run[k].jobs
    ensures j < k && id in run[j].jobs
    ensures match run[j].jobs[id].expiresAt
            case Some(t) => run[k].now > t
            case None => run[k].now > run[j].jobs[id].createdAt + run[0].cfg.ttlFallback
  {
    var q := Vanishes(run, i, k, id);
    StaysAccepted(run, i, q, id);
    ErasedWasCondemned(run, q, id);
    j := ListedWasStored(run, q, id);
    RunConstants(run, q);
    RunClock(run, q, k);
  }

  /** So no accepted job goes before the configured lifetime after its creation has passed. */
  lemma {:induction false} KeptWhileYoung(run: seq<State>, i: nat, k: nat, id: JobId)
    requires Run(run) && i <= k < |run| && id in run[i].accepted && id in run[i].jobs
    requires run[0].cfg.ttlFallback == run[0].cfg.expiry
    requires run[k].now <= run[i].jobs[id].createdAt + run[0].cfg.expiry
    ensures id in run[k].jobs
  {
    if id !in run[k].jobs {
      var j := RemovedOnlyExpired(run, i, k, id);
      RecordsAreTrue(run, j, id);
      RunConstants(run, j);
      if i <= j {
        RecordsAdvance(run, i, j, id);
      } else {
        RecordsAdvance(run, j, i, id);
      }
    }
  }
}
