/** Tokens whose job is gone.  The sweep revokes a job's tokens before it erases the record, but
    the worker of an expired job may issue one in between or later. */
module OrphanTokens {
  import opened Model
  import opened Protocol
  import opened ProtocolInvariant
  import opened ProtocolSteps
  import opened JobLifecycle
  import opened Downloads
  import opened Scenario

  predicate Orphan(s: State, tok: Token) {
    tok in s.tokens && s.tokens[tok].jobId !in s.jobs
  }

  /** The sweep has revoked the tokens of `id` and is about to erase its record. */
  predicate Erasing(sweep: Sweep, id: JobId) {
    sweep.Removing? && sweep.target == id && sweep.stage == Record
  }

  // ----- what a step does to tokens -----

  lemma {:induction false} WorkerMoveTokens(s: State, w: nat, m: WorkerMove, t: State)
    requires WorkerDoes(s, w, m, t)
    ensures t.accepted == s.accepted && t.sweep == s.sweep && t.jobs.Keys == s.jobs.Keys
    ensures m.Issue? ==>
              && w < |s.workers| && s.workers[w].Issuing? && m.tok !in s.issued && t.issued == s.issued + {m.tok}
              && t.tokens == s.tokens[m.tok := TokenEntry(s.workers[w].job.id, s.now + s.cfg.expiry)]
    ensures !m.Issue? ==> t.tokens == s.tokens && t.issued == s.issued
  {
    match m
    case Dequeue =>
    case Exit =>
    case Vanished =>
    case Get =>
    case Mark =>
    case Manifest(_) =>
    case RecordTotals =>
    case Fail =>
    case CreateTemp(_) =>
    case Write =>
    case Trailer =>
    case Break(_) =>
    case Report =>
    case Close =>
    case Rename =>
    case Undo =>
    case UnlinkTemp =>
    case UnlinkFinal =>
    case UnlinkError =>
    case TakeTime =>
    case Issue(_) =>
    case Finish =>
  }

  lemma {:induction false} CreatorMoveTokens(s: State, c: nat, m: CreatorMove, t: State)
    requires CreatorDoes(s, c, m, t)
    ensures t.tokens == s.tokens && t.issued == s.issued && s.accepted <= t.accepted && t.sweep == s.sweep
  {
    match m
    case Admit =>
    case Abandon =>
    case Stamp =>
    case Insert(_) =>
    case Enqueue =>
    case QueueFull =>
    case RollBack =>
  }

  lemma {:induction false} SweepMoveTokens(s: State, m: SweepMove, t: State)
    requires SweepDoes(s, m, t)
    ensures t.issued == s.issued && t.accepted == s.accepted
    ensures t.tokens == if m == Revoke then Revoked(s.tokens, s.sweep.target) else s.tokens
    ensures t.jobs == if m == Erase then s.jobs - {s.sweep.target} else s.jobs
    ensures m == Revoke || m == Erase ==> s.sweep.Removing?
    ensures m == Erase ==> s.sweep.stage == Record
    ensures t.sweep.Removing? && t.sweep.stage == Record ==>
              s.sweep.Removing? && s.sweep.target == t.sweep.target && m == Revoke
  {
    match m
    case List =>
    case ReadClock =>
    case Track(_) =>
    case Condemn(_) =>
    case RemoveTemp =>
    case RemoveFinal =>
    case RemoveError =>
    case Revoke =>
    case Erase =>
    case ListFiles =>
    case Skip(_) =>
    case Orphan(_) =>
    case PurgeTemp =>
    case PurgeFinal =>
    case PurgeError =>
    case Rest =>
  }

  /** `tok` was issued for the accepted job `id` and still means it while it is in the table. */
  predicate Tied(s: State, tok: Token, id: JobId) {
    tok in s.issued && id in s.accepted && (tok in s.tokens ==> s.tokens[tok].jobId == id)
  }

  lemma {:induction false} StepKeepsTied(s: State, t: State, tok: Token, id: JobId)
    requires Next(s, t) && Tied(s, tok, id)
    ensures Tied(t, tok, id)
  {
    if CreatorActs(s, t) {
      var c, m :| CreatorDoes(s, c, m, t);
      CreatorMoveTokens(s, c, m, t);
    } else if WorkerActs(s, t) {
      var w, m :| WorkerDoes(s, w, m, t);
      WorkerMoveTokens(s, w, m, t);
    } else if SweepActs(s, t) {
      var m :| SweepDoes(s, m, t);
      SweepMoveTokens(s, m, t);
    }
  }

  lemma {:induction false} StaysTied(path: seq<State>, i: nat, k: nat, tok: Token, id: JobId)
    requires Path(path) && i <= k < |path| && Tied(path[i], tok, id)
    ensures Tied(path[k], tok, id)
  {
    if i < k {
      StaysTied(path, i, k - 1, tok, id);
      NextAt(path, k - 1);
      StepKeepsTied(path[k - 1], path[k], tok, id);
    }
  }

  // ----- every token in the table is some accepted job's -----

  ghost predicate AllTied(s: State) {
    forall tok :: tok in s.tokens ==> Tied(s, tok, s.tokens[tok].jobId)
  }

  lemma {:induction false} CreatorActTokens(s: State, t: State)
    requires CreatorActs(s, t)
    ensures t.tokens == s.tokens
  {
    var c: nat, m :| CreatorDoes(s, c, m, t);
    CreatorMoveTokens(s, c, m, t);
  }

  lemma {:induction false} SweepActTokens(s: State, t: State)
    requires SweepActs(s, t)
    ensures Submap(t.tokens, s.tokens)
  {
    var m :| SweepDoes(s, m, t);
    SweepMoveTokens(s, m, t);
  }

  lemma {:induction false} WorkerActTokens(s: State, t: State, tok: Token)
    requires Owned(s) && WorkerActs(s, t) && tok in t.tokens
    ensures (tok in s.tokens && t.tokens[tok] == s.tokens[tok]) || Tied(t, tok, t.tokens[tok].jobId)
  {
    var w: nat, m :| WorkerDoes(s, w, m, t);
    WorkerMoveTokens(s, w, m, t);
    if m.Issue? {
      assert Holds(s.workers[w]) == Some(s.workers[w].job.id);
    }
  }

  /** A token in the table was there before, or is issued for the job its worker holds. */
  lemma {:induction false} TokenOrigin(s: State, t: State, tok: Token)
    requires Owned(s) && Next(s, t) && tok in t.tokens
    ensures (tok in s.tokens && t.tokens[tok] == s.tokens[tok]) || Tied(t, tok, t.tokens[tok].jobId)
  {
    if CreatorActs(s, t) {
      CreatorActTokens(s, t);
    } else if WorkerActs(s, t) {
      WorkerActTokens(s, t, tok);
    } else if SweepActs(s, t) {
      SweepActTokens(s, t);
    }
  }

  lemma {:induction false} StepKeepsAllTied(s: State, t: State)
    requires Owned(s) && Next(s, t) && AllTied(s)
    ensures AllTied(t)
  {
    forall tok | tok in t.tokens ensures Tied(t, tok, t.tokens[tok].jobId) {
      TokenOrigin(s, t, tok);
      if tok in s.tokens && t.tokens[tok] == s.tokens[tok] {
        StepKeepsTied(s, t, tok, s.tokens[tok].jobId);
      }
    }
  }

  lemma {:induction false} RunAllTied(run: seq<State>, i: nat)
    requires Run(run) && i < |run|
    ensures AllTied(run[i])
  {
    if i > 0 {
      RunAllTied(run, i - 1);
      RunInv(run, i - 1);
      NextAt(run, i - 1);
      StepKeepsAllTied(run[i - 1], run[i]);
    }
  }

  // ----- where a token comes from -----

  /** In step `i` of the run worker `w` issues `tok` for job `id`, valid until `until`. */
  predicate IssuesAt(run: seq<State>, i: nat, w: nat, tok: Token, id: JobId, until: Time) {
    && i + 1 < |run| && w < |run[i].workers| && run[i].workers[w].Issuing?
    && IssueStep(run[i], w, tok, run[i + 1])
    && run[i].workers[w].job.id == id && until == run[i].now + run[i].cfg.expiry
  }

  lemma {:induction false} NewToken(s: State, t: State, tok: Token) returns (w: nat)
    requires Next(s, t) && tok in t.tokens && !(tok in s.tokens && t.tokens[tok] == s.tokens[tok])
    ensures w < |s.workers| && s.workers[w].Issuing? && IssueStep(s, w, tok, t)
    ensures t.tokens[tok] == TokenEntry(s.workers[w].job.id, s.now + s.cfg.expiry)
  {
    if CreatorActs(s, t) {
      CreatorActTokens(s, t);
    } else if WorkerActs(s, t) {
      var m;
      w, m :| WorkerDoes(s, w, m, t);
      WorkerMoveTokens(s, w, m, t);
    } else if SweepActs(s, t) {
      SweepActTokens(s, t);
    }
  }

  /** A token in the table was issued earlier in the run, for the job it is entered for and with the
      configured lifetime. */
  lemma {:induction false} TokenWasIssued(run: seq<State>, k: nat, tok: Token) returns (i: nat, w: nat)
    requires Run(run) && k < |run| && tok in run[k].tokens
    ensures i < k && IssuesAt(run, i, w, tok, run[k].tokens[tok].jobId, run[k].tokens[tok].expiresAt)
  {
    assert k > 0;
    NextAt(run, k - 1);
    if tok in run[k - 1].tokens && run[k].tokens[tok] == run[k - 1].tokens[tok] {
      i, w := TokenWasIssued(run, k - 1, tok);
    } else {
      i := k - 1;
      w := NewToken(run[k - 1], run[k], tok);
    }
  }

  /** Whoever is served presents a token that a worker of that very job issued earlier in the run,
      and not longer ago than the configured lifetime. */
  lemma {:induction false} ServedIsEntitled(run: seq<State>, a: nat, b: nat, c: nat, id: JobId, tok: Token)
    returns (i: nat, w: nat)
    requires Run(run) && a <= b <= c < |run| && Download(run[a], run[b], run[c], id, tok).Served?
    ensures i < b && w < |run[i].workers| && run[i].workers[w].Issuing? && run[i].workers[w].job.id == id
    ensures IssueStep(run[i], w, tok, run[i + 1])
    ensures run[i].now <= run[b].now <= run[i].now + run[0].cfg.expiry
  {
    i, w := TokenWasIssued(run, b, tok);
    RunConstants(run, i);
    RunClock(run, i, b);
  }

  // ----- an orphan serves nothing -----

  lemma {:induction false} StrayServesNothing(a: State, b: State, c: State, tok: Token, job: JobId, id: JobId)
    requires Tied(b, tok, job) && job !in a.jobs
    ensures !Download(a, b, c, id, tok).Served?
  {
  }

  /** Once a token has lost its job no request that starts then or later is served with it, for
      whichever job it is presented: the job never comes back and the token is never issued
      again.  A request that had looked the record up before may still be served: see
      `ServedAfterLoss`. */
  lemma {:induction false} OrphanServesNothing(run: seq<State>, i: nat, a: nat, b: nat, c: nat, tok: Token, id: JobId)
    requires Run(run) && i <= a <= b <= c < |run| && Orphan(run[i], tok)
    ensures !Download(run[a], run[b], run[c], id, tok).Served?
  {
    var job := run[i].tokens[tok].jobId;
    RunAllTied(run, i);
    assert Tied(run[i], tok, job);
    StaysTied(run, i, b, tok, job);
    AcceptedIsBorn(run, i, job);
    RecordsAdvance(run, i, a, job);
    StrayServesNothing(run[a], run[b], run[c], tok, job, id);
  }

  lemma {:induction false} AcceptedIsBorn(run: seq<State>, i: nat, id: JobId)
    requires Run(run) && i < |run| && id in run[i].accepted
    ensures id in run[i].born
  {
    RunInv(run, i);
  }

  // ----- exactly when a token can lose its job -----

  predicate Bound(s: State, tok: Token, id: JobId) {
    tok in s.tokens ==> id in s.jobs && !Erasing(s.sweep, id)
  }

  lemma {:induction false} StepKeepsBound(s: State, t: State, tok: Token, id: JobId)
    requires CreatorsOk(s) && s.accepted <= s.born && Next(s, t) && Tied(s, tok, id) && Bound(s, tok, id)
    ensures Bound(t, tok, id)
  {
    if CreatorActs(s, t) {
      var c, m :| CreatorDoes(s, c, m, t);
      CreatorMoveTokens(s, c, m, t);
      CreatorKeepsFinished(s, c, m, t, id);
    } else if WorkerActs(s, t) {
      var w, m :| WorkerDoes(s, w, m, t);
      WorkerMoveTokens(s, w, m, t);
    } else if SweepActs(s, t) {
      var m :| SweepDoes(s, m, t);
      SweepMoveTokens(s, m, t);
    }
  }

  predicate TiedAndBound(s: State, tok: Token, id: JobId) {
    Tied(s, tok, id) && Bound(s, tok, id)
  }

  predicate BindingLasts(path: seq<State>, i: nat, tok: Token, id: JobId)
    requires i + 1 < |path|
  {
    TiedAndBound(path[i], tok, id) ==> TiedAndBound(path[i + 1], tok, id)
  }

  lemma {:induction false} BoundTurn(path: seq<State>, i: nat, tok: Token, id: JobId)
    requires Path(path) && i + 1 < |path| && Inv(path[0])
    ensures BindingLasts(path, i, tok, id)
  {
    if TiedAndBound(path[i], tok, id) {
      PathInv(path, i);
      NextAt(path, i);
      StepKeepsTied(path[i], path[i + 1], tok, id);
      StepKeepsBound(path[i], path[i + 1], tok, id);
    }
  }

  lemma {:induction false} BoundUpTo(path: seq<State>, k: nat, tok: Token, id: JobId)
    requires k < |path| && TiedAndBound(path[0], tok, id)
    requires forall i: nat {:trigger BindingLasts(path, i, tok, id)} ::
               i + 1 < |path| ==> BindingLasts(path, i, tok, id)
    ensures TiedAndBound(path[k], tok, id)
  {
    if k > 0 {
      BoundUpTo(path, k - 1, tok, id);
      assert BindingLasts(path, k - 1, tok, id);
    }
  }

  /** In no continuation of `s` does the token outlive its job. */
  ghost predicate NeverOrphaned(s: State, tok: Token) {
    forall path: seq<State>, k: int ::
      Path(path) && path[0] == s && 0 <= k < |path| ==> !Orphan(path[k], tok)
  }

  lemma {:induction false} BoundNeverOrphaned(s: State, tok: Token, id: JobId)
    requires Inv(s) && TiedAndBound(s, tok, id)
    ensures NeverOrphaned(s, tok)
  {
    forall path: seq<State>, k: int | Path(path) && path[0] == s && 0 <= k < |path|
      ensures !Orphan(path[k], tok)
    {
      forall i: nat | i + 1 < |path| ensures BindingLasts(path, i, tok, id) {
        BoundTurn(path, i, tok, id);
      }
      BoundUpTo(path, k, tok, id);
    }
  }

  lemma {:induction false} UnboundOrphaned(s: State, tok: Token)
    requires tok in s.tokens && !Bound(s, tok, s.tokens[tok].jobId)
    ensures !NeverOrphaned(s, tok)
  {
    var id := s.tokens[tok].jobId;
    SingletonPath(s);
    var path := [s];
    if id in s.jobs {
      var x := s.sweep;
      var t := s.(jobs := s.jobs - {id}, sweep := Scanning(x.snap, x.at, x.todo, x.tracked));
      assert SweepDoes(s, Erase, t);
      SingletonPath(t);
      path := Prepended(s, [t]);
      assert Orphan(path[1], tok);
    } else {
      assert Orphan(path[0], tok);
    }
  }

  /** In every reachable state: a token in the table keeps its job for as long as it lives, in
      every continuation, if and only if the job is stored now and the sweep is not between
      revoking the job's tokens and erasing its record. */
  lemma {:induction false} OrphanExactly(run: seq<State>, tok: Token)
    requires Run(run) && tok in run[|run| - 1].tokens
    ensures var s := run[|run| - 1];
            var id := s.tokens[tok].jobId;
            NeverOrphaned(s, tok) <==> id in s.jobs && !Erasing(s.sweep, id)
  {
    var s := run[|run| - 1];
    var id := s.tokens[tok].jobId;
    RunAllTied(run, |run| - 1);
    assert Tied(s, tok, id);
    if Bound(s, tok, id) {
      RunInv(run, |run| - 1);
      BoundNeverOrphaned(s, tok, id);
    } else {
      UnboundOrphaned(s, tok);
    }
  }

  // ----- a run that ends with an orphan -----

  const SNAP := map[ID := RUNNING_JOB]

  /** The job is past its deadline of 9, and the sweep has revoked its tokens and is about to
      erase its record, when the worker goes on. */
  const LATE := Scene(10, Removing(SNAP, 10, {}, {}, ID, Record))

  lemma {:induction false} TimePasses(n: nat)
    requires Reached(AtWork(Scene(0, Resting)))
    ensures Reached(AtWork(Scene(n, Resting)))
  {
    if n > 0 {
      TimePasses(n - 1);
      ReachedNext(AtWork(Scene(n - 1, Resting)), AtWork(Scene(n, Resting)));
    }
  }

  lemma {:induction false} JobExpires()
    ensures Reached(AtWork(Scene(10, Resting)))
  {
    ProcessStarts();
    JobIsAccepted(Resting);
    JobIsReady(Scene(0, Resting));
    TimePasses(10);
  }

  lemma {:induction false} JobIsListed()
    requires Reached(AtWork(Scene(10, Resting)))
    ensures Reached(AtWork(Scene(10, Scanning(SNAP, 10, {ID}, {}))))
  {
    SweepStep(AtWork(Scene(10, Resting)), List, AtWork(Scene(10, Listed(SNAP))));
    assert SNAP.Keys == {ID};
    SweepStep(AtWork(Scene(10, Listed(SNAP))), ReadClock, AtWork(Scene(10, Scanning(SNAP, 10, {ID}, {}))));
  }

  lemma {:induction false} JobIsCondemned()
    requires Reached(AtWork(Scene(10, Scanning(SNAP, 10, {ID}, {}))))
    ensures Reached(AtWork(Scene(10, Removing(SNAP, 10, {}, {}, ID, TempFile))))
  {
    var todo: set<JobId> := {ID};
    assert todo - {ID} == {};
    SweepStep(AtWork(Scene(10, Scanning(SNAP, 10, {ID}, {}))), Condemn(ID),
              AtWork(Scene(10, Removing(SNAP, 10, {}, {}, ID, TempFile))));
  }

  lemma {:induction false} NothingIsUnlinked()
    requires Reached(AtWork(Scene(10, Removing(SNAP, 10, {}, {}, ID, TempFile))))
    ensures Reached(AtWork(Scene(10, Removing(SNAP, 10, {}, {}, ID, Tokens))))
  {
    var none: map<JobId, nat> := map[];
    assert none - {ID} == none;
    SweepStep(AtWork(Scene(10, Removing(SNAP, 10, {}, {}, ID, TempFile))), RemoveTemp,
              AtWork(Scene(10, Removing(SNAP, 10, {}, {}, ID, FinalFile))));
    SweepStep(AtWork(Scene(10, Removing(SNAP, 10, {}, {}, ID, FinalFile))), RemoveFinal,
              AtWork(Scene(10, Removing(SNAP, 10, {}, {}, ID, Tokens))));
  }

  lemma {:induction false} NothingIsRevoked()
    requires Reached(AtWork(Scene(10, Removing(SNAP, 10, {}, {}, ID, Tokens))))
    ensures Reached(AtWork(LATE))
  {
    var none: map<Token, TokenEntry> := map[];
    assert Revoked(none, ID) == none;
    SweepStep(AtWork(Scene(10, Removing(SNAP, 10, {}, {}, ID, Tokens))), Revoke, AtWork(LATE));
  }

  lemma {:induction false} JobCompletesLate()
    ensures Reached(AllDone(LATE))
  {
    JobExpires();
    JobIsListed();
    JobIsCondemned();
    NothingIsUnlinked();
    NothingIsRevoked();
    JobIsCompleted(LATE);
  }

  /** The record is erased; the token and the file stay. */
  function Erased(): State {
    AllDone(LATE).(jobs := map[], sweep := Scanning(SNAP, 10, {}, {}))
  }

  lemma {:induction false} JobIsErased()
    ensures Next(AllDone(LATE), Erased())
  {
    assert map[ID := DoneJob(10)] - {ID} == map[];
    assert SweepDoes(AllDone(LATE), Erase, Erased());
  }

  lemma {:induction false} LateRun() returns (run: seq<State>)
    ensures Run(run) && Configured(run[0]) && |run| > 1
    ensures run[|run| - 2] == AllDone(LATE) && run[|run| - 1] == Erased()
  {
    JobCompletesLate();
    JobIsErased();
    run := ReachedThen(AllDone(LATE), Erased());
  }

  /** A run, in a configuration the program accepts, in which the sweep removes an expired job
      under its worker, and the token the worker issues in between has no job in the end. */
  lemma {:induction false} TokenOutlivesJob() returns (run: seq<State>)
    ensures Run(run) && Configured(run[0]) && Orphan(run[|run| - 1], TOK)
  {
    run := LateRun();
  }

  lemma {:induction false} StillServed()
    ensures Download(AllDone(LATE), Erased(), Erased(), ID, TOK) == Served("z")
    ensures Orphan(Erased(), TOK)
  {
  }

  /** Why a request must start after the loss to be refused: in this run it looks the record up,
      the record is then erased, and its token check and its open still succeed. */
  lemma {:induction false} ServedAfterLoss() returns (run: seq<State>, i: nat, a: nat)
    ensures Run(run) && Configured(run[0]) && a < i < |run|
    ensures Orphan(run[i], TOK) && Download(run[a], run[i], run[i], ID, TOK) == Served("z")
  {
    run := LateRun();
    i, a := |run| - 1, |run| - 2;
    StillServed();
  }
}
