/** When a completed job can be downloaded, and exactly what can take that away. */
module Downloads {
  import opened Model
  import opened Protocol
  import opened ProtocolInvariant
  import opened ProtocolSteps
  import opened JobLifecycle

  datatype Response = NotFound | Conflict | Unauthorized | ServerError | Served(body: Bytes)

  /** The download handler's guards, in their order.  A request makes three calls, and steps of
      others may come between them: it looks the record up in state `a`, checks the token in
      `b` and opens the file in `c`. */
  function Download(a: State, b: State, c: State, id: JobId, tok: Token): Response {
    if tok.text == "" then Unauthorized
    else if id !in a.jobs then NotFound
    else if a.jobs[id].status != Completed then Conflict
    else if Validate(b.tokens, id, tok, b.now) != Valid then Unauthorized
    else if id !in c.disk.final || c.disk.final[id] !in c.disk.inodes then ServerError
    else Served(c.disk.inodes[c.disk.final[id]].body)
  }

  /** Exactly when a request is served, and with what. */
  lemma {:induction false} ServedExactly(a: State, b: State, c: State, id: JobId, tok: Token, body: Bytes)
    ensures Download(a, b, c, id, tok) == Served(body) <==>
            && tok.text != ""
            && id in a.jobs && a.jobs[id].status == Completed
            && tok in b.tokens && b.tokens[tok].jobId == id && b.now <= b.tokens[tok].expiresAt
            && id in c.disk.final && c.disk.final[id] in c.disk.inodes
            && c.disk.inodes[c.disk.final[id]].body == body
  {
  }

  /** Exactly when a request is refused, and how: the first of the checks that fails decides. */
  lemma {:induction false} RefusedExactly(a: State, b: State, c: State, id: JobId, tok: Token)
    ensures Download(a, b, c, id, tok) == NotFound <==> tok.text != "" && id !in a.jobs
    ensures Download(a, b, c, id, tok) == Conflict <==>
            tok.text != "" && id in a.jobs && a.jobs[id].status != Completed
    ensures Download(a, b, c, id, tok) == Unauthorized <==>
            || tok.text == ""
            || (id in a.jobs && a.jobs[id].status == Completed
                && !(tok in b.tokens && b.tokens[tok].jobId == id && b.now <= b.tokens[tok].expiresAt))
  {
  }

  /** `job` is the stored record of `id`, completed and not past its expiry. */
  predicate Live(s: State, id: JobId, job: JobRecord) {
    && id in s.jobs && s.jobs[id] == job && job.id == id
    && job.status == Completed && job.token.Some? && job.expiresAt.Some?
    && s.now <= job.expiresAt.value
  }

  /** A request of the token's holder that makes its calls in these states gets the job's whole
      archive. */
  predicate Serves(a: State, b: State, c: State, id: JobId, job: JobRecord) {
    && job.token.Some? && id in c.plans
    && Download(a, b, c, id, job.token.value) == Served(Output(c.plans[id]))
  }

  /** The job is live, and a request that is not interrupted gets its whole archive. */
  predicate Downloadable(s: State, id: JobId, job: JobRecord) {
    Live(s, id, job) && Serves(s, s, s, id, job)
  }

  /** Where the job can be downloaded at every call, an interrupted request is served too. */
  lemma {:induction false} ThreeCalls(a: State, b: State, c: State, id: JobId, job: JobRecord)
    requires Downloadable(a, id, job) && Downloadable(b, id, job) && Downloadable(c, id, job)
    ensures Serves(a, b, c, id, job)
  {
  }

  predicate TokenGood(tokens: map<Token, TokenEntry>, job: JobRecord) {
    && job.token.Some? && job.expiresAt.Some? && job.token.value.text != ""
    && job.token.value in tokens
    && tokens[job.token.value].jobId == job.id
    && tokens[job.token.value].expiresAt >= job.expiresAt.value
  }

  lemma {:induction false} GoodIsDownloadable(s: State, id: JobId, job: JobRecord)
    requires Published(s) && id in s.born && Live(s, id, job) && id in s.disk.final && TokenGood(s.tokens, job)
    ensures Downloadable(s, id, job)
  {
  }

  // ----- the sweep in progress -----

  /** The sweep's list showed `id` Completed, or unexpired by the clock it compares with. */
  predicate SawUnexpired(s: State, id: JobId) {
    s.sweep.Resting? || s.sweep.Listed? ||
    (id in s.sweep.snap &&
     (s.sweep.snap[id].status == Completed || !IsExpired(s.sweep.snap[id], s.cfg.ttlFallback, s.sweep.at)))
  }

  /** Sweeps running while the final file exists saw the job unexpired. */
  predicate Spared(s: State, id: JobId) {
    id in s.disk.final ==> SawUnexpired(s, id)
  }

  predicate Targets(sweep: Sweep, id: JobId) {
    (sweep.Removing? || sweep.Purging?) && sweep.target == id
  }

  /** A spared job the sweep is removing was listed Completed and is past its expiry. */
  lemma {:induction false} TargetIsDead(s: State, id: JobId)
    requires SweepOk(s) && Targets(s.sweep, id) && SawUnexpired(s, id)
    ensures id in s.finished
    ensures id in s.jobs ==> s.jobs[id].status == Completed && s.now > Deadline(s.jobs[id], s.cfg.ttlFallback)
  {
    assert IsExpired(s.sweep.snap[id], s.cfg.ttlFallback, s.sweep.at);
    assert SnapshotOk(s, id, s.sweep.snap[id]);
  }

  // ----- from publication to completion -----

  predicate AfterRename(x: Worker) {
    x.Stamping? || x.Issuing? || (x.Finishing? && x.job.status == Completed)
  }

  /** A worker past its rename still finds what it published, and its token. */
  predicate WorkerSecure(s: State, x: Worker) {
    && (AfterRename(x) ==> x.job.id in s.disk.final)
    && (x.Issuing? ==> x.at <= s.now)
    && (x.Finishing? && x.job.status == Completed ==> TokenGood(s.tokens, x.job))
  }

  ghost predicate Secure(s: State, id: JobId) {
    && (forall w :: 0 <= w < |s.workers| && Holds(s.workers[w]) == Some(id) ==> WorkerSecure(s, s.workers[w]))
    && (id in s.jobs && Live(s, id, s.jobs[id]) ==> id in s.disk.final && TokenGood(s.tokens, s.jobs[id]))
  }

  lemma {:induction false} OtherWorkerSecure(s: State, t: State, w: nat, x: JobId, ino: nat, id: JobId)
    requires Owned(s) && Secure(s, id) && Effect(s, t, w, x, ino) && x != id
    ensures Secure(t, id)
  {
    OthersApart(s, t, w, x);
    assert SameAt(s.jobs, t.jobs, id) && SameAt(s.disk.final, t.disk.final, id);
  }

  lemma {:induction false} OwnerSecure(s: State, w: nat, m: WorkerMove, t: State, id: JobId)
    requires Apart(s.workers) && WorkerDoes(s, w, m, t) && Holds(s.workers[w]) == Some(id)
    requires CopyOk(s.jobs, s.workers[w]) && WorkerSecure(s, s.workers[w])
    requires m == Finish || m == TakeTime || m.Issue? || m == Rename
    ensures Secure(t, id)
  {
    match m
    case Finish =>
    case TakeTime =>
    case Issue(tok) =>
    case Rename =>
  }

  lemma {:induction false} HeldNotLive(s: State, w: nat, id: JobId)
    requires w < |s.workers| && CopyOk(s.jobs, s.workers[w]) && Holds(s.workers[w]) == Some(id)
    ensures id in s.jobs ==> !Live(s, id, s.jobs[id])
  {
    if id in s.jobs {
      HeldNotTerminal(s.jobs, s.workers[w]);
    }
  }

  predicate PublishingMove(m: WorkerMove) {
    m == Finish || m == TakeTime || m.Issue? || m == Rename
  }

  lemma {:induction false} OtherMoves(s: State, w: nat, m: WorkerMove, t: State)
    requires WorkerDoes(s, w, m, t) && !PublishingMove(m)
    ensures w < |t.workers| && !AfterRename(t.workers[w])
    ensures t.workers[w] == Idle ==> m == Vanished
  {
    match m
    case Dequeue =>
    case Exit =>
    case Vanished =>
    case Get =>
    case Mark =>
    case Manifest(_) =>
    case RecordTotals =>
    case Fail =>
    case CreateTemp(_) =>
    case Write =>
    case Trailer =>
    case Break(_) =>
    case Report =>
    case Close =>
    case Undo =>
    case UnlinkTemp =>
    case UnlinkFinal =>
    case UnlinkError =>
  }

  lemma {:induction false} OtherMovesSecure(s: State, w: nat, m: WorkerMove, t: State, id: JobId, ino: nat)
    requires Owned(s) && Effect(s, t, w, id, ino) && WorkerDoes(s, w, m, t) && !PublishingMove(m)
    ensures Secure(t, id)
  {
    OthersApart(s, t, w, id);
    OtherMoves(s, w, m, t);
    if Holds(t.workers[w]) == Some(id) {
      HeldNotLive(t, w, id);
    }
  }

  lemma {:induction false} WorkerClock(s: State, w: nat, m: WorkerMove, t: State)
    requires Inv(s) && WorkerDoes(s, w, m, t)
    ensures t.now == s.now
  {
    if m != Exit {
      var x, ino := WorkerEffect(s, w, m, t);
    }
  }

  lemma {:induction false} WorkerKeepsSecure(s: State, w: nat, m: WorkerMove, t: State, id: JobId)
    requires Inv(s) && Secure(s, id) && WorkerDoes(s, w, m, t)
    ensures Secure(t, id)
  {
    if m != Exit {
      var x, ino := WorkerEffect(s, w, m, t);
      if x != id {
        OtherWorkerSecure(s, t, w, x, ino, id);
      } else if PublishingMove(m) {
        OwnerSecure(s, w, m, t, id);
      } else {
        OtherMovesSecure(s, w, m, t, id, ino);
      }
    } else {
      ExitSecure(s, w, t, id);
    }
  }

  lemma {:induction false} ExitSecure(s: State, w: nat, t: State, id: JobId)
    requires Secure(s, id) && ExitStep(s, w, t)
    ensures Secure(t, id)
  {
  }

  lemma {:induction false} CreatorKeepsSecure(s: State, c: nat, m: CreatorMove, t: State, id: JobId)
    requires s.jobs.Keys <= s.born && Secure(s, id) && CreatorDoes(s, c, m, t)
    ensures Secure(t, id)
  {
    match m
    case Admit =>
    case Abandon =>
    case Stamp =>
    case Insert(x) =>
    case Enqueue =>
    case QueueFull =>
    case RollBack =>
  }

  /** A sweep that is not removing `id` leaves its file, tokens and record alone. */
  lemma {:induction false} SweepMisses(s: State, m: SweepMove, t: State, id: JobId)
    requires SweepDoes(s, m, t) && !Targets(s.sweep, id)
    ensures SameAt(s.jobs, t.jobs, id) && SameAt(s.disk.final, t.disk.final, id)
    ensures forall tok :: tok in s.tokens && s.tokens[tok].jobId == id ==> SameAt(s.tokens, t.tokens, tok)
    ensures t.now == s.now && t.workers == s.workers && t.plans == s.plans && t.cfg == s.cfg
  {
    match m
    case RemoveTemp =>
    case RemoveFinal =>
    case Revoke =>
    case Erase =>
    case PurgeTemp =>
    case PurgeFinal =>
    case _ =>
  }

  /** A sweep step seen from a job it is not removing. */
  ghost predicate Missed(s: State, t: State, id: JobId) {
    && SameAt(s.jobs, t.jobs, id) && SameAt(s.disk.final, t.disk.final, id)
    && (forall tok :: tok in s.tokens && s.tokens[tok].jobId == id ==> SameAt(s.tokens, t.tokens, tok))
    && t.now == s.now && t.workers == s.workers
  }

  lemma {:induction false} MissedStaysSecure(s: State, t: State, id: JobId)
    requires RecordsOk(s) && Secure(s, id) && Missed(s, t, id)
    ensures Secure(t, id)
  {
  }

  lemma {:induction false} RemovedStaysSecure(s: State, t: State, id: JobId)
    requires Owned(s) && SweepOk(s) && Secure(s, id) && Spared(s, id) && OnlyRemoves(s, t) && Targets(s.sweep, id)
    ensures Secure(t, id)
  {
    if id in s.disk.final {
      TargetIsDead(s, id);
    }
  }

  lemma {:induction false} SweepKeepsSecure(s: State, m: SweepMove, t: State, id: JobId)
    requires Inv(s) && Secure(s, id) && Spared(s, id) && SweepDoes(s, m, t)
    ensures Secure(t, id)
  {
    if Targets(s.sweep, id) {
      SweepKeeps(s, m, t);
      RemovedStaysSecure(s, t, id);
    } else {
      SweepMisses(s, m, t, id);
      MissedStaysSecure(s, t, id);
    }
  }

  lemma {:induction false} OutsideKeepsSecure(s: State, t: State, id: JobId)
    requires Secure(s, id) && s.now <= t.now
    requires t == s.(now := t.now, accepting := t.accepting, cancelled := t.cancelled)
    ensures Secure(t, id)
  {
  }

  lemma {:induction false} CreatorActKeepsSecure(s: State, t: State, id: JobId)
    requires s.jobs.Keys <= s.born && Secure(s, id) && CreatorActs(s, t)
    ensures Secure(t, id)
  {
    var c, m :| CreatorDoes(s, c, m, t);
    CreatorKeepsSecure(s, c, m, t, id);
  }

  lemma {:induction false} WorkerActKeepsSecure(s: State, t: State, id: JobId)
    requires Inv(s) && Secure(s, id) && WorkerActs(s, t)
    ensures Secure(t, id)
  {
    var w, m :| WorkerDoes(s, w, m, t);
    WorkerKeepsSecure(s, w, m, t, id);
  }

  lemma {:induction false} SweepActKeepsSecure(s: State, t: State, id: JobId)
    requires Inv(s) && Secure(s, id) && Spared(s, id) && SweepActs(s, t)
    ensures Secure(t, id)
  {
    var m :| SweepDoes(s, m, t);
    SweepKeepsSecure(s, m, t, id);
  }

  lemma {:induction false} OutsideActKeepsSecure(s: State, t: State, id: JobId)
    requires Secure(s, id) && OutsideActs(s, t)
    ensures Secure(t, id)
  {
    OutsideKeepsSecure(s, t, id);
  }

  lemma {:induction false} StepKeepsSecure(s: State, t: State, id: JobId)
    requires Inv(s) && Secure(s, id) && Spared(s, id) && Next(s, t)
    ensures Secure(t, id)
  {
    if CreatorActs(s, t) {
      CreatorActKeepsSecure(s, t, id);
    } else if WorkerActs(s, t) {
      WorkerActKeepsSecure(s, t, id);
    } else if SweepActs(s, t) {
      SweepActKeepsSecure(s, t, id);
    } else {
      OutsideActKeepsSecure(s, t, id);
    }
  }

  /** Every sweep overlapping the published file, in the first `k` states, saw the job unexpired. */
  ghost predicate SparedThrough(run: seq<State>, k: nat, id: JobId)
    requires k <= |run|
  {
    forall i :: 0 <= i < k ==> Spared(run[i], id)
  }

  lemma {:induction false} SecureNext(run: seq<State>, k: nat, id: JobId)
    requires Run(run) && k + 1 < |run| && Secure(run[k], id) && Spared(run[k], id)
    ensures Secure(run[k + 1], id)
  {
    RunInv(run, k);
    NextAt(run, k);
    StepKeepsSecure(run[k], run[k + 1], id);
  }

  lemma {:induction false} RunSecure(run: seq<State>, k: nat, id: JobId)
    requires Run(run) && k < |run| && SparedThrough(run, k, id)
    ensures Secure(run[k], id)
  {
    if k > 0 {
      RunSecure(run, k - 1, id);
      SecureNext(run, k - 1, id);
    }
  }

  lemma {:induction false} CreatorKeepsFinished(s: State, c: nat, m: CreatorMove, t: State, id: JobId)
    requires CreatorsOk(s) && s.accepted <= s.born && id in s.accepted && CreatorDoes(s, c, m, t)
    ensures SameAt(s.jobs, t.jobs, id) && t.now == s.now
    ensures t.disk == s.disk && t.tokens == s.tokens && t.sweep == s.sweep
  {
    match m
    case Admit =>
    case Abandon =>
    case Stamp =>
    case Insert(x) =>
    case Enqueue =>
    case QueueFull =>
    case RollBack => assert CreatorId(s.creators[c]) != Some(id);
  }

  lemma {:induction false} SweepKeepsLive(s: State, m: SweepMove, t: State, id: JobId, job: JobRecord)
    requires SweepOk(s) && SweepDoes(s, m, t) && Live(s, id, job) && SawUnexpired(s, id)
    ensures Live(t, id, job)
  {
    if Targets(s.sweep, id) {
      TargetIsDead(s, id);
    } else {
      SweepMisses(s, m, t, id);
    }
  }

  lemma {:induction false} WorkerKeepsLive(s: State, w: nat, m: WorkerMove, t: State, id: JobId, job: JobRecord)
    requires Inv(s) && WorkerDoes(s, w, m, t) && Live(s, id, job)
    ensures Live(t, id, job)
  {
    WorkerAdvances(s, w, m, t, id);
    WorkerClock(s, w, m, t);
  }

  lemma {:induction false} StepKeepsLive(s: State, t: State, id: JobId, job: JobRecord)
    requires Inv(s) && Next(s, t) && Live(s, id, job) && SawUnexpired(s, id)
    requires t.now <= job.expiresAt.value
    ensures Live(t, id, job)
  {
    var who := WhoActs(s, t);
    match who
    case SomeCreator =>
      var c, m :| CreatorDoes(s, c, m, t);
      TerminalFinished(s, id);
      CreatorKeepsFinished(s, c, m, t, id);
    case SomeWorker =>
      var w, m :| WorkerDoes(s, w, m, t);
      WorkerKeepsLive(s, w, m, t, id, job);
    case TheSweep =>
      var m :| SweepDoes(s, m, t);
      SweepKeepsLive(s, m, t, id, job);
    case Outside =>
  }

  /** One step of a run whose sweep spares a secure live job. */
  lemma {:induction false} SecureStepKeepsLive(s: State, t: State, id: JobId, job: JobRecord)
    requires Inv(s) && Next(s, t) && Live(s, id, job) && Secure(s, id) && Spared(s, id)
    requires t.now <= job.expiresAt.value
    ensures Live(t, id, job)
  {
    StepKeepsLive(s, t, id, job);
  }

  lemma {:induction false} LiveNext(run: seq<State>, k: nat, id: JobId, job: JobRecord)
    requires Run(run) && k + 1 < |run| && SparedThrough(run, k + 1, id)
    requires Live(run[k], id, job) && run[k + 1].now <= job.expiresAt.value
    ensures Live(run[k + 1], id, job)
  {
    RunInv(run, k);
    RunSecure(run, k, id);
    NextAt(run, k);
    SecureStepKeepsLive(run[k], run[k + 1], id, job);
  }

  lemma {:induction false} StaysLive(run: seq<State>, i: nat, k: nat, id: JobId, job: JobRecord)
    requires Run(run) && i <= k < |run| && SparedThrough(run, k, id)
    requires Live(run[i], id, job) && run[k].now <= job.expiresAt.value
    ensures Live(run[k], id, job)
  {
    if i < k {
      RunAdvances(run, k - 1, id);
      StaysLive(run, i, k - 1, id, job);
      LiveNext(run, k - 1, id, job);
    }
  }

  lemma {:induction false} StaysDownloadableAt(run: seq<State>, i: nat, k: nat, id: JobId, job: JobRecord)
    requires Run(run) && i <= k < |run| && SparedThrough(run, k, id)
    requires Live(run[i], id, job) && run[k].now <= job.expiresAt.value
    ensures Downloadable(run[k], id, job)
  {
    RunInv(run, k);
    RunSecure(run, k, id);
    StaysLive(run, i, k, id, job);
    GoodIsDownloadable(run[k], id, job);
  }

  lemma {:induction false} RunClock(run: seq<State>, i: nat, k: nat)
    requires Run(run) && i <= k < |run|
    ensures run[i].now <= run[k].now
  {
    if i < k {
      RunClock(run, i, k - 1);
      RunAdvances(run, k - 1, JobId(""));
    }
  }

  /** A job seen Completed in state `i` of a run is served whole to every later request whose
      calls come at states `a`, `b` and `c` up to its expiry, if every sweep that overlapped its
      published file saw it unexpired. */
  lemma {:induction false} StaysDownloadable(run: seq<State>, i: nat, a: nat, b: nat, c: nat, id: JobId, job: JobRecord)
    requires Run(run) && i <= a <= b <= c < |run| && SparedThrough(run, c, id)
    requires Live(run[i], id, job) && run[c].now <= job.expiresAt.value
    ensures Serves(run[a], run[b], run[c], id, job)
  {
    RunClock(run, a, b);
    RunClock(run, b, c);
    StaysDownloadableAt(run, i, a, id, job);
    StaysDownloadableAt(run, i, b, id, job);
    StaysDownloadableAt(run, i, c, id, job);
    ThreeCalls(run[a], run[b], run[c], id, job);
  }
}
