/** The exact condition under which a completed job keeps its download: whether the sweep in
    progress is still going to hit it.  Sweeps that start later never do. */
module SweepThreat {
  import opened Model
  import opened Protocol
  import opened ProtocolInvariant
  import opened ProtocolSteps
  import opened JobLifecycle
  import opened Downloads

  /** The sweep in progress still has a destructive call on `id` ahead of it, for a job
      completed with expiry `e`: its list missed the job, or showed it with an earlier
      deadline, and the file is not behind it yet. */
  predicate Threatened(sweep: Sweep, ttl: nat, id: JobId, e: Time) {
    match sweep
    case Resting => false
    case Listed(snap) => id !in snap || Deadline(snap[id], ttl) < e
    case Scanning(snap, at, todo, tracked) => ScanHits(snap, ttl, at, todo, tracked, id)
    case Removing(snap, at, todo, tracked, target, _) => target == id || ScanHits(snap, ttl, at, todo, tracked, id)
    case Orphans(_, _, tracked, ids) => id in ids && id !in tracked
    case Purging(_, _, tracked, ids, target, _) => target == id || (id in ids && id !in tracked)
  }

  predicate ScanHits(snap: map<JobId, JobRecord>, ttl: nat, at: Time, todo: set<JobId>, tracked: set<JobId>,
      id: JobId) {
    if id in todo then id in snap && IsExpired(snap[id], ttl, at) else id !in tracked
  }

  /** A downloadable job that the sweep in progress will not hit. */
  predicate Safe(s: State, id: JobId, job: JobRecord) {
    && Live(s, id, job)
    && id in s.disk.final && TokenGood(s.tokens, job)
    && !Threatened(s.sweep, s.cfg.ttlFallback, id, job.expiresAt.value)
  }

  // ----- an unthreatened job stays safe -----

  lemma {:induction false} SweepKeepsSafe(s: State, m: SweepMove, t: State, id: JobId, job: JobRecord)
    requires SweepOk(s) && SweepDoes(s, m, t) && Safe(s, id, job)
    ensures Safe(t, id, job)
  {
    SweepMisses(s, m, t, id);
    SweepStaysHarmless(s, m, t, id, job);
  }

  lemma {:induction false} SweepStaysHarmless(s: State, m: SweepMove, t: State, id: JobId, job: JobRecord)
    requires SweepOk(s) && SweepDoes(s, m, t) && Safe(s, id, job)
    ensures !Threatened(t.sweep, t.cfg.ttlFallback, id, job.expiresAt.value)
  {
    match m
    case List =>
    case ReadClock =>
    case Track(x) =>
    case Condemn(x) =>
    case RemoveTemp =>
    case RemoveFinal =>
    case RemoveError =>
    case Revoke =>
    case Erase =>
    case ListFiles =>
    case Skip(x) =>
    case Orphan(x) =>
    case PurgeTemp =>
    case PurgeFinal =>
    case PurgeError =>
    case Rest =>
  }

  lemma {:induction false} WorkerKeepsSafe(s: State, w: nat, m: WorkerMove, t: State, id: JobId, job: JobRecord)
    requires Inv(s) && WorkerDoes(s, w, m, t) && Safe(s, id, job)
    ensures Safe(t, id, job)
  {
    WorkerKeepsLive(s, w, m, t, id, job);
    TerminalFinished(s, id);
    if m != Exit {
      var x, ino := WorkerEffect(s, w, m, t);
      EffectMissesFinished(s, t, w, x, ino, id);
    }
  }

  lemma {:induction false} EffectMissesFinished(s: State, t: State, w: nat, x: JobId, ino: nat, id: JobId)
    requires Owned(s) && Effect(s, t, w, x, ino) && id in s.finished
    ensures SameAt(s.disk.final, t.disk.final, id) && Submap(s.tokens, t.tokens)
    ensures t.sweep == s.sweep && t.cfg == s.cfg
  {
    OthersApart(s, t, w, x);
  }

  lemma {:induction false} CreatorActKeepsSafe(s: State, t: State, id: JobId, job: JobRecord)
    requires Inv(s) && CreatorActs(s, t) && Safe(s, id, job)
    ensures Safe(t, id, job)
  {
    var c, m :| CreatorDoes(s, c, m, t);
    TerminalFinished(s, id);
    CreatorKeepsFinished(s, c, m, t, id);
  }

  lemma {:induction false} WorkerActKeepsSafe(s: State, t: State, id: JobId, job: JobRecord)
    requires Inv(s) && WorkerActs(s, t) && Safe(s, id, job)
    ensures Safe(t, id, job)
  {
    var w, m :| WorkerDoes(s, w, m, t);
    WorkerKeepsSafe(s, w, m, t, id, job);
  }

  lemma {:induction false} SweepActKeepsSafe(s: State, t: State, id: JobId, job: JobRecord)
    requires Inv(s) && SweepActs(s, t) && Safe(s, id, job)
    ensures Safe(t, id, job)
  {
    var m :| SweepDoes(s, m, t);
    SweepKeepsSafe(s, m, t, id, job);
  }

  lemma {:induction false} StepKeepsSafe(s: State, t: State, id: JobId, job: JobRecord)
    requires Inv(s) && Next(s, t) && Safe(s, id, job) && t.now <= job.expiresAt.value
    ensures Safe(t, id, job)
  {
    var who := WhoActs(s, t);
    match who
    case SomeCreator =>
      CreatorActKeepsSafe(s, t, id, job);
    case SomeWorker =>
      WorkerActKeepsSafe(s, t, id, job);
    case TheSweep =>
      SweepActKeepsSafe(s, t, id, job);
    case Outside =>
  }

  lemma {:induction false} SafeNext(path: seq<State>, k: nat, id: JobId, job: JobRecord)
    requires Path(path) && k + 1 < |path| && Inv(path[0])
    requires Safe(path[k], id, job) && path[k + 1].now <= job.expiresAt.value
    ensures Safe(path[k + 1], id, job)
  {
    PathInv(path, k);
    NextAt(path, k);
    StepKeepsSafe(path[k], path[k + 1], id, job);
  }

  lemma {:induction false} PathClock(path: seq<State>, k: nat)
    requires Path(path) && k + 1 < |path| && Inv(path[0])
    ensures path[k].now <= path[k + 1].now
  {
    PathInv(path, k);
    NextAt(path, k);
    StepAdvances(path[k], path[k + 1], JobId(""));
  }

  /** From the `k`-th state on to the next, time passes and safety lasts up to the expiry. */
  predicate SafetyLasts(path: seq<State>, k: nat, id: JobId, job: JobRecord)
    requires k + 1 < |path|
  {
    && path[k].now <= path[k + 1].now
    && (Safe(path[k], id, job) && path[k + 1].now <= job.expiresAt.value ==> Safe(path[k + 1], id, job))
  }

  lemma {:induction false} SafeTurn(path: seq<State>, k: nat, id: JobId, job: JobRecord)
    requires Path(path) && k + 1 < |path| && Inv(path[0])
    ensures SafetyLasts(path, k, id, job)
  {
    PathClock(path, k);
    if Safe(path[k], id, job) && path[k + 1].now <= job.expiresAt.value {
      SafeNext(path, k, id, job);
    }
  }

  lemma {:induction false} SafeUpTo(path: seq<State>, k: nat, id: JobId, job: JobRecord)
    requires k < |path| && Safe(path[0], id, job) && path[k].now <= job.expiresAt.value
    requires forall i: nat {:trigger SafetyLasts(path, i, id, job)} :: i + 1 < |path| ==> SafetyLasts(path, i, id, job)
    ensures Safe(path[k], id, job)
  {
    if k > 0 {
      assert SafetyLasts(path, k - 1, id, job);
      SafeUpTo(path, k - 1, id, job);
    }
  }

  /** Every continuation from a safe state keeps the job safe up to its expiry. */
  lemma {:induction false} SafeForGood(path: seq<State>, k: nat, id: JobId, job: JobRecord)
    requires Path(path) && k < |path| && Inv(path[0]) && Safe(path[0], id, job)
    requires path[k].now <= job.expiresAt.value
    ensures Safe(path[k], id, job)
  {
    forall i: nat | i + 1 < |path| ensures SafetyLasts(path, i, id, job) {
      SafeTurn(path, i, id, job);
    }
    SafeUpTo(path, k, id, job);
  }

  // ----- a threatened job can be lost -----

  function StageRank(stage: Removal): nat {
    match stage
    case TempFile => 4
    case FinalFile => 3
    case Tokens => 2
    case Record => 1
  }

  /** How far the sweep is from the phase, the item and the call that does the damage. */
  function Phase(sweep: Sweep): nat {
    match sweep
    case Resting => 0
    case Listed(_) => 3
    case Scanning(_, _, _, _) => 2
    case Removing(_, _, _, _, _, _) => 2
    case Orphans(_, _, _, _) => 1
    case Purging(_, _, _, _, _, _) => 1
  }

  function Items(sweep: Sweep): nat {
    match sweep
    case Scanning(_, _, todo, _) => |todo|
    case Removing(_, _, todo, _, _, _) => |todo|
    case Orphans(_, _, _, ids) => |ids|
    case Purging(_, _, _, ids, _, _) => |ids|
    case _ => 0
  }

  function Calls(s: State, id: JobId): nat {
    match s.sweep
    case Listed(snap) =>
      if id in snap && s.now <= Deadline(snap[id], s.cfg.ttlFallback)
      then Deadline(snap[id], s.cfg.ttlFallback) + 1 - s.now else 0
    case Removing(_, _, _, _, _, stage) => StageRank(stage)
    case Purging(_, _, _, _, _, stage) => StageRank(stage)
    case _ => 0
  }

  ghost predicate Closer(t: State, s: State, id: JobId) {
    || Phase(t.sweep) < Phase(s.sweep)
    || (Phase(t.sweep) == Phase(s.sweep)
        && (Items(t.sweep) < Items(s.sweep)
            || (Items(t.sweep) == Items(s.sweep) && Calls(t, id) < Calls(s, id))))
  }

  /** A downloadable job that the sweep in progress is going to hit. */
  predicate Exposed(s: State, id: JobId, job: JobRecord) {
    && Live(s, id, job) && id in s.disk.final && TokenGood(s.tokens, job)
    && Threatened(s.sweep, s.cfg.ttlFallback, id, job.expiresAt.value)
  }

  /** One step of the sweep (or the clock) either takes the download away or brings the
      damage closer. */
  ghost predicate Worse(s: State, t: State, id: JobId, job: JobRecord) {
    && (SweepActs(s, t) || OutsideActs(s, t))
    && job.expiresAt.Some? && t.now <= job.expiresAt.value
    && (!Downloadable(t, id, job) || (Exposed(t, id, job) && Closer(t, s, id)))
  }

  lemma {:induction false} ListedGetsWorse(s: State, id: JobId, job: JobRecord) returns (t: State)
    requires Exposed(s, id, job) && s.sweep.Listed?
    ensures Worse(s, t, id, job)
  {
    var snap := s.sweep.snap;
    if id in snap && s.now <= Deadline(snap[id], s.cfg.ttlFallback) {
      t := s.(now := s.now + 1);
      assert OutsideActs(s, t);
    } else {
      t := s.(sweep := Scanning(snap, s.now, snap.Keys, {}));
      assert SweepDoes(s, ReadClock, t);
    }
  }

  lemma {:induction false} ScanningGetsWorse(s: State, id: JobId, job: JobRecord) returns (t: State)
    requires Exposed(s, id, job) && SweepOk(s) && s.sweep.Scanning?
    ensures Worse(s, t, id, job)
  {
    var Scanning(snap, at, todo, tracked) := s.sweep;
    if todo == {} {
      t := s.(sweep := Orphans(snap, at, tracked, s.disk.temp.Keys + s.disk.final.Keys));
      assert SweepDoes(s, ListFiles, t);
    } else {
      var x :| x in todo && (id in todo ==> x == id);
      assert |todo - {x}| < |todo|;
      if ExpiredHere(s, x) {
        t := s.(sweep := Removing(snap, at, todo - {x}, tracked, x, TempFile));
        assert SweepDoes(s, Condemn(x), t);
      } else {
        t := s.(sweep := Scanning(snap, at, todo - {x}, tracked + {x}));
        assert SweepDoes(s, Track(x), t);
      }
    }
  }

  lemma {:induction false} SweepMoves(s: State, m: SweepMove, t: State)
    requires SweepDoes(s, m, t)
    ensures SweepActs(s, t)
  {
  }

  lemma {:induction false} UnlinkingTempGetsWorse(s: State, id: JobId, job: JobRecord) returns (t: State)
    requires Exposed(s, id, job) && s.sweep.Removing? && s.sweep.stage == TempFile
    ensures Worse(s, t, id, job)
  {
    var x := s.sweep;
    t := s.(disk := s.disk.(temp := s.disk.temp - {x.target}), sweep := AtStage(x, FinalFile));
    SweepMoves(s, RemoveTemp, t);
    if x.target != id {
      SweepMisses(s, RemoveTemp, t, id);
    }
  }

  lemma {:induction false} UnlinkingFinalGetsWorse(s: State, id: JobId, job: JobRecord) returns (t: State)
    requires Exposed(s, id, job) && s.sweep.Removing? && s.sweep.stage == FinalFile
    ensures Worse(s, t, id, job)
  {
    var x := s.sweep;
    t := s.(disk := s.disk.(final := s.disk.final - {x.target}), sweep := AtStage(x, Tokens));
    SweepMoves(s, RemoveFinal, t);
    if x.target != id {
      SweepMisses(s, RemoveFinal, t, id);
    }
  }

  lemma {:induction false} RevokingGetsWorse(s: State, id: JobId, job: JobRecord) returns (t: State)
    requires Exposed(s, id, job) && s.sweep.Removing? && s.sweep.stage == Tokens
    ensures Worse(s, t, id, job)
  {
    var x := s.sweep;
    t := s.(tokens := Revoked(s.tokens, x.target), sweep := AtStage(x, Record));
    SweepMoves(s, Revoke, t);
    if x.target != id {
      SweepMisses(s, Revoke, t, id);
    } else {
      assert job.token.value !in t.tokens;
    }
  }

  lemma {:induction false} ErasingGetsWorse(s: State, id: JobId, job: JobRecord) returns (t: State)
    requires Exposed(s, id, job) && s.sweep.Removing? && s.sweep.stage == Record
    ensures Worse(s, t, id, job)
  {
    var x := s.sweep;
    t := s.(jobs := s.jobs - {x.target}, sweep := Scanning(x.snap, x.at, x.todo, x.tracked));
    SweepMoves(s, Erase, t);
    if x.target != id {
      SweepMisses(s, Erase, t, id);
    }
  }

  lemma {:induction false} RemovingGetsWorse(s: State, id: JobId, job: JobRecord) returns (t: State)
    requires Exposed(s, id, job) && s.sweep.Removing?
    ensures Worse(s, t, id, job)
  {
    match s.sweep.stage
    case TempFile => t := UnlinkingTempGetsWorse(s, id, job);
    case FinalFile => t := UnlinkingFinalGetsWorse(s, id, job);
    case Tokens => t := RevokingGetsWorse(s, id, job);
    case Record => t := ErasingGetsWorse(s, id, job);
  }

  lemma {:induction false} OrphansGetWorse(s: State, id: JobId, job: JobRecord) returns (t: State)
    requires Exposed(s, id, job) && s.sweep.Orphans?
    ensures Worse(s, t, id, job)
  {
    var x := s.sweep;
    t := s.(sweep := Purging(x.snap, x.at, x.tracked, x.ids - {id}, id, TempFile));
    assert SweepDoes(s, Orphan(id), t);
    assert |x.ids - {id}| < |x.ids|;
  }

  lemma {:induction false} PurgingGetsWorse(s: State, id: JobId, job: JobRecord) returns (t: State)
    requires Exposed(s, id, job) && SweepOk(s) && s.sweep.Purging?
    ensures Worse(s, t, id, job)
  {
    var x := s.sweep;
    var m: SweepMove;
    if x.stage == TempFile {
      m, t := PurgeTemp, s.(disk := s.disk.(temp := s.disk.temp - {x.target}),
                            sweep := Purging(x.snap, x.at, x.tracked, x.ids, x.target, FinalFile));
    } else {
      m, t := PurgeFinal, s.(disk := s.disk.(final := s.disk.final - {x.target}),
                             sweep := Orphans(x.snap, x.at, x.tracked, x.ids));
    }
    assert SweepDoes(s, m, t);
    if x.target != id {
      SweepMisses(s, m, t, id);
    }
  }

  lemma {:induction false} GetsWorse(s: State, id: JobId, job: JobRecord) returns (t: State)
    requires Exposed(s, id, job) && SweepOk(s)
    ensures Worse(s, t, id, job)
  {
    match s.sweep
    case Listed(_) => t := ListedGetsWorse(s, id, job);
    case Scanning(_, _, _, _) => t := ScanningGetsWorse(s, id, job);
    case Removing(_, _, _, _, _, _) => t := RemovingGetsWorse(s, id, job);
    case Orphans(_, _, _, _) => t := OrphansGetWorse(s, id, job);
    case Purging(_, _, _, _, _, _) => t := PurgingGetsWorse(s, id, job);
  }

  lemma {:induction false} SweepOkStays(s: State, m: SweepMove, t: State)
    requires SweepOk(s) && SweepDoes(s, m, t) && m != List
    ensures SweepOk(t)
  {
    if m == ReadClock || m.Track? || m.Condemn? {
      ScanSweepOk(s, m, t);
    } else if m == RemoveTemp || m == RemoveFinal || m == RemoveError || m == Revoke || m == Erase {
      RemoveSweepOk(s, m, t);
    } else {
      OrphanSweepOk(s, m, t);
    }
  }

  lemma {:induction false} WorseStep(s: State, id: JobId, job: JobRecord) returns (t: State)
    requires SweepOk(s) && Exposed(s, id, job)
    ensures SweepOk(t) && Next(s, t) && t.now <= job.expiresAt.value
    ensures Downloadable(t, id, job) ==> Exposed(t, id, job) && Closer(t, s, id)
  {
    t := GetsWorse(s, id, job);
    if SweepActs(s, t) {
      var m :| SweepDoes(s, m, t);
      SweepOkStays(s, m, t);
    } else {
      SweepFrame(s, t);
    }
  }

  /** From an exposed state some continuation loses the download before the expiry. */
  lemma {:induction false} CanBeLost(s: State, id: JobId, job: JobRecord) returns (path: seq<State>)
    requires SweepOk(s) && Exposed(s, id, job)
    ensures Path(path) && path[0] == s
    ensures path[|path| - 1].now <= job.expiresAt.value && !Downloadable(path[|path| - 1], id, job)
    decreases Phase(s.sweep), Items(s.sweep), Calls(s, id), 1
  {
    var t := WorseStep(s, id, job);
    var rest := LostAfter(s, t, id, job);
    path := Prepended(s, rest);
  }

  lemma {:induction false} LostAfter(s: State, t: State, id: JobId, job: JobRecord) returns (rest: seq<State>)
    requires SweepOk(t) && job.expiresAt.Some? && t.now <= job.expiresAt.value
    requires Downloadable(t, id, job) ==> Exposed(t, id, job) && Closer(t, s, id)
    ensures Path(rest) && rest[0] == t
    ensures rest[|rest| - 1].now <= job.expiresAt.value && !Downloadable(rest[|rest| - 1], id, job)
    decreases Phase(s.sweep), Items(s.sweep), Calls(s, id), 0
  {
    if Downloadable(t, id, job) {
      rest := CanBeLost(t, id, job);
    } else {
      rest := [t];
      SingletonPath(t);
    }
  }

  lemma {:induction false} DownloadableIsGood(s: State, id: JobId, job: JobRecord)
    requires TokensOk(s) && Downloadable(s, id, job)
    ensures id in s.disk.final && TokenGood(s.tokens, job)
  {
    assert TokenOk(s.tokens, s.issued, job);
  }

  /** The calls of a request come at the states `a`, `b` and `c` of the path, up to the expiry. */
  predicate InTime(path: seq<State>, a: int, b: int, c: int, job: JobRecord) {
    0 <= a <= b <= c < |path| && job.expiresAt.Some? && path[c].now <= job.expiresAt.value
  }

  /** Along every continuation of `s` every request up to the expiry is served whole, however its
      calls are interleaved. */
  ghost predicate KeepsDownload(s: State, id: JobId, job: JobRecord) {
    forall path: seq<State>, a: int, b: int, c: int :: Path(path) && path[0] == s && InTime(path, a, b, c, job) ==>
      Serves(path[a], path[b], path[c], id, job)
  }

  /** Along a path the clock never goes back. */
  lemma {:induction false} PathTime(path: seq<State>, i: nat, k: nat)
    requires Path(path) && i <= k < |path| && Inv(path[0])
    ensures path[i].now <= path[k].now
  {
    if i < k {
      PathTime(path, i, k - 1);
      PathClock(path, k - 1);
    }
  }

  lemma {:induction false} SafeIsDownloadable(path: seq<State>, k: nat, id: JobId, job: JobRecord)
    requires Path(path) && k < |path| && Inv(path[0]) && Safe(path[0], id, job) && path[k].now <= job.expiresAt.value
    ensures Downloadable(path[k], id, job)
  {
    SafeForGood(path, k, id, job);
    PathInv(path, k);
    GoodIsDownloadable(path[k], id, job);
  }

  lemma {:induction false} SafeServes(path: seq<State>, a: nat, b: nat, c: nat, id: JobId, job: JobRecord)
    requires Path(path) && Inv(path[0]) && Safe(path[0], id, job) && InTime(path, a, b, c, job)
    ensures Serves(path[a], path[b], path[c], id, job)
  {
    PathTime(path, a, c);
    PathTime(path, b, c);
    SafeIsDownloadable(path, a, id, job);
    SafeIsDownloadable(path, b, id, job);
    SafeIsDownloadable(path, c, id, job);
    ThreeCalls(path[a], path[b], path[c], id, job);
  }

  lemma {:induction false} UnthreatenedKeeps(s: State, id: JobId, job: JobRecord)
    requires Inv(s) && Safe(s, id, job)
    ensures KeepsDownload(s, id, job)
  {
    forall path: seq<State>, a: int, b: int, c: int | Path(path) && path[0] == s && InTime(path, a, b, c, job)
      ensures Serves(path[a], path[b], path[c], id, job)
    {
      SafeServes(path, a, b, c, id, job);
    }
  }

  /** The record of `id`, if it is still there, is `job`. */
  predicate Frozen(s: State, id: JobId, job: JobRecord) {
    id in s.born && Terminal(job.status) && (id in s.jobs ==> s.jobs[id] == job)
  }

  lemma {:induction false} StaysFrozen(path: seq<State>, k: nat, id: JobId, job: JobRecord)
    requires Path(path) && k < |path| && Inv(path[0]) && Frozen(path[0], id, job)
    ensures Frozen(path[k], id, job)
  {
    if k > 0 {
      StaysFrozen(path, k - 1, id, job);
      FrozenNext(path, k - 1, id, job);
    }
  }

  lemma {:induction false} FrozenNext(path: seq<State>, k: nat, id: JobId, job: JobRecord)
    requires Path(path) && k + 1 < |path| && Inv(path[0]) && Frozen(path[k], id, job)
    ensures Frozen(path[k + 1], id, job)
  {
    PathInv(path, k);
    NextAt(path, k);
    StepAdvances(path[k], path[k + 1], id);
  }

  lemma {:induction false} LostServesNothing(s: State, id: JobId, job: JobRecord)
    requires Frozen(s, id, job) && !Downloadable(s, id, job)
    requires job.id == id && job.status == Completed && job.expiresAt.Some? && s.now <= job.expiresAt.value
    ensures !Serves(s, s, s, id, job)
  {
  }

  lemma {:induction false} ThreatenedLoses(s: State, id: JobId, job: JobRecord)
    requires Inv(s) && Exposed(s, id, job)
    ensures !KeepsDownload(s, id, job)
  {
    ExposedFrozen(s, id, job);
    var path := CanBeLost(s, id, job);
    LostPathServesNothing(path, id, job);
    assert InTime(path, |path| - 1, |path| - 1, |path| - 1, job);
  }

  lemma {:induction false} LostPathServesNothing(path: seq<State>, id: JobId, job: JobRecord)
    requires Path(path) && Inv(path[0]) && Frozen(path[0], id, job) && !Downloadable(path[|path| - 1], id, job)
    requires job.id == id && job.status == Completed && job.expiresAt.Some?
    requires path[|path| - 1].now <= job.expiresAt.value
    ensures !Serves(path[|path| - 1], path[|path| - 1], path[|path| - 1], id, job)
  {
    StaysFrozen(path, |path| - 1, id, job);
    LostServesNothing(path[|path| - 1], id, job);
  }

  lemma {:induction false} ExposedFrozen(s: State, id: JobId, job: JobRecord)
    requires Inv(s) && Exposed(s, id, job)
    ensures Frozen(s, id, job)
  {
    TerminalFinished(s, id);
  }

  /** In every reachable state, a job that can be downloaded now is served to every request, in
      every continuation, up to its expiry if and only if the sweep in progress does not threaten
      it: no sweep that starts later can take the download away. */
  lemma {:induction false} DownloadKeptExactly(run: seq<State>, id: JobId, job: JobRecord)
    requires Run(run) && Downloadable(run[|run| - 1], id, job)
    ensures var s := run[|run| - 1];
            KeepsDownload(s, id, job) <==> !Threatened(s.sweep, s.cfg.ttlFallback, id, job.expiresAt.value)
  {
    var s := run[|run| - 1];
    RunInv(run, |run| - 1);
    DownloadableIsGood(s, id, job);
    if Threatened(s.sweep, s.cfg.ttlFallback, id, job.expiresAt.value) {
      ThreatenedLoses(s, id, job);
    } else {
      UnthreatenedKeeps(s, id, job);
    }
  }
}
