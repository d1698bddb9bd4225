/** The job protocol as a step system.

    Request creators, workers and the cleanup sweep share the job store, the bounded queue,
    the token table and the disk.  Every call on one of those is one atomic step, and steps
    of different actors interleave in any order.  Values a real run obtains from outside
    (fresh identifiers, manifests, I/O results) are parameters of the step.

    The last block of `State` is history: no step reads it except to pick fresh values.
 */
module Protocol {
  import opened Model

  datatype Config = Config(queueSize: nat, maxSizeBytes: nat, expiry: nat, ttlFallback: nat)

  /** What one successful `Generate` writes: a block per file, then directory entries and
      format trailer.  `declared` is the manifest's sum of file sizes. */
  datatype Plan = Plan(files: seq<Bytes>, declared: nat, trailer: Bytes)

  function Joined(blocks: seq<Bytes>): Bytes {
    if blocks == [] then [] else Joined(blocks[..|blocks| - 1]) + blocks[|blocks| - 1]
  }

  function Output(plan: Plan): Bytes {
    Joined(plan.files) + plan.trailer
  }

  datatype Inode = Inode(body: Bytes, closed: bool)

  /** The archive directory: one temp and one final name per job, each naming an inode.  An
      open file handle keeps writing to its inode after the name is gone. */
  datatype Disk = Disk(temp: map<JobId, nat>, final: map<JobId, nat>, inodes: map<nat, Inode>)

  datatype Creator =
    | Validating
    | Stamped(at: Time)
    | Inserted(id: JobId)
    | Rejecting(id: JobId)

  /** A worker goroutine; each constructor names the call it makes next.  `job` is the
      worker's private copy of the record. */
  datatype Worker =
    | Idle
    | Exited
    | Fetching(id: JobId)
    | Starting(job: JobRecord)
    | Querying(job: JobRecord)
    | Recording(job: JobRecord, plan: Plan)
    | Opening(job: JobRecord, plan: Plan)
    | Writing(job: JobRecord, plan: Plan, ino: nat, k: nat)
    | Reporting(job: JobRecord, plan: Plan, ino: nat, k: nat)
    | Closing(job: JobRecord, plan: Plan, ino: nat, done: bool)
    | Renaming(job: JobRecord, plan: Plan, ino: nat)
    | UndoingTemp(job: JobRecord)
    | UndoingFinal(job: JobRecord)
    | Stamping(job: JobRecord)
    | Issuing(job: JobRecord, at: Time)
    | Finishing(job: JobRecord)

  function Holds(w: Worker): Option<JobId> {
    match w
    case Idle => None
    case Exited => None
    case Fetching(id) => Some(id)
    case _ => Some(w.job.id)
  }

  datatype Removal = TempFile | FinalFile | Tokens | Record

  /** The cleanup sweep.  `snap` is what `List` returned, `at` the clock it compares with. */
  datatype Sweep =
    | Resting
    | Listed(snap: map<JobId, JobRecord>)
    | Scanning(snap: map<JobId, JobRecord>, at: Time, todo: set<JobId>, tracked: set<JobId>)
    | Removing(snap: map<JobId, JobRecord>, at: Time, todo: set<JobId>, tracked: set<JobId>,
               target: JobId, stage: Removal)
    | Orphans(snap: map<JobId, JobRecord>, at: Time, tracked: set<JobId>, ids: set<JobId>)
    | Purging(snap: map<JobId, JobRecord>, at: Time, tracked: set<JobId>, ids: set<JobId>,
              target: JobId, stage: Removal)

  datatype State = State(
    cfg: Config,
    now: Time,
    accepting: bool,
    cancelled: bool,
    jobs: map<JobId, JobRecord>,
    queue: seq<JobId>,
    tokens: map<Token, TokenEntry>,
    disk: Disk,
    creators: map<nat, Creator>,
    workers: seq<Worker>,
    sweep: Sweep,
    // history
    leftovers: set<JobId>,
    born: set<JobId>,
    accepted: set<JobId>,
    finished: set<JobId>,
    rejected: set<JobId>,
    plans: map<JobId, Plan>,
    issued: set<Token>)

  /** A fresh process: empty store, queue and token table; the directory may hold files of
      an earlier process, whose identifiers are never generated again. */
  ghost predicate Init(s: State) {
    && s.accepting && !s.cancelled
    && s.jobs == map[] && s.queue == [] && s.tokens == map[] && s.creators == map[]
    && (forall w :: 0 <= w < |s.workers| ==> s.workers[w] == Idle)
    && s.sweep == Resting
    && s.leftovers == s.disk.temp.Keys + s.disk.final.Keys
    && (forall id :: id in s.disk.temp ==> s.disk.temp[id] in s.disk.inodes)
    && (forall id :: id in s.disk.final ==> s.disk.final[id] in s.disk.inodes)
    && s.born == {} && s.accepted == {} && s.finished == {} && s.rejected == {}
    && s.plans == map[] && s.issued == {}
  }

  // ----- creators: CreateJob -----

  predicate AdmitStep(s: State, c: nat, t: State) {
    && s.accepting && c !in s.creators
    && t == s.(creators := s.creators[c := Validating])
  }

  /** A validation error, or the root folder is missing. */
  predicate AbandonStep(s: State, c: nat, t: State) {
    && c in s.creators && s.creators[c] == Validating
    && t == s.(creators := s.creators - {c})
  }

  predicate StampStep(s: State, c: nat, t: State) {
    && c in s.creators && s.creators[c] == Validating
    && t == s.(creators := s.creators[c := Stamped(s.now)])
  }

  predicate InsertStep(s: State, c: nat, id: JobId, t: State) {
    && c in s.creators && s.creators[c].Stamped? && id !in s.born && id !in s.leftovers
    && t == s.(jobs := s.jobs[id := NewJob(id, s.creators[c].at)],
               creators := s.creators[c := Inserted(id)],
               born := s.born + {id})
  }

  predicate EnqueueStep(s: State, c: nat, t: State) {
    && c in s.creators && s.creators[c].Inserted? && |s.queue| < s.cfg.queueSize
    && t == s.(queue := s.queue + [s.creators[c].id],
               creators := s.creators - {c},
               accepted := s.accepted + {s.creators[c].id})
  }

  predicate QueueFullStep(s: State, c: nat, t: State) {
    && c in s.creators && s.creators[c].Inserted? && |s.queue| >= s.cfg.queueSize
    && t == s.(creators := s.creators[c := Rejecting(s.creators[c].id)])
  }

  predicate RollBackStep(s: State, c: nat, t: State) {
    && c in s.creators && s.creators[c].Rejecting?
    && t == s.(jobs := s.jobs - {s.creators[c].id},
               creators := s.creators - {c},
               rejected := s.rejected + {s.creators[c].id})
  }

  // ----- workers: Pool.loop and ProcessJob -----

  predicate In(s: State, w: nat) {
    w < |s.workers|
  }

  function Put(s: State, w: nat, x: Worker): seq<Worker>
    requires In(s, w)
  {
    s.workers[w := x]
  }

  function FailedJob(job: JobRecord, reason: FailReason): JobRecord {
    job.(status := Failed, error := Some(reason))
  }

  /** `Store.Update`: replaces a stored record, and fails on one that is gone. */
  function Stored(jobs: map<JobId, JobRecord>, job: JobRecord): map<JobId, JobRecord> {
    if job.id in jobs then jobs[job.id := job] else jobs
  }

  function Appended(disk: Disk, ino: nat, more: Bytes): Disk
    requires ino in disk.inodes
  {
    disk.(inodes := disk.inodes[ino := disk.inodes[ino].(body := disk.inodes[ino].body + more)])
  }

  /** With both cases of the select ready, either this or `ExitStep` may be taken. */
  predicate DequeueStep(s: State, w: nat, t: State) {
    && In(s, w) && s.workers[w] == Idle && s.queue != []
    && t == s.(workers := Put(s, w, Fetching(s.queue[0])), queue := s.queue[1..])
  }

  predicate ExitStep(s: State, w: nat, t: State) {
    && In(s, w) && s.workers[w] == Idle && s.cancelled
    && t == s.(workers := Put(s, w, Exited))
  }

  /** `ProcessJob` gives up because the record is gone. */
  predicate VanishedStep(s: State, w: nat, t: State) {
    && In(s, w)
    && (s.workers[w].Fetching? || s.workers[w].Starting? || s.workers[w].Recording?)
    && Holds(s.workers[w]).value !in s.jobs
    && t == s.(workers := Put(s, w, Idle), finished := s.finished + {Holds(s.workers[w]).value})
  }

  predicate GetStep(s: State, w: nat, t: State) {
    && In(s, w) && s.workers[w].Fetching? && s.workers[w].id in s.jobs
    && t == s.(workers := Put(s, w, Starting(s.jobs[s.workers[w].id].(status := Processing))))
  }

  predicate MarkStep(s: State, w: nat, t: State) {
    && In(s, w) && s.workers[w].Starting? && s.workers[w].job.id in s.jobs
    && t == s.(workers := Put(s, w, Querying(s.workers[w].job)),
               jobs := Stored(s.jobs, s.workers[w].job))
  }

  predicate ManifestStep(s: State, w: nat, plan: Plan, t: State) {
    && In(s, w) && s.workers[w].Querying?
    && var job := s.workers[w].job.(totalFiles := |plan.files|, totalBytes := plan.declared);
       t == s.(workers := Put(s, w, Recording(job, plan)), plans := s.plans[job.id := plan])
  }

  predicate RecordStep(s: State, w: nat, t: State) {
    && In(s, w) && s.workers[w].Recording? && s.workers[w].job.id in s.jobs
    && var job := s.workers[w].job;
       t == s.(workers := Put(s, w, if job.totalBytes > s.cfg.maxSizeBytes
                                    then Finishing(FailedJob(job, TooLarge))
                                    else Opening(job, s.workers[w].plan)),
               jobs := Stored(s.jobs, job))
  }

  /** A database, disk or randomness error turns into `failJob`. */
  predicate FailStep(s: State, w: nat, t: State) {
    && In(s, w)
    && (s.workers[w].Querying? || s.workers[w].Opening? || s.workers[w].Issuing?)
    && var reason := if s.workers[w].Querying? then ManifestUnreadable
                     else if s.workers[w].Opening? then GenerationFailed else TokenNotIssued;
       t == s.(workers := Put(s, w, Finishing(FailedJob(s.workers[w].job, reason))))
  }

  /** Opening truncates an existing temp file in place and otherwise makes a new one. */
  predicate CreateStep(s: State, w: nat, ino: nat, t: State) {
    && In(s, w) && s.workers[w].Opening?
    && var job := s.workers[w].job;
       && (if job.id in s.disk.temp then ino == s.disk.temp[job.id] else ino !in s.disk.inodes)
       && t == s.(workers := Put(s, w, Writing(job, s.workers[w].plan, ino, 0)),
                  disk := s.disk.(temp := s.disk.temp[job.id := ino],
                                  inodes := s.disk.inodes[ino := Inode([], false)]))
  }

  predicate WriteStep(s: State, w: nat, t: State) {
    && In(s, w) && s.workers[w].Writing? && s.workers[w].ino in s.disk.inodes
    && var Writing(job, plan, ino, k) := s.workers[w];
       && k < |plan.files|
       && t == s.(workers := Put(s, w, Reporting(job, plan, ino, k)),
                  disk := Appended(s.disk, ino, plan.files[k]))
  }

  predicate TrailerStep(s: State, w: nat, t: State) {
    && In(s, w) && s.workers[w].Writing? && s.workers[w].ino in s.disk.inodes
    && var Writing(job, plan, ino, k) := s.workers[w];
       && k >= |plan.files|
       && t == s.(workers := Put(s, w, Closing(job, plan, ino, true)),
                  disk := Appended(s.disk, ino, plan.trailer))
  }

  /** `Generate` fails, after writing any bytes at all. */
  predicate BreakStep(s: State, w: nat, partial: Bytes, t: State) {
    && In(s, w) && s.workers[w].Writing? && s.workers[w].ino in s.disk.inodes
    && var Writing(job, plan, ino, k) := s.workers[w];
       t == s.(workers := Put(s, w, Closing(job, plan, ino, false)),
               disk := Appended(s.disk, ino, partial))
  }

  /** The progress callback; a missing record is only logged. */
  predicate ReportStep(s: State, w: nat, t: State) {
    && In(s, w) && s.workers[w].Reporting? && s.workers[w].k < |s.workers[w].plan.files|
    && var Reporting(prev, plan, ino, k) := s.workers[w];
       var job := prev.(processedFiles := k + 1, processedBytes := prev.processedBytes + |plan.files[k]|);
       t == s.(workers := Put(s, w, Writing(job, plan, ino, k + 1)), jobs := Stored(s.jobs, job))
  }

  predicate CloseStep(s: State, w: nat, t: State) {
    && In(s, w) && s.workers[w].Closing? && s.workers[w].done && s.workers[w].ino in s.disk.inodes
    && var Closing(job, plan, ino, done) := s.workers[w];
       t == s.(workers := Put(s, w, Renaming(job, plan, ino)),
               disk := s.disk.(inodes := s.disk.inodes[ino := s.disk.inodes[ino].(closed := true)]))
  }

  predicate RenameStep(s: State, w: nat, t: State) {
    && In(s, w) && s.workers[w].Renaming? && s.workers[w].job.id in s.disk.temp
    && var job := s.workers[w].job;
       t == s.(workers := Put(s, w, Stamping(job)),
               disk := s.disk.(temp := s.disk.temp - {job.id},
                               final := s.disk.final[job.id := s.disk.temp[job.id]]))
  }

  /** `Generate`, `Close` or the rename failed; the rename always fails without a temp file. */
  predicate UndoStep(s: State, w: nat, t: State) {
    && In(s, w) && (s.workers[w].Closing? || s.workers[w].Renaming?)
    && t == s.(workers := Put(s, w, UndoingTemp(s.workers[w].job)))
  }

  predicate UnlinkTempStep(s: State, w: nat, t: State) {
    && In(s, w) && s.workers[w].UndoingTemp?
    && var job := s.workers[w].job;
       t == s.(workers := Put(s, w, UndoingFinal(job)), disk := s.disk.(temp := s.disk.temp - {job.id}))
  }

  predicate UnlinkFinalStep(s: State, w: nat, t: State) {
    && In(s, w) && s.workers[w].UndoingFinal?
    && var job := s.workers[w].job;
       t == s.(workers := Put(s, w, Finishing(FailedJob(job, GenerationFailed))),
               disk := s.disk.(final := s.disk.final - {job.id}))
  }

  /** An unlink error ends the clean-up early. */
  predicate UnlinkErrorStep(s: State, w: nat, t: State) {
    && In(s, w) && (s.workers[w].UndoingTemp? || s.workers[w].UndoingFinal?)
    && t == s.(workers := Put(s, w, Finishing(FailedJob(s.workers[w].job, GenerationFailed))))
  }

  predicate TakeTimeStep(s: State, w: nat, t: State) {
    && In(s, w) && s.workers[w].Stamping?
    && t == s.(workers := Put(s, w, Issuing(s.workers[w].job, s.now)))
  }

  predicate IssueStep(s: State, w: nat, tok: Token, t: State) {
    && In(s, w) && s.workers[w].Issuing? && tok !in s.issued && tok.text != ""
    && var Issuing(prev, at) := s.workers[w];
       var job := prev.(status := Completed, token := Some(tok), completedAt := Some(at),
                       expiresAt := Some(at + s.cfg.expiry));
       t == s.(workers := Put(s, w, Finishing(job)),
               tokens := s.tokens[tok := TokenEntry(job.id, s.now + s.cfg.expiry)],
               issued := s.issued + {tok})
  }

  /** The last update of `completeJob` or `failJob`, after which `ProcessJob` returns. */
  predicate FinishStep(s: State, w: nat, t: State) {
    && In(s, w) && s.workers[w].Finishing?
    && var job := s.workers[w].job;
       t == s.(workers := Put(s, w, Idle), jobs := Stored(s.jobs, job), finished := s.finished + {job.id})
  }

  // ----- the cleanup sweep -----

  predicate ListStep(s: State, t: State) {
    s.sweep == Resting && t == s.(sweep := Listed(s.jobs))
  }

  predicate ClockStep(s: State, t: State) {
    s.sweep.Listed? && t == s.(sweep := Scanning(s.sweep.snap, s.now, s.sweep.snap.Keys, {}))
  }

  predicate ExpiredHere(s: State, id: JobId)
    requires (s.sweep.Scanning? || s.sweep.Removing?) && id in s.sweep.snap
  {
    IsExpired(s.sweep.snap[id], s.cfg.ttlFallback, s.sweep.at)
  }

  predicate TrackStep(s: State, id: JobId, t: State) {
    && s.sweep.Scanning? && id in s.sweep.todo && id in s.sweep.snap && !ExpiredHere(s, id)
    && t == s.(sweep := Scanning(s.sweep.snap, s.sweep.at, s.sweep.todo - {id}, s.sweep.tracked + {id}))
  }

  predicate CondemnStep(s: State, id: JobId, t: State) {
    && s.sweep.Scanning? && id in s.sweep.todo && id in s.sweep.snap && ExpiredHere(s, id)
    && t == s.(sweep := Removing(s.sweep.snap, s.sweep.at, s.sweep.todo - {id}, s.sweep.tracked, id, TempFile))
  }

  function AtStage(x: Sweep, stage: Removal): Sweep
    requires x.Removing?
  {
    Removing(x.snap, x.at, x.todo, x.tracked, x.target, stage)
  }

  predicate RemoveTempStep(s: State, t: State) {
    && s.sweep.Removing? && s.sweep.stage == TempFile
    && t == s.(disk := s.disk.(temp := s.disk.temp - {s.sweep.target}), sweep := AtStage(s.sweep, FinalFile))
  }

  predicate RemoveFinalStep(s: State, t: State) {
    && s.sweep.Removing? && s.sweep.stage == FinalFile
    && t == s.(disk := s.disk.(final := s.disk.final - {s.sweep.target}), sweep := AtStage(s.sweep, Tokens))
  }

  /** An unlink error is logged, and `removeJob` goes on with the tokens. */
  predicate RemoveErrorStep(s: State, t: State) {
    && s.sweep.Removing? && (s.sweep.stage == TempFile || s.sweep.stage == FinalFile)
    && t == s.(sweep := AtStage(s.sweep, Tokens))
  }

  predicate RevokeStep(s: State, t: State) {
    && s.sweep.Removing? && s.sweep.stage == Tokens
    && t == s.(tokens := Revoked(s.tokens, s.sweep.target), sweep := AtStage(s.sweep, Record))
  }

  predicate EraseStep(s: State, t: State) {
    && s.sweep.Removing? && s.sweep.stage == Record
    && t == s.(jobs := s.jobs - {s.sweep.target},
               sweep := Scanning(s.sweep.snap, s.sweep.at, s.sweep.todo, s.sweep.tracked))
  }

  predicate ListFilesStep(s: State, t: State) {
    && s.sweep.Scanning? && s.sweep.todo == {}
    && t == s.(sweep := Orphans(s.sweep.snap, s.sweep.at, s.sweep.tracked,
                                s.disk.temp.Keys + s.disk.final.Keys))
  }

  predicate SkipStep(s: State, id: JobId, t: State) {
    && s.sweep.Orphans? && id in s.sweep.ids && id in s.sweep.tracked
    && t == s.(sweep := Orphans(s.sweep.snap, s.sweep.at, s.sweep.tracked, s.sweep.ids - {id}))
  }

  predicate OrphanStep(s: State, id: JobId, t: State) {
    && s.sweep.Orphans? && id in s.sweep.ids && id !in s.sweep.tracked
    && t == s.(sweep := Purging(s.sweep.snap, s.sweep.at, s.sweep.tracked, s.sweep.ids - {id}, id, TempFile))
  }

  predicate PurgeTempStep(s: State, t: State) {
    && s.sweep.Purging? && s.sweep.stage == TempFile
    && t == s.(disk := s.disk.(temp := s.disk.temp - {s.sweep.target}),
               sweep := Purging(s.sweep.snap, s.sweep.at, s.sweep.tracked, s.sweep.ids, s.sweep.target, FinalFile))
  }

  predicate PurgeFinalStep(s: State, t: State) {
    && s.sweep.Purging? && s.sweep.stage == FinalFile
    && t == s.(disk := s.disk.(final := s.disk.final - {s.sweep.target}),
               sweep := Orphans(s.sweep.snap, s.sweep.at, s.sweep.tracked, s.sweep.ids))
  }

  predicate PurgeErrorStep(s: State, t: State) {
    && s.sweep.Purging?
    && t == s.(sweep := Orphans(s.sweep.snap, s.sweep.at, s.sweep.tracked, s.sweep.ids))
  }

  /** The sweep is over, or listing the directory failed. */
  predicate RestStep(s: State, t: State) {
    && ((s.sweep.Orphans? && s.sweep.ids == {}) || (s.sweep.Scanning? && s.sweep.todo == {}))
    && t == s.(sweep := Resting)
  }

  // ----- the whole system -----

  datatype CreatorMove = Admit | Abandon | Stamp | Insert(id: JobId) | Enqueue | QueueFull | RollBack

  predicate CreatorDoes(s: State, c: nat, m: CreatorMove, t: State) {
    match m
    case Admit => AdmitStep(s, c, t)
    case Abandon => AbandonStep(s, c, t)
    case Stamp => StampStep(s, c, t)
    case Insert(id) => InsertStep(s, c, id, t)
    case Enqueue => EnqueueStep(s, c, t)
    case QueueFull => QueueFullStep(s, c, t)
    case RollBack => RollBackStep(s, c, t)
  }

  datatype WorkerMove =
    | Dequeue | Exit | Vanished | Get | Mark | Manifest(plan: Plan) | RecordTotals | Fail
    | CreateTemp(ino: nat) | Write | Trailer | Break(partial: Bytes) | Report | Close | Rename
    | Undo | UnlinkTemp | UnlinkFinal | UnlinkError | TakeTime | Issue(tok: Token) | Finish

  predicate WorkerDoes(s: State, w: nat, m: WorkerMove, t: State) {
    match m
    case Dequeue => DequeueStep(s, w, t)
    case Exit => ExitStep(s, w, t)
    case Vanished => VanishedStep(s, w, t)
    case Get => GetStep(s, w, t)
    case Mark => MarkStep(s, w, t)
    case Manifest(plan) => ManifestStep(s, w, plan, t)
    case RecordTotals => RecordStep(s, w, t)
    case Fail => FailStep(s, w, t)
    case CreateTemp(ino) => CreateStep(s, w, ino, t)
    case Write => WriteStep(s, w, t)
    case Trailer => TrailerStep(s, w, t)
    case Break(partial) => BreakStep(s, w, partial, t)
    case Report => ReportStep(s, w, t)
    case Close => CloseStep(s, w, t)
    case Rename => RenameStep(s, w, t)
    case Undo => UndoStep(s, w, t)
    case UnlinkTemp => UnlinkTempStep(s, w, t)
    case UnlinkFinal => UnlinkFinalStep(s, w, t)
    case UnlinkError => UnlinkErrorStep(s, w, t)
    case TakeTime => TakeTimeStep(s, w, t)
    case Issue(tok) => IssueStep(s, w, tok, t)
    case Finish => FinishStep(s, w, t)
  }

  datatype SweepMove =
    | List | ReadClock | Track(id: JobId) | Condemn(id: JobId) | RemoveTemp | RemoveFinal | RemoveError
    | Revoke | Erase | ListFiles | Skip(id: JobId) | Orphan(id: JobId) | PurgeTemp | PurgeFinal | PurgeError
    | Rest

  predicate SweepDoes(s: State, m: SweepMove, t: State) {
    match m
    case List => ListStep(s, t)
    case ReadClock => ClockStep(s, t)
    case Track(id) => TrackStep(s, id, t)
    case Condemn(id) => CondemnStep(s, id, t)
    case RemoveTemp => RemoveTempStep(s, t)
    case RemoveFinal => RemoveFinalStep(s, t)
    case RemoveError => RemoveErrorStep(s, t)
    case Revoke => RevokeStep(s, t)
    case Erase => EraseStep(s, t)
    case ListFiles => ListFilesStep(s, t)
    case Skip(id) => SkipStep(s, id, t)
    case Orphan(id) => OrphanStep(s, id, t)
    case PurgeTemp => PurgeTempStep(s, t)
    case PurgeFinal => PurgeFinalStep(s, t)
    case PurgeError => PurgeErrorStep(s, t)
    case Rest => RestStep(s, t)
  }

  ghost predicate CreatorActs(s: State, t: State) {
    exists c, m :: CreatorDoes(s, c, m, t)
  }

  ghost predicate WorkerActs(s: State, t: State) {
    exists w, m :: WorkerDoes(s, w, m, t)
  }

  ghost predicate SweepActs(s: State, t: State) {
    exists m :: SweepDoes(s, m, t)
  }

  /** The clock ticks, or shutdown stops intake and then cancels the pool's context. */
  predicate OutsideActs(s: State, t: State) {
    t == s.(now := s.now + 1) || t == s.(accepting := false) || t == s.(cancelled := true)
  }

  ghost predicate Next(s: State, t: State) {
    CreatorActs(s, t) || WorkerActs(s, t) || SweepActs(s, t) || OutsideActs(s, t)
  }

  ghost predicate Linked(run: seq<State>, i: int) {
    0 <= i < |run| - 1 && Next(run[i], run[i + 1])
  }

  /** A finite execution: consecutive states are related by one step. */
  ghost predicate Path(run: seq<State>) {
    |run| > 0 && forall i :: 0 <= i < |run| - 1 ==> Linked(run, i)
  }

  /** An execution of a fresh process. */
  ghost predicate Run(run: seq<State>) {
    Path(run) && Init(run[0])
  }
}
