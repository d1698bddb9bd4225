/** What a job's record says is so: its totals and counters are those of its manifest and of the files
    written, its times are in order, and a failure has the reason it gives. */
module JobTruth {
  import opened Model
  import opened Protocol
  import opened ProtocolInvariant
  import opened ProtocolSteps
  import opened JobLifecycle
  import opened Provenance

  /** The totals are those of the plan. */
  predicate TotalsOf(plan: Plan, job: JobRecord) {
    job.totalFiles == |plan.files| && job.totalBytes == plan.declared
  }

  /** The counters are those of the first `k` files of the plan. */
  predicate CountsOf(plan: Plan, k: nat, job: JobRecord) {
    k <= |plan.files| && job.processedFiles == k && job.processedBytes == |Joined(plan.files[..k])|
  }

  predicate Untouched(job: JobRecord) {
    job.totalFiles == 0 && job.totalBytes == 0 && job.processedFiles == 0 && job.processedBytes == 0
  }

  predicate NoEnd(job: JobRecord) {
    job.error == None && job.token == None && job.completedAt == None && job.expiresAt == None
  }

  predicate Planned(plans: map<JobId, Plan>, job: JobRecord) {
    && job.id in plans && TotalsOf(plans[job.id], job)
    && CountsOf(plans[job.id], job.processedFiles, job)
  }

  /** What the record of each status says. */
  predicate Truthful(s: State, job: JobRecord) {
    && job.createdAt <= s.now
    && match job.status
       case Queued => Untouched(job) && NoEnd(job)
       case Processing => (Untouched(job) || Planned(s.plans, job)) && NoEnd(job)
       case Completed =>
         && Planned(s.plans, job) && job.processedFiles == job.totalFiles && job.totalBytes <= s.cfg.maxSizeBytes
         && job.error == None && job.token.Some? && job.completedAt.Some?
         && job.createdAt <= job.completedAt.value <= s.now
         && job.expiresAt == Some(job.completedAt.value + s.cfg.expiry)
       case Failed =>
         && job.error.Some? && job.token == None && job.completedAt == None && job.expiresAt == None
         && match job.error.value {
              case ManifestUnreadable => Untouched(job) && job.id !in s.plans
              case TooLarge => Planned(s.plans, job) && job.totalBytes > s.cfg.maxSizeBytes && job.processedFiles == 0
              case GenerationFailed =>
                Planned(s.plans, job) && job.totalBytes <= s.cfg.maxSizeBytes && job.id !in s.disk.final
              case TokenNotIssued =>
                && Planned(s.plans, job) && job.totalBytes <= s.cfg.maxSizeBytes
                && job.processedFiles == job.totalFiles
            }
       case Expired => false
  }

  predicate InCap(s: State, job: JobRecord) {
    Planned(s.plans, job) && job.totalBytes <= s.cfg.maxSizeBytes && NoEnd(job)
  }

  /** The same of a worker's private copy, stage by stage. */
  predicate CopyTruthful(s: State, x: Worker) {
    match x
    case Idle => true
    case Exited => true
    case Fetching(_) => true
    case Starting(job) => job.createdAt <= s.now && Untouched(job) && NoEnd(job)
    case Querying(job) => job.createdAt <= s.now && Untouched(job) && NoEnd(job)
    case Recording(job, _) => job.createdAt <= s.now && Planned(s.plans, job) && job.processedFiles == 0 && NoEnd(job)
    case Opening(job, _) => job.createdAt <= s.now && InCap(s, job) && job.processedFiles == 0
    case Writing(job, _, _, k) => job.createdAt <= s.now && InCap(s, job) && job.processedFiles == k
    case Reporting(job, _, _, k) => job.createdAt <= s.now && InCap(s, job) && job.processedFiles == k
    case Closing(job, _, _, done) =>
      job.createdAt <= s.now && InCap(s, job) && (done ==> job.processedFiles == job.totalFiles)
    case Renaming(job, _, _) => job.createdAt <= s.now && InCap(s, job) && job.processedFiles == job.totalFiles
    case UndoingTemp(job) => job.createdAt <= s.now && InCap(s, job)
    case UndoingFinal(job) => job.createdAt <= s.now && InCap(s, job)
    case Stamping(job) => job.createdAt <= s.now && InCap(s, job) && job.processedFiles == job.totalFiles
    case Issuing(job, at) =>
      job.createdAt <= at <= s.now && InCap(s, job) && job.processedFiles == job.totalFiles
    case Finishing(job) => Truthful(s, job) && (job.status == Completed || job.status == Failed)
  }

  ghost predicate CreatorTruthful(s: State) {
    forall c :: c in s.creators && s.creators[c].Stamped? ==> s.creators[c].at <= s.now
  }

  ghost predicate AllTruthful(s: State) {
    && (forall id :: id in s.jobs ==> Truthful(s, s.jobs[id]))
    && (forall w :: 0 <= w < |s.workers| ==> CopyTruthful(s, s.workers[w]))
    && CreatorTruthful(s)
  }

  // ----- the worker that moves -----

  /** What the proof of one move may use about its worker and the record it holds. */
  ghost predicate Set(s: State, w: nat) {
    && w < |s.workers| && CopyTruthful(s, s.workers[w])
    && CopyOk(s.jobs, s.workers[w]) && FilesOk(s.disk, s.plans, s.workers[w])
    && (Holds(s.workers[w]).Some? && Holds(s.workers[w]).value in s.jobs ==>
          && Truthful(s, s.jobs[Holds(s.workers[w]).value])
          && s.jobs[Holds(s.workers[w]).value].id == Holds(s.workers[w]).value)
  }

  /** What it has to show. */
  ghost predicate Told(s: State, w: nat, t: State) {
    && w < |s.workers| && w < |t.workers| && CopyTruthful(t, t.workers[w])
    && (Holds(s.workers[w]).Some? && Holds(s.workers[w]).value in t.jobs ==>
          Truthful(t, t.jobs[Holds(s.workers[w]).value]))
  }

  lemma {:induction false} DequeueTold(s: State, w: nat, t: State)
    requires Set(s, w) && DequeueStep(s, w, t)
    ensures Told(s, w, t)
  {
  }

  lemma {:induction false} ExitTold(s: State, w: nat, t: State)
    requires Set(s, w) && ExitStep(s, w, t)
    ensures Told(s, w, t)
  {
  }

  lemma {:induction false} VanishedTold(s: State, w: nat, t: State)
    requires Set(s, w) && VanishedStep(s, w, t)
    ensures Told(s, w, t)
  {
  }

  lemma {:induction false} GetTold(s: State, w: nat, t: State)
    requires Set(s, w) && GetStep(s, w, t)
    ensures Told(s, w, t)
  {
  }

  lemma {:induction false} MarkTold(s: State, w: nat, t: State)
    requires Set(s, w) && MarkStep(s, w, t)
    ensures Told(s, w, t)
  {
  }

  lemma {:induction false} ManifestTold(s: State, w: nat, plan: Plan, t: State)
    requires Set(s, w) && ManifestStep(s, w, plan, t)
    ensures Told(s, w, t)
  {
    assert plan.files[..0] == [];
  }

  lemma {:induction false} RecordTotalsTold(s: State, w: nat, t: State)
    requires Set(s, w) && RecordStep(s, w, t)
    ensures Told(s, w, t)
  {
  }

  lemma {:induction false} FailTold(s: State, w: nat, t: State)
    requires Set(s, w) && FailStep(s, w, t)
    ensures Told(s, w, t)
  {
  }

  lemma {:induction false} CreateTempTold(s: State, w: nat, ino: nat, t: State)
    requires Set(s, w) && CreateStep(s, w, ino, t)
    ensures Told(s, w, t)
  {
  }

  lemma {:induction false} WriteTold(s: State, w: nat, t: State)
    requires Set(s, w) && WriteStep(s, w, t)
    ensures Told(s, w, t)
  {
  }

  lemma {:induction false} TrailerTold(s: State, w: nat, t: State)
    requires Set(s, w) && TrailerStep(s, w, t)
    ensures Told(s, w, t)
  {
  }

  lemma {:induction false} BreakTold(s: State, w: nat, partial: Bytes, t: State)
    requires Set(s, w) && BreakStep(s, w, partial, t)
    ensures Told(s, w, t)
  {
  }

  lemma {:induction false} ReportTold(s: State, w: nat, t: State)
    requires Set(s, w) && ReportStep(s, w, t)
    ensures Told(s, w, t)
  {
    JoinedNext(s.workers[w].plan.files, s.workers[w].k);
  }

  lemma {:induction false} CloseTold(s: State, w: nat, t: State)
    requires Set(s, w) && CloseStep(s, w, t)
    ensures Told(s, w, t)
  {
  }

  lemma {:induction false} RenameTold(s: State, w: nat, t: State)
    requires Set(s, w) && RenameStep(s, w, t)
    ensures Told(s, w, t)
  {
  }

  lemma {:induction false} UndoTold(s: State, w: nat, t: State)
    requires Set(s, w) && UndoStep(s, w, t)
    ensures Told(s, w, t)
  {
  }

  lemma {:induction false} UnlinkTempTold(s: State, w: nat, t: State)
    requires Set(s, w) && UnlinkTempStep(s, w, t)
    ensures Told(s, w, t)
  {
  }

  lemma {:induction false} UnlinkFinalTold(s: State, w: nat, t: State)
    requires Set(s, w) && UnlinkFinalStep(s, w, t)
    ensures Told(s, w, t)
  {
  }

  lemma {:induction false} UnlinkErrorTold(s: State, w: nat, t: State)
    requires Set(s, w) && UnlinkErrorStep(s, w, t)
    ensures Told(s, w, t)
  {
  }

  lemma {:induction false} TakeTimeTold(s: State, w: nat, t: State)
    requires Set(s, w) && TakeTimeStep(s, w, t)
    ensures Told(s, w, t)
  {
  }

  lemma {:induction false} IssueTold(s: State, w: nat, tok: Token, t: State)
    requires Set(s, w) && IssueStep(s, w, tok, t)
    ensures Told(s, w, t)
  {
  }

  lemma {:induction false} FinishTold(s: State, w: nat, t: State)
    requires Set(s, w) && FinishStep(s, w, t)
    ensures Told(s, w, t)
  {
  }

  lemma {:induction false} TakingTold(s: State, w: nat, m: WorkerMove, t: State)
    requires Set(s, w) && WorkerDoes(s, w, m, t) && (m.Dequeue? || m.Exit? || m.Vanished?)
    ensures Told(s, w, t)
  {
    match m
    case Dequeue => DequeueTold(s, w, t);
    case Exit => ExitTold(s, w, t);
    case Vanished => VanishedTold(s, w, t);
  }

  lemma {:induction false} StartingTold(s: State, w: nat, m: WorkerMove, t: State)
    requires Set(s, w) && WorkerDoes(s, w, m, t) && (m.Get? || m.Mark? || m.Manifest?)
    ensures Told(s, w, t)
  {
    match m
    case Get => GetTold(s, w, t);
    case Mark => MarkTold(s, w, t);
    case Manifest(plan) => ManifestTold(s, w, plan, t);
  }

  lemma {:induction false} RecordingTold(s: State, w: nat, m: WorkerMove, t: State)
    requires Set(s, w) && WorkerDoes(s, w, m, t) && (m.RecordTotals? || m.Fail? || m.Finish?)
    ensures Told(s, w, t)
  {
    match m
    case RecordTotals => RecordTotalsTold(s, w, t);
    case Fail => FailTold(s, w, t);
    case Finish => FinishTold(s, w, t);
  }

  lemma {:induction false} WritingTold(s: State, w: nat, m: WorkerMove, t: State)
    requires Set(s, w) && WorkerDoes(s, w, m, t) && (m.CreateTemp? || m.Write? || m.Trailer?)
    ensures Told(s, w, t)
  {
    match m
    case CreateTemp(ino) => CreateTempTold(s, w, ino, t);
    case Write => WriteTold(s, w, t);
    case Trailer => TrailerTold(s, w, t);
  }

  lemma {:induction false} ReportingTold(s: State, w: nat, m: WorkerMove, t: State)
    requires Set(s, w) && WorkerDoes(s, w, m, t) && (m.Break? || m.Report?)
    ensures Told(s, w, t)
  {
    match m
    case Break(partial) => BreakTold(s, w, partial, t);
    case Report => ReportTold(s, w, t);
  }

  lemma {:induction false} PublishingTold(s: State, w: nat, m: WorkerMove, t: State)
    requires Set(s, w) && WorkerDoes(s, w, m, t) && (m.Close? || m.Rename?)
    ensures Told(s, w, t)
  {
    match m
    case Close => CloseTold(s, w, t);
    case Rename => RenameTold(s, w, t);
  }

  lemma {:induction false} UndoingTold(s: State, w: nat, m: WorkerMove, t: State)
    requires Set(s, w) && WorkerDoes(s, w, m, t) && (m.Undo? || m.UnlinkTemp?)
    ensures Told(s, w, t)
  {
    match m
    case Undo => UndoTold(s, w, t);
    case UnlinkTemp => UnlinkTempTold(s, w, t);
  }

  lemma {:induction false} CleaningTold(s: State, w: nat, m: WorkerMove, t: State)
    requires Set(s, w) && WorkerDoes(s, w, m, t) && (m.UnlinkFinal? || m.UnlinkError?)
    ensures Told(s, w, t)
  {
    match m
    case UnlinkFinal => UnlinkFinalTold(s, w, t);
    case UnlinkError => UnlinkErrorTold(s, w, t);
  }

  lemma {:induction false} CompletingTold(s: State, w: nat, m: WorkerMove, t: State)
    requires Set(s, w) && WorkerDoes(s, w, m, t) && (m.TakeTime? || m.Issue?)
    ensures Told(s, w, t)
  {
    match m
    case TakeTime => TakeTimeTold(s, w, t);
    case Issue(tok) => IssueTold(s, w, tok, t);
  }

  lemma {:induction false} MoveTold(s: State, w: nat, m: WorkerMove, t: State)
    requires Set(s, w) && WorkerDoes(s, w, m, t)
    ensures Told(s, w, t)
  {
    if m.Dequeue? || m.Exit? || m.Vanished? {
      TakingTold(s, w, m, t);
    } else if m.Get? || m.Mark? || m.Manifest? {
      StartingTold(s, w, m, t);
    } else if m.RecordTotals? || m.Fail? || m.Finish? {
      RecordingTold(s, w, m, t);
    } else if m.CreateTemp? || m.Write? || m.Trailer? {
      WritingTold(s, w, m, t);
    } else if m.Break? || m.Report? {
      ReportingTold(s, w, m, t);
    } else if m.Close? || m.Rename? {
      PublishingTold(s, w, m, t);
    } else if m.Undo? || m.UnlinkTemp? {
      UndoingTold(s, w, m, t);
    } else if m.UnlinkFinal? || m.UnlinkError? {
      CleaningTold(s, w, m, t);
    } else {
      CompletingTold(s, w, m, t);
    }
  }

  // ----- everyone else -----

  /** Nothing a record of `id` speaks of has changed. */
  predicate Same(s: State, t: State, id: JobId) {
    && t.cfg == s.cfg && s.now <= t.now && (id in s.plans <==> id in t.plans)
    && (id in s.plans ==> t.plans[id] == s.plans[id]) && (id in t.disk.final ==> id in s.disk.final)
  }

  lemma {:induction false} StillTruthful(s: State, t: State, job: JobRecord)
    requires Truthful(s, job) && Same(s, t, job.id)
    ensures Truthful(t, job)
  {
  }

  lemma {:induction false} CopyStillTruthful(s: State, t: State, x: Worker)
    requires CopyTruthful(s, x) && (Holds(x).Some? ==> Same(s, t, Holds(x).value))
    ensures CopyTruthful(t, x)
  {
    if x.Finishing? {
      StillTruthful(s, t, x.job);
    }
  }

  lemma {:induction false} InvSet(s: State, w: nat)
    requires Inv(s) && AllTruthful(s) && w < |s.workers|
    ensures Set(s, w)
  {
  }

  lemma {:induction false} OthersApartFrom(s: State, t: State, w: nat, id: JobId, ino: nat, v: nat)
    requires Owned(s) && Effect(s, t, w, id, ino) && v < |s.workers| && v != w
    ensures t.workers[v] == s.workers[v] && Holds(s.workers[v]) != Some(id)
  {
    if Holds(s.workers[w]) == Some(id) {
      assert v < w ==> Holds(s.workers[v]).Some? ==> Holds(s.workers[v]) != Holds(s.workers[w]);
      assert w < v ==> Holds(s.workers[w]) != Holds(s.workers[v]);
    } else {
      assert s.queue[0] in s.queue;
    }
  }

  lemma {:induction false} EffectSame(s: State, t: State, w: nat, id: JobId, ino: nat, y: JobId)
    requires Effect(s, t, w, id, ino) && y != id
    ensures Same(s, t, y) && SameAt(s.jobs, t.jobs, y)
  {
    assert SameAt(s.plans, t.plans, y) && SameAt(s.disk.final, t.disk.final, y);
  }

  lemma {:induction false} EffectTruthful(s: State, t: State, w: nat, id: JobId, ino: nat)
    requires Owned(s) && RecordsOk(s) && AllTruthful(s) && Effect(s, t, w, id, ino) && Told(s, w, t)
    requires Holds(s.workers[w]) == Some(id)
    ensures AllTruthful(t)
  {
    forall y | y in t.jobs ensures Truthful(t, t.jobs[y]) {
      if y != id {
        EffectSame(s, t, w, id, ino, y);
        StillTruthful(s, t, s.jobs[y]);
      }
    }
    forall v | 0 <= v < |t.workers| ensures CopyTruthful(t, t.workers[v]) {
      if v != w {
        OthersApartFrom(s, t, w, id, ino, v);
        if Holds(s.workers[v]).Some? {
          EffectSame(s, t, w, id, ino, Holds(s.workers[v]).value);
        }
        CopyStillTruthful(s, t, s.workers[v]);
      }
    }
  }

  /** A step that leaves records, plans and disk alone. */
  lemma {:induction false} QuietTruthful(s: State, t: State)
    requires AllTruthful(s) && t.cfg == s.cfg && s.now <= t.now && t.plans == s.plans
    requires Submap(t.disk.final, s.disk.final) && Submap(t.jobs, s.jobs) && RecordsOk(s)
    requires |t.workers| == |s.workers|
    requires forall w :: 0 <= w < |t.workers| ==> t.workers[w] == s.workers[w] || CopyTruthful(t, t.workers[w])
    requires CreatorTruthful(t)
    ensures AllTruthful(t)
  {
    forall y | y in t.jobs ensures Truthful(t, t.jobs[y]) {
      StillTruthful(s, t, s.jobs[y]);
    }
    forall w | 0 <= w < |t.workers| ensures CopyTruthful(t, t.workers[w]) {
      if t.workers[w] == s.workers[w] {
        CopyStillTruthful(s, t, s.workers[w]);
      }
    }
  }

  lemma {:induction false} RestingMove(s: State, w: nat, m: WorkerMove, t: State)
    requires WorkerDoes(s, w, m, t) && (m == Dequeue || m == Exit)
    ensures w < |s.workers| && t == s.(workers := s.workers[w := t.workers[w]], queue := t.queue)
  {
  }

  lemma {:induction false} RestingTruthful(s: State, w: nat, m: WorkerMove, t: State)
    requires RecordsOk(s) && AllTruthful(s) && WorkerDoes(s, w, m, t) && (m == Dequeue || m == Exit) && Told(s, w, t)
    ensures AllTruthful(t)
  {
    RestingMove(s, w, m, t);
    QuietTruthful(s, t);
  }

  lemma {:induction false} BusyTruthful(s: State, w: nat, m: WorkerMove, t: State)
    requires Inv(s) && AllTruthful(s) && WorkerDoes(s, w, m, t) && m != Dequeue && m != Exit && Told(s, w, t)
    ensures AllTruthful(t)
  {
    var id, ino := WorkerEffect(s, w, m, t);
    BusyMove(s, w, m, t);
    EffectTruthful(s, t, w, id, ino);
  }

  lemma {:induction false} WorkerTruthful(s: State, w: nat, m: WorkerMove, t: State)
    requires Inv(s) && AllTruthful(s) && WorkerDoes(s, w, m, t) && Set(s, w)
    ensures AllTruthful(t)
  {
    MoveTold(s, w, m, t);
    if m == Dequeue || m == Exit {
      RestingTruthful(s, w, m, t);
    } else {
      BusyTruthful(s, w, m, t);
    }
  }

  lemma {:induction false} WorkerIn(s: State, w: nat, m: WorkerMove, t: State)
    requires WorkerDoes(s, w, m, t)
    ensures w < |s.workers|
  {
  }

  lemma {:induction false} BusyMove(s: State, w: nat, m: WorkerMove, t: State)
    requires WorkerDoes(s, w, m, t) && m != Dequeue && m != Exit
    ensures w < |s.workers| && Holds(s.workers[w]).Some?
  {
  }

  lemma {:induction false} CreatorMoveTruthful(s: State, c: nat, m: CreatorMove, t: State)
    requires CreatorDoes(s, c, m, t) && CreatorTruthful(s)
    ensures t.cfg == s.cfg && t.now == s.now && t.plans == s.plans && t.disk == s.disk && t.workers == s.workers
    ensures CreatorTruthful(t)
    ensures m.Insert? ==>
              && t.jobs == s.jobs[m.id := t.jobs[m.id]] && m.id in t.jobs && t.jobs[m.id].id == m.id
              && t.jobs[m.id].status == Queued && Truthful(t, t.jobs[m.id]) && m.id !in s.born
    ensures !m.Insert? ==> Submap(t.jobs, s.jobs)
  {
    match m
    case Admit =>
    case Abandon =>
    case Stamp =>
    case Insert(_) =>
    case Enqueue =>
    case QueueFull =>
    case RollBack =>
  }

  lemma {:induction false} CreatorStepTruthful(s: State, c: nat, m: CreatorMove, t: State)
    requires RecordsOk(s) && AllTruthful(s) && CreatorDoes(s, c, m, t)
    ensures AllTruthful(t)
  {
    CreatorMoveTruthful(s, c, m, t);
    forall y | y in t.jobs ensures Truthful(t, t.jobs[y]) {
      if !(m.Insert? && y == m.id) {
        StillTruthful(s, t, s.jobs[y]);
      }
    }
    forall w | 0 <= w < |t.workers| ensures CopyTruthful(t, t.workers[w]) {
      CopyStillTruthful(s, t, s.workers[w]);
    }
  }

  lemma {:induction false} SweepStepTruthful(s: State, m: SweepMove, t: State)
    requires Inv(s) && AllTruthful(s) && SweepDoes(s, m, t)
    ensures AllTruthful(t)
  {
    SweepKeeps(s, m, t);
    QuietTruthful(s, t);
  }

  lemma {:induction false} WorkerActTruthful(s: State, t: State)
    requires Inv(s) && AllTruthful(s) && WorkerActs(s, t)
    ensures AllTruthful(t)
  {
    var w: nat, m :| WorkerDoes(s, w, m, t);
    WorkerIn(s, w, m, t);
    InvSet(s, w);
    WorkerTruthful(s, w, m, t);
  }

  lemma {:induction false} CreatorActTruthful(s: State, t: State)
    requires RecordsOk(s) && AllTruthful(s) && CreatorActs(s, t)
    ensures AllTruthful(t)
  {
    var c: nat, m :| CreatorDoes(s, c, m, t);
    CreatorStepTruthful(s, c, m, t);
  }

  lemma {:induction false} SweepActTruthful(s: State, t: State)
    requires Inv(s) && AllTruthful(s) && SweepActs(s, t)
    ensures AllTruthful(t)
  {
    var m :| SweepDoes(s, m, t);
    SweepStepTruthful(s, m, t);
  }

  lemma {:induction false} OutsideChanges(s: State, t: State)
    requires OutsideActs(s, t)
    ensures t.jobs == s.jobs && t.workers == s.workers && t.disk == s.disk && t.plans == s.plans
    ensures t.cfg == s.cfg && s.now <= t.now && t.creators == s.creators
  {
  }

  lemma {:induction false} OutsideTruthful(s: State, t: State)
    requires RecordsOk(s) && AllTruthful(s) && OutsideActs(s, t)
    ensures AllTruthful(t)
  {
    OutsideChanges(s, t);
    QuietTruthful(s, t);
  }

  lemma {:induction false} StepTruthful(s: State, t: State)
    requires Inv(s) && AllTruthful(s) && Next(s, t)
    ensures AllTruthful(t)
  {
    if CreatorActs(s, t) {
      CreatorActTruthful(s, t);
    } else if WorkerActs(s, t) {
      WorkerActTruthful(s, t);
    } else if SweepActs(s, t) {
      SweepActTruthful(s, t);
    } else {
      OutsideTruthful(s, t);
    }
  }

  lemma {:induction false} TruthNext(run: seq<State>, k: nat)
    requires Run(run) && 0 < k < |run| && AllTruthful(run[k - 1])
    ensures AllTruthful(run[k])
  {
    RunInv(run, k - 1);
    NextAt(run, k - 1);
    StepTruthful(run[k - 1], run[k]);
  }

  lemma {:induction false} InitTruthful(s: State)
    requires Init(s)
    ensures AllTruthful(s)
  {
  }

  lemma {:induction false} RunTruthful(run: seq<State>, k: nat)
    requires Run(run) && k < |run|
    ensures AllTruthful(run[k])
  {
    if k == 0 {
      InitTruthful(run[0]);
    } else {
      RunTruthful(run, k - 1);
      TruthNext(run, k);
    }
  }

  // ----- main results -----

  /** In every state of every run every record is truthful. */
  lemma {:induction false} RecordsAreTrue(run: seq<State>, k: nat, id: JobId)
    requires Run(run) && k < |run| && id in run[k].jobs
    ensures Truthful(run[k], run[k].jobs[id])
  {
    RunTruthful(run, k);
  }

  lemma {:induction false} PublishedFits(run: seq<State>, k: nat, id: JobId)
    requires Run(run) && k < |run| && id in run[k].born && id in run[k].disk.final
    ensures id in run[k].plans && run[k].plans[id].declared <= run[0].cfg.maxSizeBytes
  {
    var i, w := FinalWasGenerated(run, k, id);
    RunTruthful(run, i);
    assert CopyTruthful(run[i], run[i].workers[w]);
    RunConstants(run, i);
    WritingPlan(run, i, w);
  }

  lemma {:induction false} WritingPlan(run: seq<State>, i: nat, w: nat)
    requires Run(run) && i < |run| && w < |run[i].workers| && run[i].workers[w].Writing?
    ensures var x := run[i].workers[w]; x.job.id in run[i].plans && run[i].plans[x.job.id] == x.plan
  {
    RunInv(run, i);
    assert FilesOk(run[i].disk, run[i].plans, run[i].workers[w]);
  }

  /** The cap decides: in every run a job whose recorded total is above it is never completed and never
      published, and only such a job fails as too large. */
  lemma {:induction false} CapDecides(run: seq<State>, k: nat, id: JobId)
    requires Run(run) && k < |run| && id in run[k].jobs
    ensures run[k].jobs[id].totalBytes > run[0].cfg.maxSizeBytes ==>
              run[k].jobs[id].status != Completed && id !in run[k].disk.final
    ensures run[k].jobs[id].error == Some(TooLarge) ==>
              run[k].jobs[id].status == Failed && run[k].jobs[id].totalBytes > run[0].cfg.maxSizeBytes
  {
    RecordsAreTrue(run, k, id);
    RunConstants(run, k);
    StoredIsBorn(run, k, id);
    OwnId(run, k, id);
    if id in run[k].disk.final {
      PublishedFits(run, k, id);
    }
  }

  lemma {:induction false} OwnId(run: seq<State>, k: nat, id: JobId)
    requires Run(run) && k < |run| && id in run[k].jobs
    ensures run[k].jobs[id].id == id
  {
    RunInv(run, k);
  }
}
