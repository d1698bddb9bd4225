/** One job in a realistic configuration, from its request to its completion, while time and the
    sweep may be anywhere: the common part of the concrete runs. */
module Scenario {
  import opened Model
  import opened Protocol

  const ID := JobId("a")
  const TOK := Token("t")

  /** The archive of an empty folder. */
  const EMPTY_PLAN := Plan([], 0, "z")

  const NEW_JOB := NewJob(ID, 0)
  const RUNNING_JOB := NEW_JOB.(status := Processing)

  function DoneJob(now: Time): JobRecord {
    RUNNING_JOB.(status := Completed, token := Some(TOK), completedAt := Some(now), expiresAt := Some(now + 9))
  }

  /** A configuration the program accepts: positive bounds, and the sweep's fallback is the
      expiry. */
  predicate Configured(s: State) {
    && s.cfg.queueSize > 0 && s.cfg.maxSizeBytes > 0 && s.cfg.expiry > 0 && |s.workers| > 0
    && s.cfg.ttlFallback == s.cfg.expiry
  }

  /** The state `s` of some run in such a configuration. */
  ghost predicate Reached(s: State) {
    exists run :: Run(run) && Configured(run[0]) && run[|run| - 1] == s
  }

  lemma {:induction false} Extended(run: seq<State>, t: State)
    requires Run(run) && Next(run[|run| - 1], t)
    ensures Run(run + [t])
  {
    var longer := run + [t];
    forall i | 0 <= i < |longer| - 1 ensures Linked(longer, i) {
      if i < |run| - 1 {
        assert Linked(run, i);
      }
    }
  }

  lemma {:induction false} ReachedNext(s: State, t: State)
    requires Reached(s) && Next(s, t)
    ensures Reached(t)
  {
    var run :| Run(run) && Configured(run[0]) && run[|run| - 1] == s;
    Extended(run, t);
    var longer := run + [t];
    assert longer[0] == run[0] && longer[|longer| - 1] == t;
  }

  lemma {:induction false} ReachedThen(s: State, t: State) returns (run: seq<State>)
    requires Reached(s) && Next(s, t)
    ensures Run(run) && Configured(run[0]) && |run| > 1 && run[|run| - 2] == s && run[|run| - 1] == t
  {
    var first :| Run(first) && Configured(first[0]) && first[|first| - 1] == s;
    Extended(first, t);
    run := first + [t];
  }

  lemma {:induction false} CreatorStep(s: State, m: CreatorMove, t: State)
    requires Reached(s) && CreatorDoes(s, 0, m, t)
    ensures Reached(t)
  {
    ReachedNext(s, t);
  }

  lemma {:induction false} WorkerStep(s: State, m: WorkerMove, t: State)
    requires Reached(s) && WorkerDoes(s, 0, m, t)
    ensures Reached(t)
  {
    ReachedNext(s, t);
  }

  lemma {:induction false} SweepStep(s: State, m: SweepMove, t: State)
    requires Reached(s) && SweepDoes(s, m, t)
    ensures Reached(t)
  {
    ReachedNext(s, t);
  }

  // ----- the stages of the job -----

  /** Where the clock and the sweep are. */
  datatype Scene = Scene(now: Time, sweep: Sweep)

  /** One queue slot and one worker; the parts that change while the job is made and processed. */
  function Stage(scene: Scene, jobs: map<JobId, JobRecord>, queue: seq<JobId>, creators: map<nat, Creator>,
                 worker: Worker, disk: Disk, plans: map<JobId, Plan>, accepted: set<JobId>): State {
    State(Config(1, 1, 9, 9), scene.now, true, false, jobs, queue, map[], disk, creators, [worker], scene.sweep,
          {}, jobs.Keys, accepted, {}, {}, plans, {})
  }

  const NO_DISK := Disk(map[], map[], map[])
  const TEMP_DISK := Disk(map[ID := 0], map[], map[0 := Inode([], false)])
  const FULL_DISK := Disk(map[ID := 0], map[], map[0 := Inode("z", false)])
  const CLOSED_DISK := Disk(map[ID := 0], map[], map[0 := Inode("z", true)])
  const FINAL_DISK := Disk(map[], map[ID := 0], map[0 := Inode("z", true)])

  /** At time 0, before the job is in the queue. */
  function Making(sweep: Sweep, jobs: map<JobId, JobRecord>, creators: map<nat, Creator>): State {
    Stage(Scene(0, sweep), jobs, [], creators, Idle, NO_DISK, map[], {})
  }

  function Waiting(scene: Scene): State {
    Stage(scene, map[ID := NEW_JOB], [ID], map[], Idle, NO_DISK, map[], {ID})
  }

  function Working(scene: Scene, job: JobRecord, worker: Worker, disk: Disk, planned: bool): State {
    Stage(scene, map[ID := job], [], map[], worker, disk, if planned then map[ID := EMPTY_PLAN] else map[], {ID})
  }

  /** The worker is about to create the temp file. */
  function AtWork(scene: Scene): State {
    Working(scene, RUNNING_JOB, Opening(RUNNING_JOB, EMPTY_PLAN), NO_DISK, true)
  }

  function Issued(scene: Scene, job: JobRecord, worker: Worker, finished: set<JobId>): State {
    Working(scene, job, worker, FINAL_DISK, true).(
      tokens := map[TOK := TokenEntry(ID, scene.now + 9)], issued := {TOK}, finished := finished)
  }

  /** The job is completed. */
  function AllDone(scene: Scene): State {
    Issued(scene, DoneJob(scene.now), Idle, {ID})
  }

  // ----- step by step -----

  lemma {:induction false} ProcessStarts()
    ensures Reached(Making(Resting, map[], map[]))
  {
    var start := Making(Resting, map[], map[]);
    var run := [start];
    assert Run(run) && Configured(run[0]) && run[|run| - 1] == start;
  }

  lemma {:induction false} CreatorIsAdmitted(sweep: Sweep)
    requires Reached(Making(sweep, map[], map[]))
    ensures Reached(Making(sweep, map[], map[0 := Validating]))
  {
    CreatorStep(Making(sweep, map[], map[]), Admit, Making(sweep, map[], map[0 := Validating]));
  }

  lemma {:induction false} TimeIsStamped(sweep: Sweep)
    requires Reached(Making(sweep, map[], map[0 := Validating]))
    ensures Reached(Making(sweep, map[], map[0 := Stamped(0)]))
  {
    CreatorStep(Making(sweep, map[], map[0 := Validating]), Stamp, Making(sweep, map[], map[0 := Stamped(0)]));
  }

  lemma {:induction false} JobIsInserted(sweep: Sweep)
    requires Reached(Making(sweep, map[], map[0 := Stamped(0)]))
    ensures Reached(Making(sweep, map[ID := NEW_JOB], map[0 := Inserted(ID)]))
  {
    var before, after: map<JobId, JobRecord> := map[], map[ID := NEW_JOB];
    assert before[ID := NewJob(ID, 0)] == after && before.Keys + {ID} == after.Keys;
    CreatorStep(Making(sweep, map[], map[0 := Stamped(0)]), Insert(ID),
                Making(sweep, map[ID := NEW_JOB], map[0 := Inserted(ID)]));
  }

  lemma {:induction false} JobIsQueued(sweep: Sweep)
    requires Reached(Making(sweep, map[ID := NEW_JOB], map[0 := Inserted(ID)]))
    ensures Reached(Waiting(Scene(0, sweep)))
  {
    CreatorStep(Making(sweep, map[ID := NEW_JOB], map[0 := Inserted(ID)]), Enqueue, Waiting(Scene(0, sweep)));
  }

  lemma {:induction false} JobIsTaken(scene: Scene)
    requires Reached(Waiting(scene))
    ensures Reached(Working(scene, NEW_JOB, Fetching(ID), NO_DISK, false))
  {
    WorkerStep(Waiting(scene), Dequeue,
               Working(scene, NEW_JOB, Fetching(ID), NO_DISK, false));
  }

  lemma {:induction false} JobIsFetched(scene: Scene)
    requires Reached(Working(scene, NEW_JOB, Fetching(ID), NO_DISK, false))
    ensures Reached(Working(scene, NEW_JOB, Starting(RUNNING_JOB), NO_DISK, false))
  {
    WorkerStep(Working(scene, NEW_JOB, Fetching(ID), NO_DISK, false), Get,
               Working(scene, NEW_JOB, Starting(RUNNING_JOB), NO_DISK, false));
  }

  lemma {:induction false} JobIsMarked(scene: Scene)
    requires Reached(Working(scene, NEW_JOB, Starting(RUNNING_JOB), NO_DISK, false))
    ensures Reached(Working(scene, RUNNING_JOB, Querying(RUNNING_JOB), NO_DISK, false))
  {
    WorkerStep(Working(scene, NEW_JOB, Starting(RUNNING_JOB), NO_DISK, false), Mark,
               Working(scene, RUNNING_JOB, Querying(RUNNING_JOB), NO_DISK, false));
  }

  lemma {:induction false} ManifestIsBuilt(scene: Scene)
    requires Reached(Working(scene, RUNNING_JOB, Querying(RUNNING_JOB), NO_DISK, false))
    ensures Reached(Working(scene, RUNNING_JOB, Recording(RUNNING_JOB, EMPTY_PLAN), NO_DISK, true))
  {
    WorkerStep(Working(scene, RUNNING_JOB, Querying(RUNNING_JOB), NO_DISK, false), Manifest(EMPTY_PLAN),
               Working(scene, RUNNING_JOB, Recording(RUNNING_JOB, EMPTY_PLAN), NO_DISK, true));
  }

  lemma {:induction false} TotalsAreRecorded(scene: Scene)
    requires Reached(Working(scene, RUNNING_JOB, Recording(RUNNING_JOB, EMPTY_PLAN), NO_DISK, true))
    ensures Reached(AtWork(scene))
  {
    WorkerStep(Working(scene, RUNNING_JOB, Recording(RUNNING_JOB, EMPTY_PLAN), NO_DISK, true), RecordTotals,
               AtWork(scene));
  }

  lemma {:induction false} TempIsCreated(scene: Scene)
    requires Reached(AtWork(scene))
    ensures Reached(Working(scene, RUNNING_JOB, Writing(RUNNING_JOB, EMPTY_PLAN, 0, 0), TEMP_DISK, true))
  {
    WorkerStep(AtWork(scene), CreateTemp(0),
               Working(scene, RUNNING_JOB, Writing(RUNNING_JOB, EMPTY_PLAN, 0, 0), TEMP_DISK, true));
  }

  lemma {:induction false} ArchiveIsWritten(scene: Scene)
    requires Reached(Working(scene, RUNNING_JOB, Writing(RUNNING_JOB, EMPTY_PLAN, 0, 0), TEMP_DISK, true))
    ensures Reached(Working(scene, RUNNING_JOB, Closing(RUNNING_JOB, EMPTY_PLAN, 0, true), FULL_DISK, true))
  {
    assert [] + EMPTY_PLAN.trailer == "z";
    WorkerStep(Working(scene, RUNNING_JOB, Writing(RUNNING_JOB, EMPTY_PLAN, 0, 0), TEMP_DISK, true), Trailer,
               Working(scene, RUNNING_JOB, Closing(RUNNING_JOB, EMPTY_PLAN, 0, true), FULL_DISK, true));
  }

  lemma {:induction false} ArchiveIsClosed(scene: Scene)
    requires Reached(Working(scene, RUNNING_JOB, Closing(RUNNING_JOB, EMPTY_PLAN, 0, true), FULL_DISK, true))
    ensures Reached(Working(scene, RUNNING_JOB, Renaming(RUNNING_JOB, EMPTY_PLAN, 0), CLOSED_DISK, true))
  {
    WorkerStep(Working(scene, RUNNING_JOB, Closing(RUNNING_JOB, EMPTY_PLAN, 0, true), FULL_DISK, true), Close,
               Working(scene, RUNNING_JOB, Renaming(RUNNING_JOB, EMPTY_PLAN, 0), CLOSED_DISK, true));
  }

  lemma {:induction false} ArchiveIsPublished(scene: Scene)
    requires Reached(Working(scene, RUNNING_JOB, Renaming(RUNNING_JOB, EMPTY_PLAN, 0), CLOSED_DISK, true))
    ensures Reached(Working(scene, RUNNING_JOB, Stamping(RUNNING_JOB), FINAL_DISK, true))
  {
    WorkerStep(Working(scene, RUNNING_JOB, Renaming(RUNNING_JOB, EMPTY_PLAN, 0), CLOSED_DISK, true), Rename,
               Working(scene, RUNNING_JOB, Stamping(RUNNING_JOB), FINAL_DISK, true));
  }

  lemma {:induction false} TimeIsTaken(scene: Scene)
    requires Reached(Working(scene, RUNNING_JOB, Stamping(RUNNING_JOB), FINAL_DISK, true))
    ensures Reached(Working(scene, RUNNING_JOB, Issuing(RUNNING_JOB, scene.now), FINAL_DISK, true))
  {
    WorkerStep(Working(scene, RUNNING_JOB, Stamping(RUNNING_JOB), FINAL_DISK, true), TakeTime,
               Working(scene, RUNNING_JOB, Issuing(RUNNING_JOB, scene.now), FINAL_DISK, true));
  }

  lemma {:induction false} IssueHere(scene: Scene)
    ensures IssueStep(Working(scene, RUNNING_JOB, Issuing(RUNNING_JOB, scene.now), FINAL_DISK, true), 0, TOK,
                      Issued(scene, RUNNING_JOB, Finishing(DoneJob(scene.now)), {}))
  {
  }

  lemma {:induction false} FinishHere(scene: Scene)
    ensures FinishStep(Issued(scene, RUNNING_JOB, Finishing(DoneJob(scene.now)), {}), 0, AllDone(scene))
  {
  }

  lemma {:induction false} TokenIsIssued(scene: Scene)
    requires Reached(Working(scene, RUNNING_JOB, Issuing(RUNNING_JOB, scene.now), FINAL_DISK, true))
    ensures Reached(Issued(scene, RUNNING_JOB, Finishing(DoneJob(scene.now)), {}))
  {
    IssueHere(scene);
    WorkerStep(Working(scene, RUNNING_JOB, Issuing(RUNNING_JOB, scene.now), FINAL_DISK, true), Issue(TOK),
               Issued(scene, RUNNING_JOB, Finishing(DoneJob(scene.now)), {}));
  }

  lemma {:induction false} JobIsDone(scene: Scene)
    requires Reached(Issued(scene, RUNNING_JOB, Finishing(DoneJob(scene.now)), {}))
    ensures Reached(AllDone(scene))
  {
    FinishHere(scene);
    WorkerStep(Issued(scene, RUNNING_JOB, Finishing(DoneJob(scene.now)), {}), Finish,
               AllDone(scene));
  }

  // ----- all at once -----

  lemma {:induction false} JobIsAccepted(sweep: Sweep)
    requires Reached(Making(sweep, map[], map[]))
    ensures Reached(Waiting(Scene(0, sweep)))
  {
    CreatorIsAdmitted(sweep);
    TimeIsStamped(sweep);
    JobIsInserted(sweep);
    JobIsQueued(sweep);
  }

  lemma {:induction false} JobIsReady(scene: Scene)
    requires Reached(Waiting(scene))
    ensures Reached(AtWork(scene))
  {
    JobIsTaken(scene);
    JobIsFetched(scene);
    JobIsMarked(scene);
    ManifestIsBuilt(scene);
    TotalsAreRecorded(scene);
  }

  lemma {:induction false} JobIsPublished(scene: Scene)
    requires Reached(AtWork(scene))
    ensures Reached(Working(scene, RUNNING_JOB, Stamping(RUNNING_JOB), FINAL_DISK, true))
  {
    TempIsCreated(scene);
    ArchiveIsWritten(scene);
    ArchiveIsClosed(scene);
    ArchiveIsPublished(scene);
  }

  lemma {:induction false} JobIsCompleted(scene: Scene)
    requires Reached(AtWork(scene))
    ensures Reached(AllDone(scene))
  {
    JobIsPublished(scene);
    TimeIsTaken(scene);
    TokenIsIssued(scene);
    JobIsDone(scene);
  }
}
