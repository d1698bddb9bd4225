/** What every step of the job protocol keeps. */
module ProtocolInvariant {
  import opened Model
  import opened Protocol

  // ----- who holds a job -----

  function CreatorId(c: Creator): Option<JobId> {
    match c
    case Inserted(id) => Some(id)
    case Rejecting(id) => Some(id)
    case _ => None
  }

  ghost predicate HeldByCreator(creators: map<nat, Creator>, id: JobId) {
    exists c :: c in creators && CreatorId(creators[c]) == Some(id)
  }

  ghost predicate HeldByWorker(workers: seq<Worker>, id: JobId) {
    exists w :: 0 <= w < |workers| && Holds(workers[w]) == Some(id)
  }

  ghost predicate CreatorsOk(s: State) {
    && (forall c :: c in s.creators && CreatorId(s.creators[c]).Some? ==>
          var id := CreatorId(s.creators[c]).value;
          id in s.born && id !in s.accepted && id !in s.rejected)
    && (forall c, d :: c in s.creators && d in s.creators && c != d && CreatorId(s.creators[c]).Some? ==>
          CreatorId(s.creators[c]) != CreatorId(s.creators[d]))
  }

  predicate Distinct<T(==)>(q: seq<T>) {
    forall i, j :: 0 <= i < j < |q| ==> q[i] != q[j]
  }

  /** Every accepted job is in exactly one of the queue, one worker, or the finished set. */
  ghost predicate Owned(s: State) {
    && |s.queue| <= s.cfg.queueSize
    && s.finished <= s.accepted <= s.born
    && s.rejected <= s.born && s.rejected !! s.accepted
    && Distinct(s.queue)
    && (forall v, w :: 0 <= v < w < |s.workers| && Holds(s.workers[v]).Some? ==>
          Holds(s.workers[v]) != Holds(s.workers[w]))
    && (forall w :: 0 <= w < |s.workers| && Holds(s.workers[w]).Some? ==>
          var id := Holds(s.workers[w]).value;
          id in s.accepted && id !in s.finished && id !in s.queue)
    && (forall id :: id in s.queue ==> id in s.accepted && id !in s.finished)
    && (forall id :: id in s.accepted ==> id in s.finished || id in s.queue || HeldByWorker(s.workers, id))
  }

  // ----- records -----

  predicate IsNew(job: JobRecord) {
    job == NewJob(job.id, job.createdAt)
  }

  /** A record as a worker has it between its first and its last update. */
  predicate Active(job: JobRecord) {
    && job.status == Processing && job.processedFiles <= job.totalFiles
    && job.error == None && job.token == None && job.completedAt == None && job.expiresAt == None
  }

  /** A record as the last update of a worker leaves it. */
  predicate Closed(job: JobRecord) {
    && job.processedFiles <= job.totalFiles
    && ((job.status == Completed && job.error == None && job.token.Some?
         && job.completedAt.Some? && job.expiresAt.Some?)
        || (job.status == Failed && job.error.Some? && job.token == None
            && job.completedAt == None && job.expiresAt == None))
  }

  predicate SameProgress(a: JobRecord, b: JobRecord) {
    && a.totalFiles == b.totalFiles && a.processedFiles == b.processedFiles
    && a.totalBytes == b.totalBytes && a.processedBytes == b.processedBytes
    && a.id == b.id && a.createdAt == b.createdAt
  }

  function Rank(status: JobStatus): nat {
    match status
    case Queued => 0
    case Processing => 1
    case _ => 2
  }

  /** How a stored record may change: status and progress only go forward, totals are set
      once, and a terminal record is frozen. */
  predicate Advances(a: JobRecord, b: JobRecord) {
    && a.id == b.id && a.createdAt == b.createdAt
    && Rank(a.status) <= Rank(b.status)
    && a.processedFiles <= b.processedFiles && a.processedBytes <= b.processedBytes
    && (a.totalFiles == a.totalBytes == 0 || (a.totalFiles == b.totalFiles && a.totalBytes == b.totalBytes))
    && (Terminal(a.status) ==> a == b)
  }

  /** How a worker's private copy relates to the stored record, if it is still stored. */
  predicate CopyOk(jobs: map<JobId, JobRecord>, x: Worker) {
    match x
    case Idle => true
    case Exited => true
    case Fetching(id) => id in jobs ==> IsNew(jobs[id]) && jobs[id].id == id
    case Starting(job) =>
      && job == NewJob(job.id, job.createdAt).(status := Processing)
      && (job.id in jobs ==> jobs[job.id] == job.(status := Queued))
    case Querying(job) =>
      && job == NewJob(job.id, job.createdAt).(status := Processing)
      && (job.id in jobs ==> jobs[job.id] == job)
    case Recording(job, plan) =>
      && Active(job) && job.totalFiles == |plan.files| && job.processedFiles == job.processedBytes == 0
      && (job.id in jobs ==> jobs[job.id] == job.(totalFiles := 0, totalBytes := 0))
    case Opening(job, plan) =>
      && Active(job) && job.totalFiles == |plan.files| && job.processedFiles == 0
      && (job.id in jobs ==> jobs[job.id] == job)
    case Writing(job, plan, ino, k) =>
      && Active(job) && job.totalFiles == |plan.files| && job.processedFiles == k
      && (job.id in jobs ==> jobs[job.id] == job)
    case Reporting(job, plan, ino, k) =>
      && Active(job) && job.totalFiles == |plan.files| && job.processedFiles == k < |plan.files|
      && (job.id in jobs ==> jobs[job.id] == job)
    case Finishing(job) =>
      && Closed(job)
      && (job.id in jobs ==> Active(jobs[job.id]) && SameProgress(jobs[job.id], job))
    case _ => Active(x.job) && (x.job.id in jobs ==> jobs[x.job.id] == x.job)
  }

  ghost predicate RecordsOk(s: State) {
    && (forall id :: id in s.jobs ==>
          && s.jobs[id].id == id
          && (id in s.accepted || HeldByCreator(s.creators, id))
          && (id !in s.accepted || id in s.queue ==> IsNew(s.jobs[id]))
          && (id in s.finished ==> Closed(s.jobs[id])))
    && s.jobs.Keys <= s.born - s.rejected
    && (forall w :: 0 <= w < |s.workers| ==> CopyOk(s.jobs, s.workers[w]))
  }

  // ----- disk -----

  predicate HasHandle(x: Worker) {
    x.Writing? || x.Reporting? || x.Closing? || x.Renaming?
  }

  predicate PlansWork(x: Worker) {
    x.Recording? || x.Opening? || HasHandle(x)
  }

  /** A worker that has not opened its temp file yet. */
  predicate BeforeTemp(x: Worker) {
    x.Fetching? || x.Starting? || x.Querying? || x.Recording? || x.Opening?
  }

  /** The bytes behind a worker's handle, and where its names may point. */
  predicate FilesOk(disk: Disk, plans: map<JobId, Plan>, x: Worker) {
    && (PlansWork(x) ==> x.job.id in plans && plans[x.job.id] == x.plan)
    && (x.Fetching? || x.Starting? || x.Querying? ==> Holds(x).value !in plans)
    && (BeforeTemp(x) ==> Holds(x).value !in disk.temp && Holds(x).value !in disk.final)
    && (HasHandle(x) || x.UndoingTemp? || x.UndoingFinal? ==> x.job.id !in disk.final)
    && (HasHandle(x) ==>
          && x.ino in disk.inodes
          && (x.job.id in disk.temp ==> disk.temp[x.job.id] == x.ino))
    && (x.Writing? ==>
          && x.k <= |x.plan.files|
          && disk.inodes[x.ino] == Inode(Joined(x.plan.files[..x.k]), false))
    && (x.Reporting? ==>
          && x.k < |x.plan.files|
          && disk.inodes[x.ino] == Inode(Joined(x.plan.files[..x.k + 1]), false))
    && (x.Closing? && x.done ==> disk.inodes[x.ino].body == Output(x.plan))
    && (x.Renaming? ==> disk.inodes[x.ino] == Inode(Output(x.plan), true))
  }

  /** Whatever sits at a job's final path is the complete, closed output of its one plan. */
  ghost predicate Published(s: State) {
    forall id :: id in s.disk.final && id in s.born ==>
      && id in s.plans
      && s.disk.final[id] in s.disk.inodes
      && s.disk.inodes[s.disk.final[id]] == Inode(Output(s.plans[id]), true)
  }

  /** No handle reaches a file that another job's name, or any final name, points to. */
  ghost predicate HandlesApart(disk: Disk, workers: seq<Worker>) {
    && (forall v, w :: 0 <= v < w < |workers| && HasHandle(workers[v]) && HasHandle(workers[w]) ==>
          workers[v].ino != workers[w].ino)
    && (forall w, id :: 0 <= w < |workers| && HasHandle(workers[w]) && id in disk.final ==>
          disk.final[id] != workers[w].ino)
    && (forall w, id :: 0 <= w < |workers| && HasHandle(workers[w]) && id in disk.temp ==>
          disk.temp[id] == workers[w].ino ==> id == workers[w].job.id)
  }

  ghost predicate NamesOk(s: State) {
    && s.born !! s.leftovers
    && s.disk.temp.Keys + s.disk.final.Keys <= s.born + s.leftovers
    && (forall id :: id in s.disk.temp ==> s.disk.temp[id] in s.disk.inodes)
    && (forall id :: id in s.disk.final ==> s.disk.final[id] in s.disk.inodes)
    && (forall id :: id in s.born && (id !in s.accepted || id in s.queue) ==>
          id !in s.disk.temp && id !in s.disk.final && id !in s.plans)
    && s.plans.Keys <= s.born
  }

  ghost predicate DiskOk(s: State) {
    && NamesOk(s)
    && (forall w :: 0 <= w < |s.workers| ==> FilesOk(s.disk, s.plans, s.workers[w]))
    && Published(s)
    && HandlesApart(s.disk, s.workers)
  }

  // ----- the sweep -----

  /** Jobs the sweep has listed and not looked at yet. */
  function Unvisited(w: Sweep): set<JobId> {
    if w.Scanning? || w.Removing? then w.todo else {}
  }

  /** What a running sweep's stale view still guarantees. */
  ghost predicate SweepOk(s: State) {
    && (!s.sweep.Resting? ==> forall id :: id in s.sweep.snap ==> SnapshotOk(s, id, s.sweep.snap[id]))
    && (!s.sweep.Resting? && !s.sweep.Listed? ==>
          && s.sweep.at <= s.now
          && Unvisited(s.sweep) <= s.sweep.snap.Keys - s.sweep.tracked
          && (forall id :: id in s.sweep.snap && id !in s.sweep.tracked && id !in Unvisited(s.sweep) ==>
                IsExpired(s.sweep.snap[id], s.cfg.ttlFallback, s.sweep.at)))
    && (s.sweep.Removing? ==>
          && s.sweep.target in s.sweep.snap
          && s.sweep.target !in s.sweep.tracked
          && s.sweep.target !in s.sweep.todo)
    && (s.sweep.Purging? ==>
          s.sweep.target !in s.sweep.tracked && (s.sweep.stage == TempFile || s.sweep.stage == FinalFile))
  }

  /** A listed terminal record is the stored one, as long as it is stored. */
  predicate SnapshotOk(s: State, id: JobId, seen: JobRecord) {
    && id in s.born
    && (Terminal(seen.status) ==> id in s.finished && (id in s.jobs ==> s.jobs[id] == seen))
  }

  /** A completed record's token was issued, and while it is in the table it belongs to the
      job and lasts at least as long as the record says. */
  predicate TokenOk(tokens: map<Token, TokenEntry>, issued: set<Token>, job: JobRecord) {
    job.status == Completed ==>
      && job.token.Some? && job.expiresAt.Some? && job.token.value in issued
      && (job.token.value in tokens ==>
            && tokens[job.token.value].jobId == job.id
            && tokens[job.token.value].expiresAt >= job.expiresAt.value)
  }

  predicate WorkerTokenOk(s: State, x: Worker) {
    (x.Finishing? ==> TokenOk(s.tokens, s.issued, x.job)) && (x.Issuing? ==> x.at <= s.now)
  }

  ghost predicate TokensOk(s: State) {
    && s.tokens.Keys <= s.issued
    && (forall id :: id in s.jobs ==> TokenOk(s.tokens, s.issued, s.jobs[id]))
    && (forall w :: 0 <= w < |s.workers| ==> WorkerTokenOk(s, s.workers[w]))
  }

  ghost predicate Inv(s: State) {
    CreatorsOk(s) && Owned(s) && RecordsOk(s) && DiskOk(s) && SweepOk(s) && TokensOk(s)
  }

  lemma {:induction false} InitInv(s: State)
    requires Init(s)
    ensures Inv(s)
  {
    assert CreatorsOk(s);
    InitDisk(s);
    InitRecords(s);
  }

  lemma {:induction false} InitDisk(s: State)
    requires Init(s)
    ensures DiskOk(s)
  {
  }

  lemma {:induction false} InitRecords(s: State)
    requires Init(s)
    ensures RecordsOk(s) && Owned(s)
  {
  }

  // ----- frames -----

  ghost predicate SameAt<K, V>(a: map<K, V>, b: map<K, V>, k: K) {
    (k in a <==> k in b) && (k in a ==> a[k] == b[k])
  }

  ghost predicate SameElsewhere<K(!new), V>(a: map<K, V>, b: map<K, V>, k: K) {
    forall x :: x != k ==> SameAt(a, b, x)
  }

  lemma {:induction false} CopyFrame(a: map<JobId, JobRecord>, b: map<JobId, JobRecord>, id: JobId, x: Worker)
    requires CopyOk(a, x) && Holds(x) != Some(id) && SameElsewhere(a, b, id)
    ensures CopyOk(b, x)
  {
    if Holds(x).Some? {
      assert SameAt(a, b, Holds(x).value);
    }
  }

  lemma {:induction false} FilesFrame(a: Disk, p: map<JobId, Plan>, b: Disk, q: map<JobId, Plan>, id: JobId, x: Worker)
    requires FilesOk(a, p, x) && Holds(x) != Some(id)
    requires SameElsewhere(p, q, id) && SameElsewhere(a.temp, b.temp, id) && SameElsewhere(a.final, b.final, id)
    requires HasHandle(x) ==> SameAt(a.inodes, b.inodes, x.ino)
    ensures FilesOk(b, q, x)
  {
    if Holds(x).Some? {
      var y := Holds(x).value;
      assert SameAt(a.temp, b.temp, y) && SameAt(a.final, b.final, y) && SameAt(p, q, y);
    }
  }

  /** Everything a worker's step on job `id` leaves alone. */
  ghost predicate WorkerFrame(s: State, t: State, w: nat, id: JobId) {
    && w < |s.workers| == |t.workers|
    && (forall v :: 0 <= v < |s.workers| && v != w ==> t.workers[v] == s.workers[v])
    && t.cfg == s.cfg && t.now == s.now && t.accepting == s.accepting && t.cancelled == s.cancelled
    && t.creators == s.creators && t.sweep == s.sweep
    && t.leftovers == s.leftovers && t.born == s.born && t.accepted == s.accepted && t.rejected == s.rejected
    && SameElsewhere(s.jobs, t.jobs, id) && (id in t.jobs <==> id in s.jobs)
  }

  /** How a worker's step moves its job: it keeps it, takes it from the queue or returns it. */
  ghost predicate Hands(s: State, t: State, w: nat, id: JobId) {
    && w < |s.workers| == |t.workers|
    && ((Holds(s.workers[w]) == Holds(t.workers[w]) == Some(id) && t.queue == s.queue && t.finished == s.finished)
        || (Holds(s.workers[w]) == None && Holds(t.workers[w]) == Some(id)
            && |s.queue| > 0 && s.queue[0] == id && t.queue == s.queue[1..] && t.finished == s.finished)
        || (Holds(s.workers[w]) == Some(id) && Holds(t.workers[w]) == None
            && t.queue == s.queue && t.finished == s.finished + {id}))
  }

  lemma {:induction false} DistinctTail<T>(q: seq<T>)
    requires Distinct(q) && |q| > 0
    ensures Distinct(q[1..]) && q[0] !in q[1..]
    ensures forall x :: x in q <==> x == q[0] || x in q[1..]
  {
  }

  /** No other worker and no queue entry has the job a worker acts on. */
  lemma {:induction false} OthersApart(s: State, t: State, w: nat, id: JobId)
    requires Owned(s) && Hands(s, t, w, id)
    ensures id in s.accepted && id !in s.finished && id !in t.queue && Distinct(t.queue)
    ensures forall x :: x in t.queue ==> x in s.queue
    ensures forall x :: x in s.queue ==> x in t.queue || x == id
    ensures forall v :: 0 <= v < |s.workers| && v != w ==> Holds(s.workers[v]) != Some(id)
  {
    if Holds(s.workers[w]) == None {
      DistinctTail(s.queue);
      assert id in s.queue;
    }
  }

  lemma {:induction false} WorkerOwned(s: State, t: State, w: nat, id: JobId)
    requires Owned(s) && WorkerFrame(s, t, w, id) && Hands(s, t, w, id)
    ensures Owned(t)
  {
    OthersApart(s, t, w, id);
    forall x | x in t.accepted ensures x in t.finished || x in t.queue || HeldByWorker(t.workers, x) {
      if x == id {
        assert Holds(t.workers[w]) == Some(id) || id in t.finished;
      } else if HeldByWorker(s.workers, x) {
        var v :| 0 <= v < |s.workers| && Holds(s.workers[v]) == Some(x);
        assert Holds(t.workers[v]) == Some(x);
      }
    }
  }

  lemma {:induction false} WorkerRecords(s: State, t: State, w: nat, id: JobId)
    requires Owned(s) && RecordsOk(s) && WorkerFrame(s, t, w, id) && Hands(s, t, w, id)
    requires CopyOk(t.jobs, t.workers[w])
    requires id in t.jobs ==> t.jobs[id].id == id && (id in t.finished ==> Closed(t.jobs[id]))
    ensures RecordsOk(t)
  {
    OthersApart(s, t, w, id);
    forall x | x in t.jobs
      ensures && t.jobs[x].id == x
              && (x in t.accepted || HeldByCreator(t.creators, x))
              && (x !in t.accepted || x in t.queue ==> IsNew(t.jobs[x]))
              && (x in t.finished ==> Closed(t.jobs[x]))
              && x in t.born - t.rejected
    {
      assert x != id ==> SameAt(s.jobs, t.jobs, x);
    }
    forall v | 0 <= v < |t.workers| ensures CopyOk(t.jobs, t.workers[v]) {
      if v != w {
        CopyFrame(s.jobs, t.jobs, id, s.workers[v]);
      }
    }
  }
}
