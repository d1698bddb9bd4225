/** The invariant is kept by every step of every actor. */
module ProtocolSteps {
  import opened Model
  import opened Protocol
  import opened ProtocolInvariant

  // ----- disk, one worker step -----

  /** Only worker `w`, acting on job `id`, can reach inode `ino`. */
  ghost predicate Private(s: State, w: nat, id: JobId, ino: nat) {
    && (forall v :: 0 <= v < |s.workers| && v != w && HasHandle(s.workers[v]) ==> s.workers[v].ino != ino)
    && (forall x :: x in s.disk.final ==> s.disk.final[x] != ino)
    && (forall x :: x in s.disk.temp && x != id ==> s.disk.temp[x] != ino)
  }

  /** What a worker's step on `id` may do to names, plans and its one inode. */
  ghost predicate DiskFrame(s: State, t: State, w: nat, id: JobId, ino: nat) {
    && SameElsewhere(s.plans, t.plans, id) && (id in s.plans ==> SameAt(s.plans, t.plans, id))
    && SameElsewhere(s.disk.temp, t.disk.temp, id)
    && SameElsewhere(s.disk.final, t.disk.final, id)
    && SameElsewhere(s.disk.inodes, t.disk.inodes, ino)
    && s.disk.inodes.Keys <= t.disk.inodes.Keys
    && (t.disk.inodes == s.disk.inodes || Private(s, w, id, ino))
    && (id in t.disk.temp ==> (id in s.disk.temp && t.disk.temp[id] == s.disk.temp[id])
                              || (t.disk.temp[id] == ino && ino in t.disk.inodes && Private(s, w, id, ino)))
  }

  /** What a worker's step on `id` may publish. */
  ghost predicate FinalFrame(s: State, t: State, w: nat, id: JobId, ino: nat) {
    id in t.disk.final ==>
      || (id in s.disk.final && t.disk.final[id] == s.disk.final[id] && SameAt(s.plans, t.plans, id))
      || (&& t.disk.final[id] == ino && Private(s, w, id, ino)
          && id in t.plans && ino in t.disk.inodes && t.disk.inodes[ino] == Inode(Output(t.plans[id]), true))
  }

  ghost predicate HandleFrame(s: State, t: State, w: nat, id: JobId, ino: nat) {
    && w < |t.workers|
    && (HasHandle(t.workers[w]) ==>
          && t.workers[w].ino == ino && t.workers[w].job.id == id
          && Private(s, w, id, ino) && id !in t.disk.final)
  }

  lemma {:induction false} WorkerNames(s: State, t: State, w: nat, id: JobId, ino: nat)
    requires Owned(s) && NamesOk(s) && WorkerFrame(s, t, w, id) && Hands(s, t, w, id)
    requires DiskFrame(s, t, w, id, ino) && FinalFrame(s, t, w, id, ino)
    ensures NamesOk(t)
  {
    OthersApart(s, t, w, id);
    forall x | x in t.disk.temp ensures t.disk.temp[x] in t.disk.inodes && x in t.born + t.leftovers {
      assert x != id ==> SameAt(s.disk.temp, t.disk.temp, x);
    }
    forall x | x in t.disk.final ensures t.disk.final[x] in t.disk.inodes && x in t.born + t.leftovers {
      assert x != id ==> SameAt(s.disk.final, t.disk.final, x);
    }
    forall x | x in t.born && (x !in t.accepted || x in t.queue)
      ensures x !in t.disk.temp && x !in t.disk.final && x !in t.plans
    {
      assert SameAt(s.disk.temp, t.disk.temp, x) && SameAt(s.disk.final, t.disk.final, x);
      assert SameAt(s.plans, t.plans, x);
    }
    forall x | x in t.plans ensures x in t.born {
      assert x != id ==> SameAt(s.plans, t.plans, x);
    }
  }

  lemma {:induction false} WorkerPublished(s: State, t: State, w: nat, id: JobId, ino: nat)
    requires Published(s) && WorkerFrame(s, t, w, id)
    requires DiskFrame(s, t, w, id, ino) && FinalFrame(s, t, w, id, ino)
    ensures Published(t)
  {
    forall x | x in t.disk.final && x in t.born
      ensures && x in t.plans && t.disk.final[x] in t.disk.inodes
              && t.disk.inodes[t.disk.final[x]] == Inode(Output(t.plans[x]), true)
    {
      if x != id {
        assert SameAt(s.disk.final, t.disk.final, x) && SameAt(s.plans, t.plans, x);
      }
      if x in s.disk.final && t.disk.final[x] == s.disk.final[x] && t.disk.inodes != s.disk.inodes {
        assert SameAt(s.disk.inodes, t.disk.inodes, s.disk.final[x]);
      }
    }
  }

  lemma {:induction false} WorkerHandles(s: State, t: State, w: nat, id: JobId, ino: nat)
    requires Owned(s) && HandlesApart(s.disk, s.workers) && WorkerFrame(s, t, w, id) && Hands(s, t, w, id)
    requires DiskFrame(s, t, w, id, ino) && FinalFrame(s, t, w, id, ino) && HandleFrame(s, t, w, id, ino)
    ensures HandlesApart(t.disk, t.workers)
  {
    OthersApart(s, t, w, id);
    forall v, x | 0 <= v < |t.workers| && HasHandle(t.workers[v]) && x in t.disk.final
      ensures t.disk.final[x] != t.workers[v].ino
    {
      assert x != id ==> SameAt(s.disk.final, t.disk.final, x);
    }
    forall v, x | 0 <= v < |t.workers| && HasHandle(t.workers[v]) && x in t.disk.temp
                  && t.disk.temp[x] == t.workers[v].ino
      ensures x == t.workers[v].job.id
    {
      assert x != id ==> SameAt(s.disk.temp, t.disk.temp, x);
    }
  }

  lemma {:induction false} WorkerFiles(s: State, t: State, w: nat, id: JobId, ino: nat)
    requires Owned(s) && DiskOk(s) && WorkerFrame(s, t, w, id) && Hands(s, t, w, id)
    requires DiskFrame(s, t, w, id, ino)
    requires FilesOk(t.disk, t.plans, t.workers[w])
    ensures forall v :: 0 <= v < |t.workers| ==> FilesOk(t.disk, t.plans, t.workers[v])
  {
    OthersApart(s, t, w, id);
    forall v | 0 <= v < |t.workers| ensures FilesOk(t.disk, t.plans, t.workers[v]) {
      if v != w {
        if HasHandle(s.workers[v]) && t.disk.inodes != s.disk.inodes {
          assert SameAt(s.disk.inodes, t.disk.inodes, s.workers[v].ino);
        }
        FilesFrame(s.disk, s.plans, t.disk, t.plans, id, s.workers[v]);
      }
    }
  }

  lemma {:induction false} SweepFrame(s: State, t: State)
    requires SweepOk(s) && t.sweep == s.sweep && t.cfg == s.cfg && s.now <= t.now
    requires s.born <= t.born && s.finished <= t.finished
    requires forall x :: x in t.jobs && x in s.finished ==> x in s.jobs && t.jobs[x] == s.jobs[x]
    ensures SweepOk(t)
  {
    if !t.sweep.Resting? {
      forall x | x in t.sweep.snap ensures SnapshotOk(t, x, t.sweep.snap[x]) {
        assert SnapshotOk(s, x, s.sweep.snap[x]);
      }
    }
  }

  lemma {:induction false} WorkerSweepOk(s: State, t: State, w: nat, id: JobId)
    requires Owned(s) && SweepOk(s) && WorkerFrame(s, t, w, id) && Hands(s, t, w, id)
    ensures SweepOk(t)
  {
    OthersApart(s, t, w, id);
    forall x | x in t.jobs && x in s.finished ensures x in s.jobs && t.jobs[x] == s.jobs[x] {
      assert SameAt(s.jobs, t.jobs, x);
    }
    SweepFrame(s, t);
  }

  ghost predicate Submap<K, V>(a: map<K, V>, b: map<K, V>) {
    forall k :: k in a ==> k in b && a[k] == b[k]
  }

  /** Tokens are only added, under values never issued before. */
  ghost predicate TokenFrame(s: State, t: State) {
    && Submap(s.tokens, t.tokens) && s.issued <= t.issued && t.tokens.Keys <= t.issued
    && (forall tok :: tok in t.tokens && tok !in s.tokens ==> tok !in s.issued)
  }

  lemma {:induction false} WorkerTokens(s: State, t: State, w: nat, id: JobId)
    requires TokensOk(s) && WorkerFrame(s, t, w, id) && TokenFrame(s, t)
    requires WorkerTokenOk(t, t.workers[w]) && (id in t.jobs ==> TokenOk(t.tokens, t.issued, t.jobs[id]))
    ensures TokensOk(t)
  {
    forall x | x in t.jobs ensures TokenOk(t.tokens, t.issued, t.jobs[x]) {
      assert x != id ==> SameAt(s.jobs, t.jobs, x);
    }
    forall v | 0 <= v < |t.workers| ensures WorkerTokenOk(t, t.workers[v]) {
      assert v != w ==> WorkerTokenOk(s, s.workers[v]);
    }
  }

  /** A worker's step, in the terms the invariant needs. */
  ghost predicate Effect(s: State, t: State, w: nat, id: JobId, ino: nat) {
    && WorkerFrame(s, t, w, id) && Hands(s, t, w, id)
    && CopyOk(t.jobs, t.workers[w])
    && (id in t.jobs ==> t.jobs[id].id == id && (id in t.finished ==> Closed(t.jobs[id])))
    && (id in s.jobs && id in t.jobs ==> Advances(s.jobs[id], t.jobs[id]))
    && FilesOk(t.disk, t.plans, t.workers[w])
    && DiskFrame(s, t, w, id, ino) && FinalFrame(s, t, w, id, ino) && HandleFrame(s, t, w, id, ino)
    && TokenFrame(s, t)
    && WorkerTokenOk(t, t.workers[w]) && (id in t.jobs ==> TokenOk(t.tokens, t.issued, t.jobs[id]))
  }

  lemma {:induction false} EffectKeeps(s: State, t: State, w: nat, id: JobId, ino: nat)
    requires Inv(s) && Effect(s, t, w, id, ino)
    ensures Inv(t)
  {
    WorkerOwned(s, t, w, id);
    WorkerRecords(s, t, w, id);
    WorkerNames(s, t, w, id, ino);
    WorkerPublished(s, t, w, id, ino);
    WorkerHandles(s, t, w, id, ino);
    WorkerFiles(s, t, w, id, ino);
    WorkerSweepOk(s, t, w, id);
    WorkerTokens(s, t, w, id);
  }

  /** What the invariant says about the one worker that moves. */
  ghost predicate Ready(s: State, w: nat) {
    && w < |s.workers|
    && CopyOk(s.jobs, s.workers[w]) && FilesOk(s.disk, s.plans, s.workers[w])
    && s.tokens.Keys <= s.issued && WorkerTokenOk(s, s.workers[w])
    && (forall id :: id in s.jobs ==> TokenOk(s.tokens, s.issued, s.jobs[id]))
    && (Holds(s.workers[w]).Some? ==> Holds(s.workers[w]).value !in s.finished)
    && (HasHandle(s.workers[w]) ==> Private(s, w, s.workers[w].job.id, s.workers[w].ino))
  }

  lemma {:induction false} InvReady(s: State, w: nat)
    requires Inv(s) && w < |s.workers|
    ensures Ready(s, w)
  {
  }

  // ----- one lemma per worker step -----

  lemma {:induction false} DequeueEffect(s: State, w: nat, t: State)
    requires Inv(s) && DequeueStep(s, w, t)
    ensures Effect(s, t, w, s.queue[0], 0)
  {
    assert s.queue[0] in s.queue;
  }

  lemma {:induction false} VanishedEffect(s: State, w: nat, t: State)
    requires Ready(s, w) && VanishedStep(s, w, t)
    ensures Effect(s, t, w, Holds(s.workers[w]).value, 0)
  {
  }

  lemma {:induction false} GetEffect(s: State, w: nat, t: State)
    requires Ready(s, w) && GetStep(s, w, t)
    ensures Effect(s, t, w, s.workers[w].id, 0)
  {
  }

  lemma {:induction false} MarkEffect(s: State, w: nat, t: State)
    requires Ready(s, w) && MarkStep(s, w, t)
    ensures Effect(s, t, w, s.workers[w].job.id, 0)
  {
  }

  lemma {:induction false} ManifestEffect(s: State, w: nat, plan: Plan, t: State)
    requires Ready(s, w) && ManifestStep(s, w, plan, t)
    ensures Effect(s, t, w, s.workers[w].job.id, 0)
  {
  }

  lemma {:induction false} RecordEffect(s: State, w: nat, t: State)
    requires Ready(s, w) && RecordStep(s, w, t)
    ensures Effect(s, t, w, s.workers[w].job.id, 0)
  {
  }

  lemma {:induction false} FailEffect(s: State, w: nat, t: State)
    requires Ready(s, w) && FailStep(s, w, t)
    ensures Effect(s, t, w, s.workers[w].job.id, 0)
  {
  }

  lemma {:induction false} FreshPrivate(s: State, w: nat, id: JobId, ino: nat)
    requires DiskOk(s) && ino !in s.disk.inodes
    ensures Private(s, w, id, ino)
  {
    assert forall v :: 0 <= v < |s.workers| ==> FilesOk(s.disk, s.plans, s.workers[v]);
  }

  lemma {:induction false} CreateEffect(s: State, w: nat, ino: nat, t: State)
    requires Ready(s, w) && CreateStep(s, w, ino, t)
    requires ino !in s.disk.inodes ==> Private(s, w, s.workers[w].job.id, ino)
    ensures Effect(s, t, w, s.workers[w].job.id, ino)
  {
  }

  lemma {:induction false} JoinedNext(blocks: seq<Bytes>, k: nat)
    requires k < |blocks|
    ensures Joined(blocks[..k + 1]) == Joined(blocks[..k]) + blocks[k]
    ensures Joined(blocks[..|blocks|]) == Joined(blocks)
  {
    assert blocks[..k + 1][..k] == blocks[..k];
    assert blocks[..|blocks|] == blocks;
  }

  lemma {:induction false} WriteEffect(s: State, w: nat, t: State)
    requires Ready(s, w) && WriteStep(s, w, t)
    ensures Effect(s, t, w, s.workers[w].job.id, s.workers[w].ino)
  {
    JoinedNext(s.workers[w].plan.files, s.workers[w].k);
  }

  lemma {:induction false} TrailerEffect(s: State, w: nat, t: State)
    requires Ready(s, w) && TrailerStep(s, w, t)
    ensures Effect(s, t, w, s.workers[w].job.id, s.workers[w].ino)
  {
    var files := s.workers[w].plan.files;
    assert files[..s.workers[w].k] == files;
  }

  lemma {:induction false} BreakEffect(s: State, w: nat, partial: Bytes, t: State)
    requires Ready(s, w) && BreakStep(s, w, partial, t)
    ensures Effect(s, t, w, s.workers[w].job.id, s.workers[w].ino)
  {
  }

  lemma {:induction false} ReportEffect(s: State, w: nat, t: State)
    requires Ready(s, w) && ReportStep(s, w, t)
    ensures Effect(s, t, w, s.workers[w].job.id, s.workers[w].ino)
  {
  }

  lemma {:induction false} CloseEffect(s: State, w: nat, t: State)
    requires Ready(s, w) && CloseStep(s, w, t)
    ensures Effect(s, t, w, s.workers[w].job.id, s.workers[w].ino)
  {
  }

  lemma {:induction false} RenameEffect(s: State, w: nat, t: State)
    requires Ready(s, w) && RenameStep(s, w, t)
    ensures Effect(s, t, w, s.workers[w].job.id, s.workers[w].ino)
  {
  }

  lemma {:induction false} UndoEffect(s: State, w: nat, t: State)
    requires Ready(s, w) && UndoStep(s, w, t)
    ensures Effect(s, t, w, s.workers[w].job.id, 0)
  {
  }

  lemma {:induction false} UnlinkTempEffect(s: State, w: nat, t: State)
    requires Ready(s, w) && UnlinkTempStep(s, w, t)
    ensures Effect(s, t, w, s.workers[w].job.id, 0)
  {
  }

  lemma {:induction false} UnlinkFinalEffect(s: State, w: nat, t: State)
    requires Ready(s, w) && UnlinkFinalStep(s, w, t)
    ensures Effect(s, t, w, s.workers[w].job.id, 0)
  {
  }

  lemma {:induction false} UnlinkErrorEffect(s: State, w: nat, t: State)
    requires Ready(s, w) && UnlinkErrorStep(s, w, t)
    ensures Effect(s, t, w, s.workers[w].job.id, 0)
  {
  }

  lemma {:induction false} TakeTimeEffect(s: State, w: nat, t: State)
    requires Ready(s, w) && TakeTimeStep(s, w, t)
    ensures Effect(s, t, w, s.workers[w].job.id, 0)
  {
  }

  lemma {:induction false} IssueEffect(s: State, w: nat, tok: Token, t: State)
    requires Ready(s, w) && IssueStep(s, w, tok, t)
    ensures Effect(s, t, w, s.workers[w].job.id, 0)
  {
  }

  lemma {:induction false} FinishEffect(s: State, w: nat, t: State)
    requires Ready(s, w) && FinishStep(s, w, t)
    ensures Effect(s, t, w, s.workers[w].job.id, 0)
  {
  }

  lemma {:induction false} ExitOwned(s: State, w: nat, t: State)
    requires Owned(s) && ExitStep(s, w, t)
    ensures Owned(t)
  {
    forall x | x in t.accepted ensures x in t.finished || x in t.queue || HeldByWorker(t.workers, x) {
      if HeldByWorker(s.workers, x) {
        var v :| 0 <= v < |s.workers| && Holds(s.workers[v]) == Some(x);
        assert Holds(t.workers[v]) == Some(x);
      }
    }
  }

  lemma {:induction false} ExitDisk(s: State, w: nat, t: State)
    requires DiskOk(s) && ExitStep(s, w, t)
    ensures DiskOk(t)
  {
    assert NamesOk(t) && Published(t);
  }

  lemma {:induction false} ExitRest(s: State, w: nat, t: State)
    requires CreatorsOk(s) && RecordsOk(s) && SweepOk(s) && ExitStep(s, w, t)
    ensures CreatorsOk(t) && RecordsOk(t) && SweepOk(t)
  {
    SweepFrame(s, t);
  }

  predicate EarlyMove(m: WorkerMove) {
    m == Vanished || m == Get || m == Mark || m.Manifest? || m == RecordTotals || m == Fail || m == Finish
  }

  predicate HandleMove(m: WorkerMove) {
    m == Write || m == Trailer || m.Break? || m == Report || m == Close || m == Rename
  }

  predicate LateMove(m: WorkerMove) {
    m == Undo || m == UnlinkTemp || m == UnlinkFinal || m == UnlinkError || m == TakeTime || m.Issue?
  }

  /** The steps of `ProcessJob` before its temp file exists. */
  lemma {:induction false} EarlyEffect(s: State, w: nat, m: WorkerMove, t: State) returns (id: JobId)
    requires Ready(s, w) && WorkerDoes(s, w, m, t) && EarlyMove(m)
    ensures Effect(s, t, w, id, 0)
  {
    id := Holds(s.workers[w]).value;
    match m
    case Vanished => VanishedEffect(s, w, t);
    case Get => GetEffect(s, w, t);
    case Mark => MarkEffect(s, w, t);
    case Manifest(plan) => ManifestEffect(s, w, plan, t);
    case RecordTotals => RecordEffect(s, w, t);
    case Fail => FailEffect(s, w, t);
    case Finish => FinishEffect(s, w, t);
  }

  /** The steps of `generateArchive` through an open handle. */
  lemma {:induction false} HandleEffect(s: State, w: nat, m: WorkerMove, t: State) returns (id: JobId, ino: nat)
    requires Ready(s, w) && WorkerDoes(s, w, m, t) && HandleMove(m)
    ensures Effect(s, t, w, id, ino)
  {
    id, ino := s.workers[w].job.id, s.workers[w].ino;
    match m
    case Write => WriteEffect(s, w, t);
    case Trailer => TrailerEffect(s, w, t);
    case Break(partial) => BreakEffect(s, w, partial, t);
    case Report => ReportEffect(s, w, t);
    case Close => CloseEffect(s, w, t);
    case Rename => RenameEffect(s, w, t);
  }

  /** The steps after a failed or a published archive. */
  lemma {:induction false} LateEffect(s: State, w: nat, m: WorkerMove, t: State) returns (id: JobId)
    requires Ready(s, w) && WorkerDoes(s, w, m, t) && LateMove(m)
    ensures Effect(s, t, w, id, 0)
  {
    id := s.workers[w].job.id;
    match m
    case Undo => UndoEffect(s, w, t);
    case UnlinkTemp => UnlinkTempEffect(s, w, t);
    case UnlinkFinal => UnlinkFinalEffect(s, w, t);
    case UnlinkError => UnlinkErrorEffect(s, w, t);
    case TakeTime => TakeTimeEffect(s, w, t);
    case Issue(tok) => IssueEffect(s, w, tok, t);
  }

  /** Every step of a worker on a job is an `Effect`. */
  lemma {:induction false} WorkerEffect(s: State, w: nat, m: WorkerMove, t: State) returns (id: JobId, ino: nat)
    requires Inv(s) && WorkerDoes(s, w, m, t) && m != Exit
    ensures Effect(s, t, w, id, ino)
  {
    if m == Dequeue {
      DequeueEffect(s, w, t);
      return s.queue[0], 0;
    }
    InvReady(s, w);
    ino := 0;
    if EarlyMove(m) {
      id := EarlyEffect(s, w, m, t);
    } else if HandleMove(m) {
      id, ino := HandleEffect(s, w, m, t);
    } else if LateMove(m) {
      id := LateEffect(s, w, m, t);
    } else {
      assert m.CreateTemp?;
      id, ino := s.workers[w].job.id, m.ino;
      if ino !in s.disk.inodes {
        FreshPrivate(s, w, id, ino);
      }
      CreateEffect(s, w, ino, t);
    }
  }

  lemma {:induction false} WorkerKeeps(s: State, w: nat, m: WorkerMove, t: State)
    requires Inv(s) && WorkerDoes(s, w, m, t)
    ensures Inv(t)
  {
    if m == Exit {
      ExitOwned(s, w, t);
      ExitDisk(s, w, t);
      ExitRest(s, w, t);
    } else {
      var id, ino := WorkerEffect(s, w, m, t);
      EffectKeeps(s, t, w, id, ino);
    }
  }

  // ----- creators -----

  lemma {:induction false} CreatorKeepsCreators(s: State, c: nat, m: CreatorMove, t: State)
    requires CreatorsOk(s) && s.accepted <= s.born && s.rejected <= s.born && CreatorDoes(s, c, m, t)
    ensures CreatorsOk(t)
  {
    match m
    case Admit =>
    case Abandon =>
    case Stamp =>
    case Insert(id) =>
    case Enqueue =>
    case QueueFull =>
    case RollBack =>
  }

  lemma {:induction false} EnqueueOwned(s: State, c: nat, t: State)
    requires CreatorsOk(s) && Owned(s) && EnqueueStep(s, c, t)
    ensures Owned(t)
  {
  }

  /** A creator other than the one that moved still holds its job. */
  lemma {:induction false} StillHeld(s: State, c: nat, t: State, x: JobId)
    requires SameElsewhere(s.creators, t.creators, c) && HeldByCreator(s.creators, x)
    requires c in s.creators ==> CreatorId(s.creators[c]) != Some(x)
    ensures HeldByCreator(t.creators, x)
  {
    var d :| d in s.creators && CreatorId(s.creators[d]) == Some(x);
    assert SameAt(s.creators, t.creators, d);
  }

  /** Steps of a creator that change neither store nor queue. */
  lemma {:induction false} QuietKeeps(s: State, c: nat, t: State)
    requires Inv(s) && t == s.(creators := t.creators) && CreatorsOk(t)
    requires forall x :: HeldByCreator(s.creators, x) ==> HeldByCreator(t.creators, x)
    ensures Inv(t)
  {
    assert Owned(t) && RecordsOk(t);
    assert NamesOk(t) && Published(t);
    SweepFrame(s, t);
  }

  lemma {:induction false} QuietHolds(s: State, c: nat, m: CreatorMove, t: State, x: JobId)
    requires CreatorDoes(s, c, m, t) && (m == Admit || m == Abandon || m == Stamp || m == QueueFull)
    requires HeldByCreator(s.creators, x)
    ensures HeldByCreator(t.creators, x)
  {
    assert SameElsewhere(s.creators, t.creators, c);
    if m == QueueFull && CreatorId(s.creators[c]) == Some(x) {
      assert CreatorId(t.creators[c]) == Some(x);
    } else {
      StillHeld(s, c, t, x);
    }
  }

  lemma {:induction false} CreatorDisk(s: State, t: State, id: JobId)
    requires DiskOk(s) && t.disk == s.disk && t.plans == s.plans && t.workers == s.workers
    requires t.leftovers == s.leftovers && id !in s.leftovers && s.born <= t.born <= s.born + {id}
    requires id !in s.accepted && s.accepted <= t.accepted <= s.accepted + {id}
    requires forall x :: x in t.queue ==> x in s.queue || x == id
    ensures DiskOk(t)
  {
    assert Published(t) by {
      assert forall x :: x in s.disk.final && x in t.born ==> x in s.born;
    }
  }

  lemma {:induction false} CreatorRecords(s: State, c: nat, t: State, id: JobId)
    requires RecordsOk(s) && Owned(s) && t.workers == s.workers && t.finished == s.finished
    requires SameElsewhere(s.creators, t.creators, c) && SameElsewhere(s.jobs, t.jobs, id)
    requires c in s.creators ==> CreatorId(s.creators[c]) == None || CreatorId(s.creators[c]) == Some(id)
    requires id !in s.accepted && s.accepted <= t.accepted && s.born <= t.born
    requires forall x :: x in t.accepted && x != id ==> x in s.accepted
    requires forall x :: x in t.queue && x != id ==> x in s.queue
    requires forall x :: x in t.rejected && x != id ==> x in s.rejected
    requires id in t.jobs ==> && t.jobs[id].id == id && IsNew(t.jobs[id]) && id in t.born && id !in t.rejected
                              && (id in t.accepted || HeldByCreator(t.creators, id))
    ensures RecordsOk(t)
  {
    forall x | x in t.jobs && x != id
      ensures && t.jobs[x].id == x && (x in t.accepted || HeldByCreator(t.creators, x))
              && (x !in t.accepted || x in t.queue ==> IsNew(t.jobs[x]))
              && (x in t.finished ==> Closed(t.jobs[x]))
              && x in t.born - t.rejected
    {
      assert SameAt(s.jobs, t.jobs, x);
      if x !in t.accepted {
        StillHeld(s, c, t, x);
      }
    }
    forall v | 0 <= v < |t.workers| ensures CopyOk(t.jobs, t.workers[v]) {
      CopyFrame(s.jobs, t.jobs, id, s.workers[v]);
    }
  }

  lemma {:induction false} OwnedFrame(s: State, t: State)
    requires Owned(s) && t.cfg == s.cfg && t.queue == s.queue && t.workers == s.workers
    requires t.accepted == s.accepted && t.finished == s.finished && s.born <= t.born
    requires t.rejected <= t.born && t.rejected !! t.accepted
    ensures Owned(t)
  {
  }

  lemma {:induction false} InsertRecords(s: State, c: nat, id: JobId, t: State)
    requires Owned(s) && RecordsOk(s) && InsertStep(s, c, id, t)
    ensures RecordsOk(t)
  {
    assert CreatorId(t.creators[c]) == Some(id);
    CreatorRecords(s, c, t, id);
  }

  lemma {:induction false} InsertKeeps(s: State, c: nat, id: JobId, t: State)
    requires Inv(s) && InsertStep(s, c, id, t)
    ensures Inv(t)
  {
    CreatorKeepsCreators(s, c, Insert(id), t);
    OwnedFrame(s, t);
    InsertRecords(s, c, id, t);
    CreatorDisk(s, t, id);
    SweepFrame(s, t);
  }

  lemma {:induction false} EnqueueKeeps(s: State, c: nat, t: State)
    requires Inv(s) && EnqueueStep(s, c, t)
    ensures Inv(t)
  {
    var id := s.creators[c].id;
    assert CreatorId(s.creators[c]) == Some(id);
    CreatorKeepsCreators(s, c, Enqueue, t);
    EnqueueOwned(s, c, t);
    CreatorRecords(s, c, t, id);
    CreatorDisk(s, t, id);
    SweepFrame(s, t);
  }

  lemma {:induction false} RollBackRecords(s: State, c: nat, t: State)
    requires CreatorsOk(s) && Owned(s) && RecordsOk(s) && RollBackStep(s, c, t)
    ensures RecordsOk(t) && Owned(t)
  {
    assert CreatorId(s.creators[c]) == Some(s.creators[c].id);
    OwnedFrame(s, t);
    CreatorRecords(s, c, t, s.creators[c].id);
  }

  lemma {:induction false} RollBackKeeps(s: State, c: nat, t: State)
    requires Inv(s) && RollBackStep(s, c, t)
    ensures Inv(t)
  {
    CreatorKeepsCreators(s, c, RollBack, t);
    RollBackRecords(s, c, t);
    assert NamesOk(t) && Published(t);
    SweepFrame(s, t);
  }

  lemma {:induction false} CreatorKeeps(s: State, c: nat, m: CreatorMove, t: State)
    requires Inv(s) && CreatorDoes(s, c, m, t)
    ensures Inv(t)
  {
    match m
    case Insert(id) => InsertKeeps(s, c, id, t);
    case Enqueue => EnqueueKeeps(s, c, t);
    case RollBack => RollBackKeeps(s, c, t);
    case _ =>
      CreatorKeepsCreators(s, c, m, t);
      forall x | HeldByCreator(s.creators, x) ensures HeldByCreator(t.creators, x) {
        QuietHolds(s, c, m, t, x);
      }
      QuietKeeps(s, c, t);
  }

  // ----- the sweep -----

  /** A sweep only ever removes names, tokens and records. */
  ghost predicate OnlyRemoves(s: State, t: State) {
    && t == s.(jobs := t.jobs, tokens := t.tokens, disk := t.disk, sweep := t.sweep)
    && Submap(t.jobs, s.jobs) && Submap(t.tokens, s.tokens)
    && Submap(t.disk.temp, s.disk.temp) && Submap(t.disk.final, s.disk.final)
    && t.disk.inodes == s.disk.inodes
  }

  lemma {:induction false} RemovalKeepsRecords(s: State, t: State)
    requires OnlyRemoves(s, t) && RecordsOk(s)
    ensures RecordsOk(t)
  {
    forall w | 0 <= w < |t.workers| ensures CopyOk(t.jobs, t.workers[w]) {
      assert CopyOk(s.jobs, s.workers[w]);
    }
  }

  lemma {:induction false} RemovalKeepsDisk(s: State, t: State)
    requires OnlyRemoves(s, t) && DiskOk(s)
    ensures DiskOk(t)
  {
    forall w | 0 <= w < |t.workers| ensures FilesOk(t.disk, t.plans, t.workers[w]) {
      assert FilesOk(s.disk, s.plans, s.workers[w]);
    }
    assert NamesOk(t) && Published(t);
  }

  lemma {:induction false} RemovalKeeps(s: State, t: State)
    requires Inv(s) && OnlyRemoves(s, t) && SweepOk(t)
    ensures Inv(t)
  {
    OwnedFrame(s, t);
    RemovalKeepsRecords(s, t);
    RemovalKeepsDisk(s, t);
    assert CreatorsOk(t);
    assert TokensOk(t);
  }

  lemma {:induction false} HeldNotTerminal(jobs: map<JobId, JobRecord>, x: Worker)
    requires CopyOk(jobs, x) && Holds(x).Some? && Holds(x).value in jobs
    ensures !Terminal(jobs[Holds(x).value].status)
  {
  }

  /** A terminal record belongs to a job whose `ProcessJob` has returned. */
  lemma {:induction false} TerminalFinished(s: State, id: JobId)
    requires Owned(s) && RecordsOk(s) && id in s.jobs && Terminal(s.jobs[id].status)
    ensures id in s.finished
  {
    forall w | 0 <= w < |s.workers| ensures Holds(s.workers[w]) != Some(id) {
      if Holds(s.workers[w]).Some? && Holds(s.workers[w]).value in s.jobs {
        HeldNotTerminal(s.jobs, s.workers[w]);
      }
    }
  }

  lemma {:induction false} ListSweepOk(s: State, t: State)
    requires Owned(s) && RecordsOk(s) && ListStep(s, t)
    ensures SweepOk(t)
  {
    forall x | x in t.sweep.snap ensures SnapshotOk(t, x, t.sweep.snap[x]) {
      if Terminal(s.jobs[x].status) {
        TerminalFinished(s, x);
      }
    }
  }

  lemma {:induction false} ScanSweepOk(s: State, m: SweepMove, t: State)
    requires SweepOk(s) && SweepDoes(s, m, t) && (m == ReadClock || m.Track? || m.Condemn?)
    ensures SweepOk(t)
  {
    forall x | x in t.sweep.snap ensures SnapshotOk(t, x, t.sweep.snap[x]) {
      assert SnapshotOk(s, x, s.sweep.snap[x]);
    }
  }

  lemma {:induction false} RemoveSweepOk(s: State, m: SweepMove, t: State)
    requires SweepOk(s) && SweepDoes(s, m, t)
    requires m == RemoveTemp || m == RemoveFinal || m == RemoveError || m == Revoke || m == Erase
    ensures SweepOk(t) && OnlyRemoves(s, t)
  {
    forall x | x in t.sweep.snap ensures SnapshotOk(t, x, t.sweep.snap[x]) {
      assert SnapshotOk(s, x, s.sweep.snap[x]);
    }
  }

  lemma {:induction false} OrphanSweepOk(s: State, m: SweepMove, t: State)
    requires SweepOk(s) && SweepDoes(s, m, t)
    requires m == ListFiles || m.Skip? || m.Orphan? || m == PurgeTemp || m == PurgeFinal || m == PurgeError || m == Rest
    ensures SweepOk(t) && OnlyRemoves(s, t)
  {
    if m != Rest {
      forall x | x in t.sweep.snap ensures SnapshotOk(t, x, t.sweep.snap[x]) {
        assert SnapshotOk(s, x, s.sweep.snap[x]);
      }
    }
  }

  lemma {:induction false} SweepKeeps(s: State, m: SweepMove, t: State)
    requires Inv(s) && SweepDoes(s, m, t)
    ensures Inv(t) && OnlyRemoves(s, t)
  {
    if m == List {
      ListSweepOk(s, t);
    } else if m == ReadClock || m.Track? || m.Condemn? {
      ScanSweepOk(s, m, t);
    } else if m == RemoveTemp || m == RemoveFinal || m == RemoveError || m == Revoke || m == Erase {
      RemoveSweepOk(s, m, t);
    } else {
      OrphanSweepOk(s, m, t);
    }
    RemovalKeeps(s, t);
  }

  // ----- everything -----

  lemma {:induction false} OutsideKeeps(s: State, t: State)
    requires Inv(s) && t == s.(now := t.now, accepting := t.accepting, cancelled := t.cancelled) && s.now <= t.now
    ensures Inv(t)
  {
    OwnedFrame(s, t);
    assert CreatorsOk(t) && RecordsOk(t);
    assert NamesOk(t) && Published(t);
    SweepFrame(s, t);
  }

  datatype Actor = SomeCreator | SomeWorker | TheSweep | Outside

  lemma {:induction false} WhoActs(s: State, t: State) returns (who: Actor)
    requires Next(s, t)
    ensures match who
            case SomeCreator => CreatorActs(s, t)
            case SomeWorker => WorkerActs(s, t)
            case TheSweep => SweepActs(s, t)
            case Outside => OutsideActs(s, t)
  {
    if CreatorActs(s, t) {
      who := SomeCreator;
    } else if WorkerActs(s, t) {
      who := SomeWorker;
    } else if SweepActs(s, t) {
      who := TheSweep;
    } else {
      who := Outside;
    }
  }

  lemma {:induction false} CreatorActsKeep(s: State, t: State)
    requires Inv(s) && CreatorActs(s, t)
    ensures Inv(t)
  {
    var c, m :| CreatorDoes(s, c, m, t);
    CreatorKeeps(s, c, m, t);
  }

  lemma {:induction false} WorkerActsKeep(s: State, t: State)
    requires Inv(s) && WorkerActs(s, t)
    ensures Inv(t)
  {
    var w, m :| WorkerDoes(s, w, m, t);
    WorkerKeeps(s, w, m, t);
  }

  lemma {:induction false} SweepActsKeep(s: State, t: State)
    requires Inv(s) && SweepActs(s, t)
    ensures Inv(t)
  {
    var m :| SweepDoes(s, m, t);
    SweepKeeps(s, m, t);
  }

  /** Every step of the system keeps the invariant. */
  lemma {:induction false} StepKeeps(s: State, t: State)
    requires Inv(s) && Next(s, t)
    ensures Inv(t)
  {
    if CreatorActs(s, t) {
      CreatorActsKeep(s, t);
    } else if WorkerActs(s, t) {
      WorkerActsKeep(s, t);
    } else if SweepActs(s, t) {
      SweepActsKeep(s, t);
    } else {
      OutsideKeeps(s, t);
    }
  }

  lemma {:induction false} NextAt(run: seq<State>, i: nat)
    requires Path(run) && i + 1 < |run|
    ensures Next(run[i], run[i + 1])
  {
    assert Linked(run, i);
  }

  lemma {:induction false} LinkKeeps(path: seq<State>, i: nat)
    requires Path(path) && 0 < i < |path| && Inv(path[i - 1])
    ensures Inv(path[i])
  {
    NextAt(path, i - 1);
    StepKeeps(path[i - 1], path[i]);
  }

  lemma {:induction false} PathInv(path: seq<State>, i: nat)
    requires Path(path) && i < |path| && Inv(path[0])
    ensures Inv(path[i])
  {
    if i > 0 {
      PathInv(path, i - 1);
      LinkKeeps(path, i);
    }
  }

  /** The invariant holds in every state of every run. */
  lemma {:induction false} RunInv(run: seq<State>, i: nat)
    requires Run(run) && i < |run|
    ensures Inv(run[i])
  {
    InitInv(run[0]);
    PathInv(run, i);
  }
}
