/** Graceful shutdown: once requests are refused, the work still to come is bounded, every
    further step of a creator or worker brings the end closer, and nothing blocks. */
module Draining {
  import opened Model
  import opened Protocol
  import opened ProtocolInvariant
  import opened ProtocolSteps
  import opened JobLifecycle

  // ----- how much completed work is still possible -----

  /** Queued jobs, creators already past the accepting check, and jobs being processed. */
  function Outstanding(s: State): nat {
    |s.queue| + |s.creators| + Busy(s.workers)
  }

  lemma {:induction false} BusyUpdate(workers: seq<Worker>, w: nat, x: Worker)
    requires w < |workers|
    ensures Busy(workers[w := x]) + (if Holds(workers[w]).Some? then 1 else 0)
         == Busy(workers) + (if Holds(x).Some? then 1 else 0)
  {
    var next := workers[w := x];
    if w == 0 {
      assert next[1..] == workers[1..];
    } else {
      assert next[1..] == workers[1..][w - 1 := x];
      BusyUpdate(workers[1..], w - 1, x);
    }
  }

  lemma {:induction false} MapSizes(m: map<nat, Creator>, c: nat, x: Creator)
    requires c in m
    ensures |m - {c}| == |m| - 1 && |m[c := x]| == |m|
  {
    assert (m - {c}).Keys == m.Keys - {c};
    assert m[c := x].Keys == m.Keys;
  }

  lemma {:induction false} CreatorOutstanding(s: State, c: nat, m: CreatorMove, t: State)
    requires CreatorDoes(s, c, m, t) && !s.accepting
    ensures Outstanding(t) <= Outstanding(s) && t.finished == s.finished && !t.accepting
  {
    MapSizes(s.creators, c, if c in t.creators then t.creators[c] else Validating);
    match m
    case Admit =>
    case Abandon =>
    case Stamp =>
    case Insert(id) =>
    case Enqueue =>
    case QueueFull =>
    case RollBack =>
  }

  /** A worker's step never adds work, and finishing a job removes exactly that job. */
  lemma {:induction false} EffectOutstanding(s: State, t: State, w: nat, id: JobId, ino: nat)
    requires Owned(s) && Effect(s, t, w, id, ino)
    ensures Outstanding(t) + |t.finished| == Outstanding(s) + |s.finished|
    ensures t.accepting == s.accepting
  {
    OthersApart(s, t, w, id);
    assert t.workers == s.workers[w := t.workers[w]];
    BusyUpdate(s.workers, w, t.workers[w]);
  }

  lemma {:induction false} WorkerOutstanding(s: State, w: nat, m: WorkerMove, t: State)
    requires Inv(s) && WorkerDoes(s, w, m, t)
    ensures Outstanding(t) + |t.finished| == Outstanding(s) + |s.finished|
    ensures t.accepting == s.accepting
  {
    if m == Exit {
      BusyUpdate(s.workers, w, Exited);
    } else {
      var id, ino := WorkerEffect(s, w, m, t);
      EffectOutstanding(s, t, w, id, ino);
    }
  }

  lemma {:induction false} StepOutstanding(s: State, t: State)
    requires Inv(s) && Next(s, t) && !s.accepting
    ensures Outstanding(t) + |t.finished| <= Outstanding(s) + |s.finished| && !t.accepting
  {
    var who := WhoActs(s, t);
    match who
    case SomeCreator =>
      var c, m :| CreatorDoes(s, c, m, t);
      CreatorOutstanding(s, c, m, t);
    case SomeWorker =>
      var w, m :| WorkerDoes(s, w, m, t);
      WorkerOutstanding(s, w, m, t);
    case TheSweep =>
      var m :| SweepDoes(s, m, t);
      SweepKeeps(s, m, t);
    case Outside =>
  }

  lemma {:induction false} OutstandingNext(run: seq<State>, k: nat)
    requires Run(run) && k + 1 < |run| && !run[k].accepting
    ensures Outstanding(run[k + 1]) + |run[k + 1].finished| <= Outstanding(run[k]) + |run[k].finished|
    ensures !run[k + 1].accepting
  {
    RunInv(run, k);
    NextAt(run, k);
    StepOutstanding(run[k], run[k + 1]);
  }

  /** From the moment intake stops, a run finishes at most the jobs outstanding then, whatever
      the workers' selects prefer. */
  lemma {:induction false} DrainBound(run: seq<State>, i: nat, k: nat)
    requires Run(run) && i <= k < |run| && !run[i].accepting
    ensures !run[k].accepting
    ensures |run[k].finished| + Outstanding(run[k]) <= |run[i].finished| + Outstanding(run[i])
    ensures |run[k].finished| <= |run[i].finished| + |run[i].queue| + |run[i].creators| + Busy(run[i].workers)
  {
    if i < k {
      DrainBound(run, i, k - 1);
      OutstandingNext(run, k - 1);
    }
  }

  // ----- a measure that every creator and worker step decreases -----

  /** Steps a worker has left before its manifest is known; after that, one for returning. */
  function Coarse(x: Worker): nat {
    match x
    case Exited => 0
    case Idle => 1
    case Fetching(_) => 5
    case Starting(_) => 4
    case Querying(_) => 3
    case _ => 2
  }

  /** Steps a worker has left once its manifest is known. */
  function Fine(x: Worker): nat {
    match x
    case Recording(_, plan) => 2 * |plan.files| + 12
    case Opening(_, plan) => 2 * |plan.files| + 11
    case Writing(_, plan, _, k) => if k <= |plan.files| then 2 * (|plan.files| - k) + 10 else 10
    case Reporting(_, plan, _, k) => if k <= |plan.files| then 2 * (|plan.files| - k) + 9 else 9
    case Closing(_, _, _, _) => 8
    case Renaming(_, _, _) => 7
    case UndoingTemp(_) => 6
    case UndoingFinal(_) => 5
    case Stamping(_) => 4
    case Issuing(_, _) => 3
    case Finishing(_) => 2
    case _ => 0
  }

  function Share(c: Creator): nat {
    match c
    case Validating => 8
    case Stamped(_) => 7
    case Inserted(_) => 6
    case Rejecting(_) => 1
  }

  function CoarseSum(workers: seq<Worker>): nat {
    if workers == [] then 0 else Coarse(workers[0]) + CoarseSum(workers[1..])
  }

  function FineSum(workers: seq<Worker>): nat {
    if workers == [] then 0 else Fine(workers[0]) + FineSum(workers[1..])
  }

  ghost function ShareSum(creators: map<nat, Creator>): nat
    decreases |creators|
  {
    if creators == map[] then 0
    else
      var c :| c in creators;
      MapSizes(creators, c, Validating);
      Share(creators[c]) + ShareSum(creators - {c})
  }

  lemma {:induction false} SumsUpdate(workers: seq<Worker>, w: nat, x: Worker)
    requires w < |workers|
    ensures CoarseSum(workers[w := x]) + Coarse(workers[w]) == CoarseSum(workers) + Coarse(x)
    ensures FineSum(workers[w := x]) + Fine(workers[w]) == FineSum(workers) + Fine(x)
  {
    var next := workers[w := x];
    if w == 0 {
      assert next[1..] == workers[1..];
    } else {
      assert next[1..] == workers[1..][w - 1 := x];
      SumsUpdate(workers[1..], w - 1, x);
    }
  }

  lemma {:induction false} ShareSumRemove(creators: map<nat, Creator>, c: nat)
    requires c in creators
    ensures ShareSum(creators) == Share(creators[c]) + ShareSum(creators - {c})
    decreases |creators|
  {
    var d :| d in creators && ShareSum(creators) == Share(creators[d]) + ShareSum(creators - {d});
    if d != c {
      MapSizes(creators, d, Validating);
      MapSizes(creators, c, Validating);
      ShareSumRemove(creators - {d}, c);
      ShareSumRemove(creators - {c}, d);
      assert creators - {d} - {c} == creators - {c} - {d};
    }
  }

  lemma {:induction false} ShareSumUpdate(creators: map<nat, Creator>, c: nat, x: Creator)
    requires c in creators
    ensures ShareSum(creators[c := x]) + Share(creators[c]) == ShareSum(creators) + Share(x)
  {
    ShareSumRemove(creators, c);
    ShareSumRemove(creators[c := x], c);
    assert creators[c := x] - {c} == creators - {c};
  }

  /** First component of the drain measure; the second is `FineSum(s.workers)`. */
  ghost function CoarseMeasure(s: State): nat {
    ShareSum(s.creators) + 5 * |s.queue| + CoarseSum(s.workers)
  }

  ghost predicate Decreases(s: State, t: State) {
    || CoarseMeasure(t) < CoarseMeasure(s)
    || (CoarseMeasure(t) == CoarseMeasure(s) && FineSum(t.workers) < FineSum(s.workers))
  }

  lemma {:induction false} CreatorDecreases(s: State, c: nat, m: CreatorMove, t: State)
    requires CreatorDoes(s, c, m, t) && m != Admit
    ensures Decreases(s, t)
  {
    ShareSumRemove(s.creators, c);
    if c in t.creators {
      ShareSumUpdate(s.creators, c, t.creators[c]);
    }
    match m
    case Abandon =>
    case Stamp =>
    case Insert(id) =>
    case Enqueue =>
    case QueueFull =>
    case RollBack =>
  }

  /** A worker's move lowers its own rank, or takes a job off the queue. */
  ghost predicate Lowers(s: State, w: nat, t: State) {
    && w < |s.workers| == |t.workers| && t.workers == s.workers[w := t.workers[w]] && t.creators == s.creators
    && ((t.queue == s.queue
         && (Coarse(t.workers[w]) < Coarse(s.workers[w])
             || (Coarse(t.workers[w]) == Coarse(s.workers[w]) && Fine(t.workers[w]) < Fine(s.workers[w]))))
        || (|s.queue| == |t.queue| + 1 && Coarse(t.workers[w]) == 5 && Coarse(s.workers[w]) == 1))
  }

  lemma {:induction false} DequeueLowers(s: State, w: nat, t: State)
    requires DequeueStep(s, w, t)
    ensures Lowers(s, w, t)
  {
  }

  lemma {:induction false} ExitLowers(s: State, w: nat, t: State)
    requires ExitStep(s, w, t)
    ensures Lowers(s, w, t)
  {
  }

  lemma {:induction false} VanishedLowers(s: State, w: nat, t: State)
    requires VanishedStep(s, w, t)
    ensures Lowers(s, w, t)
  {
  }

  lemma {:induction false} GetLowers(s: State, w: nat, t: State)
    requires GetStep(s, w, t)
    ensures Lowers(s, w, t)
  {
  }

  lemma {:induction false} MarkLowers(s: State, w: nat, t: State)
    requires MarkStep(s, w, t)
    ensures Lowers(s, w, t)
  {
  }

  lemma {:induction false} ManifestLowers(s: State, w: nat, plan: Plan, t: State)
    requires ManifestStep(s, w, plan, t)
    ensures Lowers(s, w, t)
  {
  }

  lemma {:induction false} RecordTotalsLowers(s: State, w: nat, t: State)
    requires RecordStep(s, w, t)
    ensures Lowers(s, w, t)
  {
  }

  lemma {:induction false} FailLowers(s: State, w: nat, t: State)
    requires FailStep(s, w, t)
    ensures Lowers(s, w, t)
  {
  }

  lemma {:induction false} FinishLowers(s: State, w: nat, t: State)
    requires FinishStep(s, w, t)
    ensures Lowers(s, w, t)
  {
  }

  lemma {:induction false} EarlyLowers(s: State, w: nat, m: WorkerMove, t: State)
    requires WorkerDoes(s, w, m, t) && (EarlyMove(m) || m == Dequeue || m == Exit)
    ensures Lowers(s, w, t)
  {
    match m
    case Dequeue => DequeueLowers(s, w, t);
    case Exit => ExitLowers(s, w, t);
    case Vanished => VanishedLowers(s, w, t);
    case Get => GetLowers(s, w, t);
    case Mark => MarkLowers(s, w, t);
    case Manifest(plan) => ManifestLowers(s, w, plan, t);
    case RecordTotals => RecordTotalsLowers(s, w, t);
    case Fail => FailLowers(s, w, t);
    case Finish => FinishLowers(s, w, t);
  }

  lemma {:induction false} CreateLowers(s: State, w: nat, ino: nat, t: State)
    requires CreateStep(s, w, ino, t)
    ensures Lowers(s, w, t)
  {
  }

  lemma {:induction false} WriteLowers(s: State, w: nat, t: State)
    requires WriteStep(s, w, t)
    ensures Lowers(s, w, t)
  {
  }

  lemma {:induction false} TrailerLowers(s: State, w: nat, t: State)
    requires TrailerStep(s, w, t)
    ensures Lowers(s, w, t)
  {
  }

  lemma {:induction false} BreakLowers(s: State, w: nat, partial: Bytes, t: State)
    requires BreakStep(s, w, partial, t)
    ensures Lowers(s, w, t)
  {
  }

  lemma {:induction false} ReportLowers(s: State, w: nat, t: State)
    requires ReportStep(s, w, t)
    ensures Lowers(s, w, t)
  {
  }

  lemma {:induction false} CloseLowers(s: State, w: nat, t: State)
    requires CloseStep(s, w, t)
    ensures Lowers(s, w, t)
  {
  }

  lemma {:induction false} RenameLowers(s: State, w: nat, t: State)
    requires RenameStep(s, w, t)
    ensures Lowers(s, w, t)
  {
  }

  lemma {:induction false} HandleLowers(s: State, w: nat, m: WorkerMove, t: State)
    requires WorkerDoes(s, w, m, t) && (HandleMove(m) || m.CreateTemp?)
    ensures Lowers(s, w, t)
  {
    match m
    case CreateTemp(ino) => CreateLowers(s, w, ino, t);
    case Write => WriteLowers(s, w, t);
    case Trailer => TrailerLowers(s, w, t);
    case Break(partial) => BreakLowers(s, w, partial, t);
    case Report => ReportLowers(s, w, t);
    case Close => CloseLowers(s, w, t);
    case Rename => RenameLowers(s, w, t);
  }

  lemma {:induction false} LateLowers(s: State, w: nat, m: WorkerMove, t: State)
    requires WorkerDoes(s, w, m, t) && LateMove(m)
    ensures Lowers(s, w, t)
  {
    match m
    case Undo =>
    case UnlinkTemp =>
    case UnlinkFinal =>
    case UnlinkError =>
    case TakeTime =>
    case Issue(_) =>
  }

  lemma {:induction false} LowersDecreases(s: State, w: nat, t: State)
    requires Lowers(s, w, t)
    ensures Decreases(s, t)
  {
    SumsUpdate(s.workers, w, t.workers[w]);
  }

  lemma {:induction false} WorkerDecreases(s: State, w: nat, m: WorkerMove, t: State)
    requires Inv(s) && WorkerDoes(s, w, m, t)
    ensures Decreases(s, t)
  {
    InvReady(s, w);
    if EarlyMove(m) || m == Dequeue || m == Exit {
      EarlyLowers(s, w, m, t);
    } else if HandleMove(m) || m.CreateTemp? {
      HandleLowers(s, w, m, t);
    } else {
      LateLowers(s, w, m, t);
    }
    LowersDecreases(s, w, t);
  }

  lemma {:induction false} WorkerActDecreases(s: State, t: State)
    requires Inv(s) && WorkerActs(s, t)
    ensures Decreases(s, t)
  {
    var w, m :| WorkerDoes(s, w, m, t);
    WorkerDecreases(s, w, m, t);
  }

  lemma {:induction false} CreatorActDecreases(s: State, t: State)
    requires CreatorActs(s, t) && !s.accepting
    ensures Decreases(s, t)
  {
    var c, m :| CreatorDoes(s, c, m, t);
    CreatorDecreases(s, c, m, t);
  }

  lemma {:induction false} SweepLeavesPool(s: State, t: State)
    requires SweepActs(s, t)
    ensures t.creators == s.creators && t.queue == s.queue && t.workers == s.workers
  {
    var m :| SweepDoes(s, m, t);
    SweepMoveLeavesPool(s, m, t);
  }

  lemma {:induction false} SweepMoveLeavesPool(s: State, m: SweepMove, t: State)
    requires SweepDoes(s, m, t)
    ensures t.creators == s.creators && t.queue == s.queue && t.workers == s.workers
  {
    match m
    case List =>
    case ReadClock =>
    case Track(_) =>
    case Condemn(_) =>
    case RemoveTemp =>
    case RemoveFinal =>
    case RemoveError =>
    case Revoke =>
    case Erase =>
    case ListFiles =>
    case Skip(_) =>
    case Orphan(_) =>
    case PurgeTemp =>
    case PurgeFinal =>
    case PurgeError =>
    case Rest =>
  }

  /** With intake stopped, a step of a run lowers the measure, unless it is the sweep's or the
      clock's, which leaves creators, queue and workers alone. */
  lemma {:induction false} DrainStep(s: State, t: State)
    requires Inv(s) && Next(s, t) && !s.accepting
    ensures Decreases(s, t) || (t.creators == s.creators && t.queue == s.queue && t.workers == s.workers)
  {
    if CreatorActs(s, t) {
      CreatorActDecreases(s, t);
    } else if WorkerActs(s, t) {
      WorkerActDecreases(s, t);
    } else if SweepActs(s, t) {
      SweepLeavesPool(s, t);
    }
  }

  // ----- nothing blocks -----

  /** A move the worker can make now, whatever the outside world answers. */
  function ReadyMove(s: State, w: nat): WorkerMove
    requires w < |s.workers| && s.workers[w] != Exited
  {
    match s.workers[w]
    case Idle => Exit
    case Fetching(id) => if id in s.jobs then Get else Vanished
    case Starting(job) => if job.id in s.jobs then Mark else Vanished
    case Recording(job, _) => if job.id in s.jobs then RecordTotals else Vanished
    case Querying(_) => Fail
    case Opening(_, _) => Fail
    case Issuing(_, _) => Fail
    case Writing(_, plan, _, k) => if k < |plan.files| then Write else Trailer
    case Reporting(_, _, _, _) => Report
    case Closing(_, _, _, _) => Undo
    case Renaming(_, _, _) => Undo
    case UndoingTemp(_) => UnlinkTemp
    case UndoingFinal(_) => UnlinkFinal
    case Stamping(_) => TakeTime
    case Finishing(_) => Finish
  }

  lemma {:induction false} EarlyReady(s: State, w: nat)
    requires w < |s.workers| && s.workers[w] != Exited && s.cancelled
    requires EarlyMove(ReadyMove(s, w)) || ReadyMove(s, w) == Exit
    ensures exists t :: WorkerDoes(s, w, ReadyMove(s, w), t)
  {
    var x := s.workers[w];
    var m := ReadyMove(s, w);
    var t: State;
    match m {
      case Exit => t := s.(workers := Put(s, w, Exited));
      case Vanished => t := s.(workers := Put(s, w, Idle), finished := s.finished + {Holds(x).value});
      case Get => t := s.(workers := Put(s, w, Starting(s.jobs[x.id].(status := Processing))));
      case Mark => t := s.(workers := Put(s, w, Querying(x.job)), jobs := Stored(s.jobs, x.job));
      case RecordTotals =>
        t := s.(workers := Put(s, w, if x.job.totalBytes > s.cfg.maxSizeBytes
                                     then Finishing(FailedJob(x.job, TooLarge)) else Opening(x.job, x.plan)),
                jobs := Stored(s.jobs, x.job));
      case Fail =>
        var reason := if x.Querying? then ManifestUnreadable
                      else if x.Opening? then GenerationFailed else TokenNotIssued;
        t := s.(workers := Put(s, w, Finishing(FailedJob(x.job, reason))));
      case Finish =>
        t := s.(workers := Put(s, w, Idle), jobs := Stored(s.jobs, x.job), finished := s.finished + {x.job.id});
    }
    assert WorkerDoes(s, w, m, t);
  }

  lemma {:induction false} LateReady(s: State, w: nat)
    requires Ready(s, w) && s.workers[w] != Exited
    requires !EarlyMove(ReadyMove(s, w)) && ReadyMove(s, w) != Exit
    ensures exists t :: WorkerDoes(s, w, ReadyMove(s, w), t)
  {
    var x := s.workers[w];
    var m := ReadyMove(s, w);
    var t: State;
    match m {
      case Write =>
        t := s.(workers := Put(s, w, Reporting(x.job, x.plan, x.ino, x.k)),
                disk := Appended(s.disk, x.ino, x.plan.files[x.k]));
      case Trailer =>
        t := s.(workers := Put(s, w, Closing(x.job, x.plan, x.ino, true)),
                disk := Appended(s.disk, x.ino, x.plan.trailer));
      case Report =>
        var job := x.job.(processedFiles := x.k + 1,
                          processedBytes := x.job.processedBytes + |x.plan.files[x.k]|);
        t := s.(workers := Put(s, w, Writing(job, x.plan, x.ino, x.k + 1)), jobs := Stored(s.jobs, job));
      case Undo => t := s.(workers := Put(s, w, UndoingTemp(x.job)));
      case UnlinkTemp =>
        t := s.(workers := Put(s, w, UndoingFinal(x.job)), disk := s.disk.(temp := s.disk.temp - {x.job.id}));
      case UnlinkFinal =>
        t := s.(workers := Put(s, w, Finishing(FailedJob(x.job, GenerationFailed))),
                disk := s.disk.(final := s.disk.final - {x.job.id}));
      case TakeTime => t := s.(workers := Put(s, w, Issuing(x.job, s.now)));
    }
    assert WorkerDoes(s, w, m, t);
  }

  /** After cancellation every worker that has not exited can move, so the measure runs down
      to a state in which all workers have exited. */
  lemma {:induction false} NothingBlocks(run: seq<State>, i: nat, w: nat)
    requires Run(run) && i < |run| && run[i].cancelled && w < |run[i].workers| && run[i].workers[w] != Exited
    ensures exists t :: WorkerDoes(run[i], w, ReadyMove(run[i], w), t)
  {
    RunInv(run, i);
    InvReady(run[i], w);
    if EarlyMove(ReadyMove(run[i], w)) || ReadyMove(run[i], w) == Exit {
      EarlyReady(run[i], w);
    } else {
      LateReady(run[i], w);
    }
  }

  predicate AllExited(s: State) {
    forall w :: 0 <= w < |s.workers| ==> s.workers[w] == Exited
  }

  lemma {:induction false} WorkerKeepsShutdown(s: State, w: nat, m: WorkerMove, t: State)
    requires Inv(s) && WorkerDoes(s, w, m, t)
    ensures t.accepting == s.accepting && t.cancelled == s.cancelled
  {
    if m != Exit {
      var id, ino := WorkerEffect(s, w, m, t);
    }
  }

  /** A ready worker moves, and the measure goes down. */
  lemma {:induction false} MovesOn(s: State, w: nat) returns (t: State)
    requires Inv(s) && s.cancelled && !s.accepting && w < |s.workers| && s.workers[w] != Exited
    ensures Next(s, t) && Decreases(s, t) && t.cancelled && !t.accepting
  {
    InvReady(s, w);
    if EarlyMove(ReadyMove(s, w)) || ReadyMove(s, w) == Exit {
      EarlyReady(s, w);
    } else {
      LateReady(s, w);
    }
    t :| WorkerDoes(s, w, ReadyMove(s, w), t);
    WorkerKeepsShutdown(s, w, ReadyMove(s, w), t);
    WorkerDecreases(s, w, ReadyMove(s, w), t);
  }

  lemma {:induction false} OneMovesOn(s: State) returns (t: State)
    requires Inv(s) && s.cancelled && !s.accepting && !AllExited(s)
    ensures Inv(t) && Next(s, t) && Decreases(s, t) && t.cancelled && !t.accepting
  {
    var w :| 0 <= w < |s.workers| && s.workers[w] != Exited;
    t := MovesOn(s, w);
    StepKeeps(s, t);
  }

  /** After shutdown the pool can always be run down: from every reachable state some
      continuation ends with every worker exited. */
  lemma {:induction false} CanDrain(s: State) returns (path: seq<State>)
    requires Inv(s) && s.cancelled && !s.accepting
    ensures Path(path) && path[0] == s && AllExited(path[|path| - 1])
    decreases CoarseMeasure(s), FineSum(s.workers)
  {
    if AllExited(s) {
      path := [s];
      SingletonPath(s);
    } else {
      var t := OneMovesOn(s);
      var rest := CanDrain(t);
      path := Prepended(s, rest);
    }
  }

  /** No worker has a step left. */
  ghost predicate AtRest(s: State) {
    forall t: State :: !WorkerActs(s, t)
  }

  lemma {:induction false} ExitedStays(s: State, w: nat, m: WorkerMove, t: State)
    requires w < |s.workers| && s.workers[w] == Exited
    ensures !WorkerDoes(s, w, m, t)
  {
  }

  lemma {:induction false} SomeoneMoves(s: State) returns (t: State)
    requires Inv(s) && s.cancelled && !AllExited(s)
    ensures WorkerActs(s, t)
  {
    var w :| 0 <= w < |s.workers| && s.workers[w] != Exited;
    InvReady(s, w);
    if EarlyMove(ReadyMove(s, w)) || ReadyMove(s, w) == Exit {
      EarlyReady(s, w);
    } else {
      LateReady(s, w);
    }
    t :| WorkerDoes(s, w, ReadyMove(s, w), t);
  }

  /** After cancellation a reachable state is at rest, with no step left for any worker, if and
      only if every worker has exited.  Worker steps lower a well-founded measure, so every run
      that keeps taking them gets there. */
  lemma {:induction false} RestIsExited(run: seq<State>)
    requires Run(run) && run[|run| - 1].cancelled
    ensures AtRest(run[|run| - 1]) <==> AllExited(run[|run| - 1])
  {
    var s := run[|run| - 1];
    RunInv(run, |run| - 1);
    if AllExited(s) {
      forall t ensures !WorkerActs(s, t) {
        if WorkerActs(s, t) {
          var w, m :| WorkerDoes(s, w, m, t);
          WorkerIndex(s, w, m, t);
          ExitedStays(s, w, m, t);
        }
      }
    } else {
      var t := SomeoneMoves(s);
    }
  }

  lemma {:induction false} WorkerIndex(s: State, w: nat, m: WorkerMove, t: State)
    requires WorkerDoes(s, w, m, t)
    ensures w < |s.workers|
  {
  }
}
