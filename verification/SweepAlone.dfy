/** The protocol's sweep, step by step, does what the sweep run alone does: the steps of one whole
    sweep that nothing interrupts and no call of which fails leave exactly the unexpired jobs. */
module SweepAlone {
  import opened Model
  import opened Protocol
  import Cleanup

  /** The jobs past their deadline. */
  function Past(s: State): set<JobId> {
    Cleanup.Removed(s.jobs, s.cfg.ttlFallback, s.now)
  }

  /** `t` is `s` without the records, tokens and names of these jobs, somewhere in a sweep. */
  predicate Cut(s: State, t: State, records: set<JobId>, tokens: set<JobId>, temp: set<JobId>, final: set<JobId>) {
    && t.jobs == s.jobs - records
    && t.tokens == Cleanup.TokensWithout(s.tokens, tokens)
    && t.disk == s.disk.(temp := s.disk.temp - temp, final := s.disk.final - final)
    && t == s.(jobs := t.jobs, tokens := t.tokens, disk := t.disk, sweep := t.sweep)
  }

  /** The sweep's view is that of `s`, and it has tracked the unexpired jobs among those done. */
  predicate Views(s: State, snap: map<JobId, JobRecord>, at: Time, todo: set<JobId>, tracked: set<JobId>) {
    snap == s.jobs && at == s.now && todo <= s.jobs.Keys && tracked == s.jobs.Keys - Past(s) - todo
  }

  /** The names to go when those of `keep` stay. */
  function Rest(names: map<JobId, nat>, keep: set<JobId>): set<JobId> {
    names.Keys - keep
  }

  /** How far a sweep that began at `s` has come at `t`. */
  predicate During(s: State, t: State) {
    match t.sweep
    case Resting => t == s
    case Listed(snap) => t == s.(sweep := Listed(s.jobs))
    case Scanning(snap, at, todo, tracked) =>
      var gone := Past(s) - todo;
      Views(s, snap, at, todo, tracked) && Cut(s, t, gone, gone, gone, gone)
    case Removing(snap, at, todo, tracked, target, stage) =>
      var gone := Past(s) - todo - {target};
      var more := gone + {target};
      && Views(s, snap, at, todo + {target}, tracked) && target in Past(s) && target !in todo
      && Cut(s, t, gone, if stage == Record then more else gone, if stage == TempFile then gone else more,
             if stage == TempFile || stage == FinalFile then gone else more)
    case Orphans(snap, at, tracked, ids) =>
      && Views(s, snap, at, {}, tracked)
      && Cut(s, t, Past(s), Past(s), Rest(s.disk.temp, tracked + ids), Rest(s.disk.final, tracked + ids))
    case Purging(snap, at, tracked, ids, target, stage) =>
      var keep := tracked + ids;
      && Views(s, snap, at, {}, tracked) && target !in keep && (stage == TempFile || stage == FinalFile)
      && Cut(s, t, Past(s), Past(s), Rest(s.disk.temp, if stage == TempFile then keep + {target} else keep),
             Rest(s.disk.final, keep + {target}))
  }

  // ----- every step -----

  lemma {:induction false} MinusTwice<K, V>(m: map<K, V>, a: set<K>, x: K)
    ensures m - a - {x} == m - (a + {x})
  {
  }

  lemma {:induction false} ClockCome(s: State, t: State, u: State)
    requires During(s, t) && ClockStep(t, u)
    ensures During(s, u)
  {
    assert Past(s) - s.jobs.Keys == {};
    assert s.jobs - {} == s.jobs && s.disk.temp - {} == s.disk.temp && s.disk.final - {} == s.disk.final;
    assert Cleanup.TokensWithout(s.tokens, {}) == s.tokens;
  }

  lemma {:induction false} TrackCome(s: State, t: State, id: JobId, u: State)
    requires During(s, t) && TrackStep(t, id, u)
    ensures During(s, u)
  {
    assert id !in Past(s);
    assert Past(s) - u.sweep.todo == Past(s) - t.sweep.todo;
  }

  lemma {:induction false} CondemnCome(s: State, t: State, id: JobId, u: State)
    requires During(s, t) && CondemnStep(t, id, u)
    ensures During(s, u)
  {
    assert u.sweep.todo + {id} == t.sweep.todo;
    assert Past(s) - u.sweep.todo - {id} == Past(s) - t.sweep.todo;
  }

  lemma {:induction false} RemoveTempCome(s: State, t: State, u: State)
    requires During(s, t) && RemoveTempStep(t, u)
    ensures During(s, u)
  {
    MinusTwice(s.disk.temp, Past(s) - t.sweep.todo - {t.sweep.target}, t.sweep.target);
  }

  lemma {:induction false} RemoveFinalCome(s: State, t: State, u: State)
    requires During(s, t) && RemoveFinalStep(t, u)
    ensures During(s, u)
  {
    MinusTwice(s.disk.final, Past(s) - t.sweep.todo - {t.sweep.target}, t.sweep.target);
  }

  lemma {:induction false} RevokeCome(s: State, t: State, u: State)
    requires During(s, t) && RevokeStep(t, u)
    ensures During(s, u)
  {
    Cleanup.OneMoreToken(s.tokens, Past(s) - t.sweep.todo - {t.sweep.target}, t.sweep.target);
  }

  lemma {:induction false} EraseCome(s: State, t: State, u: State)
    requires During(s, t) && EraseStep(t, u)
    ensures During(s, u)
  {
    var gone := Past(s) - t.sweep.todo - {t.sweep.target};
    MinusTwice(s.jobs, gone, t.sweep.target);
    assert gone + {t.sweep.target} == Past(s) - t.sweep.todo;
    assert s.jobs.Keys - Past(s) - (t.sweep.todo + {t.sweep.target}) == s.jobs.Keys - Past(s) - t.sweep.todo;
  }

  /** The names that are no longer there are those of the expired jobs. */
  lemma {:induction false} NamesLeft(names: map<JobId, nat>, gone: set<JobId>, tracked: set<JobId>, ids: set<JobId>)
    requires tracked !! gone && ids !! gone && (names - gone).Keys <= ids
    ensures names - Rest(names, tracked + ids) == names - gone
  {
    assert forall id :: id in names ==> (id in Rest(names, tracked + ids) <==> id in gone);
  }

  lemma {:induction false} ListFilesCome(s: State, t: State, u: State)
    requires During(s, t) && ListFilesStep(t, u)
    ensures During(s, u)
  {
    assert Past(s) - {} == Past(s);
    NamesLeft(s.disk.temp, Past(s), u.sweep.tracked, u.sweep.ids);
    NamesLeft(s.disk.final, Past(s), u.sweep.tracked, u.sweep.ids);
  }

  lemma {:induction false} SkipCome(s: State, t: State, id: JobId, u: State)
    requires During(s, t) && SkipStep(t, id, u)
    ensures During(s, u)
  {
    assert u.sweep.tracked + u.sweep.ids == t.sweep.tracked + t.sweep.ids;
  }

  lemma {:induction false} OrphanCome(s: State, t: State, id: JobId, u: State)
    requires During(s, t) && OrphanStep(t, id, u)
    ensures During(s, u)
  {
    assert u.sweep.tracked + u.sweep.ids + {id} == t.sweep.tracked + t.sweep.ids;
  }

  lemma {:induction false} OneNameLess(names: map<JobId, nat>, keep: set<JobId>, x: JobId)
    requires x !in keep
    ensures names - Rest(names, keep + {x}) - {x} == names - Rest(names, keep)
  {
  }

  lemma {:induction false} PurgeTempCome(s: State, t: State, u: State)
    requires During(s, t) && PurgeTempStep(t, u)
    ensures During(s, u)
  {
    OneNameLess(s.disk.temp, t.sweep.tracked + t.sweep.ids, t.sweep.target);
  }

  lemma {:induction false} PurgeFinalCome(s: State, t: State, u: State)
    requires During(s, t) && PurgeFinalStep(t, u)
    ensures During(s, u)
  {
    OneNameLess(s.disk.final, t.sweep.tracked + t.sweep.ids, t.sweep.target);
  }

  /** A call that failed: an unlink of a job's or an orphan's file, or the listing of the directory. */
  predicate Failing(t: State, m: SweepMove) {
    m.RemoveError? || m.PurgeError? || (m.Rest? && !t.sweep.Orphans?)
  }

  lemma {:induction false} StepCome(s: State, t: State, m: SweepMove, u: State)
    requires s.sweep == Resting && During(s, t) && SweepDoes(t, m, u) && !Failing(t, m) && !m.Rest?
    ensures During(s, u)
  {
    match m
    case List =>
    case ReadClock => ClockCome(s, t, u);
    case Track(id) => TrackCome(s, t, id, u);
    case Condemn(id) => CondemnCome(s, t, id, u);
    case RemoveTemp => RemoveTempCome(s, t, u);
    case RemoveFinal => RemoveFinalCome(s, t, u);
    case Revoke => RevokeCome(s, t, u);
    case Erase => EraseCome(s, t, u);
    case ListFiles => ListFilesCome(s, t, u);
    case Skip(id) => SkipCome(s, t, id, u);
    case Orphan(id) => OrphanCome(s, t, id, u);
    case PurgeTemp => PurgeTempCome(s, t, u);
    case PurgeFinal => PurgeFinalCome(s, t, u);
  }

  // ----- a whole sweep -----

  /** The states of one sweep, from its start to the state before it rests again. */
  ghost predicate Sweeping(states: seq<State>, moves: seq<SweepMove>) {
    && |states| == |moves| + 1 && states[0].sweep == Resting
    && forall i :: 0 <= i < |moves| ==> SweepsAt(states, moves, i)
  }

  predicate SweepsAt(states: seq<State>, moves: seq<SweepMove>, i: nat)
    requires i < |moves| < |states|
  {
    SweepDoes(states[i], moves[i], states[i + 1]) && !Failing(states[i], moves[i]) && !moves[i].Rest?
  }

  lemma {:induction false} ComeSoFar(states: seq<State>, moves: seq<SweepMove>, k: nat)
    requires Sweeping(states, moves) && k < |states|
    ensures During(states[0], states[k])
  {
    if k > 0 {
      ComeSoFar(states, moves, k - 1);
      assert SweepsAt(states, moves, k - 1);
      StepCome(states[0], states[k - 1], moves[k - 1], states[k]);
    }
  }

  /** What one whole sweep makes of `s`. */
  ghost predicate Done(s: State, t: State) {
    && (forall id :: id in t.jobs <==>
          && id in s.jobs
          && match s.jobs[id].expiresAt
             case Some(x) => s.now <= x
             case None => s.now <= s.jobs[id].createdAt + s.cfg.ttlFallback)
    && (forall id :: id in t.jobs ==> t.jobs[id] == s.jobs[id])
    && (forall tok :: tok in t.tokens <==>
          tok in s.tokens && (s.tokens[tok].jobId in s.jobs ==> s.tokens[tok].jobId in t.jobs))
    && (forall tok :: tok in t.tokens ==> t.tokens[tok] == s.tokens[tok])
    && (forall id :: id in t.disk.temp <==> id in s.disk.temp && id in t.jobs)
    && (forall id :: id in t.disk.temp ==> t.disk.temp[id] == s.disk.temp[id])
    && (forall id :: id in t.disk.final <==> id in s.disk.final && id in t.jobs)
    && (forall id :: id in t.disk.final ==> t.disk.final[id] == s.disk.final[id])
    && t == s.(jobs := t.jobs, tokens := t.tokens, disk := s.disk.(temp := t.disk.temp, final := t.disk.final))
  }

  /** A sweep that nothing interrupts and no call of which fails leaves exactly the unexpired jobs
      with their files, takes the tokens of the others, and changes nothing else: the same as the
      sweep run alone over store, tokens and directory. */
  lemma {:induction false} SweepDone(states: seq<State>, moves: seq<SweepMove>, t: State)
    requires Sweeping(states, moves)
    requires var last := states[|moves|]; last.sweep.Orphans? && RestStep(last, t)
    ensures Done(states[0], t)
    ensures var s := states[0];
            var alone := Cleanup.Swept(Cleanup.Shelf(s.jobs, s.tokens, map[]), s.cfg.ttlFallback, s.now);
            t.jobs == alone.contents && t.tokens == alone.tokens
  {
    var s, last := states[0], states[|moves|];
    ComeSoFar(states, moves, |moves|);
    var tracked := last.sweep.tracked;
    assert tracked + {} == tracked && s.jobs.Keys - Past(s) - {} == tracked;
    Cleanup.KeptExactly(s.jobs, s.cfg.ttlFallback, s.now);
    assert s.jobs - Past(s) == Cleanup.Kept(s.jobs, s.cfg.ttlFallback, s.now);
    assert t.jobs.Keys == tracked;
  }

  // ----- a sweep gets there -----

  /** How much a sweep still has to do: the loop it is in, the jobs that loop has left, and the calls
      left for the job at hand. */
  function Phase(x: Sweep): nat {
    match x
    case Resting => 4
    case Listed(_) => 3
    case Scanning(_, _, _, _) => 2
    case Removing(_, _, _, _, _, _) => 2
    case Orphans(_, _, _, _) => 1
    case Purging(_, _, _, _, _, _) => 1
  }

  function Items(x: Sweep): nat {
    if x.Scanning? || x.Removing? then |x.todo| else if x.Orphans? || x.Purging? then |x.ids| else 0
  }

  function Calls(x: Sweep): nat {
    if x.Removing? || x.Purging?
    then match x.stage case TempFile => 4 case FinalFile => 3 case Tokens => 2 case Record => 1
    else 0
  }

  predicate Lower(x: Sweep, y: Sweep) {
    || Phase(x) < Phase(y)
    || (Phase(x) == Phase(y) && Items(x) < Items(y))
    || (Phase(x) == Phase(y) && Items(x) == Items(y) && Calls(x) < Calls(y))
  }

  lemma {:induction false} OneLess(a: set<JobId>, id: JobId)
    requires id in a
    ensures |a - {id}| < |a|
  {
  }

  // the step that comes next

  lemma {:induction false} CanTrack(t: State, id: JobId) returns (u: State)
    requires t.sweep.Scanning? && id in t.sweep.todo && id in t.sweep.snap && !ExpiredHere(t, id)
    ensures SweepDoes(t, Track(id), u) && Lower(u.sweep, t.sweep)
  {
    var x := t.sweep;
    OneLess(x.todo, id);
    u := t.(sweep := Scanning(x.snap, x.at, x.todo - {id}, x.tracked + {id}));
  }

  lemma {:induction false} CanCondemn(t: State, id: JobId) returns (u: State)
    requires t.sweep.Scanning? && id in t.sweep.todo && id in t.sweep.snap && ExpiredHere(t, id)
    ensures SweepDoes(t, Condemn(id), u) && Lower(u.sweep, t.sweep)
  {
    var x := t.sweep;
    OneLess(x.todo, id);
    u := t.(sweep := Removing(x.snap, x.at, x.todo - {id}, x.tracked, id, TempFile));
  }

  lemma {:induction false} CanListFiles(t: State) returns (u: State)
    requires t.sweep.Scanning? && t.sweep.todo == {}
    ensures SweepDoes(t, ListFiles, u) && Lower(u.sweep, t.sweep)
  {
    var x := t.sweep;
    u := t.(sweep := Orphans(x.snap, x.at, x.tracked, t.disk.temp.Keys + t.disk.final.Keys));
  }

  lemma {:induction false} CanRemoveTemp(t: State) returns (u: State)
    requires t.sweep.Removing? && t.sweep.stage == TempFile
    ensures SweepDoes(t, RemoveTemp, u) && Lower(u.sweep, t.sweep)
  {
    var x := t.sweep;
    u := t.(disk := t.disk.(temp := t.disk.temp - {x.target}), sweep := AtStage(x, FinalFile));
  }

  lemma {:induction false} CanRemoveFinal(t: State) returns (u: State)
    requires t.sweep.Removing? && t.sweep.stage == FinalFile
    ensures SweepDoes(t, RemoveFinal, u) && Lower(u.sweep, t.sweep)
  {
    var x := t.sweep;
    u := t.(disk := t.disk.(final := t.disk.final - {x.target}), sweep := AtStage(x, Tokens));
  }

  lemma {:induction false} CanRevoke(t: State) returns (u: State)
    requires t.sweep.Removing? && t.sweep.stage == Tokens
    ensures SweepDoes(t, Revoke, u) && Lower(u.sweep, t.sweep)
  {
    var x := t.sweep;
    u := t.(tokens := Revoked(t.tokens, x.target), sweep := AtStage(x, Record));
  }

  lemma {:induction false} CanErase(t: State) returns (u: State)
    requires t.sweep.Removing? && t.sweep.stage == Record
    ensures SweepDoes(t, Erase, u) && Lower(u.sweep, t.sweep)
  {
    var x := t.sweep;
    u := t.(jobs := t.jobs - {x.target}, sweep := Scanning(x.snap, x.at, x.todo, x.tracked));
  }

  lemma {:induction false} CanSkip(t: State, id: JobId) returns (u: State)
    requires t.sweep.Orphans? && id in t.sweep.ids && id in t.sweep.tracked
    ensures SweepDoes(t, Skip(id), u) && Lower(u.sweep, t.sweep)
  {
    var x := t.sweep;
    OneLess(x.ids, id);
    u := t.(sweep := Orphans(x.snap, x.at, x.tracked, x.ids - {id}));
  }

  lemma {:induction false} CanOrphan(t: State, id: JobId) returns (u: State)
    requires t.sweep.Orphans? && id in t.sweep.ids && id !in t.sweep.tracked
    ensures SweepDoes(t, Orphan(id), u) && Lower(u.sweep, t.sweep)
  {
    var x := t.sweep;
    OneLess(x.ids, id);
    u := t.(sweep := Purging(x.snap, x.at, x.tracked, x.ids - {id}, id, TempFile));
  }

  lemma {:induction false} CanPurgeTemp(t: State) returns (u: State)
    requires t.sweep.Purging? && t.sweep.stage == TempFile
    ensures SweepDoes(t, PurgeTemp, u) && Lower(u.sweep, t.sweep)
  {
    var x := t.sweep;
    u := t.(disk := t.disk.(temp := t.disk.temp - {x.target}),
            sweep := Purging(x.snap, x.at, x.tracked, x.ids, x.target, FinalFile));
  }

  lemma {:induction false} CanPurgeFinal(t: State) returns (u: State)
    requires t.sweep.Purging? && t.sweep.stage == FinalFile
    ensures SweepDoes(t, PurgeFinal, u) && Lower(u.sweep, t.sweep)
  {
    var x := t.sweep;
    u := t.(disk := t.disk.(final := t.disk.final - {x.target}), sweep := Orphans(x.snap, x.at, x.tracked, x.ids));
  }

  lemma {:induction false} ScanMoves(t: State) returns (m: SweepMove, u: State)
    requires t.sweep.Scanning? && t.sweep.todo <= t.sweep.snap.Keys
    ensures SweepDoes(t, m, u) && !Failing(t, m) && !m.Rest? && Lower(u.sweep, t.sweep)
  {
    if t.sweep.todo == {} {
      m := ListFiles;
      u := CanListFiles(t);
    } else {
      var id :| id in t.sweep.todo;
      if ExpiredHere(t, id) {
        m := Condemn(id);
        u := CanCondemn(t, id);
      } else {
        m := Track(id);
        u := CanTrack(t, id);
      }
    }
  }

  lemma {:induction false} RemovalMoves(t: State) returns (m: SweepMove, u: State)
    requires t.sweep.Removing?
    ensures SweepDoes(t, m, u) && !Failing(t, m) && !m.Rest? && Lower(u.sweep, t.sweep)
  {
    match t.sweep.stage {
      case TempFile => m := RemoveTemp; u := CanRemoveTemp(t);
      case FinalFile => m := RemoveFinal; u := CanRemoveFinal(t);
      case Tokens => m := Revoke; u := CanRevoke(t);
      case Record => m := Erase; u := CanErase(t);
    }
  }

  lemma {:induction false} PurgeMoves(t: State) returns (m: SweepMove, u: State)
    requires (t.sweep.Orphans? && t.sweep.ids != {}) || t.sweep.Purging?
    requires t.sweep.Purging? ==> t.sweep.stage == TempFile || t.sweep.stage == FinalFile
    ensures SweepDoes(t, m, u) && !Failing(t, m) && !m.Rest? && Lower(u.sweep, t.sweep)
  {
    if t.sweep.Orphans? {
      var id :| id in t.sweep.ids;
      if id in t.sweep.tracked {
        m := Skip(id);
        u := CanSkip(t, id);
      } else {
        m := Orphan(id);
        u := CanOrphan(t, id);
      }
    } else if t.sweep.stage == TempFile {
      m := PurgeTemp;
      u := CanPurgeTemp(t);
    } else {
      m := PurgeFinal;
      u := CanPurgeFinal(t);
    }
  }

  lemma {:induction false} SweepMoves(s: State, t: State) returns (m: SweepMove, u: State)
    requires s.sweep == Resting && During(s, t) && !(t.sweep.Orphans? && t.sweep.ids == {})
    ensures SweepDoes(t, m, u) && !Failing(t, m) && !m.Rest? && Lower(u.sweep, t.sweep)
  {
    match t.sweep {
      case Resting =>
        m := List;
        u := t.(sweep := Listed(t.jobs));
      case Listed(snap) =>
        m := ReadClock;
        u := t.(sweep := Scanning(snap, t.now, snap.Keys, {}));
      case Scanning(_, _, _, _) => m, u := ScanMoves(t);
      case Removing(_, _, _, _, _, _) => m, u := RemovalMoves(t);
      case Orphans(_, _, _, _) => m, u := PurgeMoves(t);
      case Purging(_, _, _, _, _, _) => m, u := PurgeMoves(t);
    }
  }

  lemma {:induction false} OneMoreMove(states: seq<State>, moves: seq<SweepMove>, m: SweepMove, u: State)
    requires Sweeping(states, moves)
    requires SweepDoes(states[|moves|], m, u) && !Failing(states[|moves|], m) && !m.Rest?
    ensures Sweeping(states + [u], moves + [m])
  {
    forall i | 0 <= i < |moves + [m]| ensures SweepsAt(states + [u], moves + [m], i) {
      assert i < |moves| ==> SweepsAt(states, moves, i);
    }
  }

  lemma {:induction false} FinishFrom(states: seq<State>, moves: seq<SweepMove>)
      returns (all: seq<State>, made: seq<SweepMove>)
    requires Sweeping(states, moves)
    ensures Sweeping(all, made) && all[0] == states[0]
    ensures all[|made|].sweep.Orphans? && all[|made|].sweep.ids == {}
    decreases Phase(states[|moves|].sweep), Items(states[|moves|].sweep), Calls(states[|moves|].sweep)
  {
    var last := states[|moves|];
    if last.sweep.Orphans? && last.sweep.ids == {} {
      all, made := states, moves;
    } else {
      ComeSoFar(states, moves, |moves|);
      var m, u := SweepMoves(states[0], last);
      OneMoreMove(states, moves, m, u);
      assert (states + [u])[|moves + [m]|] == u;
      all, made := FinishFrom(states + [u], moves + [m]);
    }
  }

  /** From every state in which it rests, a sweep can run to its end without a failure. */
  lemma {:induction false} SweepEnds(s: State) returns (states: seq<State>, moves: seq<SweepMove>, t: State)
    requires s.sweep == Resting
    ensures Sweeping(states, moves) && states[0] == s
    ensures var last := states[|moves|]; last.sweep.Orphans? && RestStep(last, t)
    ensures Done(s, t)
  {
    states, moves := FinishFrom([s], []);
    var last := states[|moves|];
    t := last.(sweep := Resting);
    SweepDone(states, moves, t);
  }
}
