/** The cleanup sweep running alone, over the store, the tokens and the directory. */
module Cleanup {
  import opened Model
  import opened JobStore
  import opened Tokens
  import opened LocalStorage

  /** The jobs a sweep at `now` keeps. */
  function Kept(contents: map<JobId, JobRecord>, ttlFallback: nat, now: Time): map<JobId, JobRecord> {
    map id | id in contents && !IsExpired(contents[id], ttlFallback, now) :: contents[id]
  }

  /** The jobs it removes. */
  function Removed(contents: map<JobId, JobRecord>, ttlFallback: nat, now: Time): set<JobId> {
    set id | id in contents && IsExpired(contents[id], ttlFallback, now)
  }

  /** The table without the tokens of these jobs. */
  function TokensWithout(tokens: map<Token, TokenEntry>, gone: set<JobId>): map<Token, TokenEntry> {
    map tok | tok in tokens && tokens[tok].jobId !in gone :: tokens[tok]
  }

  /** The directory without the files of these jobs. */
  function FilesWithout(files: map<string, Bytes>, gone: set<JobId>): map<string, Bytes> {
    map name | name in files && !Owned(name, gone) :: files[name]
  }

  predicate Owned(name: string, ids: set<JobId>) {
    ParseName(name).Some? && ParseName(name).value in ids
  }

  /** The files of these jobs, and the files of no job at all. */
  function FilesOfOnly(files: map<string, Bytes>, ids: set<JobId>): map<string, Bytes> {
    map name | name in files && (ParseName(name).None? || ParseName(name).value in ids) :: files[name]
  }

  lemma {:induction false} OneMoreToken(tokens: map<Token, TokenEntry>, gone: set<JobId>, id: JobId)
    ensures TokensWithout(tokens, gone + {id}) == Revoked(TokensWithout(tokens, gone), id)
  {
  }

  lemma {:induction false} OneMoreFile(files: map<string, Bytes>, gone: set<JobId>, id: JobId)
    ensures FilesWithout(files, gone + {id}) == Deleted(FilesWithout(files, gone), id)
  {
    forall name | name in files
      ensures Owned(name, gone + {id}) <==> Owned(name, gone) || name == TempName(id) || name == FinalName(id)
    {
      ParseExact(name, id);
    }
  }

  /** The three objects stand for these three values. */
  datatype Shelf = Shelf(contents: map<JobId, JobRecord>, tokens: map<Token, TokenEntry>, files: map<string, Bytes>)

  ghost predicate Stands(store: MemoryStore, tokens: TokenService, dir: ArchiveDir, v: Shelf)
    reads store, store.repr, tokens, dir
  {
    && store.Valid() && {dir, tokens} !! store.repr
    && store.Contents() == v.contents && tokens.tokens == v.tokens && dir.files == v.files
  }

  function WithoutJob(v: Shelf, id: JobId): Shelf {
    Shelf(v.contents - {id}, Revoked(v.tokens, id), Deleted(v.files, id))
  }

  /** `removeJob`: files, then tokens, then the record. */
  method RemoveJob(store: MemoryStore, tokens: TokenService, dir: ArchiveDir, id: JobId, ghost v: Shelf)
    requires Stands(store, tokens, dir, v)
    modifies store, tokens, dir
    ensures Stands(store, tokens, dir, WithoutJob(v, id)) && store.repr == old(store.repr)
  {
    var ok := dir.Delete(id, false, false);
    assert Stands(store, tokens, dir, v.(files := Deleted(v.files, id)));
    tokens.Revoke(id);
    assert Stands(store, tokens, dir, v.(files := Deleted(v.files, id), tokens := Revoked(v.tokens, id)));
    store.Delete(id);
  }

  /** The values without these jobs. */
  function WithoutJobs(v: Shelf, gone: set<JobId>): Shelf {
    Shelf(v.contents - gone, TokensWithout(v.tokens, gone), FilesWithout(v.files, gone))
  }

  lemma {:induction false} OneMoreJob(v: Shelf, gone: set<JobId>, id: JobId)
    ensures WithoutJobs(v, gone + {id}) == WithoutJob(WithoutJobs(v, gone), id)
  {
    OneMoreToken(v.tokens, gone, id);
    OneMoreFile(v.files, gone, id);
    assert v.contents - (gone + {id}) == v.contents - gone - {id};
  }

  lemma {:induction false} NoJobs(v: Shelf)
    ensures WithoutJobs(v, {}) == v
  {
    assert v.contents - {} == v.contents;
  }

  /** One turn of the first loop. */
  method Visit(store: MemoryStore, tokens: TokenService, dir: ArchiveDir, j: Job, ttlFallback: nat, now: Time,
               ghost v: Shelf, ghost gone: set<JobId>)
      returns (kept: bool)
    requires Stands(store, tokens, dir, WithoutJobs(v, gone))
    modifies store, tokens, dir
    ensures kept == !IsExpired(old(j.Value()), ttlFallback, now)
    ensures Stands(store, tokens, dir, WithoutJobs(v, if kept then gone else gone + {old(j.id)}))
  {
    kept := !IsExpired(j.Value(), ttlFallback, now);
    if !kept {
      OneMoreJob(v, gone, j.id);
      RemoveJob(store, tokens, dir, j.id, WithoutJobs(v, gone));
    }
  }

  /** The jobs among the listed that are removed, and those that are tracked. */
  function RemovedOf(values: seq<JobRecord>, ttlFallback: nat, now: Time): set<JobId> {
    if values == [] then {}
    else
      var v := values[|values| - 1];
      RemovedOf(values[..|values| - 1], ttlFallback, now) + if IsExpired(v, ttlFallback, now) then {v.id} else {}
  }

  function TrackedOf(values: seq<JobRecord>, ttlFallback: nat, now: Time): set<JobId> {
    if values == [] then {}
    else
      var v := values[|values| - 1];
      TrackedOf(values[..|values| - 1], ttlFallback, now) + if IsExpired(v, ttlFallback, now) then {} else {v.id}
  }

  lemma {:induction false} OneMore(values: seq<JobRecord>, i: nat, ttlFallback: nat, now: Time)
    requires i < |values|
    ensures var v := values[i];
            if IsExpired(v, ttlFallback, now) then
              && RemovedOf(values[..i + 1], ttlFallback, now) == RemovedOf(values[..i], ttlFallback, now) + {v.id}
              && TrackedOf(values[..i + 1], ttlFallback, now) == TrackedOf(values[..i], ttlFallback, now)
            else
              && RemovedOf(values[..i + 1], ttlFallback, now) == RemovedOf(values[..i], ttlFallback, now)
              && TrackedOf(values[..i + 1], ttlFallback, now) == TrackedOf(values[..i], ttlFallback, now) + {v.id}
  {
    assert values[..i + 1][..i] == values[..i];
  }

  lemma {:induction false} OfComplete(values: seq<JobRecord>, ttlFallback: nat, now: Time, i: nat)
    requires i < |values|
    ensures if IsExpired(values[i], ttlFallback, now) then values[i].id in RemovedOf(values, ttlFallback, now)
            else values[i].id in TrackedOf(values, ttlFallback, now)
  {
    if i < |values| - 1 {
      OfComplete(values[..|values| - 1], ttlFallback, now, i);
    }
  }

  lemma {:induction false} RemovedSource(values: seq<JobRecord>, ttlFallback: nat, now: Time, id: JobId)
      returns (i: nat)
    requires id in RemovedOf(values, ttlFallback, now)
    ensures i < |values| && values[i].id == id && IsExpired(values[i], ttlFallback, now)
  {
    i := |values| - 1;
    if values[i].id != id || !IsExpired(values[i], ttlFallback, now) {
      i := RemovedSource(values[..i], ttlFallback, now, id);
    }
  }

  lemma {:induction false} TrackedSource(values: seq<JobRecord>, ttlFallback: nat, now: Time, id: JobId)
      returns (i: nat)
    requires id in TrackedOf(values, ttlFallback, now)
    ensures i < |values| && values[i].id == id && !IsExpired(values[i], ttlFallback, now)
  {
    i := |values| - 1;
    if values[i].id != id || IsExpired(values[i], ttlFallback, now) {
      i := TrackedSource(values[..i], ttlFallback, now, id);
    }
  }

  lemma {:induction false} AllSeen(values: seq<JobRecord>, contents: map<JobId, JobRecord>, ttlFallback: nat, now: Time)
    requires IsListing(values, contents)
    ensures RemovedOf(values, ttlFallback, now) == Removed(contents, ttlFallback, now)
    ensures TrackedOf(values, ttlFallback, now) == contents.Keys - Removed(contents, ttlFallback, now)
  {
    forall id | id in contents
      ensures if IsExpired(contents[id], ttlFallback, now) then id in RemovedOf(values, ttlFallback, now)
              else id in TrackedOf(values, ttlFallback, now)
    {
      var i :| 0 <= i < |values| && values[i] == contents[id];
      OfComplete(values, ttlFallback, now, i);
    }
    forall id | id in RemovedOf(values, ttlFallback, now) ensures id in Removed(contents, ttlFallback, now) {
      var i := RemovedSource(values, ttlFallback, now, id);
    }
    forall id | id in TrackedOf(values, ttlFallback, now)
      ensures id in contents && id !in Removed(contents, ttlFallback, now)
    {
      var i := TrackedSource(values, ttlFallback, now, id);
    }
  }

  /** The first loop: every listed job is removed or tracked. */
  method VisitAll(store: MemoryStore, tokens: TokenService, dir: ArchiveDir, jobs: seq<Job>, ttlFallback: nat,
                  now: Time, ghost v: Shelf, ghost values: seq<JobRecord>)
      returns (tracked: set<JobId>)
    requires Stands(store, tokens, dir, v) && Hold(jobs, values)
    modifies store, tokens, dir
    ensures tracked == TrackedOf(values, ttlFallback, now)
    ensures Stands(store, tokens, dir, WithoutJobs(v, RemovedOf(values, ttlFallback, now)))
  {
    tracked := {};
    NoJobs(v);
    ghost var gone: set<JobId> := {};
    for i := 0 to |jobs|
      invariant Hold(jobs, values)
      invariant gone == RemovedOf(values[..i], ttlFallback, now) && tracked == TrackedOf(values[..i], ttlFallback, now)
      invariant Stands(store, tokens, dir, WithoutJobs(v, gone))
    {
      var j, id := jobs[i], jobs[i].id;
      assert j.Value() == values[i];
      OneMore(values, i, ttlFallback, now);
      var kept := Visit(store, tokens, dir, j, ttlFallback, now, v, gone);
      if kept {
        tracked := tracked + {id};
      } else {
        gone := gone + {id};
      }
    }
    assert values[..|jobs|] == values;
  }

  // ----- the second loop and the whole sweep -----

  /** What a sweep leaves: the unexpired jobs, the tokens of jobs it did not remove, and the
      files whose names belong to an unexpired job or to no job at all. */
  function Swept(v: Shelf, ttlFallback: nat, now: Time): Shelf {
    var kept := Kept(v.contents, ttlFallback, now);
    Shelf(kept, TokensWithout(v.tokens, Removed(v.contents, ttlFallback, now)), FilesOfOnly(v.files, kept.Keys))
  }

  /** The second loop: the files of jobs that are not tracked go. */
  method PurgeOrphans(dir: ArchiveDir, tracked: set<JobId>)
    modifies dir
    ensures dir.files == FilesOfOnly(old(dir.files), tracked)
  {
    ghost var files := dir.files;
    var found := dir.ListJobIds(false);
    var ids := found.value;
    forall id ensures id in ids <==> id in JobsOf(files) {
      JobsExact(files, id);
    }
    ghost var gone: set<JobId> := {};
    assert FilesWithout(files, {}) == files;
    for i := 0 to |ids|
      invariant gone == (set id | id in ids[..i] && id !in tracked)
      invariant dir.files == FilesWithout(files, gone)
    {
      assert ids[..i + 1] == ids[..i] + [ids[i]];
      if ids[i] !in tracked {
        OneMoreFile(files, gone, ids[i]);
        var ok := dir.Delete(ids[i], false, false);
        gone := gone + {ids[i]};
      }
    }
    OrphansGone(files, ids, tracked);
    assert ids[..|ids|] == ids;
  }

  method PurgeTracked(store: MemoryStore, tokens: TokenService, dir: ArchiveDir, tracked: set<JobId>, ghost v: Shelf)
    requires Stands(store, tokens, dir, v)
    modifies dir
    ensures Stands(store, tokens, dir, v.(files := FilesOfOnly(v.files, tracked)))
  {
    PurgeOrphans(dir, tracked);
  }

  lemma {:induction false} OrphansGone(files: map<string, Bytes>, ids: seq<JobId>, tracked: set<JobId>)
    requires forall id :: id in ids <==> id in JobsOf(files)
    ensures FilesWithout(files, set id | id in ids && id !in tracked) == FilesOfOnly(files, tracked)
  {
    var gone := set id | id in ids && id !in tracked;
    forall name | name in files
      ensures Owned(name, gone) <==> !(ParseName(name).None? || ParseName(name).value in tracked)
    {
      if ParseName(name).Some? {
        assert ParseName(name).value in JobsOf(files);
      }
    }
  }

  lemma {:induction false} SweptParts(v: Shelf, ttlFallback: nat, now: Time)
    ensures var gone := Removed(v.contents, ttlFallback, now);
            var tracked := v.contents.Keys - gone;
            var w := WithoutJobs(v, gone);
            w.(files := FilesOfOnly(w.files, tracked)) == Swept(v, ttlFallback, now)
  {
    var gone := Removed(v.contents, ttlFallback, now);
    assert v.contents.Keys - gone == Kept(v.contents, ttlFallback, now).Keys;
    assert v.contents - gone == Kept(v.contents, ttlFallback, now);
  }

  /** What a sweep leaves, said job by job: a job stays, unchanged, exactly while its recorded
      expiry, or its creation plus the fallback if it has none, is not past; a token stays unless
      its job was stored and went; a file stays if its job stays or if it is no job's. */
  lemma {:induction false} SweptExactly(v: Shelf, ttlFallback: nat, now: Time, id: JobId, tok: Token, name: string)
    ensures var w := Swept(v, ttlFallback, now);
            && (id in w.contents <==>
                  && id in v.contents
                  && (v.contents[id].expiresAt.Some? ==> now <= v.contents[id].expiresAt.value)
                  && (v.contents[id].expiresAt.None? ==> now <= v.contents[id].createdAt + ttlFallback))
            && (id in w.contents ==> w.contents[id] == v.contents[id])
            && (tok in w.tokens <==>
                  tok in v.tokens && (v.tokens[tok].jobId in v.contents ==> v.tokens[tok].jobId in w.contents))
            && (tok in w.tokens ==> w.tokens[tok] == v.tokens[tok])
            && (name == id.text + ".zip" || name == id.text + ".zip.tmp" ==>
                  (name in w.files <==> name in v.files && id in w.contents))
            && ((forall x: JobId :: name != x.text + ".zip" && name != x.text + ".zip.tmp") ==>
                  (name in w.files <==> name in v.files))
            && (name in w.files ==> w.files[name] == v.files[name])
  {
    ParseExact(name, id);
    if ParseName(name).Some? {
      ParseExact(name, ParseName(name).value);
    }
  }

  /** `sweep`, run alone and without failures. */
  method Sweep(store: MemoryStore, tokens: TokenService, dir: ArchiveDir, ttlFallback: nat, now: Time, ghost v: Shelf)
    requires Stands(store, tokens, dir, v)
    modifies store, tokens, dir
    ensures Stands(store, tokens, dir, Swept(v, ttlFallback, now))
    ensures forall id :: id in store.Contents() <==>
              && id in old(store.Contents())
              && match old(store.Contents())[id].expiresAt
                 case Some(t) => now <= t
                 case None => now <= old(store.Contents())[id].createdAt + ttlFallback
  {
    var jobs, values := store.List();
    assert Stands(store, tokens, dir, v);
    AllSeen(values, v.contents, ttlFallback, now);
    SweptParts(v, ttlFallback, now);
    var tracked := VisitAll(store, tokens, dir, jobs, ttlFallback, now, v, values);
    PurgeTracked(store, tokens, dir, tracked, WithoutJobs(v, Removed(v.contents, ttlFallback, now)));
    KeptExactly(v.contents, ttlFallback, now);
  }

  lemma {:induction false} KeptExactly(contents: map<JobId, JobRecord>, ttlFallback: nat, now: Time)
    ensures forall id :: id in Kept(contents, ttlFallback, now) <==>
              && id in contents
              && match contents[id].expiresAt
                 case Some(t) => now <= t
                 case None => now <= contents[id].createdAt + ttlFallback
  {
  }

  /** Sweeping again at the same time, or having swept earlier, changes nothing: a sweep later
      on sees exactly what it would have seen without the earlier one. */
  lemma {:induction false} SweepsCompose(v: Shelf, ttlFallback: nat, earlier: Time, later: Time)
    requires earlier <= later
    ensures var both := Swept(Swept(v, ttlFallback, earlier), ttlFallback, later);
            var one := Swept(v, ttlFallback, later);
            both.contents == one.contents && both.tokens == one.tokens && both.files == one.files
  {
    var once := Swept(v, ttlFallback, earlier);
    forall id | id in v.contents && IsExpired(v.contents[id], ttlFallback, earlier)
      ensures IsExpired(v.contents[id], ttlFallback, later)
    {
    }
    assert Kept(once.contents, ttlFallback, later) == Kept(v.contents, ttlFallback, later);
  }
}
