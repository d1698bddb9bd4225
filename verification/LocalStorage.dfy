/** The archive directory: files by name, and how names stand for jobs. */
module LocalStorage {
  import opened Model

  const TEMP_SUFFIX := ".zip.tmp"
  const FINAL_SUFFIX := ".zip"

  function TempName(id: JobId): string {
    id.text + TEMP_SUFFIX
  }

  function FinalName(id: JobId): string {
    id.text + FINAL_SUFFIX
  }

  /** `strings.HasSuffix`. */
  predicate HasSuffix(s: string, suffix: string) {
    |suffix| <= |s| && s[|s| - |suffix|..] == suffix
  }

  /** The job a file name belongs to, if any. */
  function ParseName(name: string): Option<JobId> {
    if HasSuffix(name, TEMP_SUFFIX) then Some(JobId(name[..|name| - |TEMP_SUFFIX|]))
    else if HasSuffix(name, FINAL_SUFFIX) then Some(JobId(name[..|name| - |FINAL_SUFFIX|]))
    else None
  }

  lemma {:induction false} SuffixExact(s: string, stem: string, suffix: string)
    ensures HasSuffix(s, suffix) && s[..|s| - |suffix|] == stem <==> s == stem + suffix
  {
    if s == stem + suffix {
      assert s[|s| - |suffix|..] == suffix && s[..|s| - |suffix|] == stem;
    }
    if HasSuffix(s, suffix) {
      assert s == s[..|s| - |suffix|] + s[|s| - |suffix|..];
    }
  }

  lemma {:induction false} NoBothSuffixes(s: string)
    ensures !(HasSuffix(s, TEMP_SUFFIX) && HasSuffix(s, FINAL_SUFFIX))
  {
    if HasSuffix(s, TEMP_SUFFIX) {
      assert s[|s| - 8..][5] == 't' && s[|s| - 4..][1] == s[|s| - 3];
    }
  }

  /** A name parses to a job exactly when it is one of the job's two names, for every ID. */
  lemma {:induction false} ParseExact(name: string, id: JobId)
    ensures ParseName(name) == Some(id) <==> name == TempName(id) || name == FinalName(id)
  {
    SuffixExact(name, id.text, TEMP_SUFFIX);
    SuffixExact(name, id.text, FINAL_SUFFIX);
    NoBothSuffixes(name);
  }

  /** Temp and final names never collide, and each belongs to one job only. */
  lemma {:induction false} NamesApart(a: JobId, b: JobId)
    ensures TempName(a) != FinalName(b)
    ensures TempName(a) == TempName(b) <==> a == b
    ensures FinalName(a) == FinalName(b) <==> a == b
  {
    SuffixExact(TempName(a), a.text, TEMP_SUFFIX);
    SuffixExact(TempName(b), b.text, TEMP_SUFFIX);
    SuffixExact(FinalName(a), a.text, FINAL_SUFFIX);
    SuffixExact(FinalName(b), b.text, FINAL_SUFFIX);
    NoBothSuffixes(TempName(a));
  }

  // ----- the directory as seen by job -----

  datatype Pair = Pair(temp: Option<Bytes>, final: Option<Bytes>)

  function Body(files: map<string, Bytes>, name: string): Option<Bytes> {
    if name in files then Some(files[name]) else None
  }

  /** A job's temp and final file. */
  function Seen(files: map<string, Bytes>, id: JobId): Pair {
    Pair(Body(files, TempName(id)), Body(files, FinalName(id)))
  }

  /** The jobs some file belongs to. */
  function JobsOf(files: map<string, Bytes>): set<JobId> {
    set n | n in files && ParseName(n).Some? :: ParseName(n).value
  }

  lemma {:induction false} JobsExact(files: map<string, Bytes>, id: JobId)
    ensures id in JobsOf(files) <==> TempName(id) in files || FinalName(id) in files
  {
    ParseExact(TempName(id), id);
    ParseExact(FinalName(id), id);
    if id in JobsOf(files) {
      var n :| n in files && ParseName(n) == Some(id);
      ParseExact(n, id);
    }
  }

  function Opened(files: map<string, Bytes>, id: JobId): map<string, Bytes> {
    files[TempName(id) := ""]
  }

  function Deleted(files: map<string, Bytes>, id: JobId): map<string, Bytes> {
    files - {TempName(id), FinalName(id)}
  }

  function Renamed(files: map<string, Bytes>, id: JobId): map<string, Bytes>
    requires TempName(id) in files
  {
    (files - {TempName(id)})[FinalName(id) := files[TempName(id)]]
  }

  /** An operation for one job is an operation on that job's two files and leaves every other
      job's alone. */
  lemma {:induction false} OperationsByJob(files: map<string, Bytes>, id: JobId, a: JobId)
    ensures Seen(Opened(files, id), a) == if a == id then Seen(files, id).(temp := Some("")) else Seen(files, a)
    ensures Seen(Deleted(files, id), a) == if a == id then Pair(None, None) else Seen(files, a)
    ensures TempName(id) in files ==>
              Seen(Renamed(files, id), a) == if a == id then Pair(None, Seen(files, id).temp) else Seen(files, a)
  {
    NamesApart(a, id);
    NamesApart(id, a);
  }

  // ----- the directory as an object -----

  /** A `fault` is any error of the call other than a missing file. */
  class ArchiveDir {
    var files: map<string, Bytes>

    constructor ()
      ensures files == map[]
    {
      files := map[];
    }

    /** Opens the temp file, truncating an old one. */
    method Create(id: JobId, fault: bool) returns (ok: bool)
      modifies this
      ensures ok == !fault
      ensures files == if ok then Opened(old(files), id) else old(files)
      ensures ok ==> files == old(files)[id.text + ".zip.tmp" := ""]
    {
      ok := !fault;
      if ok {
        files := files[TempName(id) := ""];
      }
    }

    method Open(id: JobId, fault: bool) returns (body: Option<Bytes>)
      ensures body == if fault then None else Seen(files, id).final
    {
      var name := FinalName(id);
      if !fault && name in files {
        return Some(files[name]);
      }
      return None;
    }

    /** Removes the temp file, then the final one; the first fault ends it. */
    method Delete(id: JobId, tempFault: bool, finalFault: bool) returns (ok: bool)
      modifies this
      ensures ok == (!tempFault && !finalFault)
      ensures files == if tempFault then old(files)
                       else if finalFault then old(files) - {TempName(id)}
                       else Deleted(old(files), id)
    {
      var names, faults := [TempName(id), FinalName(id)], [tempFault, finalFault];
      for i := 0 to 2
        invariant files == if i == 0 then old(files)
                           else if i == 1 then old(files) - {TempName(id)}
                           else Deleted(old(files), id)
        invariant i > 0 ==> !tempFault
        invariant i > 1 ==> !finalFault
      {
        if faults[i] {
          return false;
        }
        files := files - {names[i]};
      }
      return true;
    }

    method RenameTemp(id: JobId, fault: bool) returns (ok: bool)
      modifies this
      ensures ok <==> !fault && TempName(id) in old(files)
      ensures files == if ok then Renamed(old(files), id) else old(files)
      ensures ok ==>
                files == (old(files) - {id.text + ".zip.tmp"})
                         [id.text + ".zip" := old(files)[id.text + ".zip.tmp"]]
    {
      ok := !fault && TempName(id) in files;
      if ok {
        files := (files - {TempName(id)})[FinalName(id) := files[TempName(id)]];
      }
    }

    /** Every job with one of its two files here, once; other files are passed over. */
    method ListJobIds(fault: bool) returns (r: Option<seq<JobId>>)
      ensures r.None? <==> fault
      ensures r.Some? ==> forall id :: id in r.value <==> TempName(id) in files || FinalName(id) in files
      ensures r.Some? ==> forall i, j :: 0 <= i < j < |r.value| ==> r.value[i] != r.value[j]
    {
      if fault {
        return None;
      }
      var ids: seq<JobId> := [];
      var seen: set<JobId> := {};
      var todo := files.Keys;
      while todo != {}
        invariant todo <= files.Keys
        invariant forall id :: id in ids <==> id in seen
        invariant seen == set n | n in files && n !in todo && ParseName(n).Some? :: ParseName(n).value
        invariant forall i, j :: 0 <= i < j < |ids| ==> ids[i] != ids[j]
        decreases todo
      {
        var name :| name in todo;
        todo := todo - {name};
        var id := ParseName(name);
        if id.Some? && id.value !in seen {
          seen := seen + {id.value};
          ids := ids + [id.value];
        }
      }
      forall id ensures id in ids <==> TempName(id) in files || FinalName(id) in files {
        JobsExact(files, id);
      }
      return Some(ids);
    }
  }
}
