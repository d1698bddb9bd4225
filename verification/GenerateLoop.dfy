/** The archive writer as an object, and `Generate` as the loops over it. */
module GenerateLoop {
  import opened Model
  import opened Generator
  import S = Sanitize
  import Paths

  class ArchiveWriter {
    const format: ExportType
    var entries: seq<Entry>
    var owed: nat
    var calls: nat
    var closed: bool

    function State(): Writer
      reads this
    {
      Writer(format, entries, owed, calls, closed)
    }

    constructor (format: ExportType)
      ensures State() == NewWriter(format)
    {
      this.format := format;
      entries, owed, calls, closed := [], 0, 0, false;
    }

    method CreateFile(world: World, path: string, size: nat) returns (ok: bool)
      modifies this
      ensures (State(), ok) == FileCreated(old(State()), world, path, size)
    {
      ok := !world.faulty(calls) && owed == 0;
      calls := calls + 1;
      if ok {
        entries := entries + [FileEntry(path, "")];
        owed := if format == Tar then size else 0;
      }
    }

    method Write(world: World, chunk: Bytes) returns (ok: bool)
      modifies this
      ensures (State(), ok) == Written(old(State()), world, chunk)
    {
      ok := !world.faulty(calls);
      calls := calls + 1;
      if ok {
        if format == Tar && |chunk| > owed {
          entries := WithMore(entries, chunk[..owed]);
          owed := 0;
          ok := false;
        } else {
          entries := WithMore(entries, chunk);
          owed := if format == Tar then owed - |chunk| else 0;
        }
      }
    }

    method CreateDir(world: World, path: string) returns (ok: bool)
      modifies this
      ensures (State(), ok) == DirCreated(old(State()), world, path)
    {
      ok := !world.faulty(calls) && owed == 0;
      calls := calls + 1;
      if ok {
        entries := entries + [DirEntry(path)];
      }
    }

    method Close(world: World) returns (ok: bool)
      modifies this
      ensures (State(), ok) == Finished(old(State()), world)
    {
      ok := !world.faulty(calls) && owed == 0;
      calls := calls + 1;
      if ok {
        closed := true;
      }
    }
  }

  method CopyBuffer(aw: ArchiveWriter, world: World, data: Bytes) returns (ok: bool)
    modifies aw
    ensures (aw.State(), ok) == Copied(old(aw.State()), world, data)
  {
    var rest := data;
    while rest != ""
      invariant Copied(aw.State(), world, rest) == Copied(old(aw.State()), world, data)
      decreases |rest|
    {
      var n := ReadSize(world, aw.calls, |rest|);
      var fine := aw.Write(world, rest[..n]);
      if !fine {
        return false;
      }
      rest := rest[n..];
    }
    return true;
  }

  /** `out` describes a run that ended in `failure` with this writer, counter and callbacks. */
  ghost predicate Describes(out: Outcome, failure: Option<Failure>, writer: Writer, processed: nat,
      reports: seq<(nat, nat)>) {
    out == match failure
           case None => Finish(Progress(writer, processed, reports))
           case Some(why) => Stop(why, Progress(writer, processed, reports))
  }

  method WriteFile(aw: ArchiveWriter, world: World, max: nat, path: string, f: ArchiveFile, processed: nat,
      ghost reports: seq<(nat, nat)>)
      returns (failure: Option<Failure>, counted: nat)
    modifies aw
    ensures Describes(FileWritten(world, max, path, f, Progress(old(aw.State()), processed, reports)),
                      failure, aw.State(), counted, reports)
  {
    counted := processed;
    var fetched := world.fetch(f);
    if fetched.Unreachable? {
      return Some(FetchFailed), counted;
    }
    var ok := aw.CreateFile(world, path, f.size);
    if !ok {
      return Some(WriterFailed), counted;
    }
    var allowance := Wrap64(max - processed + 1);
    var data := Through(fetched.bytes, allowance);
    ok := CopyBuffer(aw, world, data);
    if !ok {
      return Some(WriterFailed), counted;
    }
    if ReadBreaks(fetched, allowance) {
      return Some(ReadFailed), counted;
    }
    counted := counted + |data|;
    if counted > max {
      return Some(OverCap), counted;
    }
    return None, counted;
  }

  /** The file loop, run to its end or to the first failure. */
  method WriteFiles(aw: ArchiveWriter, world: World, max: nat, files: seq<ArchiveFile>)
      returns (failure: Option<Failure>, processed: nat, reports: seq<(nat, nat)>)
    modifies aw
    ensures Describes(FilesWritten(S.Sanitize, world, max, files, 0, Progress(old(aw.State()), 0, [])),
                      failure, aw.State(), processed, reports)
  {
    failure, processed, reports := None, 0, [];
    for k := 0 to |files|
      invariant failure == None
      invariant FilesWritten(S.Sanitize, world, max, files, k, Progress(aw.State(), processed, reports)) ==
                FilesWritten(S.Sanitize, world, max, files, 0, Progress(old(aw.State()), 0, []))
    {
      if world.cancelled(k) {
        failure := Some(ContextDone);
        return;
      }
      var clean := S.Sanitize(files[k].path);
      if clean.None? {
        failure := Some(BadPath);
        return;
      }
      if Wrap64(processed + files[k].size) > max {
        failure := Some(OverCap);
        return;
      }
      failure, processed := WriteFile(aw, world, max, clean.value, files[k], processed, reports);
      if failure.Some? {
        return;
      }
      reports := reports + [(k + 1, processed)];
    }
  }

  method WriteDirs(aw: ArchiveWriter, world: World, dirs: seq<ArchiveFolder>, ghost run: Progress)
      returns (failure: Option<Failure>)
    requires run.writer == aw.State()
    modifies aw
    ensures Describes(DirsWritten(S.Sanitize, world, dirs, 0, run), failure, aw.State(), run.processed, run.reports)
  {
    for k := 0 to |dirs|
      invariant DirsWritten(S.Sanitize, world, dirs, k, run.(writer := aw.State())) ==
                DirsWritten(S.Sanitize, world, dirs, 0, run)
    {
      var clean := S.Sanitize(dirs[k].path);
      if clean.None? {
        return Some(BadPath);
      }
      var ok := aw.CreateDir(world, clean.value);
      if !ok {
        return Some(WriterFailed);
      }
    }
    return None;
  }

  /** `Generate`: the archive that is left behind, the byte counter, and the progress callbacks. */
  method Generate(world: World, max: nat, format: ExportType, files: seq<ArchiveFile>, dirs: seq<ArchiveFolder>)
      returns (failure: Option<Failure>, aw: ArchiveWriter, processed: nat, reports: seq<(nat, nat)>)
    ensures fresh(aw)
    ensures Describes(Generated(S.Sanitize, world, max, format, files, dirs), failure, aw.State(), processed, reports)
    ensures max <= MAX_INT64 ==> Content(aw.entries) <= max + 1
    ensures max < MAX_INT64 && failure.None? ==>
              && aw.closed && processed <= max
              && aw.entries == FileEntries(S.Sanitize, world, files) + DirEntries(S.Sanitize, dirs)
  {
    aw := new ArchiveWriter(format);
    failure, processed, reports := WriteFiles(aw, world, max, files);
    if failure.None? {
      failure := WriteDirs(aw, world, dirs, Progress(aw.State(), processed, reports));
      if failure.None? {
        var ok := aw.Close(world);
        failure := if ok then None else Some(WriterFailed);
      }
    }
    GenerateKeepsPromise(world, max, format, files, dirs);
  }

  lemma {:induction false} GenerateKeepsPromise(world: World, max: nat, format: ExportType,
      files: seq<ArchiveFile>, dirs: seq<ArchiveFolder>)
    ensures var out := Generated(S.Sanitize, world, max, format, files, dirs);
            && (max <= MAX_INT64 ==> Content(out.run.writer.entries) <= max + 1)
            && (max < MAX_INT64 && out.Finish? ==>
                  && out.run.writer.closed && out.run.processed <= max
                  && out.run.writer.entries == FileEntries(S.Sanitize, world, files) + DirEntries(S.Sanitize, dirs))
  {
    if max <= MAX_INT64 {
      CapBoundsContent(S.Sanitize, world, max, format, files, dirs);
    }
    if max < MAX_INT64 && Generated(S.Sanitize, world, max, format, files, dirs).Finish? {
      SuccessIsWhole(S.Sanitize, world, max, format, files, dirs);
    }
  }

  // ----- a run that loses what it was given -----

  /** Every fetch delivers one byte, and nothing fails. */
  const ONE_BYTE_WORLD :=
    World((f: ArchiveFile) => Body("x", false), (n: nat) => 1, (n: nat) => false, (n: nat) => false)

  const ONE_BYTE_FILE := ArchiveFile("id", "a", "a", 1, "host", "location", 1, "hash")

  /** Under the largest cap a ZIP run over one file of one byte succeeds, with the entry empty. */
  lemma {:induction false} LargestCapLosesContent()
    ensures BodyOf(ONE_BYTE_WORLD, ONE_BYTE_FILE) == "x"
    ensures var out := Generated(S.Sanitize, ONE_BYTE_WORLD, MAX_INT64, Zip, [ONE_BYTE_FILE], []);
            out.Finish? && out.run.writer.closed && out.run.writer.entries == [FileEntry("a", "")]
  {
    Paths.SplitSlashFree("a");
    S.SanitizeGood("a");
    var begun := Begin(Zip);
    var files := [ONE_BYTE_FILE];
    assert Allowance(MAX_INT64, 0) == -MAX_INT64 - 1;
    var one := FileWritten(ONE_BYTE_WORLD, MAX_INT64, "a", ONE_BYTE_FILE, begun);
    assert one.Finish? && one.run.writer.entries == [FileEntry("a", "")];
    var after := Reported(one.run, 1);
    assert FilesWritten(S.Sanitize, ONE_BYTE_WORLD, MAX_INT64, files, 1, after) == Finish(after);
    assert FilesWritten(S.Sanitize, ONE_BYTE_WORLD, MAX_INT64, files, 0, begun) == Finish(after);
  }
}
