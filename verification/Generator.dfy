/** `Generate` and `writeFile`: a manifest streamed into a ZIP or TAR writer under a size cap.
    Counters are 64-bit integers; the wrap-around of their additions is written out. */
module Generator {
  import opened Model

  /** The path cleaner; the loops are the same for every one, and `Generate` uses `Sanitize`. */
  type Cleaner = string -> Option<string>

  const MAX_INT64: int := 0x7FFF_FFFF_FFFF_FFFF

  /** Two's complement wrap-around of a sum or difference of two 64-bit integers. */
  function Wrap64(x: int): int {
    if x > MAX_INT64 then x - 0x1_0000_0000_0000_0000
    else if x < -MAX_INT64 - 1 then x + 0x1_0000_0000_0000_0000
    else x
  }

  const COPY_BUFFER_SIZE := 0x10_0000

  datatype Entry = FileEntry(path: string, body: Bytes) | DirEntry(path: string)

  /** What a fetch gives: an error, or bytes followed by end of file or by a read error. */
  datatype Fetch = Unreachable | Body(bytes: Bytes, broken: bool)

  datatype Failure = ContextDone | BadPath | OverCap | FetchFailed | ReadFailed | WriterFailed

  /** The outside world of one run: what each fetch answers, how many bytes a read delivers at
      most, whether the context is done before the `k`-th file, and whether the `n`-th call on
      the archive writer fails. */
  datatype World = World(
    fetch: ArchiveFile -> Fetch,
    readLength: nat -> nat,
    cancelled: nat -> bool,
    faulty: nat -> bool)

  /** The state of an archive writer.  For TAR `owed` counts the bytes the open entry's header
      announced and has not got yet; ZIP never owes any. */
  datatype Writer = Writer(format: ExportType, entries: seq<Entry>, owed: nat, calls: nat, closed: bool)

  function NewWriter(format: ExportType): Writer {
    Writer(format, [], 0, 0, false)
  }

  // ----- the writer's calls: the new state, and whether the call succeeded -----

  function FileCreated(w: Writer, world: World, path: string, size: nat): (Writer, bool) {
    if world.faulty(w.calls) || w.owed > 0 then (w.(calls := w.calls + 1), false)
    else (w.(entries := w.entries + [FileEntry(path, "")],
             owed := if w.format == Tar then size else 0,
             calls := w.calls + 1), true)
  }

  /** The last entry, if it is a file, made longer. */
  function WithMore(entries: seq<Entry>, more: Bytes): seq<Entry> {
    if entries == [] || entries[|entries| - 1].DirEntry? then entries
    else
      var last := entries[|entries| - 1];
      entries[..|entries| - 1] + [FileEntry(last.path, last.body + more)]
  }

  /** TAR takes what still fits and rejects the rest. */
  function Written(w: Writer, world: World, chunk: Bytes): (Writer, bool) {
    if world.faulty(w.calls) then (w.(calls := w.calls + 1), false)
    else if w.format == Tar && |chunk| > w.owed
    then (w.(entries := WithMore(w.entries, chunk[..w.owed]), owed := 0, calls := w.calls + 1), false)
    else (w.(entries := WithMore(w.entries, chunk),
             owed := if w.format == Tar then w.owed - |chunk| else 0,
             calls := w.calls + 1), true)
  }

  function DirCreated(w: Writer, world: World, path: string): (Writer, bool) {
    if world.faulty(w.calls) || w.owed > 0 then (w.(calls := w.calls + 1), false)
    else (w.(entries := w.entries + [DirEntry(path)], calls := w.calls + 1), true)
  }

  function Finished(w: Writer, world: World): (Writer, bool) {
    if world.faulty(w.calls) || w.owed > 0 then (w.(calls := w.calls + 1), false)
    else (w.(closed := true, calls := w.calls + 1), true)
  }

  /** How much of the remaining data the next read delivers: at least a byte, at most a buffer. */
  function ReadSize(world: World, calls: nat, remaining: nat): (n: nat)
    requires remaining > 0
    ensures 0 < n <= remaining && n <= 0x10_0000
  {
    var most := if remaining < COPY_BUFFER_SIZE then remaining else COPY_BUFFER_SIZE;
    var asked := world.readLength(calls);
    if asked == 0 then 1 else if asked < most then asked else most
  }

  /** `io.CopyBuffer`: the data goes in read by read. */
  function Copied(w: Writer, world: World, data: Bytes): (Writer, bool)
    decreases |data|
  {
    if data == "" then (w, true)
    else
      var n := ReadSize(world, w.calls, |data|);
      var (next, ok) := Written(w, world, data[..n]);
      if ok then Copied(next, world, data[n..]) else (next, false)
  }

  /** The number of bytes `io.LimitReader(body, max-processed+1)` lets through at most. */
  function Allowance(max: nat, processed: nat): int {
    Wrap64(max - processed + 1)
  }

  function Through(bytes: Bytes, allowance: int): Bytes {
    if allowance <= 0 then "" else if |bytes| <= allowance then bytes else bytes[..allowance]
  }

  /** A read error behind the limit is never reached. */
  predicate ReadBreaks(fetched: Fetch, allowance: int)
    requires fetched.Body?
  {
    fetched.broken && |fetched.bytes| < allowance
  }

  /** State of a run: the writer, the byte counter and the progress callbacks made so far. */
  datatype Progress = Progress(writer: Writer, processed: nat, reports: seq<(nat, nat)>)

  datatype Outcome = Finish(run: Progress) | Stop(why: Failure, run: Progress)

  /** `writeFile`. */
  function FileWritten(world: World, max: nat, path: string, f: ArchiveFile, run: Progress): Outcome {
    var fetched := world.fetch(f);
    if fetched.Unreachable? then Stop(FetchFailed, run)
    else
      var (begun, ok) := FileCreated(run.writer, world, path, f.size);
      if !ok then Stop(WriterFailed, run.(writer := begun))
      else
        var allowance := Allowance(max, run.processed);
        var data := Through(fetched.bytes, allowance);
        var (filled, fine) := Copied(begun, world, data);
        var after := run.(writer := filled);
        if !fine then Stop(WriterFailed, after)
        else if ReadBreaks(fetched, allowance) then Stop(ReadFailed, after)
        else
          var counted := after.(processed := run.processed + |data|);
          if counted.processed > max then Stop(OverCap, counted) else Finish(counted)
  }

  /** `onProgress` after the `n`-th file. */
  function Reported(run: Progress, n: nat): Progress {
    run.(reports := run.reports + [(n, run.processed)])
  }

  /** The file loop of `Generate`, from the `k`-th file on. */
  function FilesWritten(clean: Cleaner, world: World, max: nat, files: seq<ArchiveFile>, k: nat, run: Progress): Outcome
    requires k <= |files|
    decreases |files| - k
  {
    if k == |files| then Finish(run)
    else if world.cancelled(k) then Stop(ContextDone, run)
    else if clean(files[k].path).None? then Stop(BadPath, run)
    else if Wrap64(run.processed + files[k].size) > max then Stop(OverCap, run)
    else
      match FileWritten(world, max, clean(files[k].path).value, files[k], run)
      case Stop(why, r) => Stop(why, r)
      case Finish(r) => FilesWritten(clean, world, max, files, k + 1, Reported(r, k + 1))
  }

  /** The directory loop. */
  function DirsWritten(clean: Cleaner, world: World, dirs: seq<ArchiveFolder>, k: nat, run: Progress): Outcome
    requires k <= |dirs|
    decreases |dirs| - k
  {
    if k == |dirs| then Finish(run)
    else if clean(dirs[k].path).None? then Stop(BadPath, run)
    else
      var (next, ok) := DirCreated(run.writer, world, clean(dirs[k].path).value);
      if !ok then Stop(WriterFailed, run.(writer := next))
      else DirsWritten(clean, world, dirs, k + 1, run.(writer := next))
  }

  function Begin(format: ExportType): Progress {
    Progress(NewWriter(format), 0, [])
  }

  function Closed(world: World, run: Progress): Outcome {
    var (last, ok) := Finished(run.writer, world);
    if ok then Finish(run.(writer := last)) else Stop(WriterFailed, run.(writer := last))
  }

  /** All of `Generate`. */
  function Generated(clean: Cleaner, world: World, max: nat, format: ExportType, files: seq<ArchiveFile>,
      dirs: seq<ArchiveFolder>): Outcome {
    match FilesWritten(clean, world, max, files, 0, Begin(format))
    case Stop(why, r) => Stop(why, r)
    case Finish(r) =>
      match DirsWritten(clean, world, dirs, 0, r)
      case Stop(why, q) => Stop(why, q)
      case Finish(q) => Closed(world, q)
  }

  // ----- what a run should produce -----

  function BodyOf(world: World, f: ArchiveFile): Bytes {
    match world.fetch(f)
    case Unreachable => ""
    case Body(bytes, _) => bytes
  }

  predicate Fetched(world: World, f: ArchiveFile) {
    world.fetch(f).Body? && !world.fetch(f).broken
  }

  function CleanPath(clean: Cleaner, path: string): string {
    match clean(path)
    case None => ""
    case Some(p) => p
  }

  /** One file entry per file, at its cleaned path, holding the whole fetched body. */
  function FileEntries(clean: Cleaner, world: World, files: seq<ArchiveFile>): (entries: seq<Entry>)
    ensures |entries| == |files|
    ensures forall i :: 0 <= i < |files| ==>
              entries[i] == FileEntry(CleanPath(clean, files[i].path), BodyOf(world, files[i]))
  {
    seq(|files|, i requires 0 <= i < |files| => FileEntry(CleanPath(clean, files[i].path), BodyOf(world, files[i])))
  }

  function DirEntries(clean: Cleaner, dirs: seq<ArchiveFolder>): (entries: seq<Entry>)
    ensures |entries| == |dirs|
    ensures forall i :: 0 <= i < |dirs| ==> entries[i] == DirEntry(CleanPath(clean, dirs[i].path))
  {
    seq(|dirs|, i requires 0 <= i < |dirs| => DirEntry(CleanPath(clean, dirs[i].path)))
  }

  /** Content bytes of the first `k` files. */
  function BodySum(world: World, files: seq<ArchiveFile>, k: nat): nat
    requires k <= |files|
  {
    if k == 0 then 0 else BodySum(world, files, k - 1) + |BodyOf(world, files[k - 1])|
  }

  /** Declared bytes of the first `k` files. */
  function SizeSum(files: seq<ArchiveFile>, k: nat): nat
    requires k <= |files|
  {
    if k == 0 then 0 else SizeSum(files, k - 1) + files[k - 1].size
  }

  /** The progress callbacks of the first `k` files. */
  function Reports(world: World, files: seq<ArchiveFile>, k: nat): seq<(nat, nat)>
    requires k <= |files|
  {
    if k == 0 then [] else Reports(world, files, k - 1) + [(k, BodySum(world, files, k))]
  }

  /** Content bytes in an archive, whole or partial. */
  function Content(entries: seq<Entry>): nat {
    if entries == [] then 0
    else
      var last := entries[|entries| - 1];
      Content(entries[..|entries| - 1]) + (if last.FileEntry? then |last.body| else 0)
  }

  lemma {:induction false} ContentAdd(entries: seq<Entry>, e: Entry)
    ensures Content(entries + [e]) == Content(entries) + (if e.FileEntry? then |e.body| else 0)
  {
    assert (entries + [e])[..|entries|] == entries;
  }

  // ----- one file -----

  predicate WriterOk(w: Writer) {
    w.format == Zip ==> w.owed == 0
  }

  predicate OpenFile(w: Writer) {
    w.entries != [] && w.entries[|w.entries| - 1].FileEntry?
  }

  ghost predicate Faultless(world: World) {
    forall i: nat :: !world.faulty(i)
  }

  lemma {:induction false} MoreNothing(entries: seq<Entry>)
    ensures WithMore(entries, "") == entries
  {
    if entries != [] && entries[|entries| - 1].FileEntry? {
      var last := entries[|entries| - 1];
      assert last.body + "" == last.body;
      assert entries == entries[..|entries| - 1] + [last];
    }
  }

  lemma {:induction false} MoreTwice(entries: seq<Entry>, a: Bytes, b: Bytes)
    ensures WithMore(WithMore(entries, a), b) == WithMore(entries, a + b)
  {
    if entries != [] && entries[|entries| - 1].FileEntry? {
      var last := entries[|entries| - 1];
      assert (last.body + a) + b == last.body + (a + b);
    }
  }

  lemma {:induction false} MoreOnNew(entries: seq<Entry>, path: string, data: Bytes)
    ensures WithMore(entries + [FileEntry(path, "")], data) == entries + [FileEntry(path, data)]
  {
    assert "" + data == data;
  }

  /** Whatever happens, a copy has put a prefix of its data in the open entry; success means all
      of it, and for TAR exactly that much is no longer owed. */
  lemma {:induction false} CopyIsWhole(w: Writer, world: World, data: Bytes) returns (m: nat)
    requires WriterOk(w) && OpenFile(w)
    ensures m <= |data|
    ensures var (v, ok) := Copied(w, world, data);
            && v.format == w.format && WriterOk(v)
            && v.entries == WithMore(w.entries, data[..m])
            && (ok ==> m == |data|)
            && (ok && w.format == Tar ==> m <= w.owed && v.owed == w.owed - m)
            && (Faultless(world) ==> (ok <==> w.format == Zip || |data| <= w.owed))
    decreases |data|
  {
    if data == "" {
      m := 0;
      MoreNothing(w.entries);
    } else {
      var n := ReadSize(world, w.calls, |data|);
      var (next, ok) := Written(w, world, data[..n]);
      if ok {
        var more := CopyIsWhole(next, world, data[n..]);
        m := n + more;
        MoreTwice(w.entries, data[..n], data[n..][..more]);
        assert data[..n] + data[n..][..more] == data[..m];
      } else if world.faulty(w.calls) {
        m := 0;
        MoreNothing(w.entries);
      } else {
        m := w.owed;
        assert data[..n][..m] == data[..m];
      }
    }
  }

  /** A state of the file loop: what is counted is what is in the archive, within the cap. */
  predicate Steady(max: nat, run: Progress) {
    run.processed == Content(run.writer.entries) && run.processed <= max && WriterOk(run.writer)
  }

  /** `files[k]` can be written after `processed` bytes. */
  predicate RoomFor(world: World, max: nat, f: ArchiveFile, processed: nat) {
    processed + |BodyOf(world, f)| <= max
  }

  /** The stages of `writeFile` once the fetch has answered and the entry is open. */
  lemma {:induction false} FileStages(world: World, max: nat, path: string, f: ArchiveFile, run: Progress)
      returns (begun: Writer, data: Bytes, m: nat)
    requires max < MAX_INT64 && Steady(max, run)
    requires world.fetch(f).Body? && FileCreated(run.writer, world, path, f.size).1
    ensures begun == FileCreated(run.writer, world, path, f.size).0 && run.writer.owed == 0
    ensures data == Through(world.fetch(f).bytes, max - run.processed + 1)
    ensures m <= |data|
    ensures FileWritten(world, max, path, f, run) ==
            var (filled, fine) := Copied(begun, world, data);
            var after := run.(writer := filled);
            if !fine then Stop(WriterFailed, after)
            else if ReadBreaks(world.fetch(f), max - run.processed + 1) then Stop(ReadFailed, after)
            else if run.processed + |data| > max then Stop(OverCap, after.(processed := run.processed + |data|))
            else Finish(after.(processed := run.processed + |data|))
    ensures var (filled, fine) := Copied(begun, world, data);
            && filled.format == run.writer.format && WriterOk(filled)
            && filled.entries == run.writer.entries + [FileEntry(path, data[..m])]
            && Content(filled.entries) == run.processed + m
            && (fine ==> m == |data| && data[..m] == data)
            && (fine && run.writer.format == Tar ==> m <= f.size && filled.owed == f.size - m)
            && (Faultless(world) ==> (fine <==> run.writer.format == Zip || |data| <= f.size))
  {
    begun := FileCreated(run.writer, world, path, f.size).0;
    data := Through(world.fetch(f).bytes, Allowance(max, run.processed));
    m := CopyIsWhole(begun, world, data);
    MoreOnNew(run.writer.entries, path, data[..m]);
    ContentAdd(run.writer.entries, FileEntry(path, data[..m]));
  }

  /** However `writeFile` ends, the archive is at most one byte over the cap. */
  lemma {:induction false} FileCapped(world: World, max: nat, path: string, f: ArchiveFile, run: Progress)
    requires max < MAX_INT64 && Steady(max, run)
    ensures Content(FileWritten(world, max, path, f, run).run.writer.entries) <= max + 1
  {
    if world.fetch(f).Body? && FileCreated(run.writer, world, path, f.size).1 {
      var begun, data, m := FileStages(world, max, path, f, run);
      var filled := Copied(begun, world, data).0;
      assert FileWritten(world, max, path, f, run).run.writer == filled;
      assert Content(filled.entries) == run.processed + m <= max + 1;
    } else {
      FileNotBegun(world, max, path, f, run);
    }
  }

  lemma {:induction false} FileNotBegun(world: World, max: nat, path: string, f: ArchiveFile, run: Progress)
    requires !(world.fetch(f).Body? && FileCreated(run.writer, world, path, f.size).1)
    ensures FileWritten(world, max, path, f, run).run.writer.entries == run.writer.entries
  {
  }

  /** When `writeFile` succeeds the new entry holds the whole body. */
  lemma {:induction false} FileIsWhole(world: World, max: nat, path: string, f: ArchiveFile, run: Progress)
    requires max < MAX_INT64 && Steady(max, run) && FileWritten(world, max, path, f, run).Finish?
    ensures Fetched(world, f) && RoomFor(world, max, f, run.processed)
    ensures var next := FileWritten(world, max, path, f, run).run;
            && Steady(max, next)
            && next.reports == run.reports
            && next.processed == run.processed + |BodyOf(world, f)|
            && next.writer.format == run.writer.format
            && next.writer.entries == run.writer.entries + [FileEntry(path, BodyOf(world, f))]
            && run.writer.owed == 0
            && (run.writer.format == Tar ==>
                  |BodyOf(world, f)| <= f.size && next.writer.owed == f.size - |BodyOf(world, f)|)
  {
    var begun, data, m := FileStages(world, max, path, f, run);
  }

  /** When `writeFile` succeeds for lack of any reason to fail; TAR gives the writer one if the
      body is longer than declared, and then the size limit is not what fails. */
  lemma {:induction false} FileGoesThrough(world: World, max: nat, path: string, f: ArchiveFile, run: Progress)
    requires max < MAX_INT64 && Steady(max, run)
    ensures Faultless(world) && run.writer.owed == 0 && Fetched(world, f) && RoomFor(world, max, f, run.processed) ==>
              run.writer.format == Zip || |BodyOf(world, f)| <= f.size ==> FileWritten(world, max, path, f, run).Finish?
    ensures var out := FileWritten(world, max, path, f, run);
            run.writer.format == Tar && run.processed + f.size <= max ==> out.Finish? || out.why != OverCap
  {
    if world.fetch(f).Body? && FileCreated(run.writer, world, path, f.size).1 {
      var begun, data, m := FileStages(world, max, path, f, run);
    }
  }

  // ----- the file loop -----

  /** Where a run that has done nothing wrong is before the `k`-th file. */
  ghost predicate UpToFile(clean: Cleaner, world: World, max: nat, files: seq<ArchiveFile>, k: nat, run: Progress)
    requires k <= |files|
  {
    && Steady(max, run)
    && run.writer.entries == FileEntries(clean, world, files)[..k]
    && run.processed == BodySum(world, files, k)
    && run.reports == Reports(world, files, k)
    && (run.writer.format == Tar ==> run.writer.owed == SizeSum(files, k) - BodySum(world, files, k))
  }

  /** The checks that the `k`-th file has to pass. */
  ghost predicate FileFits(clean: Cleaner, world: World, max: nat, files: seq<ArchiveFile>, k: nat)
    requires k < |files|
  {
    && clean(files[k].path).Some?
    && Fetched(world, files[k])
    && Wrap64(BodySum(world, files, k) + files[k].size) <= max
    && BodySum(world, files, k + 1) <= max
  }

  lemma {:induction false} FileStep(clean: Cleaner, world: World, max: nat, files: seq<ArchiveFile>, k: nat,
      run: Progress)
    requires max < MAX_INT64 && k < |files| && UpToFile(clean, world, max, files, k, run)
    requires clean(files[k].path).Some? && Wrap64(run.processed + files[k].size) <= max
    requires FileWritten(world, max, clean(files[k].path).value, files[k], run).Finish?
    ensures var next := FileWritten(world, max, clean(files[k].path).value, files[k], run).run;
            next.writer.format == run.writer.format && UpToFile(clean, world, max, files, k + 1, Reported(next, k + 1))
    ensures FileFits(clean, world, max, files, k)
    ensures run.writer.format == Tar ==> |BodyOf(world, files[k])| <= files[k].size
  {
    FileIsWhole(world, max, clean(files[k].path).value, files[k], run);
    var entries := FileEntries(clean, world, files);
    assert entries[..k + 1] == entries[..k] + [entries[k]];
  }

  lemma {:induction false} FilesCapped(clean: Cleaner, world: World, max: nat, files: seq<ArchiveFile>, k: nat,
      run: Progress)
    requires max < MAX_INT64 && k <= |files| && UpToFile(clean, world, max, files, k, run)
    ensures Content(FilesWritten(clean, world, max, files, k, run).run.writer.entries) <= max + 1
    decreases |files| - k
  {
    if k < |files| && clean(files[k].path).Some? && Wrap64(run.processed + files[k].size) <= max {
      FileCapped(world, max, clean(files[k].path).value, files[k], run);
      var out := FileWritten(world, max, clean(files[k].path).value, files[k], run);
      if out.Finish? {
        FileStep(clean, world, max, files, k, run);
        FilesCapped(clean, world, max, files, k + 1, Reported(out.run, k + 1));
      }
    }
  }

  /** Nothing stands in the way of the `i`-th file. */
  ghost predicate FileOk(clean: Cleaner, world: World, max: nat, files: seq<ArchiveFile>, i: nat)
    requires i < |files|
  {
    FileFits(clean, world, max, files, i) && !world.cancelled(i)
  }

  /** What the success of the loop says about a file. */
  ghost predicate FileDone(clean: Cleaner, world: World, max: nat, format: ExportType, files: seq<ArchiveFile>, i: nat)
    requires i < |files|
  {
    && FileOk(clean, world, max, files, i)
    && (format == Tar ==> |BodyOf(world, files[i])| <= files[i].size)
  }

  /** A loop that succeeds from `k` on has done the `k`-th file and succeeds from `k + 1` on. */
  lemma {:induction false} FilesUnfold(clean: Cleaner, world: World, max: nat, files: seq<ArchiveFile>, k: nat,
      run: Progress)
      returns (next: Progress)
    requires max < MAX_INT64 && k < |files| && UpToFile(clean, world, max, files, k, run)
    requires FilesWritten(clean, world, max, files, k, run).Finish?
    ensures UpToFile(clean, world, max, files, k + 1, next) && next.writer.format == run.writer.format
    ensures FilesWritten(clean, world, max, files, k, run) == FilesWritten(clean, world, max, files, k + 1, next)
    ensures FileDone(clean, world, max, run.writer.format, files, k)
  {
    FileStep(clean, world, max, files, k, run);
    next := Reported(FileWritten(world, max, clean(files[k].path).value, files[k], run).run, k + 1);
  }

  lemma {:induction false} FilesAreWhole(clean: Cleaner, world: World, max: nat, files: seq<ArchiveFile>,
      k: nat, run: Progress)
    requires max < MAX_INT64 && k <= |files| && UpToFile(clean, world, max, files, k, run)
    requires FilesWritten(clean, world, max, files, k, run).Finish?
    ensures var end := FilesWritten(clean, world, max, files, k, run).run;
            UpToFile(clean, world, max, files, |files|, end) && end.writer.format == run.writer.format
    decreases |files| - k
  {
    if k < |files| {
      var next := FilesUnfold(clean, world, max, files, k, run);
      FilesAreWhole(clean, world, max, files, k + 1, next);
    }
  }

  lemma {:induction false} FilesAreDone(clean: Cleaner, world: World, max: nat, files: seq<ArchiveFile>, k: nat,
      run: Progress, i: nat)
    requires max < MAX_INT64 && k <= i < |files| && UpToFile(clean, world, max, files, k, run)
    requires FilesWritten(clean, world, max, files, k, run).Finish?
    ensures FileDone(clean, world, max, run.writer.format, files, i)
    decreases |files| - k
  {
    var next := FilesUnfold(clean, world, max, files, k, run);
    if k < i {
      FilesAreDone(clean, world, max, files, k + 1, next, i);
    }
  }

  /** Every declared size is the size of the body. */
  predicate SizesTrue(world: World, files: seq<ArchiveFile>) {
    forall i :: 0 <= i < |files| ==> |BodyOf(world, files[i])| == files[i].size
  }

  lemma {:induction false} SumsAgree(world: World, files: seq<ArchiveFile>, k: nat)
    requires k <= |files|
    requires forall i :: 0 <= i < k ==> |BodyOf(world, files[i])| <= files[i].size
    ensures BodySum(world, files, k) <= SizeSum(files, k)
    ensures BodySum(world, files, k) == SizeSum(files, k) <==>
            forall i :: 0 <= i < k ==> |BodyOf(world, files[i])| == files[i].size
  {
    if k > 0 {
      SumsAgree(world, files, k - 1);
    }
  }

  /** Without writer faults the loop goes through when every file fits. */
  lemma {:induction false} FilesGoThrough(clean: Cleaner, world: World, max: nat, files: seq<ArchiveFile>,
      k: nat, run: Progress)
    requires max < MAX_INT64 && k <= |files| && UpToFile(clean, world, max, files, k, run) && Faultless(world)
    requires forall i {:trigger FileOk(clean, world, max, files, i)} ::
               k <= i < |files| ==> FileOk(clean, world, max, files, i)
    requires run.writer.format == Tar ==> SizesTrue(world, files)
    ensures FilesWritten(clean, world, max, files, k, run).Finish?
    decreases |files| - k
  {
    if k < |files| {
      assert FileOk(clean, world, max, files, k);
      if run.writer.format == Tar {
        SumsAgree(world, files, k);
      }
      FileGoesThrough(world, max, clean(files[k].path).value, files[k], run);
      FileStep(clean, world, max, files, k, run);
      var out := FileWritten(world, max, clean(files[k].path).value, files[k], run);
      FilesGoThrough(clean, world, max, files, k + 1, Reported(out.run, k + 1));
    }
  }

  // ----- the directory loop -----

  lemma {:induction false} DirsKeepContent(clean: Cleaner, world: World, dirs: seq<ArchiveFolder>, k: nat,
      run: Progress)
    requires k <= |dirs|
    ensures var out := DirsWritten(clean, world, dirs, k, run);
            && Content(out.run.writer.entries) == Content(run.writer.entries)
            && (out.Stop? ==> out.why != OverCap)
    decreases |dirs| - k
  {
    if k < |dirs| && clean(dirs[k].path).Some? {
      var (next, ok) := DirCreated(run.writer, world, clean(dirs[k].path).value);
      if ok {
        ContentAdd(run.writer.entries, DirEntry(clean(dirs[k].path).value));
        DirsKeepContent(clean, world, dirs, k + 1, run.(writer := next));
      }
    }
  }

  lemma {:induction false} DirsAreAll(clean: Cleaner, world: World, dirs: seq<ArchiveFolder>, k: nat, run: Progress)
    requires k <= |dirs| && DirsWritten(clean, world, dirs, k, run).Finish?
    ensures var end := DirsWritten(clean, world, dirs, k, run).run;
            && end.processed == run.processed && end.reports == run.reports
            && end.writer.owed == run.writer.owed
            && end.writer.entries == run.writer.entries + DirEntries(clean, dirs)[k..]
    ensures forall i :: k <= i < |dirs| ==> clean(dirs[i].path).Some?
    decreases |dirs| - k
  {
    if k < |dirs| {
      var (next, ok) := DirCreated(run.writer, world, clean(dirs[k].path).value);
      DirsAreAll(clean, world, dirs, k + 1, run.(writer := next));
      assert DirEntries(clean, dirs)[k..] == [DirEntries(clean, dirs)[k]] + DirEntries(clean, dirs)[k + 1..];
      assert next.entries + DirEntries(clean, dirs)[k + 1..] == run.writer.entries + DirEntries(clean, dirs)[k..];
    }
  }

  lemma {:induction false} DirsGoThrough(clean: Cleaner, world: World, dirs: seq<ArchiveFolder>, k: nat, run: Progress)
    requires k <= |dirs| && Faultless(world) && run.writer.owed == 0
    requires forall i :: k <= i < |dirs| ==> clean(dirs[i].path).Some?
    ensures DirsWritten(clean, world, dirs, k, run).Finish?
    decreases |dirs| - k
  {
    if k < |dirs| {
      var (next, ok) := DirCreated(run.writer, world, clean(dirs[k].path).value);
      DirsGoThrough(clean, world, dirs, k + 1, run.(writer := next));
    }
  }

  // ----- main results -----

  lemma {:induction false} BeginUpTo(clean: Cleaner, world: World, max: nat, files: seq<ArchiveFile>,
      format: ExportType)
    ensures UpToFile(clean, world, max, files, 0, Begin(format))
  {
    assert FileEntries(clean, world, files)[..0] == [];
  }

  /** However a run ends, at most one byte beyond the cap has been copied into the archive. */
  lemma {:induction false} CapBoundsContent(clean: Cleaner, world: World, max: nat, format: ExportType,
      files: seq<ArchiveFile>, dirs: seq<ArchiveFolder>)
    requires max <= MAX_INT64
    ensures Content(Generated(clean, world, max, format, files, dirs).run.writer.entries) <= max + 1
  {
    if max < MAX_INT64 {
      BeginUpTo(clean, world, max, files, format);
      FilesCapped(clean, world, max, files, 0, Begin(format));
    } else {
      NothingCopied(clean, world, files, 0, Begin(format));
    }
    var out := FilesWritten(clean, world, max, files, 0, Begin(format));
    if out.Finish? {
      DirsKeepContent(clean, world, dirs, 0, out.run);
    }
  }

  lemma {:induction false} FileCopiesNothing(world: World, path: string, f: ArchiveFile, run: Progress)
    requires run.processed == 0 && Content(run.writer.entries) == 0
    ensures var out := FileWritten(world, MAX_INT64, path, f, run);
            Content(out.run.writer.entries) == 0 && out.run.processed == 0
  {
    assert Allowance(MAX_INT64, 0) == -MAX_INT64 - 1;
    ContentAdd(run.writer.entries, FileEntry(path, ""));
  }

  /** Under the largest cap a run copies nothing at all. */
  lemma {:induction false} NothingCopied(clean: Cleaner, world: World, files: seq<ArchiveFile>, k: nat, run: Progress)
    requires k <= |files| && run.processed == 0 && Content(run.writer.entries) == 0
    ensures Content(FilesWritten(clean, world, MAX_INT64, files, k, run).run.writer.entries) == 0
    decreases |files| - k
  {
    if k < |files| && clean(files[k].path).Some? {
      FileCopiesNothing(world, clean(files[k].path).value, files[k], run);
      var out := FileWritten(world, MAX_INT64, clean(files[k].path).value, files[k], run);
      if out.Finish? {
        NothingCopied(clean, world, files, k + 1, Reported(out.run, k + 1));
      }
    }
  }

  /** The three parts of a run that succeeds. */
  lemma {:induction false} SuccessParts(clean: Cleaner, world: World, max: nat, format: ExportType,
      files: seq<ArchiveFile>, dirs: seq<ArchiveFolder>)
      returns (filled: Progress, end: Progress)
    requires Generated(clean, world, max, format, files, dirs).Finish?
    ensures FilesWritten(clean, world, max, files, 0, Begin(format)) == Finish(filled)
    ensures DirsWritten(clean, world, dirs, 0, filled) == Finish(end)
    ensures var last := Generated(clean, world, max, format, files, dirs).run;
            && end.writer.owed == 0 && last.writer.closed && last.writer.entries == end.writer.entries
            && last.processed == end.processed && last.reports == end.reports
  {
    filled := FilesWritten(clean, world, max, files, 0, Begin(format)).run;
    end := DirsWritten(clean, world, dirs, 0, filled).run;
  }

  /** A run that succeeds has truncated nothing: the archive is closed and holds every file whole
      and every empty folder, in manifest order; the counter is the total and respects the cap. */
  lemma {:induction false} SuccessIsWhole(clean: Cleaner, world: World, max: nat, format: ExportType,
      files: seq<ArchiveFile>, dirs: seq<ArchiveFolder>)
    requires max < MAX_INT64 && Generated(clean, world, max, format, files, dirs).Finish?
    ensures var run := Generated(clean, world, max, format, files, dirs).run;
            && run.writer.closed
            && run.writer.entries == FileEntries(clean, world, files) + DirEntries(clean, dirs)
            && run.processed == BodySum(world, files, |files|) && run.processed <= max
            && run.reports == Reports(world, files, |files|)
  {
    BeginUpTo(clean, world, max, files, format);
    var filled, end := SuccessParts(clean, world, max, format, files, dirs);
    FilesAreWhole(clean, world, max, files, 0, Begin(format));
    DirsAreAll(clean, world, dirs, 0, filled);
    assert FileEntries(clean, world, files)[..|files|] == FileEntries(clean, world, files);
    assert DirEntries(clean, dirs)[0..] == DirEntries(clean, dirs);
  }

  /** The counter of a run that succeeds counts what the archive holds. */
  lemma {:induction false} ContentOfSuccess(clean: Cleaner, world: World, max: nat, format: ExportType,
      files: seq<ArchiveFile>, dirs: seq<ArchiveFolder>)
    requires max < MAX_INT64 && Generated(clean, world, max, format, files, dirs).Finish?
    ensures var run := Generated(clean, world, max, format, files, dirs).run;
            Content(run.writer.entries) == run.processed <= max
  {
    BeginUpTo(clean, world, max, files, format);
    var filled, end := SuccessParts(clean, world, max, format, files, dirs);
    FilesAreWhole(clean, world, max, files, 0, Begin(format));
    DirsKeepContent(clean, world, dirs, 0, filled);
    DirsAreAll(clean, world, dirs, 0, filled);
  }

  /** What success says about each file and each folder. */
  lemma {:induction false} SuccessMeans(clean: Cleaner, world: World, max: nat, format: ExportType,
      files: seq<ArchiveFile>, dirs: seq<ArchiveFolder>)
    requires max < MAX_INT64 && Generated(clean, world, max, format, files, dirs).Finish?
    ensures forall i {:trigger FileDone(clean, world, max, format, files, i)} ::
              0 <= i < |files| ==> FileDone(clean, world, max, format, files, i)
    ensures forall i :: 0 <= i < |dirs| ==> clean(dirs[i].path).Some?
  {
    BeginUpTo(clean, world, max, files, format);
    var filled, end := SuccessParts(clean, world, max, format, files, dirs);
    DirsAreAll(clean, world, dirs, 0, filled);
    forall i | 0 <= i < |files|
      ensures FileDone(clean, world, max, format, files, i)
    {
      FilesAreDone(clean, world, max, files, 0, Begin(format), i);
    }
  }

  /** Under any cap, success means that every path was accepted. */
  lemma {:induction false} FilePathsAccepted(clean: Cleaner, world: World, max: nat, files: seq<ArchiveFile>, k: nat,
      run: Progress, i: nat)
    requires k <= i < |files| && FilesWritten(clean, world, max, files, k, run).Finish?
    ensures clean(files[i].path).Some?
    decreases |files| - k
  {
    if k < i {
      var out := FileWritten(world, max, clean(files[k].path).value, files[k], run);
      FilePathsAccepted(clean, world, max, files, k + 1, Reported(out.run, k + 1), i);
    }
  }

  lemma {:induction false} PathsAccepted(clean: Cleaner, world: World, max: nat, format: ExportType,
      files: seq<ArchiveFile>, dirs: seq<ArchiveFolder>)
    requires Generated(clean, world, max, format, files, dirs).Finish?
    ensures forall i :: 0 <= i < |files| ==> clean(files[i].path).Some?
    ensures forall i :: 0 <= i < |dirs| ==> clean(dirs[i].path).Some?
  {
    var filled, end := SuccessParts(clean, world, max, format, files, dirs);
    DirsAreAll(clean, world, dirs, 0, filled);
    forall i | 0 <= i < |files| ensures clean(files[i].path).Some? {
      FilePathsAccepted(clean, world, max, files, 0, Begin(format), i);
    }
  }

  /** TAR writes exactly what was declared: every body has its declared size, and the final
      counter is the manifest's total. */
  lemma {:induction false} TarSizesTrue(clean: Cleaner, world: World, max: nat, files: seq<ArchiveFile>,
      dirs: seq<ArchiveFolder>)
    requires max < MAX_INT64 && Generated(clean, world, max, Tar, files, dirs).Finish?
    ensures SizesTrue(world, files)
    ensures Generated(clean, world, max, Tar, files, dirs).run.processed == SizeSum(files, |files|)
  {
    BeginUpTo(clean, world, max, files, Tar);
    var filled, end := SuccessParts(clean, world, max, Tar, files, dirs);
    FilesAreWhole(clean, world, max, files, 0, Begin(Tar));
    DirsAreAll(clean, world, dirs, 0, filled);
    forall i | 0 <= i < |files|
      ensures |BodyOf(world, files[i])| <= files[i].size
    {
      FilesAreDone(clean, world, max, files, 0, Begin(Tar), i);
    }
    SumsAgree(world, files, |files|);
  }

  /** What a run needs apart from a writer that does not fail. */
  ghost predicate Acceptable(clean: Cleaner, world: World, max: nat, format: ExportType,
      files: seq<ArchiveFile>, dirs: seq<ArchiveFolder>) {
    && (forall i {:trigger FileOk(clean, world, max, files, i)} ::
          0 <= i < |files| ==> FileOk(clean, world, max, files, i))
    && (forall i :: 0 <= i < |dirs| ==> clean(dirs[i].path).Some?)
    && (format == Tar ==> SizesTrue(world, files))
  }

  /** With a writer that does not fail, a run succeeds if and only if it is acceptable. */
  lemma {:induction false} SuccessExactly(clean: Cleaner, world: World, max: nat, format: ExportType,
      files: seq<ArchiveFile>, dirs: seq<ArchiveFolder>)
    requires max < MAX_INT64 && Faultless(world)
    ensures Generated(clean, world, max, format, files, dirs).Finish? <==>
            Acceptable(clean, world, max, format, files, dirs)
  {
    if Generated(clean, world, max, format, files, dirs).Finish? {
      SuccessMeans(clean, world, max, format, files, dirs);
      forall i | 0 <= i < |files|
        ensures FileOk(clean, world, max, files, i)
      {
        assert FileDone(clean, world, max, format, files, i);
      }
      if format == Tar {
        TarSizesTrue(clean, world, max, files, dirs);
      }
    } else if Acceptable(clean, world, max, format, files, dirs) {
      AcceptableSucceeds(clean, world, max, format, files, dirs);
    }
  }

  lemma {:induction false} AcceptableSucceeds(clean: Cleaner, world: World, max: nat, format: ExportType,
      files: seq<ArchiveFile>, dirs: seq<ArchiveFolder>)
    requires max < MAX_INT64 && Faultless(world) && Acceptable(clean, world, max, format, files, dirs)
    ensures Generated(clean, world, max, format, files, dirs).Finish?
  {
    BeginUpTo(clean, world, max, files, format);
    assert Begin(format).writer.format == format;
    FilesGoThrough(clean, world, max, files, 0, Begin(format));
    FilesAreWhole(clean, world, max, files, 0, Begin(format));
    if format == Tar {
      SumsAgree(world, files, |files|);
    }
    var filled := FilesWritten(clean, world, max, files, 0, Begin(format)).run;
    DirsGoThrough(clean, world, dirs, 0, filled);
    DirsAreAll(clean, world, dirs, 0, filled);
  }

  /** The prefix-sum reading of the cap. */
  predicate WithinCap(world: World, max: nat, files: seq<ArchiveFile>) {
    forall k :: 0 <= k < |files| ==> RoomAt(world, max, files, k)
  }

  predicate RoomAt(world: World, max: nat, files: seq<ArchiveFile>, k: nat)
    requires k < |files|
  {
    BodySum(world, files, k) + files[k].size <= max && BodySum(world, files, k + 1) <= max
  }

  /** No fetch, path or context failure. */
  ghost predicate Untroubled(clean: Cleaner, world: World, files: seq<ArchiveFile>, dirs: seq<ArchiveFolder>) {
    && (forall i :: 0 <= i < |files| ==> clean(files[i].path).Some? && Fetched(world, files[i]) && !world.cancelled(i))
    && (forall i :: 0 <= i < |dirs| ==> clean(dirs[i].path).Some?)
  }

  /** Untroubled ZIP runs succeed exactly within the cap, as long as no sum of the cap and a
      declared size leaves 64 bits. */
  lemma {:induction false} ZipCapExact(clean: Cleaner, world: World, max: nat, files: seq<ArchiveFile>,
      dirs: seq<ArchiveFolder>)
    requires max < MAX_INT64 && Faultless(world) && Untroubled(clean, world, files, dirs)
    requires forall i :: 0 <= i < |files| ==> max + files[i].size <= MAX_INT64
    ensures Generated(clean, world, max, Zip, files, dirs).Finish? <==> WithinCap(world, max, files)
  {
    SuccessExactly(clean, world, max, Zip, files, dirs);
    if WithinCap(world, max, files) {
      forall k | 0 <= k < |files|
        ensures FileOk(clean, world, max, files, k)
      {
        assert RoomAt(world, max, files, k);
      }
    }
    if Acceptable(clean, world, max, Zip, files, dirs) {
      forall k | 0 <= k < |files|
        ensures RoomAt(world, max, files, k)
      {
        assert FileOk(clean, world, max, files, k);
        assert k > 0 ==> FileOk(clean, world, max, files, k - 1);
      }
    }
  }

  /** TAR: what was checked before the run, that the declared sizes fit the cap, makes the
      size-limit error unreachable. */
  lemma {:induction false} TarNeverOverCap(clean: Cleaner, world: World, max: nat, files: seq<ArchiveFile>,
      dirs: seq<ArchiveFolder>)
    requires max < MAX_INT64 && SizeSum(files, |files|) <= max
    ensures var out := Generated(clean, world, max, Tar, files, dirs); out.Stop? ==> out.why != OverCap
  {
    BeginUpTo(clean, world, max, files, Tar);
    TarFilesNeverOverCap(clean, world, max, files, 0, Begin(Tar));
    var out := FilesWritten(clean, world, max, files, 0, Begin(Tar));
    if out.Finish? {
      DirsKeepContent(clean, world, dirs, 0, out.run);
    }
  }

  lemma {:induction false} SizeSumGrows(files: seq<ArchiveFile>, j: nat, k: nat)
    requires j <= k <= |files|
    ensures SizeSum(files, j) <= SizeSum(files, k)
  {
    if j < k {
      SizeSumGrows(files, j, k - 1);
    }
  }

  lemma {:induction false} TarFilesNeverOverCap(clean: Cleaner, world: World, max: nat, files: seq<ArchiveFile>,
      k: nat, run: Progress)
    requires max < MAX_INT64 && k <= |files| && UpToFile(clean, world, max, files, k, run)
    requires run.writer.format == Tar && SizeSum(files, |files|) <= max
    ensures var out := FilesWritten(clean, world, max, files, k, run); out.Stop? ==> out.why != OverCap
    decreases |files| - k
  {
    if k < |files| && clean(files[k].path).Some? {
      SizeSumGrows(files, k + 1, |files|);
      FileGoesThrough(world, max, clean(files[k].path).value, files[k], run);
      var out := FileWritten(world, max, clean(files[k].path).value, files[k], run);
      if !world.cancelled(k) && out.Finish? {
        FileStep(clean, world, max, files, k, run);
        TarFilesNeverOverCap(clean, world, max, files, k + 1, Reported(out.run, k + 1));
      }
    }
  }

  // ----- the cap at the top of the 64-bit range -----

  /** The world in which every fetch delivers nothing. */
  function Drained(world: World): World {
    world.(fetch := (f: ArchiveFile) => Body("", false))
  }

  /** With the largest cap the reader's limit wraps below zero, so nothing is copied. */
  lemma {:induction false} FilesDrained(clean: Cleaner, world: World, files: seq<ArchiveFile>, k: nat, run: Progress)
    requires k <= |files| && run.processed == 0
    requires run.writer.entries == FileEntries(clean, Drained(world), files)[..k]
    requires FilesWritten(clean, world, MAX_INT64, files, k, run).Finish?
    ensures var end := FilesWritten(clean, world, MAX_INT64, files, k, run).run;
            end.processed == 0 && end.writer.entries == FileEntries(clean, Drained(world), files)
    decreases |files| - k
  {
    var entries := FileEntries(clean, Drained(world), files);
    if k == |files| {
      assert entries[..k] == entries;
    } else {
      var out := FileWritten(world, MAX_INT64, clean(files[k].path).value, files[k], run);
      assert Allowance(MAX_INT64, 0) == -MAX_INT64 - 1;
      assert out.run.writer.entries == run.writer.entries + [FileEntry(clean(files[k].path).value, "")];
      assert entries[..k + 1] == entries[..k] + [entries[k]];
      FilesDrained(clean, world, files, k + 1, Reported(out.run, k + 1));
    }
  }

  /** A run that succeeds under the largest cap has emptied every file. */
  lemma {:induction false} LargestCapDrains(clean: Cleaner, world: World, format: ExportType,
      files: seq<ArchiveFile>, dirs: seq<ArchiveFolder>)
    requires Generated(clean, world, MAX_INT64, format, files, dirs).Finish?
    ensures var run := Generated(clean, world, MAX_INT64, format, files, dirs).run;
            && run.processed == 0
            && run.writer.entries == FileEntries(clean, Drained(world), files) + DirEntries(clean, dirs)
  {
    var filled, end := SuccessParts(clean, world, MAX_INT64, format, files, dirs);
    assert FileEntries(clean, Drained(world), files)[..0] == [];
    FilesDrained(clean, world, files, 0, Begin(format));
    DirsAreAll(clean, world, dirs, 0, filled);
    assert DirEntries(clean, dirs)[0..] == DirEntries(clean, dirs);
  }

  /** Success means a whole archive exactly when the cap is below the largest 64-bit integer, or
      there was nothing to lose. */
  lemma {:induction false} WholeExactly(clean: Cleaner, world: World, max: nat, format: ExportType,
      files: seq<ArchiveFile>, dirs: seq<ArchiveFolder>)
    requires max <= MAX_INT64 && Generated(clean, world, max, format, files, dirs).Finish?
    ensures var entries := Generated(clean, world, max, format, files, dirs).run.writer.entries;
            entries == FileEntries(clean, world, files) + DirEntries(clean, dirs) <==>
            max < MAX_INT64 || forall i :: 0 <= i < |files| ==> BodyOf(world, files[i]) == ""
  {
    if max < MAX_INT64 {
      SuccessIsWhole(clean, world, max, format, files, dirs);
    } else {
      LargestCapDrains(clean, world, format, files, dirs);
      var whole, drained := FileEntries(clean, world, files), FileEntries(clean, Drained(world), files);
      var rest := DirEntries(clean, dirs);
      if whole + rest == drained + rest {
        assert whole == (whole + rest)[..|files|] && drained == (drained + rest)[..|files|];
        assert forall i :: 0 <= i < |files| ==> whole[i] == drained[i];
      } else {
        assert whole != drained;
      }
    }
  }

  // ----- what a failure means -----

  /** Some call on the writer fails, or a TAR body is not as long as declared. */
  ghost predicate WriterTrouble(world: World, format: ExportType, files: seq<ArchiveFile>) {
    || (exists n: nat :: world.faulty(n))
    || (format == Tar && exists i :: 0 <= i < |files| && |BodyOf(world, files[i])| != files[i].size)
  }

  /** `why` is true of the `k`-th file, with the bodies before it written. */
  ghost predicate FileReason(clean: Cleaner, world: World, max: nat, format: ExportType, files: seq<ArchiveFile>,
      k: nat, why: Failure)
    requires k < |files|
  {
    var f, before := files[k], BodySum(world, files, k);
    match why
    case ContextDone => world.cancelled(k)
    case BadPath => clean(f.path).None?
    case OverCap => Wrap64(before + f.size) > max || (world.fetch(f).Body? && before + |BodyOf(world, f)| > max)
    case FetchFailed => world.fetch(f).Unreachable?
    case ReadFailed => world.fetch(f).Body? && world.fetch(f).broken && before + |BodyOf(world, f)| <= max
    case WriterFailed => WriterTrouble(world, format, files)
  }

  /** A copy fails only for a failing call or for a TAR entry that is full. */
  lemma {:induction false} CopyFails(w: Writer, world: World, data: Bytes)
    requires WriterOk(w) && OpenFile(w) && !Copied(w, world, data).1
    ensures (exists n: nat :: world.faulty(n)) || (w.format == Tar && |data| > w.owed)
  {
    if !exists n: nat :: world.faulty(n) {
      var m := CopyIsWhole(w, world, data);
    }
  }

  /** Why `writeFile` fails, and what it leaves: at most one more entry, at the file's path, that
      holds a prefix of the body. */
  lemma {:induction false} FileStops(clean: Cleaner, world: World, max: nat, files: seq<ArchiveFile>, k: nat,
      path: string, run: Progress)
    requires max < MAX_INT64 && k < |files| && UpToFile(clean, world, max, files, k, run)
    requires FileWritten(world, max, path, files[k], run).Stop?
    ensures var out := FileWritten(world, max, path, files[k], run);
            && FileReason(clean, world, max, run.writer.format, files, k, out.why)
            && out.run.reports == run.reports
            && (|| out.run.writer.entries == run.writer.entries
                || exists body :: body <= BodyOf(world, files[k])
                                  && out.run.writer.entries == run.writer.entries + [FileEntry(path, body)])
  {
    var f := files[k];
    if world.fetch(f).Body? && FileCreated(run.writer, world, path, f.size).1 {
      var begun, data, m := FileStages(world, max, path, f, run);
      assert data[..m] <= BodyOf(world, f);
      if !Copied(begun, world, data).1 {
        CopyFails(begun, world, data);
      }
    } else if world.fetch(f).Body? && run.writer.owed > 0 {
      Owing(world, files, k);
    }
  }

  /** A TAR entry is owed bytes only if some body was not as long as declared. */
  lemma {:induction false} Owing(world: World, files: seq<ArchiveFile>, k: nat)
    requires k <= |files| && SizeSum(files, k) != BodySum(world, files, k)
    ensures exists i :: 0 <= i < |files| && |BodyOf(world, files[i])| != files[i].size
  {
    if |BodyOf(world, files[k - 1])| == files[k - 1].size {
      Owing(world, files, k - 1);
    }
  }

  /** The file loop stopped at the `k`-th file: the ones before it are whole in the archive and
      were reported one by one, and the reason is true of that file. */
  ghost predicate StoppedAt(clean: Cleaner, world: World, max: nat, format: ExportType, files: seq<ArchiveFile>,
      k: nat, out: Outcome)
    requires k < |files| && out.Stop?
  {
    && FileReason(clean, world, max, format, files, k, out.why)
    && out.run.reports == Reports(world, files, k)
    && (|| out.run.writer.entries == FileEntries(clean, world, files)[..k]
        || (exists body :: body <= BodyOf(world, files[k])
              && out.run.writer.entries ==
                 FileEntries(clean, world, files)[..k] + [FileEntry(CleanPath(clean, files[k].path), body)]))
  }

  lemma {:induction false} FilesStop(clean: Cleaner, world: World, max: nat, files: seq<ArchiveFile>, k: nat,
      run: Progress)
      returns (at: nat)
    requires max < MAX_INT64 && k <= |files| && UpToFile(clean, world, max, files, k, run)
    requires FilesWritten(clean, world, max, files, k, run).Stop?
    ensures k <= at < |files|
    ensures StoppedAt(clean, world, max, run.writer.format, files, at,
                      FilesWritten(clean, world, max, files, k, run))
    decreases |files| - k
  {
    at := k;
    if !world.cancelled(k) && clean(files[k].path).Some? && Wrap64(run.processed + files[k].size) <= max {
      var path := clean(files[k].path).value;
      var out := FileWritten(world, max, path, files[k], run);
      if out.Finish? {
        FileStep(clean, world, max, files, k, run);
        at := FilesStop(clean, world, max, files, k + 1, Reported(out.run, k + 1));
      } else {
        FileStops(clean, world, max, files, k, path, run);
      }
    }
  }

  /** `why` is true of the folders, with all files written. */
  ghost predicate DirReason(clean: Cleaner, world: World, format: ExportType, files: seq<ArchiveFile>,
      dirs: seq<ArchiveFolder>, why: Failure) {
    || (why == BadPath && exists i :: 0 <= i < |dirs| && clean(dirs[i].path).None?)
    || (why == WriterFailed && WriterTrouble(world, format, files))
  }

  lemma {:induction false} DirsStop(clean: Cleaner, world: World, files: seq<ArchiveFile>, dirs: seq<ArchiveFolder>,
      k: nat, run: Progress)
    requires k <= |dirs| && DirsWritten(clean, world, dirs, k, run).Stop?
    requires run.writer.owed > 0 ==> WriterTrouble(world, run.writer.format, files)
    ensures var out := DirsWritten(clean, world, dirs, k, run);
            && DirReason(clean, world, run.writer.format, files, dirs, out.why)
            && out.run.reports == run.reports
            && run.writer.entries <= out.run.writer.entries
            && out.run.writer.entries <= run.writer.entries + DirEntries(clean, dirs)[k..]
    decreases |dirs| - k
  {
    var wanted := DirEntries(clean, dirs);
    assert wanted[k..] == [wanted[k]] + wanted[k + 1..];
    if clean(dirs[k].path).Some? {
      var (next, ok) := DirCreated(run.writer, world, clean(dirs[k].path).value);
      if ok {
        assert next.entries + wanted[k + 1..] == run.writer.entries + wanted[k..];
        DirsStop(clean, world, files, dirs, k + 1, run.(writer := next));
      }
    }
  }

  /** The run stopped after the file loop: every file is whole in the archive, then some of the
      empty folders. */
  ghost predicate StoppedAfter(clean: Cleaner, world: World, format: ExportType, files: seq<ArchiveFile>,
      dirs: seq<ArchiveFolder>, out: Outcome)
    requires out.Stop?
  {
    && DirReason(clean, world, format, files, dirs, out.why)
    && out.run.reports == Reports(world, files, |files|)
    && FileEntries(clean, world, files) <= out.run.writer.entries
    && out.run.writer.entries <= FileEntries(clean, world, files) + DirEntries(clean, dirs)
  }

  /** A run that fails gives a reason that is true, of one file or of the folders; the files
      before it are whole in what is left behind and were reported with their running totals. */
  lemma {:induction false} StopMeans(clean: Cleaner, world: World, max: nat, format: ExportType,
      files: seq<ArchiveFile>, dirs: seq<ArchiveFolder>)
    requires max < MAX_INT64 && Generated(clean, world, max, format, files, dirs).Stop?
    ensures var out := Generated(clean, world, max, format, files, dirs);
            || (exists k :: 0 <= k < |files| && StoppedAt(clean, world, max, format, files, k, out))
            || StoppedAfter(clean, world, format, files, dirs, out)
  {
    BeginUpTo(clean, world, max, files, format);
    var first := FilesWritten(clean, world, max, files, 0, Begin(format));
    if first.Stop? {
      var k := FilesStop(clean, world, max, files, 0, Begin(format));
    } else {
      FilesAreWhole(clean, world, max, files, 0, Begin(format));
      LateStop(clean, world, max, files, dirs, first.run);
    }
  }

  lemma {:induction false} LateStop(clean: Cleaner, world: World, max: nat, files: seq<ArchiveFile>,
      dirs: seq<ArchiveFolder>, run: Progress)
    requires UpToFile(clean, world, max, files, |files|, run)
    ensures var out := match DirsWritten(clean, world, dirs, 0, run)
                       case Stop(why, q) => Stop(why, q)
                       case Finish(q) => Closed(world, q);
            out.Stop? ==> StoppedAfter(clean, world, run.writer.format, files, dirs, out)
  {
    var whole, wanted := FileEntries(clean, world, files), DirEntries(clean, dirs);
    assert whole[..|files|] == whole && wanted[0..] == wanted;
    if run.writer.owed > 0 {
      Owing(world, files, |files|);
    }
    if DirsWritten(clean, world, dirs, 0, run).Stop? {
      DirsStop(clean, world, files, dirs, 0, run);
    } else {
      DirsAreAll(clean, world, dirs, 0, run);
    }
  }
}
