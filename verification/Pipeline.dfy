/** One job's archive, from the database snapshot to the finished file. */
module Pipeline {
  import opened Model
  import opened Naming
  import opened FolderTree
  import opened FileQuery
  import opened Keyset
  import opened Generator
  import opened GenerateLoop
  import opened Manifest
  import opened EndToEnd
  import S = Sanitize

  /** The archive is the folder tree: one whole entry per file that belongs, and the folders of
      the live tree as its directories. */
  ghost predicate IsTheTree(db: Database, root: FolderId, top: string, world: World, entries: seq<Entry>) {
    && (exists which :: HasExactly(db, root, top, world, entries, which))
    && (forall d :: Implied(entries, d) <==> IsFolderPath(db, root, top, d))
  }

  /** A job fails exactly when the declared total is over the cap or the run stops. */
  ghost function Expected(db: Database, rows: seq<Row>, lt: Order, top: string, world: World, max: nat,
      format: ExportType): Option<seq<Entry>>
    requires StrictTotal(lt) && FileKeyUnique(db.files) && DistinctRows(rows)
  {
    ExpectedFrom(ManifestOf(db, rows, lt, top), world, max, format)
  }

  function ExpectedFrom(m: ArchiveManifest, world: World, max: nat, format: ExportType): Option<seq<Entry>> {
    if m.totalBytes > max then None
    else
      match Generated(S.Sanitize, world, max, format, m.files, m.emptyFolders)
      case Stop(_, _) => None
      case Finish(run) => Some(run.writer.entries)
  }

  /** What becomes of a job over this listing of its tree. */
  ghost predicate IsResult(db: Database, root: FolderId, rows: seq<Row>, lt: Order, top: string, world: World, max: nat,
      format: ExportType, archive: Option<seq<Entry>>)
    requires StrictTotal(lt) && FileKeyUnique(db.files)
  {
    && ListsTree(db.folders, root, rows)
    && archive == Expected(db, rows, lt, top, world, max, format)
    && (OverDeclared(db, rows, lt, top, max) ==> archive == None)
  }

  /** Validates the name as the client sent it, builds the manifest, checks its total against
      the cap, and generates the archive; `None` is a request refused or a job that fails. */
  method MakeArchive(db: Database, root: FolderId, raw: string, lt: Order, le: PathOrder, world: World, max: nat,
      format: ExportType)
      returns (archive: Option<seq<Entry>>)
    requires DatabaseOk(db, root) && StrictTotal(lt) && PathOrderOk(le)
    ensures ValidateArchiveName(raw).None? ==> archive == None
    ensures ValidateArchiveName(raw).Some? ==>
              var top := RootDir(ValidateArchiveName(raw).value);
              exists rows :: IsResult(db, root, rows, lt, top, world, max, format, archive)
    ensures archive.Some? && NamesOk(db, root) && max < MAX_INT64 ==>
              && IsTheTree(db, root, RootDir(ValidateArchiveName(raw).value), world, archive.value)
              && Content(archive.value) <= max
  {
    var valid := ValidateArchiveName(raw);
    if valid.None? {
      return None;
    }
    RootIsSafe(raw);
    ghost var rows;
    archive, rows := MakeNamed(db, root, valid.value, lt, le, world, max, format);
    if archive.Some? && NamesOk(db, root) && max < MAX_INT64 {
      SuccessIsTree(db, root, lt, RootDir(valid.value), rows, world, max, format);
    }
  }

  method MakeNamed(db: Database, root: FolderId, name: string, lt: Order, le: PathOrder, world: World, max: nat,
      format: ExportType)
      returns (archive: Option<seq<Entry>>, ghost rows: seq<Row>)
    requires DatabaseOk(db, root) && StrictTotal(lt) && PathOrderOk(le)
    ensures IsResult(db, root, rows, lt, RootDir(name), world, max, format, archive)
  {
    var made := BuildManifest(db, seq(|db.files| + 1, _ => db), root, name, lt, le, false);
    rows := FixedManifest(db, root, lt, le, RootDir(name), made);
    archive := CheckAndGenerate(made.value, world, max, format);
  }

  /** The declared sizes of the files of the tree sum to more than the cap, within 64 bits. */
  ghost predicate OverDeclared(db: Database, rows: seq<Row>, lt: Order, top: string, max: nat)
    requires StrictTotal(lt) && FileKeyUnique(db.files) && DistinctRows(rows)
  {
    var files := ManifestOf(db, rows, lt, top).files;
    max < SizeSum(files, |files|) <= MAX_INT64
  }

  method CheckAndGenerate(m: ArchiveManifest, world: World, max: nat, format: ExportType)
      returns (archive: Option<seq<Entry>>)
    ensures archive == ExpectedFrom(m, world, max, format)
  {
    if m.totalBytes > max {
      return None;
    }
    var failure, aw, processed, reports := Generate(world, max, format, m.files, m.emptyFolders);
    if failure.Some? {
      return None;
    }
    return Some(aw.entries);
  }

  lemma {:induction false} SuccessIsTree(db: Database, root: FolderId, lt: Order, top: string, rows: seq<Row>,
      world: World, max: nat, format: ExportType)
    requires Succeeds(db, root, lt, top, rows, world, max, format)
    ensures var entries := EntriesOf(db, root, lt, top, rows, world, max, format);
            IsTheTree(db, root, top, world, entries) && Content(entries) <= max
  {
    var entries := EntriesOf(db, root, lt, top, rows, world, max, format);
    var which := FilesAreTheTree(db, root, lt, top, rows, world, max, format);
    forall d ensures Implied(entries, d) <==> IsFolderPath(db, root, top, d) {
      FoldersAreTheTree(db, root, lt, top, rows, world, max, format, d);
    }
    var m := ManifestOf(db, rows, lt, top);
    ContentOfSuccess(S.Sanitize, world, max, format, m.files, m.emptyFolders);
  }

  /** With a writer that does not fail the job gives the whole archive if its total is within the
      cap and nothing stands in the way of the run, and nothing otherwise. */
  lemma {:induction false} MadeExactly(m: ArchiveManifest, world: World, max: nat, format: ExportType)
    requires max < MAX_INT64 && Faultless(world)
    ensures ExpectedFrom(m, world, max, format) ==
            if m.totalBytes <= max && Acceptable(S.Sanitize, world, max, format, m.files, m.emptyFolders)
            then Some(FileEntries(S.Sanitize, world, m.files) + DirEntries(S.Sanitize, m.emptyFolders))
            else None
  {
    SuccessExactly(S.Sanitize, world, max, format, m.files, m.emptyFolders);
    if Generated(S.Sanitize, world, max, format, m.files, m.emptyFolders).Finish? {
      SuccessIsWhole(S.Sanitize, world, max, format, m.files, m.emptyFolders);
    }
  }

  lemma {:induction false} HonestFits(world: World, max: nat, files: seq<ArchiveFile>, dirs: seq<ArchiveFolder>,
      format: ExportType)
    requires max < MAX_INT64 && Untroubled(S.Sanitize, world, files, dirs) && SizesTrue(world, files)
    requires SizeSum(files, |files|) <= max
    ensures Acceptable(S.Sanitize, world, max, format, files, dirs)
  {
    forall k | 0 <= k < |files|
      ensures FileOk(S.Sanitize, world, max, files, k)
    {
      SumsAgree(world, files, k);
      SumsAgree(world, files, k + 1);
      SizeSumGrows(files, k + 1, |files|);
    }
  }

  /** When the declared sizes are true, sum within 64 bits, and no fetch, path, context or writer
      fails, the job of this manifest succeeds exactly when the sizes sum to at most the cap. */
  lemma {:induction false} HonestExactly(rows: seq<Row>, listed: seq<ArchiveFile>, top: string, world: World,
      max: nat, format: ExportType)
    requires var m := ManifestFrom(rows, listed, top);
             && max < MAX_INT64 && Faultless(world) && Untroubled(S.Sanitize, world, m.files, m.emptyFolders)
             && SizesTrue(world, m.files) && SizeSum(m.files, |m.files|) <= MAX_INT64
    ensures var m := ManifestFrom(rows, listed, top);
            ExpectedFrom(m, world, max, format).Some? <==> SizeSum(m.files, |m.files|) <= max
  {
    var m := ManifestFrom(rows, listed, top);
    ManifestTotals(rows, listed, top);
    MadeExactly(m, world, max, format);
    if SizeSum(m.files, |m.files|) <= max {
      HonestFits(world, max, m.files, m.emptyFolders, format);
    }
  }
}
