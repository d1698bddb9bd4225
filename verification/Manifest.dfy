/** `buildManifest`: the folder tree and its files, rebased onto the chosen name, with the
    folders that need an entry of their own and the declared totals. */
module Manifest {
  import opened Model
  import opened Naming
  import opened FolderTree
  import opened FileQuery
  import opened Keyset
  import opened EmptyFolders
  import opened Generator

  datatype Database = Database(folders: seq<Folder>, files: seq<StoredFile>, versions: seq<Version>)

  datatype ArchiveManifest = ArchiveManifest(
    files: seq<ArchiveFile>,
    emptyFolders: seq<ArchiveFolder>,
    totalFiles: nat,
    totalBytes: int)

  ghost predicate DatabaseOk(db: Database, root: FolderId) {
    KeyUnique(db.folders) && Acyclic(db.folders, root) && FileKeyUnique(db.files)
  }

  function FoldersOf(rows: seq<Row>): (folders: seq<ArchiveFolder>)
    ensures |folders| == |rows|
    ensures forall i :: 0 <= i < |rows| ==> folders[i] == ArchiveFolder(rows[i].id, rows[i].name, rows[i].path)
  {
    seq(|rows|, i requires 0 <= i < |rows| => ArchiveFolder(rows[i].id, rows[i].name, rows[i].path))
  }

  function RebasedFile(f: ArchiveFile, top: string): ArchiveFile {
    f.(path := Rebase(f.path, top))
  }

  function RebasedFiles(files: seq<ArchiveFile>, top: string): (r: seq<ArchiveFile>)
    ensures |r| == |files| && forall i :: 0 <= i < |files| ==> r[i] == RebasedFile(files[i], top)
  {
    seq(|files|, i requires 0 <= i < |files| => RebasedFile(files[i], top))
  }

  /** The 64-bit running sum of the first `k` declared sizes. */
  function TotalBytes(files: seq<ArchiveFile>, k: nat): int
    requires k <= |files|
  {
    if k == 0 then 0 else Wrap64(TotalBytes(files, k - 1) + files[k - 1].size)
  }

  /** `rows` lists the live tree below `root`, each folder once. */
  ghost predicate ListsTree(table: seq<Folder>, root: FolderId, rows: seq<Row>) {
    DistinctRows(rows) && forall row :: row in rows <==> InTree(table, root, row)
  }

  /** The manifest made of these folder rows and these files. */
  function ManifestFrom(rows: seq<Row>, listed: seq<ArchiveFile>, top: string): ArchiveManifest {
    var files := RebasedFiles(listed, top);
    ArchiveManifest(files,
                    WithoutFiles(RebasedFolders(FoldersOf(rows), top), PathsOf(files)),
                    |files|, TotalBytes(files, |files|))
  }

  /** What the manifest of one snapshot should be. */
  ghost function ManifestOf(db: Database, rows: seq<Row>, lt: Order, top: string): ArchiveManifest
    requires StrictTotal(lt) && FileKeyUnique(db.files) && DistinctRows(rows)
  {
    OneRowPerFile(rows, db.files, db.versions);
    ManifestFrom(rows, Listing(FileSet(rows, db.files, db.versions), lt), top)
  }

  /** `found` is what the file query resolves on this database. */
  ghost predicate IsFileSet(db: Database, root: FolderId, found: set<ArchiveFile>) {
    exists rows :: ListsTree(db.folders, root, rows) && found == FileSet(rows, db.files, db.versions)
  }

  ghost predicate AreFileSets(dbs: seq<Database>, root: FolderId, found: seq<set<ArchiveFile>>) {
    |found| == |dbs| && forall i :: 0 <= i < |dbs| ==> IsFileSet(dbs[i], root, found[i])
  }

  lemma {:induction false} FileSetsUnique(dbs: seq<Database>, root: FolderId, found: seq<set<ArchiveFile>>)
    requires AreFileSets(dbs, root, found)
    requires forall i :: 0 <= i < |dbs| ==> DatabaseOk(dbs[i], root)
    ensures SnapshotsOk(found)
  {
    forall i | 0 <= i < |found| ensures KeysUnique(found[i]) {
      var rows :| ListsTree(dbs[i].folders, root, rows) && found[i] == FileSet(rows, dbs[i].files, dbs[i].versions);
      OneRowPerFile(rows, dbs[i].files, dbs[i].versions);
    }
  }

  /** The manifest read from a database that may change from query to query: the folder rows as
      `tree` has them, the files as the successive `pages` have them. */
  ghost predicate IsManifestWith(tree: Database, pages: seq<Database>, root: FolderId, lt: Order, le: PathOrder,
      top: string, rows: seq<Row>, found: seq<set<ArchiveFile>>, m: Option<ArchiveManifest>)
    requires StrictTotal(lt)
  {
    && ListsTree(tree.folders, root, rows) && InOrder(rows, le)
    && AreFileSets(pages, root, found) && SnapshotsOk(found)
    && m == match Pages(found, 0, None, lt, FILES_PAGE_SIZE)
            case None => None
            case Some(listed) => Some(ManifestFrom(rows, listed, top))
  }

  ghost predicate IsManifest(tree: Database, pages: seq<Database>, root: FolderId, lt: Order, le: PathOrder,
      top: string, m: Option<ArchiveManifest>)
    requires StrictTotal(lt)
  {
    exists rows, found :: IsManifestWith(tree, pages, root, lt, le, top, rows, found, m)
  }

  /** The file query on each of the databases. */
  method ResolveFiles(dbs: seq<Database>, root: FolderId) returns (found: seq<set<ArchiveFile>>)
    requires forall i :: 0 <= i < |dbs| ==> DatabaseOk(dbs[i], root)
    ensures AreFileSets(dbs, root, found)
  {
    found := [];
    for i := 0 to |dbs|
      invariant |found| == i && forall j :: 0 <= j < i ==> IsFileSet(dbs[j], root, found[j])
    {
      var rows := WalkTree(dbs[i].folders, root);
      found := found + [FileSet(rows, dbs[i].files, dbs[i].versions)];
    }
  }

  /** `None` is an error: the folder query fails, or the file query after the last of the `pages`
      does. */
  method BuildManifest(tree: Database, pages: seq<Database>, root: FolderId, archiveName: string, lt: Order,
      le: PathOrder, fault: bool)
      returns (m: Option<ArchiveManifest>)
    requires DatabaseOk(tree, root) && (forall i :: 0 <= i < |pages| ==> DatabaseOk(pages[i], root))
    requires StrictTotal(lt) && PathOrderOk(le)
    ensures fault ==> m == None
    ensures !fault ==> IsManifest(tree, pages, root, lt, le, RootDir(archiveName), m)
    ensures m.Some? ==> TotalsTrue(m.value)
  {
    var tried := GetFolderTree(tree.folders, root, le, fault);
    if tried.None? {
      return None;
    }
    var rows := tried.value;
    var found := ResolveFiles(pages, root);
    FileSetsUnique(pages, root, found);
    var listed := GetFiles(found, lt);
    if listed.None? {
      m := None;
      assert IsManifestWith(tree, pages, root, lt, le, RootDir(archiveName), rows, found, m);
      return;
    }
    var made := Assemble(rows, listed.value, RootDir(archiveName));
    m := Some(made);
    assert IsManifestWith(tree, pages, root, lt, le, RootDir(archiveName), rows, found, m);
  }

  /** The manifest counts its files, and totals their sizes whenever the sum is a 64-bit integer. */
  predicate TotalsTrue(m: ArchiveManifest) {
    && m.totalFiles == |m.files|
    && (SizeSum(m.files, |m.files|) <= MAX_INT64 ==> m.totalBytes == SizeSum(m.files, |m.files|))
  }

  method Assemble(rows: seq<Row>, listed: seq<ArchiveFile>, top: string) returns (m: ArchiveManifest)
    ensures m == ManifestFrom(rows, listed, top) && TotalsTrue(m)
  {
    var folders := RebaseFolders(FoldersOf(rows), top);
    var files := RebaseFiles(listed, top);
    var totalBytes := 0;
    for i := 0 to |files|
      invariant totalBytes == TotalBytes(files, i)
    {
      totalBytes := Wrap64(totalBytes + files[i].size);
    }
    var empty := ComputeEmptyFolders(folders, files);
    m := ArchiveManifest(files, empty, |files|, totalBytes);
    ManifestTotals(rows, listed, top);
  }

  lemma {:induction false} SizesFit(files: seq<ArchiveFile>, k: nat)
    requires k <= |files| && SizeSum(files, k) <= MAX_INT64
    ensures forall i :: 0 <= i < k ==> files[i].size <= MAX_INT64
  {
    if k > 0 {
      SizesFit(files, k - 1);
    }
  }

  lemma {:induction false} ManifestTotals(rows: seq<Row>, listed: seq<ArchiveFile>, top: string)
    ensures TotalsTrue(ManifestFrom(rows, listed, top))
  {
    var files := ManifestFrom(rows, listed, top).files;
    if SizeSum(files, |files|) <= MAX_INT64 {
      SizesFit(files, |files|);
      TotalExactly(files);
    }
  }

  // ----- one snapshot for all queries -----

  /** The files depend on the folder rows only as a set. */
  lemma {:induction false} SameFileSet(db: Database, a: seq<Row>, b: seq<Row>)
    requires forall row :: row in a ==> row in b
    ensures FileSet(a, db.files, db.versions) <= FileSet(b, db.files, db.versions)
  {
    forall f | f in FileSet(a, db.files, db.versions) ensures f in FileSet(b, db.files, db.versions) {
      var row, stored := ResolveSource(a, db.files, db.versions, f);
      ResolveComplete(b, db.files, db.versions, row, stored);
    }
  }

  lemma {:induction false} FileSetIs(db: Database, root: FolderId, rows: seq<Row>, found: set<ArchiveFile>)
    requires ListsTree(db.folders, root, rows) && IsFileSet(db, root, found)
    ensures found == FileSet(rows, db.files, db.versions)
  {
    var other :| ListsTree(db.folders, root, other) && found == FileSet(other, db.files, db.versions);
    SameFileSet(db, rows, other);
    SameFileSet(db, other, rows);
  }

  function IdsOf(files: set<ArchiveFile>): set<string> {
    set f | f in files :: f.fileId
  }

  function StoredIds(files: seq<StoredFile>): set<string> {
    set f | f in files :: f.id
  }

  lemma {:induction false} FewStoredIds(files: seq<StoredFile>)
    ensures |StoredIds(files)| <= |files|
  {
    if files != [] {
      FewStoredIds(files[1..]);
      assert files == [files[0]] + files[1..];
      assert StoredIds(files) == {files[0].id} + StoredIds(files[1..]);
    }
  }

  lemma {:induction false} ManyIds(files: set<ArchiveFile>)
    requires forall a, b :: a in files && b in files ==> a.fileId == b.fileId ==> a == b
    ensures |IdsOf(files)| == |files|
    decreases |files|
  {
    if files != {} {
      var f :| f in files;
      ManyIds(files - {f});
      assert IdsOf(files) == IdsOf(files - {f}) + {f.fileId};
    }
  }

  lemma {:induction false} FewFiles(db: Database, rows: seq<Row>)
    requires DistinctRows(rows) && FileKeyUnique(db.files)
    ensures |FileSet(rows, db.files, db.versions)| <= |db.files|
  {
    var found := FileSet(rows, db.files, db.versions);
    OneRowPerFile(rows, db.files, db.versions);
    ManyIds(found);
    forall f | f in found ensures f.fileId in StoredIds(db.files) {
      var row, stored := ResolveSource(rows, db.files, db.versions, f);
    }
    FewStoredIds(db.files);
    NoLarger(IdsOf(found), StoredIds(db.files));
  }

  lemma {:induction false} NoLarger(a: set<string>, b: set<string>)
    requires a <= b
    ensures |a| <= |b|
  {
    assert b == a + (b - a);
  }

  /** When every query sees the same snapshot the manifest is that of the snapshot. */
  lemma {:induction false} FixedManifest(db: Database, root: FolderId, lt: Order, le: PathOrder, top: string,
      m: Option<ArchiveManifest>)
    returns (rows: seq<Row>)
    requires DatabaseOk(db, root) && StrictTotal(lt)
    requires var pages := seq(|db.files| + 1, _ => db); IsManifest(db, pages, root, lt, le, top, m)
    ensures ListsTree(db.folders, root, rows) && InOrder(rows, le) && m == Some(ManifestOf(db, rows, lt, top))
  {
    var pages := seq(|db.files| + 1, _ => db);
    var found: seq<set<ArchiveFile>>;
    rows, found :| IsManifestWith(db, pages, root, lt, le, top, rows, found, m);
    FixedPages(db, root, lt, rows, pages, found);
  }

  lemma {:induction false} FixedPages(db: Database, root: FolderId, lt: Order, rows: seq<Row>,
      pages: seq<Database>, found: seq<set<ArchiveFile>>)
    requires DatabaseOk(db, root) && StrictTotal(lt) && ListsTree(db.folders, root, rows)
    requires |pages| == |db.files| + 1 && (forall i :: 0 <= i < |pages| ==> pages[i] == db)
    requires AreFileSets(pages, root, found)
    ensures SnapshotsOk(found) && KeysUnique(FileSet(rows, db.files, db.versions))
    ensures Pages(found, 0, None, lt, FILES_PAGE_SIZE) == Some(Listing(FileSet(rows, db.files, db.versions), lt))
  {
    var all := FileSet(rows, db.files, db.versions);
    OneRowPerFile(rows, db.files, db.versions);
    FewFiles(db, rows);
    forall i | 0 <= i < |found| ensures found[i] == all {
      assert IsFileSet(pages[i], root, found[i]);
      FileSetIs(db, root, rows, found[i]);
    }
    FixedOk(found, all);
    RoomEnough(|found|, FILES_PAGE_SIZE);
    assert Beyond(all, None, lt) == all;
    PagingFixed(found, 0, all, None, lt, FILES_PAGE_SIZE);
  }

  method RebaseFolders(folders: seq<ArchiveFolder>, top: string) returns (r: seq<ArchiveFolder>)
    ensures r == RebasedFolders(folders, top)
  {
    r := folders;
    for i := 0 to |folders|
      invariant |r| == |folders|
      invariant forall j :: 0 <= j < i ==> r[j] == RebasedFolders(folders, top)[j]
      invariant forall j :: i <= j < |folders| ==> r[j] == folders[j]
    {
      r := r[i := r[i].(path := Rebase(r[i].path, top))];
    }
  }

  method RebaseFiles(files: seq<ArchiveFile>, top: string) returns (r: seq<ArchiveFile>)
    ensures r == RebasedFiles(files, top)
  {
    r := files;
    for i := 0 to |files|
      invariant |r| == |files|
      invariant forall j :: 0 <= j < i ==> r[j] == RebasedFiles(files, top)[j]
      invariant forall j :: i <= j < |files| ==> r[j] == files[j]
    {
      r := r[i := r[i].(path := Rebase(r[i].path, top))];
    }
  }

  // ----- the declared total -----

  predicate Sizes64(files: seq<ArchiveFile>) {
    forall i :: 0 <= i < |files| ==> files[i].size <= MAX_INT64
  }

  lemma {:induction false} TotalWraps(files: seq<ArchiveFile>, k: nat) returns (turns: nat)
    requires k <= |files| && Sizes64(files)
    ensures TotalBytes(files, k) == SizeSum(files, k) - turns * 0x1_0000_0000_0000_0000
    ensures -MAX_INT64 - 1 <= TotalBytes(files, k) <= MAX_INT64
  {
    turns := 0;
    if k > 0 {
      turns := TotalWraps(files, k - 1);
      if TotalBytes(files, k - 1) + files[k - 1].size > MAX_INT64 {
        turns := turns + 1;
      }
    }
  }

  /** The manifest's total is the sum of the declared sizes if and only if that sum is a
      64-bit integer. */
  lemma {:induction false} TotalExactly(files: seq<ArchiveFile>)
    requires Sizes64(files)
    ensures TotalBytes(files, |files|) == SizeSum(files, |files|) <==> SizeSum(files, |files|) <= MAX_INT64
  {
    var turns := TotalWraps(files, |files|);
  }

  /** Two files of 2^62 bytes each total less than nothing, which is within any cap. */
  lemma {:induction false} TotalCanWrap(f: ArchiveFile, g: ArchiveFile)
    requires f.fileId != g.fileId && f.size == g.size == 0x4000_0000_0000_0000
    ensures TotalBytes([f, g], 2) == -MAX_INT64 - 1 && SizeSum([f, g], 2) == MAX_INT64 + 1
  {
    assert TotalBytes([f, g], 1) == f.size && SizeSum([f, g], 1) == f.size;
  }

  /** After the check of the total against the cap, a TAR run over the manifest that was built
      cannot hit the size limit, and ends with the total on its counter. */
  lemma {:induction false} CheckedTarNeverOverCap(clean: Cleaner, world: World, max: nat, rows: seq<Row>,
      listed: seq<ArchiveFile>, top: string)
    requires var m := ManifestFrom(rows, listed, top);
             max < MAX_INT64 && SizeSum(m.files, |m.files|) <= MAX_INT64 && m.totalBytes <= max
    ensures var m := ManifestFrom(rows, listed, top);
            var out := Generated(clean, world, max, Tar, m.files, m.emptyFolders);
            && (out.Stop? ==> out.why != OverCap)
            && (out.Finish? ==> out.run.processed == m.totalBytes)
  {
    var m := ManifestFrom(rows, listed, top);
    ManifestTotals(rows, listed, top);
    TarNeverOverCap(clean, world, max, m.files, m.emptyFolders);
    if Generated(clean, world, max, Tar, m.files, m.emptyFolders).Finish? {
      TarSizesTrue(clean, world, max, m.files, m.emptyFolders);
    }
  }
}
