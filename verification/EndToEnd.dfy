/** From the database to the archive: on one consistent snapshot, the archive is the tree. */
module EndToEnd {
  import opened Model
  import opened Paths
  import opened S = Sanitize
  import opened Naming
  import opened FolderTree
  import opened FileQuery
  import opened Keyset
  import opened EmptyFolders
  import opened Generator
  import opened Manifest

  // ----- names and paths -----

  predicate Segment(s: string) {
    SlashFree(s) && Plain(s) && !BadSegment(s)
  }

  predicate Segments(segs: seq<string>) {
    forall i :: 0 <= i < |segs| ==> Segment(segs[i])
  }

  predicate GoodPath(p: string) {
    p != "" && Plain(p) && GoodSegments(Split(p))
  }

  lemma {:induction false} SegmentsJoin(segs: seq<string>)
    requires segs != [] && Segments(segs)
    ensures GoodPath(Join(segs)) && Split(Join(segs)) == segs
  {
    JoinGood(segs);
    SplitPlain(Join(segs));
  }

  /** What rebasing does to a path's segments. */
  function RebasedSegs(segs: seq<string>, top: string): seq<string>
    requires segs != []
  {
    if top == "" then segs else [top] + segs[1..]
  }

  predicate TopOk(top: string) {
    top == "" || Segment(top)
  }

  lemma {:induction false} RebasedPath(segs: seq<string>, top: string)
    requires segs != [] && Segments(segs) && TopOk(top)
    ensures var p := Rebase(Join(segs), top);
            GoodPath(p) && Split(p) == RebasedSegs(segs, top) && p == Join(RebasedSegs(segs, top))
  {
    SegmentsJoin(segs);
    var out := RebasedSegs(segs, top);
    if top != "" {
      RebaseSegments(Join(segs), top);
    }
    assert Segments(out);
    JoinSplit(Rebase(Join(segs), top));
    SegmentsJoin(out);
  }

  // ----- the tree -----

  /** Every name that can get into a path is a plain segment. */
  ghost predicate NamesOk(db: Database, root: FolderId) {
    && (forall f, n :: At(db.folders, root, f, n) ==> Segment(f.name))
    && (forall f, folder, n :: Belongs(db, root, f, folder, n) ==> Segment(f.name))
  }

  /** The folder at depth `k` above a folder at depth `n`. */
  lemma {:induction false} AncestorAt(table: seq<Folder>, root: FolderId, f: Folder, n: nat, k: nat) returns (g: Folder)
    requires KeyUnique(table) && At(table, root, f, n) && k <= n
    ensures At(table, root, g, k) && Names(table, root, g, k) == Names(table, root, f, n)[..k + 1]
    ensures At(table, g.id, f, n - k)
    decreases n
  {
    if k == n {
      g := f;
      assert Names(table, root, f, n)[..n + 1] == Names(table, root, f, n);
    } else {
      var p := ParentNames(table, root, f, n);
      g := AncestorAt(table, root, p, n - 1, k);
      ChildAt(table, g.id, p, f, n - 1 - k);
    }
  }

  lemma {:induction false} NamesAreSegments(db: Database, root: FolderId, f: Folder, n: nat)
    requires KeyUnique(db.folders) && NamesOk(db, root) && At(db.folders, root, f, n)
    ensures Segments(Names(db.folders, root, f, n))
    decreases n
  {
    if n > 0 {
      var p := ParentNames(db.folders, root, f, n);
      NamesAreSegments(db, root, p, n - 1);
    }
  }

  /** The path of a folder in the archive. */
  ghost function FolderPath(db: Database, root: FolderId, f: Folder, n: nat, top: string): string
    requires At(db.folders, root, f, n)
  {
    Rebase(Join(Names(db.folders, root, f, n)), top)
  }

  lemma {:induction false} FolderPathSegs(db: Database, root: FolderId, f: Folder, n: nat, top: string)
    requires KeyUnique(db.folders) && NamesOk(db, root) && TopOk(top) && At(db.folders, root, f, n)
    ensures GoodPath(FolderPath(db, root, f, n, top))
    ensures Split(FolderPath(db, root, f, n, top)) == RebasedSegs(Names(db.folders, root, f, n), top)
  {
    NamesAreSegments(db, root, f, n);
    RebasedPath(Names(db.folders, root, f, n), top);
  }

  /** The folders of the archive. */
  ghost predicate IsFolderPath(db: Database, root: FolderId, top: string, d: string) {
    exists f, n :: At(db.folders, root, f, n) && d == FolderPath(db, root, f, n, top)
  }

  /** The folders above a folder, and the folder itself, are what its path's prefixes name. */
  lemma {:induction false} PrefixIsFolder(db: Database, root: FolderId, f: Folder, n: nat, top: string, d: string)
    requires KeyUnique(db.folders) && NamesOk(db, root) && TopOk(top) && At(db.folders, root, f, n)
    requires Split(d) <= RebasedSegs(Names(db.folders, root, f, n), top)
    ensures IsFolderPath(db, root, top, d)
  {
    var k := |Split(d)| - 1;
    var names := Names(db.folders, root, f, n);
    var g := AncestorAt(db.folders, root, f, n, k);
    FolderPathSegs(db, root, g, k, top);
    RebasedPrefix(names, k, top);
    SameSplit(d, FolderPath(db, root, g, k, top));
  }

  lemma {:induction false} RebasedPrefix(segs: seq<string>, k: nat, top: string)
    requires k < |segs|
    ensures RebasedSegs(segs[..k + 1], top) == RebasedSegs(segs, top)[..k + 1]
  {
  }

  lemma {:induction false} SameSplit(p: string, q: string)
    requires Split(p) == Split(q)
    ensures p == q
  {
    JoinSplit(p);
    JoinSplit(q);
  }

  // ----- the files that belong in the archive -----

  /** A live file with a version, in a live folder reached from the root that has its owner. */
  ghost predicate Belongs(db: Database, root: FolderId, f: StoredFile, folder: Folder, n: nat) {
    && f in db.files && !f.deleted && Latest(db.versions, f.id).Some?
    && At(db.folders, root, folder, n) && folder.id == f.folder && folder.owner == f.owner
  }

  /** Its manifest row: the latest version, at the rebased path. */
  ghost function ManifestRow(db: Database, root: FolderId, f: StoredFile, folder: Folder, n: nat, top: string)
      : ArchiveFile
    requires Belongs(db, root, f, folder, n)
  {
    var v := Latest(db.versions, f.id).value;
    ArchiveFile(f.id, f.name, Rebase(Join(Names(db.folders, root, folder, n) + [f.name]), top),
                v.number, v.hostedAt, v.location, v.size, v.hash)
  }

  lemma {:induction false} RowMatches(db: Database, root: FolderId, f: StoredFile, folder: Folder, n: nat, top: string)
    requires Belongs(db, root, f, folder, n)
    ensures var row := TreeRow(db.folders, root, folder, n);
            && Joins(row, f, db.versions)
            && RebasedFile(Resolved(row, f, db.versions), top) == ManifestRow(db, root, f, folder, n, top)
  {
    JoinAppend(Names(db.folders, root, folder, n), f.name);
  }

  /** A manifest under consideration: built from a listing of the live tree. */
  ghost predicate Built(db: Database, root: FolderId, lt: Order, top: string, rows: seq<Row>) {
    DatabaseOk(db, root) && StrictTotal(lt) && TopOk(top) && ListsTree(db.folders, root, rows)
  }

  lemma {:induction false} FileSource(db: Database, root: FolderId, lt: Order, top: string, rows: seq<Row>, i: nat)
    returns (f: StoredFile, folder: Folder, n: nat)
    requires Built(db, root, lt, top, rows) && i < |ManifestOf(db, rows, lt, top).files|
    ensures Belongs(db, root, f, folder, n)
    ensures ManifestOf(db, rows, lt, top).files[i] == ManifestRow(db, root, f, folder, n, top)
  {
    OneRowPerFile(rows, db.files, db.versions);
    var found := FileSet(rows, db.files, db.versions);
    ListingSorted(found, lt);
    var a := Listing(found, lt)[i];
    assert a in found;
    var row;
    row, f := ResolveSource(rows, db.files, db.versions, a);
    folder, n :| At(db.folders, root, folder, n) && row == TreeRow(db.folders, root, folder, n);
    RowMatches(db, root, f, folder, n, top);
  }

  lemma {:induction false} FileListed(db: Database, root: FolderId, lt: Order, top: string, rows: seq<Row>,
      f: StoredFile, folder: Folder, n: nat)
    returns (i: nat)
    requires Built(db, root, lt, top, rows) && Belongs(db, root, f, folder, n)
    ensures i < |ManifestOf(db, rows, lt, top).files|
    ensures ManifestOf(db, rows, lt, top).files[i] == ManifestRow(db, root, f, folder, n, top)
  {
    OneRowPerFile(rows, db.files, db.versions);
    var found := FileSet(rows, db.files, db.versions);
    ListingSorted(found, lt);
    RowMatches(db, root, f, folder, n, top);
    var row := TreeRow(db.folders, root, folder, n);
    assert InTree(db.folders, root, row);
    ResolveComplete(rows, db.files, db.versions, row, f);
    var a := Resolved(row, f, db.versions);
    assert a in Listing(found, lt);
    i :| 0 <= i < |Listing(found, lt)| && Listing(found, lt)[i] == a;
  }

  lemma {:induction false} FilesDistinct(db: Database, root: FolderId, lt: Order, top: string, rows: seq<Row>,
      i: nat, j: nat)
    requires Built(db, root, lt, top, rows) && i < j < |ManifestOf(db, rows, lt, top).files|
    ensures ManifestOf(db, rows, lt, top).files[i].fileId != ManifestOf(db, rows, lt, top).files[j].fileId
  {
    OneRowPerFile(rows, db.files, db.versions);
    var found := FileSet(rows, db.files, db.versions);
    ListingSorted(found, lt);
    var a, b := Listing(found, lt)[i], Listing(found, lt)[j];
    assert a in found && b in found;
    assert lt(KeyOf(a), KeyOf(b));
  }

  /** Segments of a manifest file's path: those of its folder, and its name. */
  lemma {:induction false} FilePathSegs(db: Database, root: FolderId, f: StoredFile, folder: Folder, n: nat,
      top: string)
    requires KeyUnique(db.folders) && NamesOk(db, root) && TopOk(top) && Belongs(db, root, f, folder, n)
    ensures var p := ManifestRow(db, root, f, folder, n, top).path;
            GoodPath(p) && Split(p) == RebasedSegs(Names(db.folders, root, folder, n), top) + [f.name]
  {
    var names := Names(db.folders, root, folder, n);
    NamesAreSegments(db, root, folder, n);
    RebasedPath(names + [f.name], top);
    assert RebasedSegs(names + [f.name], top) == RebasedSegs(names, top) + [f.name];
  }

  // ----- the entries -----

  lemma {:induction false} WithoutFilesMember(folders: seq<ArchiveFolder>, paths: seq<string>, x: ArchiveFolder)
    ensures x in WithoutFiles(folders, paths) <==> x in folders && !HasFileUnder(paths, x.path)
  {
    if folders != [] {
      WithoutFilesMember(folders[1..], paths, x);
      assert folders == [folders[0]] + folders[1..];
    }
  }

  lemma {:induction false} FolderSource(db: Database, root: FolderId, lt: Order, top: string, rows: seq<Row>, i: nat)
    returns (f: Folder, n: nat)
    requires Built(db, root, lt, top, rows) && i < |ManifestOf(db, rows, lt, top).emptyFolders|
    ensures At(db.folders, root, f, n)
    ensures ManifestOf(db, rows, lt, top).emptyFolders[i]
            == ArchiveFolder(f.id, f.name, FolderPath(db, root, f, n, top))
  {
    var m := ManifestOf(db, rows, lt, top);
    var folders := RebasedFolders(FoldersOf(rows), top);
    WithoutFilesMember(folders, PathsOf(m.files), m.emptyFolders[i]);
    var j :| 0 <= j < |folders| && folders[j] == m.emptyFolders[i];
    assert rows[j] in rows;
    f, n :| At(db.folders, root, f, n) && rows[j] == TreeRow(db.folders, root, f, n);
  }

  /** A folder under which no file lies is listed as empty. */
  lemma {:induction false} FolderListed(db: Database, root: FolderId, lt: Order, top: string, rows: seq<Row>,
      f: Folder, n: nat)
    returns (i: nat)
    requires Built(db, root, lt, top, rows) && At(db.folders, root, f, n)
    requires !HasFileUnder(PathsOf(ManifestOf(db, rows, lt, top).files), FolderPath(db, root, f, n, top))
    ensures i < |ManifestOf(db, rows, lt, top).emptyFolders|
    ensures ManifestOf(db, rows, lt, top).emptyFolders[i].path == FolderPath(db, root, f, n, top)
  {
    var m := ManifestOf(db, rows, lt, top);
    var folders := RebasedFolders(FoldersOf(rows), top);
    var row := TreeRow(db.folders, root, f, n);
    assert InTree(db.folders, root, row);
    var j :| 0 <= j < |rows| && rows[j] == row;
    WithoutFilesMember(folders, PathsOf(m.files), folders[j]);
    i :| 0 <= i < |m.emptyFolders| && m.emptyFolders[i] == folders[j];
  }

  /** The situation of the main theorem: a run over a built manifest that succeeds. */
  ghost predicate Succeeds(db: Database, root: FolderId, lt: Order, top: string, rows: seq<Row>, world: World,
      max: nat, format: ExportType) {
    && Built(db, root, lt, top, rows) && NamesOk(db, root) && max < MAX_INT64
    && RunOf(db, root, lt, top, rows, world, max, format).Finish?
  }

  ghost function RunOf(db: Database, root: FolderId, lt: Order, top: string, rows: seq<Row>, world: World,
      max: nat, format: ExportType): Outcome
    requires Built(db, root, lt, top, rows)
  {
    var m := ManifestOf(db, rows, lt, top);
    Generated(S.Sanitize, world, max, format, m.files, m.emptyFolders)
  }

  lemma {:induction false} FileClean(db: Database, root: FolderId, lt: Order, top: string, rows: seq<Row>, i: nat)
    requires Built(db, root, lt, top, rows) && NamesOk(db, root) && i < |ManifestOf(db, rows, lt, top).files|
    ensures var p := ManifestOf(db, rows, lt, top).files[i].path;
            GoodPath(p) && (S.Sanitize(p).Some? ==> CleanPath(S.Sanitize, p) == p)
  {
    var f, folder, n := FileSource(db, root, lt, top, rows, i);
    FilePathSegs(db, root, f, folder, n, top);
    SanitizeGood(ManifestRow(db, root, f, folder, n, top).path);
  }

  lemma {:induction false} FolderClean(db: Database, root: FolderId, lt: Order, top: string, rows: seq<Row>, i: nat)
    requires Built(db, root, lt, top, rows) && NamesOk(db, root) && i < |ManifestOf(db, rows, lt, top).emptyFolders|
    ensures var p := ManifestOf(db, rows, lt, top).emptyFolders[i].path;
            GoodPath(p) && (S.Sanitize(p).Some? ==> CleanPath(S.Sanitize, p) == p)
  {
    var f, n := FolderSource(db, root, lt, top, rows, i);
    FolderPathSegs(db, root, f, n, top);
    SanitizeGood(FolderPath(db, root, f, n, top));
  }

  ghost function EntriesOf(db: Database, root: FolderId, lt: Order, top: string, rows: seq<Row>, world: World,
      max: nat, format: ExportType): seq<Entry>
    requires Built(db, root, lt, top, rows)
  {
    RunOf(db, root, lt, top, rows, world, max, format).run.writer.entries
  }

  /** `entries` holds every manifest file whole at its own path, then the empty folders. */
  ghost predicate Holds(m: ArchiveManifest, world: World, entries: seq<Entry>) {
    && |entries| == |m.files| + |m.emptyFolders|
    && (forall i :: 0 <= i < |m.files| ==> entries[i] == FileEntry(m.files[i].path, BodyOf(world, m.files[i])))
    && (forall i :: |m.files| <= i < |entries| ==> entries[i] == DirEntry(m.emptyFolders[i - |m.files|].path))
  }

  /** The archive a successful run leaves is closed and holds its manifest. */
  lemma {:induction false} RunHolds(clean: Cleaner, world: World, max: nat, format: ExportType, m: ArchiveManifest)
    requires max < MAX_INT64 && Generated(clean, world, max, format, m.files, m.emptyFolders).Finish?
    requires forall i :: 0 <= i < |m.files| ==> CleanPath(clean, m.files[i].path) == m.files[i].path
    requires forall i :: 0 <= i < |m.emptyFolders| ==>
               CleanPath(clean, m.emptyFolders[i].path) == m.emptyFolders[i].path
    ensures var writer := Generated(clean, world, max, format, m.files, m.emptyFolders).run.writer;
            writer.closed && Holds(m, world, writer.entries)
  {
    SuccessIsWhole(clean, world, max, format, m.files, m.emptyFolders);
  }

  lemma {:induction false} PathsAreClean(db: Database, root: FolderId, lt: Order, top: string, rows: seq<Row>,
      world: World, max: nat, format: ExportType)
    requires Succeeds(db, root, lt, top, rows, world, max, format)
    ensures var m := ManifestOf(db, rows, lt, top);
            && (forall i :: 0 <= i < |m.files| ==> CleanPath(S.Sanitize, m.files[i].path) == m.files[i].path)
            && (forall i :: 0 <= i < |m.emptyFolders| ==>
                  CleanPath(S.Sanitize, m.emptyFolders[i].path) == m.emptyFolders[i].path)
  {
    var m := ManifestOf(db, rows, lt, top);
    SuccessMeans(S.Sanitize, world, max, format, m.files, m.emptyFolders);
    forall i | 0 <= i < |m.files| ensures CleanPath(S.Sanitize, m.files[i].path) == m.files[i].path {
      assert FileDone(S.Sanitize, world, max, format, m.files, i);
      FileClean(db, root, lt, top, rows, i);
    }
    forall i | 0 <= i < |m.emptyFolders|
      ensures CleanPath(S.Sanitize, m.emptyFolders[i].path) == m.emptyFolders[i].path
    {
      FolderClean(db, root, lt, top, rows, i);
    }
  }

  lemma {:induction false} ArchiveHolds(db: Database, root: FolderId, lt: Order, top: string, rows: seq<Row>,
      world: World, max: nat, format: ExportType)
      returns (m: ArchiveManifest, entries: seq<Entry>)
    requires Succeeds(db, root, lt, top, rows, world, max, format)
    ensures Built(db, root, lt, top, rows) && NamesOk(db, root)
    ensures m == ManifestOf(db, rows, lt, top) && entries == EntriesOf(db, root, lt, top, rows, world, max, format)
    ensures Holds(m, world, entries)
  {
    m := ManifestOf(db, rows, lt, top);
    entries := EntriesOf(db, root, lt, top, rows, world, max, format);
    PathsAreClean(db, root, lt, top, rows, world, max, format);
    RunHolds(S.Sanitize, world, max, format, m);
  }

  // ----- main theorem, files -----

  /** `e` is the entry of the file `f`: its whole latest body, at its rebased path. */
  ghost predicate IsEntryOf(db: Database, root: FolderId, top: string, world: World, f: StoredFile, e: Entry) {
    exists folder, n :: Belongs(db, root, f, folder, n) &&
      var row := ManifestRow(db, root, f, folder, n, top); e == FileEntry(row.path, BodyOf(world, row))
  }

  ghost predicate BelongsSomewhere(db: Database, root: FolderId, f: StoredFile) {
    exists folder, n :: Belongs(db, root, f, folder, n)
  }

  /** The manifest row `a` and the entry `e` are those of the file `f`. */
  ghost predicate TracesTo(db: Database, root: FolderId, top: string, world: World, a: ArchiveFile, e: Entry,
      f: StoredFile) {
    BelongsSomewhere(db, root, f) && f.id == a.fileId && IsEntryOf(db, root, top, world, f, e)
  }

  lemma {:induction false} FileOf(db: Database, root: FolderId, lt: Order, top: string, rows: seq<Row>,
      m: ArchiveManifest, world: World, entries: seq<Entry>, i: nat)
      returns (f: StoredFile)
    requires Built(db, root, lt, top, rows) && NamesOk(db, root)
    requires m == ManifestOf(db, rows, lt, top) && Holds(m, world, entries)
    requires i < |m.files|
    ensures TracesTo(db, root, top, world, m.files[i], entries[i], f)
  {
    var folder, n;
    f, folder, n := FileSource(db, root, lt, top, rows, i);
  }

  /** The file with this ID. */
  function ById(files: seq<StoredFile>, id: string): StoredFile {
    if files == [] then StoredFile("", "", "", "", true)
    else if files[0].id == id then files[0]
    else ById(files[1..], id)
  }

  lemma {:induction false} ByIdFinds(files: seq<StoredFile>, f: StoredFile)
    requires FileKeyUnique(files) && f in files
    ensures ById(files, f.id) == f
  {
    if files[0].id == f.id {
      SameFile(files, files[0], f);
    } else {
      ByIdFinds(files[1..], f);
    }
  }

  /** The files behind the manifest rows. */
  function Which(db: Database, files: seq<ArchiveFile>): (which: seq<StoredFile>)
    ensures |which| == |files| && forall i :: 0 <= i < |files| ==> which[i] == ById(db.files, files[i].fileId)
  {
    seq(|files|, i requires 0 <= i < |files| => ById(db.files, files[i].fileId))
  }

  lemma {:induction false} WhichIs(db: Database, root: FolderId, lt: Order, top: string, rows: seq<Row>,
      m: ArchiveManifest, world: World, entries: seq<Entry>, i: nat)
    requires Built(db, root, lt, top, rows) && NamesOk(db, root)
    requires m == ManifestOf(db, rows, lt, top) && Holds(m, world, entries)
    requires i < |m.files|
    ensures var f := ById(db.files, m.files[i].fileId);
            f in db.files && TracesTo(db, root, top, world, m.files[i], entries[i], f)
  {
    var f := FileOf(db, root, lt, top, rows, m, world, entries, i);
    ByIdFinds(db.files, f);
  }

  /** A file that belongs is one of those behind the manifest rows. */
  lemma {:induction false} NoneMissing(db: Database, root: FolderId, lt: Order, top: string, rows: seq<Row>,
      which: seq<StoredFile>, f: StoredFile)
    requires Built(db, root, lt, top, rows) && |which| == |ManifestOf(db, rows, lt, top).files|
    requires forall i :: 0 <= i < |which| ==>
               which[i] in db.files && which[i].id == ManifestOf(db, rows, lt, top).files[i].fileId
    requires BelongsSomewhere(db, root, f)
    ensures f in which
  {
    var folder, n :| Belongs(db, root, f, folder, n);
    var i := FileListed(db, root, lt, top, rows, f, folder, n);
    SameFile(db.files, f, which[i]);
  }

  /** One file entry for every file that belongs in the archive, and no other file entry. */
  ghost predicate HasExactly(db: Database, root: FolderId, top: string, world: World, entries: seq<Entry>,
      which: seq<StoredFile>) {
    && (forall i, j :: 0 <= i < j < |which| ==> which[i].id != which[j].id)
    && (forall f :: f in which <==> BelongsSomewhere(db, root, f))
    && |which| <= |entries|
    && (forall i :: 0 <= i < |which| ==> IsEntryOf(db, root, top, world, which[i], entries[i]))
    && (forall i :: |which| <= i < |entries| ==> entries[i].DirEntry?)
  }

  lemma {:induction false} HoldsExactly(db: Database, root: FolderId, lt: Order, top: string, rows: seq<Row>,
      m: ArchiveManifest, world: World, entries: seq<Entry>)
      returns (which: seq<StoredFile>)
    requires Built(db, root, lt, top, rows) && NamesOk(db, root)
    requires m == ManifestOf(db, rows, lt, top) && Holds(m, world, entries)
    ensures HasExactly(db, root, top, world, entries, which)
  {
    which := Which(db, m.files);
    forall i | 0 <= i < |which|
      ensures which[i] in db.files && which[i].id == m.files[i].fileId
      ensures BelongsSomewhere(db, root, which[i]) && IsEntryOf(db, root, top, world, which[i], entries[i])
    {
      WhichIs(db, root, lt, top, rows, m, world, entries, i);
    }
    forall i, j | 0 <= i < j < |which| ensures which[i].id != which[j].id {
      FilesDistinct(db, root, lt, top, rows, i, j);
    }
    forall f | BelongsSomewhere(db, root, f) ensures f in which {
      NoneMissing(db, root, lt, top, rows, which, f);
    }
  }

  /** The archive of a successful run has exactly one file entry for every live, versioned,
      owner-matching file reachable from the root, holding the whole body fetched for its
      latest version at its rebased path, and no other file entry. */
  lemma {:induction false} FilesAreTheTree(db: Database, root: FolderId, lt: Order, top: string, rows: seq<Row>,
      world: World, max: nat, format: ExportType)
    returns (which: seq<StoredFile>)
    requires Succeeds(db, root, lt, top, rows, world, max, format)
    ensures HasExactly(db, root, top, world, EntriesOf(db, root, lt, top, rows, world, max, format), which)
  {
    var m, entries := ArchiveHolds(db, root, lt, top, rows, world, max, format);
    which := HoldsExactly(db, root, lt, top, rows, m, world, entries);
  }

  // ----- main theorem, folders -----

  /** Extracting the archive creates the directory `d`. */
  ghost predicate Implied(entries: seq<Entry>, d: string) {
    exists i :: 0 <= i < |entries| && Makes(entries[i], d)
  }

  predicate Makes(e: Entry, d: string) {
    (e.DirEntry? && e.path == d) || Under(e.path, d)
  }

  lemma {:induction false} FolderMakesFolders(db: Database, root: FolderId, lt: Order, top: string,
      rows: seq<Row>, i: nat, d: string)
    requires Built(db, root, lt, top, rows) && NamesOk(db, root) && i < |ManifestOf(db, rows, lt, top).emptyFolders|
    requires var p := ManifestOf(db, rows, lt, top).emptyFolders[i].path; p == d || Under(p, d)
    ensures IsFolderPath(db, root, top, d)
  {
    var f, n := FolderSource(db, root, lt, top, rows, i);
    FolderPathSegs(db, root, f, n, top);
    UnderIsPrefix(FolderPath(db, root, f, n, top), d);
    PrefixIsFolder(db, root, f, n, top, d);
  }

  lemma {:induction false} FileMakesFolders(db: Database, root: FolderId, lt: Order, top: string,
      rows: seq<Row>, i: nat, d: string)
    requires Built(db, root, lt, top, rows) && NamesOk(db, root) && i < |ManifestOf(db, rows, lt, top).files|
    requires Under(ManifestOf(db, rows, lt, top).files[i].path, d)
    ensures IsFolderPath(db, root, top, d)
  {
    var f, folder, n := FileSource(db, root, lt, top, rows, i);
    FilePathSegs(db, root, f, folder, n, top);
    var p := ManifestRow(db, root, f, folder, n, top).path;
    UnderIsPrefix(p, d);
    var above := RebasedSegs(Names(db.folders, root, folder, n), top);
    assert Split(d) == Split(p)[..|Split(d)|] == above[..|Split(d)|];
    PrefixIsFolder(db, root, folder, n, top, d);
  }

  lemma {:induction false} FolderIsMade(db: Database, root: FolderId, lt: Order, top: string, rows: seq<Row>,
      m: ArchiveManifest, world: World, entries: seq<Entry>, f: Folder, n: nat)
    requires Built(db, root, lt, top, rows) && NamesOk(db, root)
    requires m == ManifestOf(db, rows, lt, top) && Holds(m, world, entries)
    requires At(db.folders, root, f, n)
    ensures Implied(entries, FolderPath(db, root, f, n, top))
  {
    var d := FolderPath(db, root, f, n, top);
    if HasFileUnder(PathsOf(m.files), d) {
      var i :| 0 <= i < |m.files| && Under(PathsOf(m.files)[i], d);
      assert Makes(entries[i], d);
    } else {
      var i := FolderListed(db, root, lt, top, rows, f, n);
      assert Makes(entries[|m.files| + i], d);
    }
  }

  lemma {:induction false} MadeIsFolder(db: Database, root: FolderId, lt: Order, top: string, rows: seq<Row>,
      m: ArchiveManifest, world: World, entries: seq<Entry>, d: string, i: nat)
    requires Built(db, root, lt, top, rows) && NamesOk(db, root)
    requires m == ManifestOf(db, rows, lt, top) && Holds(m, world, entries)
    requires i < |entries| && Makes(entries[i], d)
    ensures IsFolderPath(db, root, top, d)
  {
    if i < |m.files| {
      FileMakesFolders(db, root, lt, top, rows, i, d);
    } else {
      FolderMakesFolders(db, root, lt, top, rows, i - |m.files|, d);
    }
  }

  lemma {:induction false} HeldFolders(db: Database, root: FolderId, lt: Order, top: string, rows: seq<Row>,
      m: ArchiveManifest, world: World, entries: seq<Entry>, d: string)
    requires Built(db, root, lt, top, rows) && NamesOk(db, root)
    requires m == ManifestOf(db, rows, lt, top) && Holds(m, world, entries)
    ensures Implied(entries, d) <==> IsFolderPath(db, root, top, d)
  {
    if Implied(entries, d) {
      var i :| 0 <= i < |entries| && Makes(entries[i], d);
      MadeIsFolder(db, root, lt, top, rows, m, world, entries, d, i);
    }
    if IsFolderPath(db, root, top, d) {
      var f, n :| At(db.folders, root, f, n) && d == FolderPath(db, root, f, n, top);
      FolderIsMade(db, root, lt, top, rows, m, world, entries, f, n);
    }
  }

  /** The directories that extracting the archive creates are exactly the rebased paths of the
      folders of the live tree. */
  lemma {:induction false} FoldersAreTheTree(db: Database, root: FolderId, lt: Order, top: string,
      rows: seq<Row>, world: World, max: nat, format: ExportType, d: string)
    requires Succeeds(db, root, lt, top, rows, world, max, format)
    ensures Implied(EntriesOf(db, root, lt, top, rows, world, max, format), d) <==> IsFolderPath(db, root, top, d)
  {
    var m, entries := ArchiveHolds(db, root, lt, top, rows, world, max, format);
    HeldFolders(db, root, lt, top, rows, m, world, entries, d);
  }

  // ----- the whole pipeline -----

  /** With names in order, no path that starts with a drive letter, and no failure of context,
      fetch or writer, a ZIP run within the cap does succeed. */
  lemma {:induction false} ZipSucceeds(db: Database, root: FolderId, lt: Order, top: string, rows: seq<Row>,
      world: World, max: nat)
    requires Built(db, root, lt, top, rows) && NamesOk(db, root) && max < MAX_INT64 && Faultless(world)
    requires var m := ManifestOf(db, rows, lt, top);
             && (forall i :: 0 <= i < |m.files| ==>
                   !HasDriveLetter(m.files[i].path) && Fetched(world, m.files[i]) && max + m.files[i].size <= MAX_INT64)
             && (forall i :: 0 <= i < |m.emptyFolders| ==> !HasDriveLetter(m.emptyFolders[i].path))
             && (forall i: nat :: !world.cancelled(i))
    ensures Succeeds(db, root, lt, top, rows, world, max, Zip) <==>
            WithinCap(world, max, ManifestOf(db, rows, lt, top).files)
  {
    var m := ManifestOf(db, rows, lt, top);
    forall i | 0 <= i < |m.files| ensures S.Sanitize(m.files[i].path).Some? {
      FileClean(db, root, lt, top, rows, i);
      SanitizeGood(m.files[i].path);
    }
    forall i | 0 <= i < |m.emptyFolders| ensures S.Sanitize(m.emptyFolders[i].path).Some? {
      FolderClean(db, root, lt, top, rows, i);
      SanitizeGood(m.emptyFolders[i].path);
    }
    ZipCapExact(S.Sanitize, world, max, m.files, m.emptyFolders);
  }

  // ----- names under which no archive can be made -----

  /** Every path of a manifest is rebased onto the chosen root. */
  lemma {:induction false} ManifestPaths(db: Database, root: FolderId, lt: Order, top: string, rows: seq<Row>)
    requires Built(db, root, lt, top, rows) && top != ""
    ensures var m := ManifestOf(db, rows, lt, top);
            && (forall i :: 0 <= i < |m.files| ==> (HasDriveLetter(m.files[i].path) <==> HasDriveLetter(top)))
            && (forall i :: 0 <= i < |m.emptyFolders| ==>
                  (HasDriveLetter(m.emptyFolders[i].path) <==> HasDriveLetter(top)))
            && (HasDriveLetter(top) ==>
                  && (forall i :: 0 <= i < |m.files| ==> S.Sanitize(m.files[i].path) == None)
                  && (forall i :: 0 <= i < |m.emptyFolders| ==> S.Sanitize(m.emptyFolders[i].path) == None))
  {
    var m := ManifestOf(db, rows, lt, top);
    forall i | 0 <= i < |m.files|
      ensures HasDriveLetter(m.files[i].path) <==> HasDriveLetter(top)
      ensures HasDriveLetter(top) ==> S.Sanitize(m.files[i].path) == None
    {
      var f, folder, n := FileSource(db, root, lt, top, rows, i);
      OneRebased(Join(Names(db.folders, root, folder, n) + [f.name]), top);
    }
    forall i | 0 <= i < |m.emptyFolders|
      ensures HasDriveLetter(m.emptyFolders[i].path) <==> HasDriveLetter(top)
      ensures HasDriveLetter(top) ==> S.Sanitize(m.emptyFolders[i].path) == None
    {
      var f, n := FolderSource(db, root, lt, top, rows, i);
      OneRebased(Join(Names(db.folders, root, f, n)), top);
    }
  }

  lemma {:induction false} OneRebased(p: string, top: string)
    requires top != "" && TopOk(top)
    ensures HasDriveLetter(Rebase(p, top)) <==> HasDriveLetter(top)
    ensures HasDriveLetter(top) ==> S.Sanitize(Rebase(p, top)) == None
  {
    RebasedDriveLetter(p, top);
    if HasDriveLetter(top) {
      ColonRootRefused(p, top);
    }
  }

  /** A manifest of a tree that is there lists something. */
  lemma {:induction false} SomethingListed(db: Database, root: FolderId, lt: Order, top: string, rows: seq<Row>)
    requires Built(db, root, lt, top, rows) && rows != []
    ensures var m := ManifestOf(db, rows, lt, top); |m.files| + |m.emptyFolders| > 0
  {
    var m := ManifestOf(db, rows, lt, top);
    if |m.files| == 0 {
      assert rows[0] in rows;
      var f, n :| At(db.folders, root, f, n) && rows[0] == TreeRow(db.folders, root, f, n);
      assert !HasFileUnder(PathsOf(m.files), FolderPath(db, root, f, n, top));
      var i := FolderListed(db, root, lt, top, rows, f, n);
    }
  }

  /** Every job fails whose name gives a root with a colon as its second byte, whatever the tree,
      the files and the cap. */
  lemma {:induction false} ColonNameDoomsJob(db: Database, root: FolderId, lt: Order, top: string, rows: seq<Row>,
      world: World, max: nat, format: ExportType)
    requires Built(db, root, lt, top, rows) && rows != [] && HasDriveLetter(top)
    ensures RunOf(db, root, lt, top, rows, world, max, format).Stop?
  {
    var m := ManifestOf(db, rows, lt, top);
    ManifestPaths(db, root, lt, top, rows);
    SomethingListed(db, root, lt, top, rows);
    assert |m.files| > 0 ==> S.Sanitize(m.files[0].path) == None;
    assert |m.emptyFolders| > 0 ==> S.Sanitize(m.emptyFolders[0].path) == None;
    if Generated(S.Sanitize, world, max, format, m.files, m.emptyFolders).Finish? {
      PathsAccepted(S.Sanitize, world, max, format, m.files, m.emptyFolders);
    }
  }

  /** With plain names and no failures of context, fetch or writer, a ZIP run under a chosen root
      succeeds if and only if the root's second byte is no colon and the files are within the cap. */
  lemma {:induction false} ZipUnderName(db: Database, root: FolderId, lt: Order, top: string, rows: seq<Row>,
      world: World, max: nat)
    requires Built(db, root, lt, top, rows) && NamesOk(db, root) && max < MAX_INT64 && Faultless(world)
    requires top != "" && rows != []
    requires forall i :: 0 <= i < |ManifestOf(db, rows, lt, top).files| ==>
               var f := ManifestOf(db, rows, lt, top).files[i]; Fetched(world, f) && max + f.size <= MAX_INT64
    requires forall i: nat :: !world.cancelled(i)
    ensures Succeeds(db, root, lt, top, rows, world, max, Zip) <==>
            !HasDriveLetter(top) && WithinCap(world, max, ManifestOf(db, rows, lt, top).files)
  {
    ManifestPaths(db, root, lt, top, rows);
    if HasDriveLetter(top) {
      ColonNameDoomsJob(db, root, lt, top, rows, world, max, Zip);
    } else {
      ZipSucceeds(db, root, lt, top, rows, world, max);
    }
  }
}
