/** What an archive is worth when the database changes while it is read. */
module ChangingTree {
  import opened Model
  import opened Paths
  import opened S = Sanitize
  import opened Naming
  import opened FolderTree
  import opened FileQuery
  import opened Keyset
  import opened EmptyFolders
  import opened Generator
  import opened Manifest
  import opened EndToEnd

  /** In this snapshot the file `fid` belongs in the archive, at this path. */
  ghost predicate IsAt(db: Database, root: FolderId, fid: string, path: string) {
    exists f, folder, n :: Belongs(db, root, f, folder, n) && f.id == fid &&
      path == Join(Names(db.folders, root, folder, n) + [f.name])
  }

  /** The file stays where it is in the first `n` snapshots. */
  ghost predicate StaysAt(dbs: seq<Database>, n: nat, root: FolderId, fid: string, path: string)
    requires n <= |dbs|
  {
    forall j :: 0 <= j < n ==> IsAt(dbs[j], root, fid, path)
  }

  lemma {:induction false} AtIsPresent(db: Database, root: FolderId, found: set<ArchiveFile>, fid: string, path: string)
    requires KeyUnique(db.folders) && IsFileSet(db, root, found) && IsAt(db, root, fid, path)
    ensures Present(found, PageKey(path, fid))
  {
    var rows :| ListsTree(db.folders, root, rows) && found == FileSet(rows, db.files, db.versions);
    var f, folder, n :| Belongs(db, root, f, folder, n) && f.id == fid &&
      path == Join(Names(db.folders, root, folder, n) + [f.name]);
    var row := TreeRow(db.folders, root, folder, n);
    assert InTree(db.folders, root, row);
    RowMatches(db, root, f, folder, n, "");
    ResolveComplete(rows, db.files, db.versions, row, f);
    var a := Resolved(row, f, db.versions);
    assert a in found && KeyOf(a) == PageKey(path, fid);
  }

  /** In a snapshot where the file is at `path` it has no other row. */
  lemma {:induction false} OnlyAt(db: Database, root: FolderId, found: set<ArchiveFile>, fid: string,
      path: string, a: ArchiveFile)
    requires DatabaseOk(db, root) && IsFileSet(db, root, found) && IsAt(db, root, fid, path)
    requires a in found && a.fileId == fid
    ensures a.path == path
  {
    var rows :| ListsTree(db.folders, root, rows) && found == FileSet(rows, db.files, db.versions);
    OneRowPerFile(rows, db.files, db.versions);
    AtIsPresent(db, root, found, fid, path);
    var b :| b in found && KeyOf(b) == PageKey(path, fid);
    assert a == b;
  }

  /** The snapshots a manifest was read from, and the listing that came of them. */
  ghost predicate ReadFrom(dbs: seq<Database>, root: FolderId, lt: Order, found: seq<set<ArchiveFile>>,
      listed: seq<ArchiveFile>) {
    && StrictTotal(lt) && (forall j :: 0 <= j < |dbs| ==> DatabaseOk(dbs[j], root))
    && AreFileSets(dbs, root, found) && SnapshotsOk(found)
    && Pages(found, 0, None, lt, FILES_PAGE_SIZE) == Some(listed)
  }

  /** How many of the snapshots the paging looked at. */
  ghost function Looked(found: seq<set<ArchiveFile>>, lt: Order): (n: nat)
    requires StrictTotal(lt) && SnapshotsOk(found)
    ensures n <= |found|
  {
    Asked(found, 0, None, lt, FILES_PAGE_SIZE)
  }

  /** A file that stays where it is in every snapshot looked at is listed exactly once. */
  lemma {:induction false} StayingListed(dbs: seq<Database>, root: FolderId, lt: Order, found: seq<set<ArchiveFile>>,
      listed: seq<ArchiveFile>, fid: string, path: string)
      returns (i: nat)
    requires ReadFrom(dbs, root, lt, found, listed) && StaysAt(dbs, Looked(found, lt), root, fid, path)
    ensures i < |listed| && KeyOf(listed[i]) == PageKey(path, fid)
    ensures forall k :: 0 <= k < |listed| && listed[k].fileId == fid ==> k == i
    ensures exists j :: 0 <= j < Looked(found, lt) && listed[i] in found[j]
  {
    var k := PageKey(path, fid);
    forall j | 0 <= j < Looked(found, lt) ensures Present(found[j], k) {
      assert IsFileSet(dbs[j], root, found[j]) && IsAt(dbs[j], root, fid, path);
      AtIsPresent(dbs[j], root, found[j], fid, path);
    }
    PagingExact(found, lt, k);
    i :| 0 <= i < |listed| && KeyOf(listed[i]) == k;
    assert listed[i] in listed;
    forall l | 0 <= l < |listed| && listed[l].fileId == fid ensures l == i {
      ListedAt(dbs, root, lt, found, listed, fid, path, l);
      KeyOnce(listed, lt, l, i);
    }
  }

  lemma {:induction false} ListedAt(dbs: seq<Database>, root: FolderId, lt: Order, found: seq<set<ArchiveFile>>,
      listed: seq<ArchiveFile>, fid: string, path: string, l: nat)
    requires ReadFrom(dbs, root, lt, found, listed) && StaysAt(dbs, Looked(found, lt), root, fid, path)
    requires l < |listed| && listed[l].fileId == fid
    ensures KeyOf(listed[l]) == PageKey(path, fid)
  {
    var j := PagingHonest(found, 0, None, lt, FILES_PAGE_SIZE, listed[l]);
    assert IsFileSet(dbs[j], root, found[j]) && IsAt(dbs[j], root, fid, path);
    OnlyAt(dbs[j], root, found[j], fid, path, listed[l]);
  }

  // ----- the archive -----

  /** However the database changes between the queries, a file that belongs in the archive and stays
      where it is in every snapshot looked at has exactly one file entry in the archive of a run that
      succeeds: at its rebased path, with the whole body fetched for its version in one of the
      snapshots. */
  lemma {:induction false} StayingFileArchived(dbs: seq<Database>, root: FolderId, lt: Order,
      found: seq<set<ArchiveFile>>, listed: seq<ArchiveFile>, rows: seq<Row>, top: string, world: World, max: nat,
      format: ExportType, fid: string, path: string)
      returns (i: nat)
    requires ReadFrom(dbs, root, lt, found, listed) && StaysAt(dbs, Looked(found, lt), root, fid, path)
    requires TopOk(top) && path != "" && Segments(Split(path)) && max < MAX_INT64
    requires var m := ManifestFrom(rows, listed, top);
             Generated(S.Sanitize, world, max, format, m.files, m.emptyFolders).Finish?
    ensures var m := ManifestFrom(rows, listed, top);
            var entries := Generated(S.Sanitize, world, max, format, m.files, m.emptyFolders).run.writer.entries;
            && i < |m.files| <= |entries|
            && m.files[i].fileId == fid && (forall k :: 0 <= k < |m.files| && m.files[k].fileId == fid ==> k == i)
            && entries[i] == FileEntry(Rebase(path, top), BodyOf(world, m.files[i]))
            && (forall k :: |m.files| <= k < |entries| ==> entries[k].DirEntry?)
    ensures i < |listed| && exists j :: 0 <= j < Looked(found, lt) && listed[i] in found[j]
  {
    var m := ManifestFrom(rows, listed, top);
    i := StayingListed(dbs, root, lt, found, listed, fid, path);
    SuccessIsWhole(S.Sanitize, world, max, format, m.files, m.emptyFolders);
    PathsAccepted(S.Sanitize, world, max, format, m.files, m.emptyFolders);
    PlainStays(path, top);
  }

  /** On the rebased form of a plain path the cleaner accepts nothing but the path itself. */
  lemma {:induction false} PlainStays(path: string, top: string)
    requires TopOk(top) && path != "" && Segments(Split(path))
    ensures S.Sanitize(Rebase(path, top)).Some? ==> CleanPath(S.Sanitize, Rebase(path, top)) == Rebase(path, top)
  {
    JoinSplit(path);
    RebasedPath(Split(path), top);
    SanitizeGood(Rebase(path, top));
  }

  predicate PlainPaths(m: ArchiveManifest) {
    && (forall i :: 0 <= i < |m.files| ==> GoodPath(m.files[i].path))
    && (forall i :: 0 <= i < |m.emptyFolders| ==> GoodPath(m.emptyFolders[i].path))
  }

  lemma {:induction false} PlainHolds(m: ArchiveManifest, world: World, max: nat, format: ExportType)
    requires max < MAX_INT64 && PlainPaths(m)
    requires Generated(S.Sanitize, world, max, format, m.files, m.emptyFolders).Finish?
    ensures Holds(m, world, Generated(S.Sanitize, world, max, format, m.files, m.emptyFolders).run.writer.entries)
  {
    PathsAccepted(S.Sanitize, world, max, format, m.files, m.emptyFolders);
    forall i | 0 <= i < |m.files| ensures CleanPath(S.Sanitize, m.files[i].path) == m.files[i].path {
      SanitizeGood(m.files[i].path);
    }
    forall i | 0 <= i < |m.emptyFolders|
      ensures CleanPath(S.Sanitize, m.emptyFolders[i].path) == m.emptyFolders[i].path
    {
      SanitizeGood(m.emptyFolders[i].path);
    }
    RunHolds(S.Sanitize, world, max, format, m);
  }

  lemma {:induction false} HeldFolder(rows: seq<Row>, listed: seq<ArchiveFile>, top: string, m: ArchiveManifest,
      world: World, entries: seq<Entry>, k: nat)
    requires k < |rows| && m == ManifestFrom(rows, listed, top) && Holds(m, world, entries)
    ensures Implied(entries, Rebase(rows[k].path, top))
  {
    var d := Rebase(rows[k].path, top);
    var folders := RebasedFolders(FoldersOf(rows), top);
    if HasFileUnder(PathsOf(m.files), d) {
      var i :| 0 <= i < |m.files| && Under(PathsOf(m.files)[i], d);
      assert Makes(entries[i], d);
    } else {
      WithoutFilesMember(folders, PathsOf(m.files), folders[k]);
      var i :| 0 <= i < |m.emptyFolders| && m.emptyFolders[i] == folders[k];
      assert Makes(entries[|m.files| + i], d);
    }
  }

  /** With plain paths, the folders of the first snapshot are all in the archive of a run that
      succeeds. */
  lemma {:induction false} FoldersKept(rows: seq<Row>, listed: seq<ArchiveFile>, top: string, world: World, max: nat,
      format: ExportType, k: nat)
    requires max < MAX_INT64 && k < |rows| && PlainPaths(ManifestFrom(rows, listed, top))
    requires var m := ManifestFrom(rows, listed, top);
             Generated(S.Sanitize, world, max, format, m.files, m.emptyFolders).Finish?
    ensures var m := ManifestFrom(rows, listed, top);
            var entries := Generated(S.Sanitize, world, max, format, m.files, m.emptyFolders).run.writer.entries;
            Implied(entries, Rebase(rows[k].path, top))
  {
    var m := ManifestFrom(rows, listed, top);
    PlainHolds(m, world, max, format);
    var entries := Generated(S.Sanitize, world, max, format, m.files, m.emptyFolders).run.writer.entries;
    HeldFolder(rows, listed, top, m, world, entries, k);
  }
}
