/** The file query: every live file of the folder tree whose owner matches its folder's, at
    its latest version. */
module FileQuery {
  import opened Model
  import opened FolderTree
  import opened Keyset

  datatype StoredFile = StoredFile(id: string, folder: FolderId, owner: string, name: string, deleted: bool)

  datatype Version = Version(fileId: string, number: nat, hostedAt: string, location: string, size: nat, hash: string)

  predicate FileKeyUnique(files: seq<StoredFile>) {
    forall i, j :: 0 <= i < j < |files| ==> files[i].id != files[j].id
  }

  /** `ORDER BY file_version DESC LIMIT 1`. */
  function Latest(versions: seq<Version>, fileId: string): Option<Version> {
    if versions == [] then None
    else
      var rest := Latest(versions[1..], fileId);
      if versions[0].fileId != fileId then rest
      else if rest.Some? && rest.value.number > versions[0].number then rest
      else Some(versions[0])
  }

  lemma {:induction false} LatestIsLatest(versions: seq<Version>, fileId: string)
    ensures Latest(versions, fileId).None? <==> forall v :: v in versions ==> v.fileId != fileId
    ensures var r := Latest(versions, fileId);
            r.Some? ==>
              && r.value in versions && r.value.fileId == fileId
              && forall v :: v in versions && v.fileId == fileId ==> v.number <= r.value.number
  {
    if versions != [] {
      LatestIsLatest(versions[1..], fileId);
      assert versions == [versions[0]] + versions[1..];
      assert versions[0] in versions;
    }
  }

  /** The join condition: in the folder, same owner, live, and with some version. */
  predicate Joins(row: Row, f: StoredFile, versions: seq<Version>) {
    f.folder == row.id && f.owner == row.owner && !f.deleted && Latest(versions, f.id).Some?
  }

  function Resolved(row: Row, f: StoredFile, versions: seq<Version>): ArchiveFile
    requires Joins(row, f, versions)
  {
    var v := Latest(versions, f.id).value;
    ArchiveFile(f.id, f.name, row.path + "/" + f.name, v.number, v.hostedAt, v.location, v.size, v.hash)
  }

  function FilesIn(row: Row, files: seq<StoredFile>, versions: seq<Version>): seq<ArchiveFile> {
    if files == [] then []
    else (if Joins(row, files[0], versions) then [Resolved(row, files[0], versions)] else []) +
         FilesIn(row, files[1..], versions)
  }

  function Resolve(rows: seq<Row>, files: seq<StoredFile>, versions: seq<Version>): seq<ArchiveFile> {
    if rows == [] then [] else FilesIn(rows[0], files, versions) + Resolve(rows[1..], files, versions)
  }

  /** The result of the query as a set of rows. */
  function FileSet(rows: seq<Row>, files: seq<StoredFile>, versions: seq<Version>): set<ArchiveFile> {
    set a | a in Resolve(rows, files, versions)
  }

  lemma {:induction false} InSource(row: Row, files: seq<StoredFile>, versions: seq<Version>, a: ArchiveFile)
    returns (f: StoredFile)
    requires a in FilesIn(row, files, versions)
    ensures f in files && Joins(row, f, versions) && a == Resolved(row, f, versions)
  {
    if Joins(row, files[0], versions) && a == Resolved(row, files[0], versions) {
      f := files[0];
    } else {
      f := InSource(row, files[1..], versions, a);
    }
  }

  lemma {:induction false} InComplete(row: Row, files: seq<StoredFile>, versions: seq<Version>, f: StoredFile)
    requires f in files && Joins(row, f, versions)
    ensures Resolved(row, f, versions) in FilesIn(row, files, versions)
  {
    if f != files[0] {
      InComplete(row, files[1..], versions, f);
    }
  }

  /** Every row of the result comes from a folder row and a file that join. */
  lemma {:induction false} ResolveSource(rows: seq<Row>, files: seq<StoredFile>, versions: seq<Version>, a: ArchiveFile)
    returns (row: Row, f: StoredFile)
    requires a in Resolve(rows, files, versions)
    ensures row in rows && f in files && Joins(row, f, versions) && a == Resolved(row, f, versions)
  {
    if a in FilesIn(rows[0], files, versions) {
      row := rows[0];
      f := InSource(row, files, versions, a);
    } else {
      row, f := ResolveSource(rows[1..], files, versions, a);
    }
  }

  /** Every folder row and file that join give a row. */
  lemma {:induction false} ResolveComplete(rows: seq<Row>, files: seq<StoredFile>, versions: seq<Version>,
      row: Row, f: StoredFile)
    requires row in rows && f in files && Joins(row, f, versions)
    ensures Resolved(row, f, versions) in Resolve(rows, files, versions)
  {
    if row == rows[0] {
      InComplete(row, files, versions, f);
    } else {
      ResolveComplete(rows[1..], files, versions, row, f);
    }
  }

  /** A version of the file, and none has a higher number. */
  predicate NewestOf(v: Version, versions: seq<Version>, fileId: string) {
    v in versions && v.fileId == fileId && forall u :: u in versions && u.fileId == fileId ==> u.number <= v.number
  }

  /** Every row of the result is a live file of one of the folders and of its owner, at the
      folder's path, with the fields of its newest version. */
  lemma {:induction false} RowMeans(rows: seq<Row>, files: seq<StoredFile>, versions: seq<Version>, a: ArchiveFile)
    returns (row: Row, f: StoredFile, v: Version)
    requires a in Resolve(rows, files, versions)
    ensures row in rows && f in files && NewestOf(v, versions, f.id)
    ensures f.folder == row.id && f.owner == row.owner && !f.deleted
    ensures a == ArchiveFile(f.id, f.name, row.path + "/" + f.name,
                             v.number, v.hostedAt, v.location, v.size, v.hash)
  {
    row, f := ResolveSource(rows, files, versions, a);
    LatestIsLatest(versions, f.id);
    v := Latest(versions, f.id).value;
  }

  /** Every such file that has a version has a row. */
  lemma {:induction false} RowGiven(rows: seq<Row>, files: seq<StoredFile>, versions: seq<Version>,
      row: Row, f: StoredFile, v: Version)
    returns (a: ArchiveFile)
    requires row in rows && f in files && v in versions && v.fileId == f.id
    requires f.folder == row.id && f.owner == row.owner && !f.deleted
    ensures a in Resolve(rows, files, versions)
    ensures a.fileId == f.id && a.path == row.path + "/" + f.name && a.version >= v.number
  {
    LatestIsLatest(versions, f.id);
    ResolveComplete(rows, files, versions, row, f);
    a := Resolved(row, f, versions);
  }

  lemma {:induction false} SameFile(files: seq<StoredFile>, f: StoredFile, g: StoredFile)
    requires FileKeyUnique(files) && f in files && g in files && f.id == g.id
    ensures f == g
  {
    var i :| 0 <= i < |files| && files[i] == f;
    var j :| 0 <= j < |files| && files[j] == g;
  }

  lemma {:induction false} SameRow(rows: seq<Row>, a: Row, b: Row)
    requires DistinctRows(rows) && a in rows && b in rows && a.id == b.id
    ensures a == b
  {
    var i :| 0 <= i < |rows| && rows[i] == a;
    var j :| 0 <= j < |rows| && rows[j] == b;
  }

  /** A file occurs in the result once, so the paging keys are unique. */
  lemma {:induction false} OneRowPerFile(rows: seq<Row>, files: seq<StoredFile>, versions: seq<Version>)
    requires DistinctRows(rows) && FileKeyUnique(files)
    ensures forall a, b :: a in FileSet(rows, files, versions) && b in FileSet(rows, files, versions) ==>
              a.fileId == b.fileId ==> a == b
    ensures KeysUnique(FileSet(rows, files, versions))
  {
    forall a, b | a in FileSet(rows, files, versions) && b in FileSet(rows, files, versions) && a.fileId == b.fileId
      ensures a == b
    {
      var r, f := ResolveSource(rows, files, versions, a);
      var q, g := ResolveSource(rows, files, versions, b);
      SameFile(files, f, g);
      SameRow(rows, r, q);
    }
  }
}
