/** Emptiness by path prefix is emptiness of the true subtree. */
module Subtree {
  import opened Model
  import opened Paths
  import opened Naming
  import opened FolderTree
  import opened FileQuery
  import opened Keyset
  import opened EmptyFolders
  import opened Manifest
  import opened EndToEnd

  /** Two live folders with the same parent have different names. */
  predicate DistinctSiblings(table: seq<Folder>) {
    forall f, g :: f in table && g in table && Siblings(f, g) && f.name == g.name ==> f == g
  }

  predicate Siblings(f: Folder, g: Folder) {
    !f.deleted && !g.deleted && f.parent.Some? && f.parent == g.parent
  }

  lemma {:induction false} NamesInjective(table: seq<Folder>, root: FolderId, f: Folder, g: Folder, n: nat)
    requires KeyUnique(table) && DistinctSiblings(table) && At(table, root, f, n) && At(table, root, g, n)
    requires Names(table, root, f, n) == Names(table, root, g, n)
    ensures f == g
    decreases n
  {
    if n == 0 {
      SameKey(table, f, g);
    } else {
      var p := ParentNames(table, root, f, n);
      var q := ParentNames(table, root, g, n);
      NamesInjective(table, root, p, q, n - 1);
      assert Siblings(f, g);
    }
  }

  /** What lies below `g` lies below the root, and its names extend those of `g`. */
  lemma {:induction false} Graft(table: seq<Folder>, root: FolderId, g: Folder, k: nat, h: Folder, m: nat)
    requires KeyUnique(table) && At(table, root, g, k) && At(table, g.id, h, m)
    ensures At(table, root, h, k + m) && Names(table, root, h, k + m)[..k + 1] == Names(table, root, g, k)
    decreases m
  {
    if m == 0 {
      SameKey(table, g, h);
      assert Names(table, root, g, k)[..k + 1] == Names(table, root, g, k);
    } else {
      var p := ParentAt(table, g.id, m, h);
      Graft(table, root, g, k, p, m - 1);
      ChildAt(table, root, p, h, k + m - 1);
      NamesStep(table, root, p, h, k + m - 1);
      assert Names(table, root, h, k + m)[..k + 1] == Names(table, root, p, k + m - 1)[..k + 1];
    }
  }

  /** `h` is `g` or lies below it, through live folders. */
  ghost predicate InSubtree(table: seq<Folder>, g: Folder, h: Folder) {
    exists m: nat :: At(table, g.id, h, m)
  }

  /** Names decide who lies below whom. */
  lemma {:induction false} SubtreeByNames(table: seq<Folder>, root: FolderId, g: Folder, k: nat, h: Folder, n: nat)
    requires KeyUnique(table) && Acyclic(table, root) && DistinctSiblings(table)
    requires At(table, root, g, k) && At(table, root, h, n)
    ensures InSubtree(table, g, h) <==> Names(table, root, g, k) <= Names(table, root, h, n)
  {
    if InSubtree(table, g, h) {
      var m: nat :| At(table, g.id, h, m);
      Graft(table, root, g, k, h, m);
      OneDepth(table, root, h, n, k + m);
    }
    if Names(table, root, g, k) <= Names(table, root, h, n) {
      var a := AncestorAt(table, root, h, n, k);
      NamesInjective(table, root, g, a, k);
    }
  }

  // ----- from names to paths -----

  /** Names without slashes; they may be empty, dots or anything else. */
  ghost predicate SlashFreeNames(db: Database, root: FolderId) {
    && (forall f, n :: At(db.folders, root, f, n) ==> SlashFree(f.name))
    && (forall f, folder, n :: Belongs(db, root, f, folder, n) ==> SlashFree(f.name))
  }

  lemma {:induction false} NamesSlashFree(db: Database, root: FolderId, f: Folder, n: nat)
    requires KeyUnique(db.folders) && SlashFreeNames(db, root) && At(db.folders, root, f, n)
    ensures AllSlashFree(Names(db.folders, root, f, n))
    decreases n
  {
    if n > 0 {
      var p := ParentNames(db.folders, root, f, n);
      NamesSlashFree(db, root, p, n - 1);
    }
  }

  lemma {:induction false} FirstNames(table: seq<Folder>, root: FolderId, f: Folder, n: nat, g: Folder, k: nat)
    requires KeyUnique(table) && At(table, root, f, n) && At(table, root, g, k)
    ensures Names(table, root, f, n)[0] == Names(table, root, g, k)[0]
  {
    var a := AncestorAt(table, root, f, n, 0);
    var b := AncestorAt(table, root, g, k, 0);
    SameKey(table, a, b);
    assert Names(table, root, a, 0)[0] == Names(table, root, b, 0)[0];
  }

  /** A file's path lies under a folder's path if and only if the file is in its subtree. */
  lemma {:induction false} UnderIsSubtree(db: Database, root: FolderId, top: string, g: Folder, k: nat,
      f: StoredFile, h: Folder, n: nat)
    requires DatabaseOk(db, root) && DistinctSiblings(db.folders) && SlashFreeNames(db, root) && SlashFree(top)
    requires At(db.folders, root, g, k) && Belongs(db, root, f, h, n)
    ensures Under(ManifestRow(db, root, f, h, n, top).path, FolderPath(db, root, g, k, top)) <==>
            InSubtree(db.folders, g, h)
  {
    var above, names := Names(db.folders, root, g, k), Names(db.folders, root, h, n);
    NamesSlashFree(db, root, g, k);
    NamesSlashFree(db, root, h, n);
    FirstNames(db.folders, root, g, k, h, n);
    var all := names + [f.name];
    SplitJoin(above);
    SplitJoin(all);
    RebaseKeepsTree(Join(all), Join(above), top);
    UnderIsPrefix(Join(all), Join(above));
    assert |above| <= |names| && above <= all ==> above == all[..|above|] == names[..|above|];
    SubtreeByNames(db.folders, root, g, k, h, n);
  }

  /** The sort-and-search emptiness test agrees with true emptiness: a folder is left without
      files under its path if and only if no file that belongs in the archive is in a folder of
      its subtree. */
  lemma {:induction false} EmptyIsEmptySubtree(db: Database, root: FolderId, lt: Order, top: string,
      rows: seq<Row>, g: Folder, k: nat)
    requires Built(db, root, lt, top, rows) && DistinctSiblings(db.folders) && SlashFreeNames(db, root)
    requires At(db.folders, root, g, k)
    ensures HasFileUnder(PathsOf(ManifestOf(db, rows, lt, top).files), FolderPath(db, root, g, k, top)) <==>
            exists f, h, n :: Belongs(db, root, f, h, n) && InSubtree(db.folders, g, h)
  {
    var files := ManifestOf(db, rows, lt, top).files;
    var d := FolderPath(db, root, g, k, top);
    if HasFileUnder(PathsOf(files), d) {
      var i :| 0 <= i < |files| && Under(PathsOf(files)[i], d);
      var f, h, n := FileSource(db, root, lt, top, rows, i);
      UnderIsSubtree(db, root, top, g, k, f, h, n);
    }
    if exists f, h, n :: Belongs(db, root, f, h, n) && InSubtree(db.folders, g, h) {
      var f, h, n :| Belongs(db, root, f, h, n) && InSubtree(db.folders, g, h);
      var i := FileListed(db, root, lt, top, rows, f, h, n);
      UnderIsSubtree(db, root, top, g, k, f, h, n);
      assert Under(PathsOf(files)[i], d);
    }
  }
}
