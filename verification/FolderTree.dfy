/** The recursive folder query: an iterated working table over a finite folder table. */
module FolderTree {
  import opened Model
  import opened Paths

  type FolderId = string

  datatype Folder = Folder(id: FolderId, parent: Option<FolderId>, owner: string, name: string, deleted: bool)

  /** A row of the recursive result. */
  datatype Row = Row(id: FolderId, owner: string, name: string, path: string)

  /** `folder_id` is the table's primary key. */
  predicate KeyUnique(table: seq<Folder>) {
    |TableIds(table)| == |table|
  }

  function TableIds(table: seq<Folder>): set<FolderId> {
    set f | f in table :: f.id
  }

  lemma {:induction false} FewIds(table: seq<Folder>)
    ensures |TableIds(table)| <= |table|
  {
    if table != [] {
      FewIds(table[1..]);
      IdsOfTail(table);
    }
  }

  lemma {:induction false} IdsOfTail(table: seq<Folder>)
    requires table != []
    ensures TableIds(table) == {table[0].id} + TableIds(table[1..])
  {
    assert table == [table[0]] + table[1..];
  }

  lemma {:induction false} KeyTail(table: seq<Folder>)
    requires KeyUnique(table) && table != []
    ensures KeyUnique(table[1..]) && table[0].id !in TableIds(table[1..])
  {
    FewIds(table[1..]);
    IdsOfTail(table);
  }

  /** What one part of the query selects: the root itself, or the children of a row. */
  datatype Select = TheRoot(root: FolderId) | ChildrenOf(row: Row)

  predicate Wanted(f: Folder, select: Select) {
    !f.deleted && match select
                  case TheRoot(root) => f.id == root
                  case ChildrenOf(row) => f.parent == Some(row.id)
  }

  function RowFor(f: Folder, select: Select): Row {
    Row(f.id, f.owner, f.name, match select
                               case TheRoot(_) => f.name
                               case ChildrenOf(row) => row.path + "/" + f.name)
  }

  /** A scan of the folder table. */
  function Scan(table: seq<Folder>, select: Select): seq<Row> {
    if table == [] then []
    else (if Wanted(table[0], select) then [RowFor(table[0], select)] else []) + Scan(table[1..], select)
  }

  /** The join of the whole working table, duplicates kept. */
  function NextLevel(table: seq<Folder>, working: seq<Row>): seq<Row> {
    if working == [] then [] else Scan(table, ChildrenOf(working[0])) + NextLevel(table, working[1..])
  }

  /** The working table after `n` rounds. */
  function Level(table: seq<Folder>, root: FolderId, n: nat): seq<Row> {
    if n == 0 then Scan(table, TheRoot(root)) else NextLevel(table, Level(table, root, n - 1))
  }

  // ----- the tree itself -----

  /** `f` is a live folder `n` levels below the live folder `root`, through live folders. */
  ghost predicate At(table: seq<Folder>, root: FolderId, f: Folder, n: nat)
    decreases n
  {
    && f in table && !f.deleted
    && (if n == 0 then f.id == root
        else exists p :: IsParent(p, f) && At(table, root, p, n - 1))
  }

  predicate IsParent(p: Folder, f: Folder) {
    f.parent == Some(p.id)
  }

  lemma {:induction false} SameKey(table: seq<Folder>, f: Folder, g: Folder)
    requires KeyUnique(table) && f in table && g in table && f.id == g.id
    ensures f == g
  {
    KeyTail(table);
    if f != table[0] && g != table[0] {
      SameKey(table[1..], f, g);
    }
  }

  /** The names from the root down to a folder. */
  ghost function Names(table: seq<Folder>, root: FolderId, f: Folder, n: nat): (names: seq<string>)
    requires At(table, root, f, n)
    ensures |names| == n + 1 && names[n] == f.name
    decreases n
  {
    if n == 0 then [f.name]
    else
      var p :| IsParent(p, f) && At(table, root, p, n - 1);
      Names(table, root, p, n - 1) + [f.name]
  }

  lemma {:induction false} NamesStep(table: seq<Folder>, root: FolderId, p: Folder, f: Folder, n: nat)
    requires KeyUnique(table) && IsParent(p, f) && At(table, root, p, n) && At(table, root, f, n + 1)
    ensures Names(table, root, f, n + 1) == Names(table, root, p, n) + [f.name]
  {
    var q :| IsParent(q, f) && At(table, root, q, n) &&
             Names(table, root, f, n + 1) == Names(table, root, q, n) + [f.name];
    SameKey(table, p, q);
  }

  lemma {:induction false} ParentAt(table: seq<Folder>, root: FolderId, n: nat, f: Folder) returns (p: Folder)
    requires n > 0 && At(table, root, f, n)
    ensures IsParent(p, f) && At(table, root, p, n - 1)
  {
    p :| IsParent(p, f) && At(table, root, p, n - 1);
  }

  lemma {:induction false} ChildAt(table: seq<Folder>, root: FolderId, p: Folder, f: Folder, n: nat)
    requires At(table, root, p, n) && IsParent(p, f) && f in table && !f.deleted
    ensures At(table, root, f, n + 1)
  {
  }

  lemma {:induction false} ParentNames(table: seq<Folder>, root: FolderId, f: Folder, n: nat) returns (p: Folder)
    requires KeyUnique(table) && n > 0 && At(table, root, f, n)
    ensures At(table, root, p, n - 1) && IsParent(p, f) && Names(table, root, p, n - 1) == Names(table, root, f, n)[..n]
  {
    p := ParentAt(table, root, n, f);
    NamesStep(table, root, p, f, n - 1);
  }

  /** No live path leads from the root back to the root. */
  ghost predicate Acyclic(table: seq<Folder>, root: FolderId) {
    forall f: Folder, n: nat :: n > 0 && f.id == root ==> !At(table, root, f, n)
  }

  /** Without a cycle through the root a folder has only one depth. */
  lemma {:induction false} OneDepth(table: seq<Folder>, root: FolderId, f: Folder, n: nat, m: nat)
    requires KeyUnique(table) && Acyclic(table, root) && At(table, root, f, n) && At(table, root, f, m)
    ensures n == m
    decreases n
  {
    if n > 0 && m > 0 {
      var p :| IsParent(p, f) && At(table, root, p, n - 1);
      var q :| IsParent(q, f) && At(table, root, q, m - 1);
      SameKey(table, p, q);
      OneDepth(table, root, p, n - 1, m - 1);
    }
  }

  // ----- each round of the query is one level of the tree -----

  predicate DistinctRows(rows: seq<Row>) {
    forall i, j :: 0 <= i < j < |rows| ==> rows[i].id != rows[j].id
  }

  lemma {:induction false} ScanSource(table: seq<Folder>, select: Select, row: Row) returns (f: Folder)
    requires row in Scan(table, select)
    ensures f in table && Wanted(f, select) && row == RowFor(f, select)
  {
    if Wanted(table[0], select) && row == RowFor(table[0], select) {
      f := table[0];
    } else {
      f := ScanSource(table[1..], select, row);
    }
  }

  lemma {:induction false} ScanComplete(table: seq<Folder>, select: Select, f: Folder)
    requires f in table && Wanted(f, select)
    ensures RowFor(f, select) in Scan(table, select)
  {
    if f != table[0] {
      ScanComplete(table[1..], select, f);
    }
  }

  lemma {:induction false} ScanDistinct(table: seq<Folder>, select: Select)
    requires KeyUnique(table)
    ensures DistinctRows(Scan(table, select))
  {
    if table != [] {
      var rest := Scan(table[1..], select);
      KeyTail(table);
      ScanDistinct(table[1..], select);
      if Wanted(table[0], select) {
        forall j | 0 <= j < |rest| ensures rest[j].id != table[0].id {
          var f := ScanSource(table[1..], select, rest[j]);
        }
      }
    }
  }

  lemma {:induction false} NextSource(table: seq<Folder>, working: seq<Row>, row: Row) returns (parent: Row, f: Folder)
    requires row in NextLevel(table, working)
    ensures parent in working && f in table && Wanted(f, ChildrenOf(parent)) && row == RowFor(f, ChildrenOf(parent))
  {
    if row in Scan(table, ChildrenOf(working[0])) {
      parent := working[0];
      f := ScanSource(table, ChildrenOf(parent), row);
    } else {
      parent, f := NextSource(table, working[1..], row);
    }
  }

  lemma {:induction false} NextComplete(table: seq<Folder>, working: seq<Row>, parent: Row, f: Folder)
    requires parent in working && f in table && Wanted(f, ChildrenOf(parent))
    ensures RowFor(f, ChildrenOf(parent)) in NextLevel(table, working)
  {
    if parent == working[0] {
      ScanComplete(table, ChildrenOf(parent), f);
    } else {
      NextComplete(table, working[1..], parent, f);
    }
  }

  lemma {:induction false} NextDistinct(table: seq<Folder>, working: seq<Row>)
    requires KeyUnique(table) && DistinctRows(working)
    ensures DistinctRows(NextLevel(table, working))
  {
    if working != [] {
      var a, b := Scan(table, ChildrenOf(working[0])), NextLevel(table, working[1..]);
      ScanDistinct(table, ChildrenOf(working[0]));
      NextDistinct(table, working[1..]);
      forall i, j | 0 <= i < |a| && 0 <= j < |b| ensures a[i].id != b[j].id {
        var f := ScanSource(table, ChildrenOf(working[0]), a[i]);
        var parent, g := NextSource(table, working[1..], b[j]);
        var k :| 0 <= k < |working[1..]| && working[1..][k] == parent;
        assert working[k + 1] == parent;
        if f.id == g.id {
          SameKey(table, f, g);
        }
      }
    }
  }

  /** The row the tree has for a folder at depth `n`. */
  ghost function TreeRow(table: seq<Folder>, root: FolderId, f: Folder, n: nat): Row
    requires At(table, root, f, n)
  {
    Row(f.id, f.owner, f.name, Join(Names(table, root, f, n)))
  }

  lemma {:induction false} TreeRowStep(table: seq<Folder>, root: FolderId, p: Folder, f: Folder, n: nat)
    requires KeyUnique(table) && IsParent(p, f) && f in table && !f.deleted && At(table, root, p, n)
    ensures At(table, root, f, n + 1)
    ensures TreeRow(table, root, f, n + 1) == RowFor(f, ChildrenOf(TreeRow(table, root, p, n)))
  {
    NamesStep(table, root, p, f, n);
    JoinAppend(Names(table, root, p, n), f.name);
  }

  lemma {:induction false} LevelSource(table: seq<Folder>, root: FolderId, n: nat, row: Row) returns (f: Folder)
    requires KeyUnique(table) && row in Level(table, root, n)
    ensures At(table, root, f, n) && row == TreeRow(table, root, f, n)
    decreases n, 0
  {
    if n == 0 {
      f := RootSource(table, root, row);
    } else {
      var k :| 0 <= k < |Level(table, root, n)| && Level(table, root, n)[k] == row;
      f := NthSource(table, root, n, k);
    }
  }

  lemma {:induction false} NthSource(table: seq<Folder>, root: FolderId, n: nat, k: nat) returns (f: Folder)
    requires KeyUnique(table) && n > 0 && k < |Level(table, root, n)|
    ensures At(table, root, f, n) && Level(table, root, n)[k] == TreeRow(table, root, f, n)
    decreases n - 1, 2
  {
    var row, parent, child := NthParent(table, root, n, k);
    ChildSource(table, root, n - 1, parent, child, row);
    f := child;
  }

  lemma {:induction false} NthParent(table: seq<Folder>, root: FolderId, n: nat, k: nat)
      returns (row: Row, parent: Row, f: Folder)
    requires n > 0 && k < |Level(table, root, n)|
    ensures row == Level(table, root, n)[k] && parent in Level(table, root, n - 1)
    ensures f in table && Wanted(f, ChildrenOf(parent)) && row == RowFor(f, ChildrenOf(parent))
  {
    row := Level(table, root, n)[k];
    parent, f := ParentRow(table, root, n, row);
  }

  lemma {:induction false} ChildSource(table: seq<Folder>, root: FolderId, n: nat, parent: Row, f: Folder, row: Row)
    requires KeyUnique(table) && parent in Level(table, root, n)
    requires f in table && Wanted(f, ChildrenOf(parent)) && row == RowFor(f, ChildrenOf(parent))
    ensures At(table, root, f, n + 1) && row == TreeRow(table, root, f, n + 1)
    decreases n, 1
  {
    var p := LevelSource(table, root, n, parent);
    ChildRow(table, root, p, n, f, parent, row);
  }

  lemma {:induction false} LevelUnfold(table: seq<Folder>, root: FolderId, n: nat) returns (working: seq<Row>)
    requires n > 0
    ensures working == Level(table, root, n - 1) && Level(table, root, n) == NextLevel(table, working)
  {
    working := Level(table, root, n - 1);
  }

  lemma {:induction false} InEither(a: seq<Row>, b: seq<Row>, row: Row)
    ensures row in a + b <==> row in a || row in b
  {
  }

  lemma {:induction false} ParentRow(table: seq<Folder>, root: FolderId, n: nat, row: Row)
      returns (parent: Row, f: Folder)
    requires n > 0 && row in Level(table, root, n)
    ensures parent in Level(table, root, n - 1)
    ensures f in table && Wanted(f, ChildrenOf(parent)) && row == RowFor(f, ChildrenOf(parent))
  {
    var working := LevelUnfold(table, root, n);
    parent, f := NextSource(table, working, row);
  }

  lemma {:induction false} ChildRow(table: seq<Folder>, root: FolderId, p: Folder, n: nat, f: Folder,
      parent: Row, row: Row)
    requires KeyUnique(table) && At(table, root, p, n) && parent == TreeRow(table, root, p, n)
    requires f in table && Wanted(f, ChildrenOf(parent)) && row == RowFor(f, ChildrenOf(parent))
    ensures At(table, root, f, n + 1) && row == TreeRow(table, root, f, n + 1)
  {
    TreeRowStep(table, root, p, f, n);
  }

  lemma {:induction false} RootSource(table: seq<Folder>, root: FolderId, row: Row) returns (f: Folder)
    requires row in Level(table, root, 0)
    ensures At(table, root, f, 0) && row == TreeRow(table, root, f, 0)
  {
    f := ScanSource(table, TheRoot(root), row);
  }

  lemma {:induction false} LevelComplete(table: seq<Folder>, root: FolderId, n: nat, f: Folder)
    requires KeyUnique(table) && At(table, root, f, n)
    ensures TreeRow(table, root, f, n) in Level(table, root, n)
  {
    if n == 0 {
      RootComplete(table, root, f);
    } else {
      var p := ParentAt(table, root, n, f);
      LevelComplete(table, root, n - 1, p);
      NextRound(table, root, p, n - 1, f);
    }
  }

  lemma {:induction false} NextRound(table: seq<Folder>, root: FolderId, p: Folder, n: nat, f: Folder)
    requires KeyUnique(table) && IsParent(p, f) && f in table && !f.deleted && At(table, root, p, n)
    requires TreeRow(table, root, p, n) in Level(table, root, n)
    ensures At(table, root, f, n + 1) && TreeRow(table, root, f, n + 1) in Level(table, root, n + 1)
  {
    var working := LevelUnfold(table, root, n + 1);
    ChildComplete(table, root, p, n, f, working);
  }

  lemma {:induction false} RootComplete(table: seq<Folder>, root: FolderId, f: Folder)
    requires At(table, root, f, 0)
    ensures TreeRow(table, root, f, 0) in Level(table, root, 0)
  {
    ScanComplete(table, TheRoot(root), f);
  }

  lemma {:induction false} ChildComplete(table: seq<Folder>, root: FolderId, p: Folder, n: nat, f: Folder,
      working: seq<Row>)
    requires KeyUnique(table) && IsParent(p, f) && f in table && !f.deleted && At(table, root, p, n)
    requires TreeRow(table, root, p, n) in working
    ensures At(table, root, f, n + 1) && TreeRow(table, root, f, n + 1) in NextLevel(table, working)
  {
    TreeRowStep(table, root, p, f, n);
    NextComplete(table, working, TreeRow(table, root, p, n), f);
  }

  lemma {:induction false} LevelDistinct(table: seq<Folder>, root: FolderId, n: nat)
    requires KeyUnique(table)
    ensures DistinctRows(Level(table, root, n))
  {
    if n == 0 {
      ScanDistinct(table, TheRoot(root));
    } else {
      LevelDistinct(table, root, n - 1);
      NextDistinct(table, Level(table, root, n - 1));
    }
  }

  // ----- the whole query -----

  /** Everything the recursive query has produced after `n` rounds. */
  function UpTo(table: seq<Folder>, root: FolderId, n: nat): seq<Row> {
    if n == 0 then Level(table, root, 0) else UpTo(table, root, n - 1) + Level(table, root, n)
  }

  lemma {:induction false} UpToSource(table: seq<Folder>, root: FolderId, n: nat, row: Row) returns (k: nat)
    requires row in UpTo(table, root, n)
    ensures k <= n && row in Level(table, root, k)
  {
    if n == 0 || row in Level(table, root, n) {
      k := n;
    } else {
      InEither(UpTo(table, root, n - 1), Level(table, root, n), row);
      k := UpToSource(table, root, n - 1, row);
    }
  }

  lemma {:induction false} UpToComplete(table: seq<Folder>, root: FolderId, n: nat, k: nat, row: Row)
    requires k <= n && row in Level(table, root, k)
    ensures row in UpTo(table, root, n)
  {
    if n > 0 {
      InEither(UpTo(table, root, n - 1), Level(table, root, n), row);
      if k < n {
        UpToComplete(table, root, n - 1, k, row);
      }
    }
  }

  /** A row of a later round belongs to a folder no earlier round has seen. */
  lemma {:induction false} LevelsApart(table: seq<Folder>, root: FolderId, n: nat, i: nat, j: nat)
    requires KeyUnique(table) && Acyclic(table, root)
    requires i < |UpTo(table, root, n)| && j < |Level(table, root, n + 1)|
    ensures UpTo(table, root, n)[i].id != Level(table, root, n + 1)[j].id
  {
    var f, k := NthSeen(table, root, n, i);
    var g := NthFolder(table, root, n + 1, j);
    FoldersApart(table, root, f, k, g, n + 1);
  }

  lemma {:induction false} NthSeen(table: seq<Folder>, root: FolderId, n: nat, i: nat) returns (f: Folder, k: nat)
    requires KeyUnique(table) && i < |UpTo(table, root, n)|
    ensures k <= n && At(table, root, f, k) && f.id == UpTo(table, root, n)[i].id
  {
    f, k := SeenFolder(table, root, n, UpTo(table, root, n)[i]);
  }

  lemma {:induction false} NthFolder(table: seq<Folder>, root: FolderId, n: nat, j: nat) returns (g: Folder)
    requires KeyUnique(table) && j < |Level(table, root, n)|
    ensures At(table, root, g, n) && g.id == Level(table, root, n)[j].id
  {
    g := LevelFolder(table, root, n, Level(table, root, n)[j]);
  }

  lemma {:induction false} FoldersApart(table: seq<Folder>, root: FolderId, f: Folder, k: nat, g: Folder, n: nat)
    requires KeyUnique(table) && Acyclic(table, root) && At(table, root, f, k) && At(table, root, g, n) && k != n
    ensures f.id != g.id
  {
    if f.id == g.id {
      SameKey(table, f, g);
      OneDepth(table, root, f, k, n);
    }
  }

  lemma {:induction false} LevelFolder(table: seq<Folder>, root: FolderId, n: nat, row: Row) returns (f: Folder)
    requires KeyUnique(table) && row in Level(table, root, n)
    ensures At(table, root, f, n) && f in table && f.id == row.id
  {
    f := LevelSource(table, root, n, row);
  }

  lemma {:induction false} SeenFolder(table: seq<Folder>, root: FolderId, n: nat, row: Row) returns (f: Folder, k: nat)
    requires KeyUnique(table) && row in UpTo(table, root, n)
    ensures k <= n && At(table, root, f, k) && f in table && f.id == row.id
  {
    k := UpToSource(table, root, n, row);
    f := LevelFolder(table, root, k, row);
  }

  lemma {:induction false} UpToDistinct(table: seq<Folder>, root: FolderId, n: nat)
    requires KeyUnique(table) && Acyclic(table, root)
    ensures DistinctRows(UpTo(table, root, n))
  {
    LevelDistinct(table, root, n);
    if n > 0 {
      UpToDistinct(table, root, n - 1);
      RoundApart(table, root, n - 1);
      JoinDistinct(UpTo(table, root, n - 1), Level(table, root, n));
    }
  }

  predicate ApartRows(a: seq<Row>, b: seq<Row>) {
    forall i, j :: 0 <= i < |a| && 0 <= j < |b| ==> a[i].id != b[j].id
  }

  lemma {:induction false} JoinDistinct(a: seq<Row>, b: seq<Row>)
    requires DistinctRows(a) && DistinctRows(b) && ApartRows(a, b)
    ensures DistinctRows(a + b)
  {
  }

  lemma {:induction false} RoundApart(table: seq<Folder>, root: FolderId, n: nat)
    requires KeyUnique(table) && Acyclic(table, root)
    ensures ApartRows(UpTo(table, root, n), Level(table, root, n + 1))
  {
    var a, b := UpTo(table, root, n), Level(table, root, n + 1);
    forall i, j | 0 <= i < |a| && 0 <= j < |b| ensures a[i].id != b[j].id {
      LevelsApart(table, root, n, i, j);
    }
  }

  function RowIds(rows: seq<Row>): set<FolderId> {
    set row | row in rows :: row.id
  }

  lemma {:induction false} RowsFromTable(table: seq<Folder>, root: FolderId, n: nat)
    requires KeyUnique(table)
    ensures RowIds(UpTo(table, root, n)) <= TableIds(table)
  {
    forall row | row in UpTo(table, root, n) ensures row.id in TableIds(table) {
      var k := UpToSource(table, root, n, row);
      var f := LevelSource(table, root, k, row);
    }
  }

  /** A round that yields rows uses up folders of the table. */
  lemma {:induction false} RoundsRunOut(table: seq<Folder>, root: FolderId, n: nat)
    requires KeyUnique(table) && Acyclic(table, root) && Level(table, root, n + 1) != []
    ensures |TableIds(table) - RowIds(UpTo(table, root, n + 1))| < |TableIds(table) - RowIds(UpTo(table, root, n))|
  {
    var id := NewRow(table, root, n);
    RowsFromTable(table, root, n + 1);
    Shrinks(TableIds(table) - RowIds(UpTo(table, root, n + 1)), TableIds(table) - RowIds(UpTo(table, root, n)), id);
  }

  lemma {:induction false} NewRow(table: seq<Folder>, root: FolderId, n: nat) returns (id: FolderId)
    requires KeyUnique(table) && Acyclic(table, root) && Level(table, root, n + 1) != []
    ensures id in RowIds(UpTo(table, root, n + 1)) && id !in RowIds(UpTo(table, root, n))
    ensures RowIds(UpTo(table, root, n)) <= RowIds(UpTo(table, root, n + 1))
  {
    var before, more := UpTo(table, root, n), Level(table, root, n + 1);
    id := more[0].id;
    RoundApart(table, root, n);
    UpToNext(table, root, n);
    IdsJoin(before, more);
  }

  lemma {:induction false} UpToNext(table: seq<Folder>, root: FolderId, n: nat)
    ensures UpTo(table, root, n + 1) == UpTo(table, root, n) + Level(table, root, n + 1)
  {
  }

  lemma {:induction false} IdsJoin(a: seq<Row>, b: seq<Row>)
    requires b != [] && ApartRows(a, b)
    ensures b[0].id in RowIds(a + b) && b[0].id !in RowIds(a) && RowIds(a) <= RowIds(a + b)
  {
    assert b[0] in a + b;
    forall row | row in a ensures row in a + b && row.id != b[0].id {
    }
  }

  lemma {:induction false} Shrinks<T>(a: set<T>, b: set<T>, x: T)
    requires a <= b && x in b && x !in a
    ensures |a| < |b|
  {
    var rest := b - a - {x};
    assert b == a + rest + {x};
  }

  /** `row` is the row of a live folder reached from the root through live folders. */
  ghost predicate InTree(table: seq<Folder>, root: FolderId, row: Row) {
    exists f, n :: At(table, root, f, n) && row == TreeRow(table, root, f, n)
  }

  lemma {:induction false} LevelsEnd(table: seq<Folder>, root: FolderId, n: nat, k: nat)
    requires n <= k && Level(table, root, n) == []
    ensures Level(table, root, k) == []
    decreases k
  {
    if n < k {
      LevelsEnd(table, root, n, k - 1);
    }
  }

  lemma {:induction false} TreeIsUpTo(table: seq<Folder>, root: FolderId, n: nat, row: Row)
    requires KeyUnique(table) && Level(table, root, n) == []
    ensures row in UpTo(table, root, n) <==> InTree(table, root, row)
  {
    if row in UpTo(table, root, n) {
      var k := UpToSource(table, root, n, row);
      var f := LevelSource(table, root, k, row);
    }
    if InTree(table, root, row) {
      var f, k :| At(table, root, f, k) && row == TreeRow(table, root, f, k);
      LevelComplete(table, root, k, f);
      if n <= k {
        LevelsEnd(table, root, n, k);
      } else {
        UpToComplete(table, root, n, k, row);
      }
    }
  }

  // ----- ORDER BY archive_path -----

  /** The database's order of paths, whatever its collation. */
  type PathOrder = (string, string) -> bool

  ghost predicate PathOrderOk(le: PathOrder) {
    (forall a, b :: Ranked(le, a, b)) && (forall a, b, c :: Follows(le, a, b, c) ==> le(a, c))
  }

  predicate Ranked(le: PathOrder, a: string, b: string) {
    le(a, b) || le(b, a)
  }

  predicate Follows(le: PathOrder, a: string, b: string, c: string) {
    le(a, b) && le(b, c)
  }

  /** Bytewise order is one such order. */
  lemma {:induction false} AtMostIsPathOrder()
    ensures PathOrderOk(AtMost)
  {
    forall a, b ensures Ranked(AtMost, a, b) {
      AtMostTotal(a, b);
    }
    forall a, b, c | Follows(AtMost, a, b, c) ensures AtMost(a, c) {
      AtMostTransitive(a, b, c);
    }
  }

  predicate InOrder(rows: seq<Row>, le: PathOrder) {
    forall i, j :: 0 <= i < j < |rows| ==> le(rows[i].path, rows[j].path)
  }

  function InsertRow(rows: seq<Row>, row: Row, le: PathOrder): seq<Row> {
    if rows == [] then [row]
    else if le(row.path, rows[0].path) then [row] + rows
    else [rows[0]] + InsertRow(rows[1..], row, le)
  }

  function SortRows(rows: seq<Row>, le: PathOrder): seq<Row> {
    if rows == [] then [] else InsertRow(SortRows(rows[1..], le), rows[0], le)
  }

  lemma {:induction false} CountFirst(row: Row, rest: seq<Row>)
    ensures multiset([row] + rest) == multiset{row} + multiset(rest)
  {
  }

  lemma {:induction false} InsertRowSame(rows: seq<Row>, row: Row, le: PathOrder)
    ensures multiset(InsertRow(rows, row, le)) == multiset(rows) + multiset{row}
  {
    if rows == [] || le(row.path, rows[0].path) {
      CountFirst(row, rows);
      assert [row] + rows == InsertRow(rows, row, le);
    } else {
      var first, rest := rows[0], rows[1..];
      InsertRowSame(rest, row, le);
      CountFirst(first, InsertRow(rest, row, le));
      CountFirst(first, rest);
      assert rows == [first] + rest;
    }
  }

  predicate NotAbove(path: string, rows: seq<Row>, le: PathOrder) {
    forall j :: 0 <= j < |rows| ==> le(path, rows[j].path)
  }

  lemma {:induction false} InsertRowNotAbove(rows: seq<Row>, row: Row, le: PathOrder, path: string)
    requires NotAbove(path, rows, le) && le(path, row.path)
    ensures NotAbove(path, InsertRow(rows, row, le), le)
  {
    if rows != [] && !le(row.path, rows[0].path) {
      InsertRowNotAbove(rows[1..], row, le, path);
    }
  }

  lemma {:induction false} InsertRowOrdered(rows: seq<Row>, row: Row, le: PathOrder)
    requires PathOrderOk(le) && InOrder(rows, le)
    ensures InOrder(InsertRow(rows, row, le), le)
  {
    if rows != [] {
      if le(row.path, rows[0].path) {
        forall j | 0 <= j < |rows| ensures le(row.path, rows[j].path) {
          assert j > 0 ==> Follows(le, row.path, rows[0].path, rows[j].path);
        }
      } else {
        assert Ranked(le, row.path, rows[0].path);
        InsertRowOrdered(rows[1..], row, le);
        InsertRowNotAbove(rows[1..], row, le, rows[0].path);
      }
    }
  }

  lemma {:induction false} SortRowsExact(rows: seq<Row>, le: PathOrder)
    requires PathOrderOk(le)
    ensures InOrder(SortRows(rows, le), le) && multiset(SortRows(rows, le)) == multiset(rows)
  {
    if rows != [] {
      SortRowsExact(rows[1..], le);
      InsertRowOrdered(SortRows(rows[1..], le), rows[0], le);
      InsertRowSame(SortRows(rows[1..], le), rows[0], le);
      assert rows == [rows[0]] + rows[1..];
    }
  }

  lemma {:induction false} OnceInDistinct(rows: seq<Row>, row: Row)
    requires DistinctRows(rows)
    ensures multiset(rows)[row] <= 1
  {
    if rows != [] {
      var rest := rows[1..];
      assert rows == [rows[0]] + rest;
      OnceInDistinct(rest, row);
      forall k | 0 <= k < |rest| ensures rest[k] != rows[0] {
        assert rest[k] == rows[k + 1];
      }
    }
  }

  /** Rearranging rows keeps them distinct. */
  lemma {:induction false} StillDistinct(a: seq<Row>, b: seq<Row>)
    requires DistinctRows(a) && multiset(a) == multiset(b)
    ensures DistinctRows(b)
  {
    forall i, j | 0 <= i < j < |b| ensures b[i].id != b[j].id {
      assert b[i] in multiset(a) && b[j] in multiset(a);
      var k :| 0 <= k < |a| && a[k] == b[i];
      var l :| 0 <= l < |a| && a[l] == b[j];
      if k == l {
        TwiceCounts(b, i, j);
        OnceInDistinct(a, b[i]);
      }
    }
  }

  lemma {:induction false} TwiceCounts(b: seq<Row>, i: nat, j: nat)
    requires i < j < |b| && b[i] == b[j]
    ensures multiset(b)[b[i]] >= 2
  {
    assert b == b[..j] + [b[j]] + b[j + 1..];
    assert b[..j][i] == b[i];
  }

  /** The recursive query: it ends, and returns every folder of the live tree exactly once,
      with the names from the root joined by slashes as its path, and nothing else, in the
      order of the paths; or it fails. */
  method GetFolderTree(table: seq<Folder>, root: FolderId, le: PathOrder, fault: bool) returns (r: Option<seq<Row>>)
    requires KeyUnique(table) && Acyclic(table, root) && PathOrderOk(le)
    ensures r.None? <==> fault
    ensures r.Some? ==> DistinctRows(r.value) && InOrder(r.value, le)
    ensures r.Some? ==> forall row :: row in r.value <==> InTree(table, root, row)
  {
    if fault {
      return None;
    }
    var found := WalkTree(table, root);
    var rows := SortRows(found, le);
    SortRowsExact(found, le);
    StillDistinct(found, rows);
    forall row ensures row in rows <==> row in found {
      assert row in multiset(rows) <==> row in multiset(found);
    }
    return Some(rows);
  }

  /** The iterated working table. */
  method WalkTree(table: seq<Folder>, root: FolderId) returns (rows: seq<Row>)
    requires KeyUnique(table) && Acyclic(table, root)
    ensures DistinctRows(rows)
    ensures forall row :: row in rows <==> InTree(table, root, row)
  {
    var working := Scan(table, TheRoot(root));
    rows := working;
    ghost var n: nat := 0;
    while working != []
      invariant working == Level(table, root, n) && rows == UpTo(table, root, n)
      decreases Unseen(table, root, n), |working|
    {
      working := NextLevel(table, working);
      rows := rows + working;
      RoundMeasure(table, root, n);
      n := n + 1;
    }
    UpToIsTree(table, root, n);
  }

  /** Folders of the table that no round up to `n` has returned. */
  ghost function Unseen(table: seq<Folder>, root: FolderId, n: nat): nat {
    |TableIds(table) - RowIds(UpTo(table, root, n))|
  }

  lemma {:induction false} RoundMeasure(table: seq<Folder>, root: FolderId, n: nat)
    requires KeyUnique(table) && Acyclic(table, root)
    ensures if Level(table, root, n + 1) == [] then Unseen(table, root, n + 1) == Unseen(table, root, n)
            else Unseen(table, root, n + 1) < Unseen(table, root, n)
  {
    if Level(table, root, n + 1) == [] {
      assert UpTo(table, root, n + 1) == UpTo(table, root, n);
    } else {
      RoundsRunOut(table, root, n);
    }
  }

  lemma {:induction false} UpToIsTree(table: seq<Folder>, root: FolderId, n: nat)
    requires KeyUnique(table) && Acyclic(table, root) && Level(table, root, n) == []
    ensures DistinctRows(UpTo(table, root, n))
    ensures forall row :: row in UpTo(table, root, n) <==> InTree(table, root, row)
  {
    UpToDistinct(table, root, n);
    forall row ensures row in UpTo(table, root, n) <==> InTree(table, root, row) {
      TreeIsUpTo(table, root, n, row);
    }
  }

  // ----- the query ends exactly when there is no cycle -----

  lemma {:induction false} CycleRepeats(table: seq<Folder>, root: FolderId, f: Folder, n: nat, k: nat)
    requires KeyUnique(table) && f.id == root && At(table, root, f, n)
    ensures At(table, root, f, n * k)
  {
    if k > 0 {
      CycleRepeats(table, root, f, n, k - 1);
      Stacked(table, root, f, f, n, n * (k - 1));
      assert n * k == n + n * (k - 1);
    }
  }

  lemma {:induction false} Stacked(table: seq<Folder>, root: FolderId, top: Folder, f: Folder, n: nat, m: nat)
    requires KeyUnique(table) && top.id == root && At(table, root, top, m) && At(table, root, f, n)
    ensures At(table, root, f, n + m)
    decreases n
  {
    if n == 0 {
      SameKey(table, top, f);
    } else {
      var p :| IsParent(p, f) && At(table, root, p, n - 1);
      Stacked(table, root, top, p, n - 1, m);
      assert n - 1 + m == n + m - 1;
    }
  }

  /** Some round of the working table is empty if and only if no live path leads from the
      root back to itself. */
  lemma {:induction false} EndsIffAcyclic(table: seq<Folder>, root: FolderId)
    requires KeyUnique(table)
    ensures (exists n: nat :: Level(table, root, n) == []) <==> Acyclic(table, root)
  {
    if Acyclic(table, root) {
      var n := EmptyRound(table, root, 0);
    } else {
      var f: Folder, n: nat :| n > 0 && f.id == root && At(table, root, f, n);
      forall k: nat ensures Level(table, root, k) != [] {
        CycleRepeats(table, root, f, n, k);
        assert n * k >= k;
        LevelComplete(table, root, n * k, f);
        if Level(table, root, k) == [] {
          LevelsEnd(table, root, k, n * k);
        }
      }
    }
  }

  /** A folder that is its own parent: a table on which no round is ever empty. */
  lemma {:induction false} CycleNeverEnds(owner: string, name: string)
    ensures var table := [Folder("r", Some("r"), owner, name, false)];
            KeyUnique(table) && !Acyclic(table, "r") && forall n: nat :: Level(table, "r", n) != []
  {
    var f := Folder("r", Some("r"), owner, name, false);
    var table := [f];
    assert TableIds(table) == {"r"};
    assert At(table, "r", f, 0);
    assert IsParent(f, f) && At(table, "r", f, 1);
    EndsIffAcyclic(table, "r");
  }

  lemma {:induction false} EmptyRound(table: seq<Folder>, root: FolderId, from: nat) returns (n: nat)
    requires KeyUnique(table) && Acyclic(table, root)
    ensures Level(table, root, n) == []
    decreases |TableIds(table) - RowIds(UpTo(table, root, from))|
  {
    if Level(table, root, from + 1) == [] {
      n := from + 1;
    } else {
      RoundsRunOut(table, root, from);
      n := EmptyRound(table, root, from + 1);
    }
  }
}
