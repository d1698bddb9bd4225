/** Keyset paging: a listing pulled page by page, each page from whatever the database holds
    at that moment.  The order is any strict total order on (archive path, file id), so the
    database's collation does not matter. */
module Keyset {
  import opened Model
  import opened Paths

  datatype PageKey = PageKey(path: string, fileId: string)

  type Order = (PageKey, PageKey) -> bool

  const FILES_PAGE_SIZE := 5000

  function KeyOf(f: ArchiveFile): PageKey {
    PageKey(f.path, f.fileId)
  }

  ghost predicate StrictTotal(lt: Order) {
    && (forall a :: !lt(a, a))
    && (forall a, b, c :: Links(lt, a, b, c) ==> lt(a, c))
    && (forall a, b :: Comparable(lt, a, b))
  }

  predicate Links(lt: Order, a: PageKey, b: PageKey, c: PageKey) {
    lt(a, b) && lt(b, c)
  }

  predicate Comparable(lt: Order, a: PageKey, b: PageKey) {
    a == b || lt(a, b) || lt(b, a)
  }

  /** Bytewise order of paths, then of file IDs: one such order. */
  predicate ByPathThenId(a: PageKey, b: PageKey) {
    if a.path != b.path then AtMost(a.path, b.path) else a.fileId != b.fileId && AtMost(a.fileId, b.fileId)
  }

  lemma {:induction false} ByPathThenIdIsTotal(a: PageKey, b: PageKey)
    ensures Comparable(ByPathThenId, a, b)
  {
    AtMostTotal(a.path, b.path);
    AtMostTotal(a.fileId, b.fileId);
  }

  lemma {:induction false} ByPathThenIdIsTransitive(a: PageKey, b: PageKey, c: PageKey)
    requires Links(ByPathThenId, a, b, c)
    ensures ByPathThenId(a, c)
  {
    if a.path != b.path && b.path != c.path {
      AtMostTransitive(a.path, b.path, c.path);
      AtMostTotal(a.path, b.path);
    } else if a.path == b.path && b.path == c.path {
      AtMostTransitive(a.fileId, b.fileId, c.fileId);
      AtMostTotal(a.fileId, b.fileId);
    }
  }

  lemma {:induction false} ByPathThenIdIsStrictTotal()
    ensures StrictTotal(ByPathThenId)
  {
    forall a, b, c | Links(ByPathThenId, a, b, c) ensures ByPathThenId(a, c) {
      ByPathThenIdIsTransitive(a, b, c);
    }
    forall a, b ensures Comparable(ByPathThenId, a, b) {
      ByPathThenIdIsTotal(a, b);
    }
  }

  /** No two rows of one snapshot share a key. */
  predicate KeysUnique(rows: set<ArchiveFile>) {
    forall f, g :: f in rows && g in rows && KeyOf(f) == KeyOf(g) ==> f == g
  }

  predicate IsFirst(rows: set<ArchiveFile>, lt: Order, f: ArchiveFile) {
    f in rows && forall g :: g in rows ==> g == f || lt(KeyOf(f), KeyOf(g))
  }

  lemma {:induction false} FirstExists(rows: set<ArchiveFile>, lt: Order)
    requires StrictTotal(lt) && KeysUnique(rows) && rows != {}
    ensures exists f :: IsFirst(rows, lt, f)
    decreases |rows|
  {
    var f :| f in rows;
    if rows == {f} {
      assert IsFirst(rows, lt, f);
    } else {
      var rest := rows - {f};
      FirstExists(rest, lt);
      var g :| IsFirst(rest, lt, g);
      assert Comparable(lt, KeyOf(f), KeyOf(g));
      if lt(KeyOf(f), KeyOf(g)) {
        forall h | h in rows ensures h == f || lt(KeyOf(f), KeyOf(h)) {
          assert Links(lt, KeyOf(f), KeyOf(g), KeyOf(h)) || h == f || h == g;
        }
        assert IsFirst(rows, lt, f);
      } else {
        assert IsFirst(rows, lt, g);
      }
    }
  }

  lemma {:induction false} FirstUnique(rows: set<ArchiveFile>, lt: Order)
    requires StrictTotal(lt)
    ensures forall f, g :: IsFirst(rows, lt, f) && IsFirst(rows, lt, g) ==> f == g
  {
    forall f, g | IsFirst(rows, lt, f) && IsFirst(rows, lt, g) ensures f == g {
      assert f != g ==> Links(lt, KeyOf(f), KeyOf(g), KeyOf(f));
    }
  }

  /** `ORDER BY archive_path, file_id`. */
  function Listing(rows: set<ArchiveFile>, lt: Order): seq<ArchiveFile>
    requires StrictTotal(lt) && KeysUnique(rows)
    decreases |rows|
  {
    if rows == {} then []
    else
      FirstExists(rows, lt);
      FirstUnique(rows, lt);
      var f :| IsFirst(rows, lt, f);
      [f] + Listing(rows - {f}, lt)
  }

  ghost predicate Increasing(files: seq<ArchiveFile>, lt: Order) {
    forall i, j :: 0 <= i < j < |files| ==> lt(KeyOf(files[i]), KeyOf(files[j]))
  }

  lemma {:induction false} ListingSorted(rows: set<ArchiveFile>, lt: Order)
    requires StrictTotal(lt) && KeysUnique(rows)
    ensures Increasing(Listing(rows, lt), lt) && |Listing(rows, lt)| == |rows|
    ensures forall f :: f in Listing(rows, lt) <==> f in rows
    decreases |rows|
  {
    if rows != {} {
      var f := Listing(rows, lt)[0];
      assert f in rows;
      ListingSorted(rows - {f}, lt);
      assert Listing(rows, lt) == [f] + Listing(rows - {f}, lt);
    }
  }

  /** A set of rows has only one increasing listing. */
  lemma {:induction false} ListingUnique(rows: set<ArchiveFile>, lt: Order, files: seq<ArchiveFile>)
    requires StrictTotal(lt) && KeysUnique(rows) && Increasing(files, lt)
    requires forall f :: f in files <==> f in rows
    ensures files == Listing(rows, lt)
    decreases |rows|
  {
    if files == [] {
      assert rows == {};
    } else {
      assert files[0] in files;
      ListingSorted(rows, lt);
      var listing := Listing(rows, lt);
      var f := listing[0];
      assert f in files && files[0] in listing;
      assert files[0] != f ==> Links(lt, KeyOf(f), KeyOf(files[0]), KeyOf(f));
      assert files[0] == f;
      forall g ensures g in files[1..] <==> g in rows - {f} {
        assert files == [f] + files[1..];
        if g in files[1..] {
          var j :| 0 <= j < |files[1..]| && files[1..][j] == g;
          assert files[j + 1] == g;
        }
      }
      ListingUnique(rows - {f}, lt, files[1..]);
    }
  }

  /** A key comes once in an increasing listing. */
  lemma {:induction false} KeyOnce(files: seq<ArchiveFile>, lt: Order, i: nat, k: nat)
    requires StrictTotal(lt) && Increasing(files, lt)
    requires i < |files| && k < |files| && KeyOf(files[i]) == KeyOf(files[k])
    ensures i == k
  {
  }

  // ----- one page -----

  /** The keyset predicate: everything for a nil cursor, else the keys after it. */
  predicate After(cursor: Option<PageKey>, k: PageKey, lt: Order) {
    cursor.None? || lt(cursor.value, k)
  }

  function Beyond(rows: set<ArchiveFile>, cursor: Option<PageKey>, lt: Order): (r: set<ArchiveFile>)
    ensures KeysUnique(rows) ==> KeysUnique(r)
  {
    set f | f in rows && After(cursor, KeyOf(f), lt)
  }

  /** `getFilesPage`: the first `limit` rows after the cursor. */
  function Page(rows: set<ArchiveFile>, cursor: Option<PageKey>, lt: Order, limit: nat): seq<ArchiveFile>
    requires StrictTotal(lt) && KeysUnique(rows)
  {
    Limited(Listing(Beyond(rows, cursor, lt), lt), limit)
  }

  function Limited(listing: seq<ArchiveFile>, limit: nat): seq<ArchiveFile> {
    if |listing| <= limit then listing else listing[..limit]
  }

  predicate Present(rows: set<ArchiveFile>, k: PageKey) {
    exists f :: f in rows && KeyOf(f) == k
  }

  predicate Listed(files: seq<ArchiveFile>, k: PageKey) {
    exists i :: 0 <= i < |files| && KeyOf(files[i]) == k
  }

  ghost predicate AllAfter(files: seq<ArchiveFile>, cursor: Option<PageKey>, lt: Order) {
    forall i :: 0 <= i < |files| ==> After(cursor, KeyOf(files[i]), lt)
  }

  /** A page holds increasing rows after the cursor. */
  lemma {:induction false} PageOrdered(rows: set<ArchiveFile>, cursor: Option<PageKey>, lt: Order, limit: nat)
    requires StrictTotal(lt) && KeysUnique(rows) && limit > 0
    ensures var page := Page(rows, cursor, lt, limit);
            Increasing(page, lt) && |page| <= limit && AllAfter(page, cursor, lt)
  {
    var beyond := Beyond(rows, cursor, lt);
    var listing := Listing(beyond, lt);
    ListingSorted(beyond, lt);
    forall i | 0 <= i < |listing| ensures After(cursor, KeyOf(listing[i]), lt) {
      assert listing[i] in beyond;
    }
  }

  lemma {:induction false} PageHonest(rows: set<ArchiveFile>, cursor: Option<PageKey>, lt: Order, limit: nat,
      f: ArchiveFile)
    requires StrictTotal(lt) && KeysUnique(rows) && f in Page(rows, cursor, lt, limit)
    ensures f in rows
  {
    var beyond := Beyond(rows, cursor, lt);
    ListingSorted(beyond, lt);
    assert f in Listing(beyond, lt);
  }

  /** A present key after the cursor is on the page, or lies after the page's last row when the
      page is full. */
  lemma {:induction false} PageComplete(rows: set<ArchiveFile>, cursor: Option<PageKey>, lt: Order, limit: nat,
      k: PageKey)
    requires StrictTotal(lt) && KeysUnique(rows) && limit > 0 && Present(rows, k) && After(cursor, k, lt)
    ensures var page := Page(rows, cursor, lt, limit);
            Listed(page, k) || (|page| == limit && lt(KeyOf(page[limit - 1]), k))
  {
    var beyond := Beyond(rows, cursor, lt);
    var listing := Listing(beyond, lt);
    var page := Page(rows, cursor, lt, limit);
    ListingSorted(beyond, lt);
    var f :| f in rows && KeyOf(f) == k;
    assert f in listing;
    var i :| 0 <= i < |listing| && listing[i] == f;
    if i < |page| {
      assert KeyOf(page[i]) == k;
    }
  }

  // ----- the loop -----

  ghost predicate SnapshotsOk(db: seq<set<ArchiveFile>>) {
    forall i :: 0 <= i < |db| ==> KeysUnique(db[i])
  }

  /** The listing from the `i`-th query on, over the snapshots that successive queries see; `None`
      is an error, of the query after the last of them. */
  function Pages(db: seq<set<ArchiveFile>>, i: nat, cursor: Option<PageKey>, lt: Order, limit: nat)
      : Option<seq<ArchiveFile>>
    requires StrictTotal(lt) && SnapshotsOk(db) && limit > 0 && i <= |db|
    decreases |db| - i
  {
    if i == |db| then None
    else
      var page := Page(db[i], cursor, lt, limit);
      if |page| < limit then Some(page)
      else Prepended(page, Pages(db, i + 1, LastKey(page), lt, limit))
  }

  function Prepended(files: seq<ArchiveFile>, r: Option<seq<ArchiveFile>>): Option<seq<ArchiveFile>> {
    match r
    case None => None
    case Some(rest) => Some(files + rest)
  }

  /** The cursor after a page. */
  function LastKey(page: seq<ArchiveFile>): Option<PageKey> {
    if page == [] then None else Some(KeyOf(page[|page| - 1]))
  }

  /** The number of the last query a finished run makes, plus one. */
  function Asked(db: seq<set<ArchiveFile>>, i: nat, cursor: Option<PageKey>, lt: Order, limit: nat): (n: nat)
    requires StrictTotal(lt) && SnapshotsOk(db) && limit > 0 && i <= |db|
    ensures i <= n <= |db|
    decreases |db| - i
  {
    if i == |db| then i
    else
      var page := Page(db[i], cursor, lt, limit);
      if |page| < limit then i + 1 else Asked(db, i + 1, LastKey(page), lt, limit)
  }

  /** `GetFilesForFolderTree`. */
  method GetFiles(db: seq<set<ArchiveFile>>, lt: Order) returns (r: Option<seq<ArchiveFile>>)
    requires StrictTotal(lt) && SnapshotsOk(db)
    ensures r == Pages(db, 0, None, lt, FILES_PAGE_SIZE)
  {
    var files: seq<ArchiveFile> := [];
    var cursor: Option<PageKey> := None;
    PrependNothing(Pages(db, 0, None, lt, FILES_PAGE_SIZE));
    for i := 0 to |db|
      invariant Pages(db, 0, None, lt, FILES_PAGE_SIZE) == Prepended(files, Pages(db, i, cursor, lt, FILES_PAGE_SIZE))
    {
      var page := Page(db[i], cursor, lt, FILES_PAGE_SIZE);
      PagesTurn(db, i, cursor, lt, FILES_PAGE_SIZE, files);
      files := files + page;
      if |page| < FILES_PAGE_SIZE {
        return Some(files);
      }
      cursor := Some(KeyOf(page[|page| - 1]));
    }
    return None;
  }

  lemma {:induction false} PrependNothing(r: Option<seq<ArchiveFile>>)
    ensures Prepended([], r) == r
  {
    if r.Some? {
      assert [] + r.value == r.value;
    }
  }

  /** One turn of the loop. */
  lemma {:induction false} PagesTurn(db: seq<set<ArchiveFile>>, i: nat, cursor: Option<PageKey>, lt: Order,
      limit: nat, files: seq<ArchiveFile>)
    requires StrictTotal(lt) && SnapshotsOk(db) && limit > 0 && i < |db|
    ensures var page := Page(db[i], cursor, lt, limit);
            Prepended(files, Pages(db, i, cursor, lt, limit)) ==
            if |page| < limit then Some(files + page)
            else Prepended(files + page, Pages(db, i + 1, LastKey(page), lt, limit))
  {
    var page := Page(db[i], cursor, lt, limit);
    PrependTwice(files, page, Pages(db, i + 1, LastKey(page), lt, limit));
  }

  lemma {:induction false} PrependTwice(files: seq<ArchiveFile>, page: seq<ArchiveFile>, r: Option<seq<ArchiveFile>>)
    ensures Prepended(files, Prepended(page, r)) == Prepended(files + page, r)
  {
    if r.Some? {
      assert files + (page + r.value) == files + page + r.value;
    }
  }

  lemma {:induction false} PagingIncreasing(db: seq<set<ArchiveFile>>, i: nat, cursor: Option<PageKey>,
      lt: Order, limit: nat)
    requires StrictTotal(lt) && SnapshotsOk(db) && limit > 0 && i <= |db| && Pages(db, i, cursor, lt, limit).Some?
    ensures var files := Pages(db, i, cursor, lt, limit).value; Increasing(files, lt) && AllAfter(files, cursor, lt)
    decreases |db| - i
  {
    var page := Page(db[i], cursor, lt, limit);
    PageOrdered(db[i], cursor, lt, limit);
    if |page| >= limit {
      PagingIncreasing(db, i + 1, LastKey(page), lt, limit);
      PagesChain(page, Pages(db, i + 1, LastKey(page), lt, limit).value, cursor, lt);
    }
  }

  lemma {:induction false} PagingHonest(db: seq<set<ArchiveFile>>, i: nat, cursor: Option<PageKey>, lt: Order,
      limit: nat, f: ArchiveFile)
    returns (j: nat)
    requires StrictTotal(lt) && SnapshotsOk(db) && limit > 0 && i <= |db| && Pages(db, i, cursor, lt, limit).Some?
    requires f in Pages(db, i, cursor, lt, limit).value
    ensures i <= j < Asked(db, i, cursor, lt, limit) && f in db[j]
    decreases |db| - i
  {
    var page := Page(db[i], cursor, lt, limit);
    if f in page {
      j := i;
      PageHonest(db[i], cursor, lt, limit, f);
    } else {
      InRest(page, Pages(db, i + 1, LastKey(page), lt, limit), f);
      j := PagingHonest(db, i + 1, LastKey(page), lt, limit, f);
    }
  }

  lemma {:induction false} InRest(page: seq<ArchiveFile>, r: Option<seq<ArchiveFile>>, f: ArchiveFile)
    requires Prepended(page, r).Some? && f in Prepended(page, r).value && f !in page
    ensures r.Some? && f in r.value
  {
  }

  /** The key was there whenever the run asked. */
  ghost predicate AlwaysPresent(db: seq<set<ArchiveFile>>, i: nat, n: nat, k: PageKey)
    requires n <= |db|
  {
    forall j :: i <= j < n ==> Present(db[j], k)
  }

  lemma {:induction false} PagingComplete(db: seq<set<ArchiveFile>>, i: nat, cursor: Option<PageKey>, lt: Order,
      limit: nat, k: PageKey)
    requires StrictTotal(lt) && SnapshotsOk(db) && limit > 0 && i <= |db| && Pages(db, i, cursor, lt, limit).Some?
    requires After(cursor, k, lt) && AlwaysPresent(db, i, Asked(db, i, cursor, lt, limit), k)
    ensures Listed(Pages(db, i, cursor, lt, limit).value, k)
    decreases |db| - i
  {
    var page := Page(db[i], cursor, lt, limit);
    assert Present(db[i], k);
    PageComplete(db[i], cursor, lt, limit, k);
    if |page| >= limit {
      if !Listed(page, k) {
        PagingComplete(db, i + 1, LastKey(page), lt, limit, k);
      }
      ListedJoin(page, Pages(db, i + 1, LastKey(page), lt, limit).value, k);
    }
  }

  lemma {:induction false} ListedJoin(page: seq<ArchiveFile>, rest: seq<ArchiveFile>, k: PageKey)
    requires Listed(page, k) || Listed(rest, k)
    ensures Listed(page + rest, k)
  {
    if Listed(page, k) {
      var i :| 0 <= i < |page| && KeyOf(page[i]) == k;
      assert KeyOf((page + rest)[i]) == k;
    } else {
      var i :| 0 <= i < |rest| && KeyOf(rest[i]) == k;
      assert KeyOf((page + rest)[|page| + i]) == k;
    }
  }

  /** Whatever the database did between pages: the keys of a finished listing are strictly
      increasing (so none comes twice), every row was in the snapshot of one of its queries,
      and a key that was in every snapshot asked is in the listing. */
  lemma {:induction false} PagingExact(db: seq<set<ArchiveFile>>, lt: Order, k: PageKey)
    requires StrictTotal(lt) && SnapshotsOk(db) && Pages(db, 0, None, lt, FILES_PAGE_SIZE).Some?
    ensures var files := Pages(db, 0, None, lt, FILES_PAGE_SIZE).value;
            var n := Asked(db, 0, None, lt, FILES_PAGE_SIZE);
            && Increasing(files, lt)
            && (forall f :: f in files ==> exists i :: 0 <= i < n && f in db[i])
            && (AlwaysPresent(db, 0, n, k) ==> Listed(files, k))
  {
    var files := Pages(db, 0, None, lt, FILES_PAGE_SIZE).value;
    PagingIncreasing(db, 0, None, lt, FILES_PAGE_SIZE);
    forall f | f in files ensures exists i :: 0 <= i < Asked(db, 0, None, lt, FILES_PAGE_SIZE) && f in db[i] {
      var i := PagingHonest(db, 0, None, lt, FILES_PAGE_SIZE, f);
    }
    if AlwaysPresent(db, 0, Asked(db, 0, None, lt, FILES_PAGE_SIZE), k) {
      PagingComplete(db, 0, None, lt, FILES_PAGE_SIZE, k);
    }
  }

  /** A full page followed by rows after its last key. */
  lemma {:induction false} PagesChain(page: seq<ArchiveFile>, rest: seq<ArchiveFile>, cursor: Option<PageKey>,
      lt: Order)
    requires StrictTotal(lt) && page != [] && Increasing(page, lt) && Increasing(rest, lt)
    requires AllAfter(page, cursor, lt) && AllAfter(rest, Some(KeyOf(page[|page| - 1])), lt)
    ensures Increasing(page + rest, lt) && AllAfter(page + rest, cursor, lt)
  {
    var last := KeyOf(page[|page| - 1]);
    forall i, j | 0 <= i < |page| && 0 <= j < |rest| ensures lt(KeyOf(page[i]), KeyOf(rest[j])) {
      assert After(Some(last), KeyOf(rest[j]), lt);
      assert i < |page| - 1 ==> Links(lt, KeyOf(page[i]), last, KeyOf(rest[j]));
    }
    forall j | 0 <= j < |rest| ensures After(cursor, KeyOf(rest[j]), lt) {
      assert After(cursor, last, lt) && After(Some(last), KeyOf(rest[j]), lt);
      assert cursor.Some? ==> Links(lt, cursor.value, last, KeyOf(rest[j]));
    }
  }

  // ----- a database that stands still -----

  /** In an increasing listing of the rows after `cursor`, the rows after the one at
      `limit - 1` are the ones that follow it. */
  lemma {:induction false} TailIsBeyond(rows: set<ArchiveFile>, cursor: Option<PageKey>, lt: Order, limit: nat,
      listing: seq<ArchiveFile>, f: ArchiveFile)
    requires StrictTotal(lt) && 0 < limit <= |listing| && Increasing(listing, lt)
    requires forall g :: g in listing <==> g in Beyond(rows, cursor, lt)
    ensures f in listing[limit..] <==> f in Beyond(rows, Some(KeyOf(listing[limit - 1])), lt)
  {
    var last := listing[limit - 1];
    assert last in listing;
    if f in listing[limit..] {
      var j :| 0 <= j < |listing[limit..]| && listing[limit..][j] == f;
      assert listing[limit + j] == f && f in listing;
      assert Links(lt, KeyOf(last), KeyOf(f), KeyOf(f)) || lt(KeyOf(last), KeyOf(f));
    }
    if f in Beyond(rows, Some(KeyOf(last)), lt) {
      assert cursor.Some? ==> Links(lt, cursor.value, KeyOf(last), KeyOf(f));
      assert f in listing;
      var j :| 0 <= j < |listing| && listing[j] == f;
      assert j < limit - 1 ==> Links(lt, KeyOf(f), KeyOf(last), KeyOf(f));
      assert j >= limit;
      assert listing[limit..][j - limit] == f;
    }
  }

  /** The rows beyond a full page's last key are the rest of the listing. */
  lemma {:induction false} PageSplits(rows: set<ArchiveFile>, cursor: Option<PageKey>, lt: Order, limit: nat)
    requires StrictTotal(lt) && KeysUnique(rows) && limit > 0
    requires |Page(rows, cursor, lt, limit)| >= limit
    ensures var page := Page(rows, cursor, lt, limit);
            var rest := Beyond(rows, LastKey(Page(rows, cursor, lt, limit)), lt);
            && |Beyond(rows, cursor, lt)| == limit + |rest|
            && Listing(Beyond(rows, cursor, lt), lt) == page + Listing(rest, lt)
  {
    var listing := Listing(Beyond(rows, cursor, lt), lt);
    ListingSorted(Beyond(rows, cursor, lt), lt);
    FullPage(listing, limit);
    TailListing(rows, cursor, lt, limit, listing);
  }

  /** A full page is a prefix of the listing. */
  lemma {:induction false} FullPage(listing: seq<ArchiveFile>, limit: nat)
    requires limit > 0 && |Limited(listing, limit)| >= limit
    ensures limit <= |listing| && Limited(listing, limit) == listing[..limit]
    ensures LastKey(Limited(listing, limit)) == Some(KeyOf(listing[limit - 1]))
    ensures listing == Limited(listing, limit) + listing[limit..]
  {
  }

  lemma {:induction false} TailListing(rows: set<ArchiveFile>, cursor: Option<PageKey>, lt: Order, limit: nat,
      listing: seq<ArchiveFile>)
    requires StrictTotal(lt) && KeysUnique(rows) && 0 < limit <= |listing| && Increasing(listing, lt)
    requires forall g :: g in listing <==> g in Beyond(rows, cursor, lt)
    ensures var rest := Beyond(rows, Some(KeyOf(listing[limit - 1])), lt);
            listing[limit..] == Listing(rest, lt) && |rest| == |listing| - limit
  {
    var rest := Beyond(rows, Some(KeyOf(listing[limit - 1])), lt);
    assert Increasing(listing[limit..], lt);
    assert forall f :: f in listing[limit..] <==> f in rest by {
      forall f ensures f in listing[limit..] <==> f in rest {
        TailIsBeyond(rows, cursor, lt, limit, listing, f);
      }
    }
    ListingUnique(rest, lt, listing[limit..]);
    ListingSorted(rest, lt);
  }

  lemma {:induction false} FixedOk(db: seq<set<ArchiveFile>>, rows: set<ArchiveFile>)
    requires KeysUnique(rows) && forall j :: 0 <= j < |db| ==> db[j] == rows
    ensures SnapshotsOk(db)
  {
  }

  /** A page that is not full is the whole listing. */
  lemma {:induction false} ShortPage(listing: seq<ArchiveFile>, limit: nat)
    requires |Limited(listing, limit)| < limit
    ensures Limited(listing, limit) == listing
  {
  }

  /** The last query, or a full page and the rest. */
  lemma {:induction false} FixedTurn(db: seq<set<ArchiveFile>>, i: nat, rows: set<ArchiveFile>,
      cursor: Option<PageKey>, lt: Order, limit: nat)
    requires StrictTotal(lt) && KeysUnique(rows) && SnapshotsOk(db) && limit > 0 && i < |db| && db[i] == rows
    ensures var page := Page(rows, cursor, lt, limit);
            Pages(db, i, cursor, lt, limit) ==
            if |page| < limit then Some(Listing(Beyond(rows, cursor, lt), lt))
            else Prepended(page, Pages(db, i + 1, LastKey(page), lt, limit))
  {
    if |Page(rows, cursor, lt, limit)| < limit {
      ShortPage(Listing(Beyond(rows, cursor, lt), lt), limit);
    }
  }

  /** A full page, if the rest of the listing follows. */
  lemma {:induction false} FixedStep(db: seq<set<ArchiveFile>>, i: nat, rows: set<ArchiveFile>,
      cursor: Option<PageKey>, lt: Order, limit: nat)
    requires StrictTotal(lt) && KeysUnique(rows) && SnapshotsOk(db) && limit > 0 && i < |db| && db[i] == rows
    requires |Page(rows, cursor, lt, limit)| >= limit
    requires var next := LastKey(Page(rows, cursor, lt, limit));
             Pages(db, i + 1, next, lt, limit) == Some(Listing(Beyond(rows, next, lt), lt))
    ensures Pages(db, i, cursor, lt, limit) == Some(Listing(Beyond(rows, cursor, lt), lt))
  {
    FixedTurn(db, i, rows, cursor, lt, limit);
    PageSplits(rows, cursor, lt, limit);
  }

  lemma {:induction false} FewerBeyond(rows: set<ArchiveFile>, cursor: Option<PageKey>, lt: Order, limit: nat)
    requires StrictTotal(lt) && KeysUnique(rows) && limit > 0
    requires |Page(rows, cursor, lt, limit)| >= limit
    ensures |Beyond(rows, cursor, lt)| == limit + |Beyond(rows, LastKey(Page(rows, cursor, lt, limit)), lt)|
  {
    PageSplits(rows, cursor, lt, limit);
  }

  /** On one unchanging snapshot the loop returns exactly its sorted listing, after at most
      one query per full page and one more. */
  lemma {:induction false} PagingFixed(db: seq<set<ArchiveFile>>, i: nat, rows: set<ArchiveFile>,
      cursor: Option<PageKey>, lt: Order, limit: nat)
    requires StrictTotal(lt) && KeysUnique(rows) && SnapshotsOk(db) && limit > 0 && i <= |db|
    requires forall j :: i <= j < |db| ==> db[j] == rows
    requires |Beyond(rows, cursor, lt)| < Room(|db| - i, limit)
    ensures Pages(db, i, cursor, lt, limit) == Some(Listing(Beyond(rows, cursor, lt), lt))
    decreases |db| - i
  {
    if |Page(rows, cursor, lt, limit)| < limit {
      FixedTurn(db, i, rows, cursor, lt, limit);
    } else {
      FewerBeyond(rows, cursor, lt, limit);
      PagingFixed(db, i + 1, rows, LastKey(Page(rows, cursor, lt, limit)), lt, limit);
      FixedStep(db, i, rows, cursor, lt, limit);
    }
  }

  /** How many rows `n` full pages hold. */
  function Room(n: nat, limit: nat): nat {
    if n == 0 then 0 else Room(n - 1, limit) + limit
  }

  lemma {:induction false} RoomEnough(n: nat, limit: nat)
    requires limit > 0
    ensures n <= Room(n, limit) == n * limit
  {
    if n > 0 {
      RoomEnough(n - 1, limit);
      assert (n - 1) * limit + limit == n * limit;
    }
  }

  /** The rows of a page that is not full are all there are. */
  lemma {:induction false} ShortCount(rows: set<ArchiveFile>, cursor: Option<PageKey>, lt: Order, limit: nat)
    requires StrictTotal(lt) && KeysUnique(rows) && |Page(rows, cursor, lt, limit)| < limit
    ensures |Beyond(rows, cursor, lt)| < limit
  {
    ShortPage(Listing(Beyond(rows, cursor, lt), lt), limit);
    ListingSorted(Beyond(rows, cursor, lt), lt);
  }

  /** `count` rows on equal snapshots: `n` queries got full pages but the last, or all `queries` did. */
  ghost predicate AskedEnough(r: Option<seq<ArchiveFile>>, count: nat, n: nat, queries: nat, limit: nat) {
    if count >= Room(queries, limit) then r == None
    else 0 < n && Room(n - 1, limit) <= count < Room(n, limit)
  }

  lemma {:induction false} OneAsked(r: Option<seq<ArchiveFile>>, count: nat, queries: nat, limit: nat)
    requires count < limit && queries > 0
    ensures AskedEnough(r, count, 1, queries, limit)
  {
    assert Room(1, limit) == limit;
    RoomGrows(1, queries, limit);
  }

  lemma {:induction false} OneMoreAsked(page: seq<ArchiveFile>, r: Option<seq<ArchiveFile>>, count: nat, n: nat,
      queries: nat, limit: nat)
    requires AskedEnough(r, count, n, queries, limit)
    ensures AskedEnough(Prepended(page, r), limit + count, n + 1, queries + 1, limit)
  {
  }

  /** `AskedEnough` from the `i`-th query on. */
  ghost predicate EnoughFrom(db: seq<set<ArchiveFile>>, i: nat, rows: set<ArchiveFile>, cursor: Option<PageKey>,
      lt: Order, limit: nat)
    requires StrictTotal(lt) && SnapshotsOk(db) && limit > 0 && i <= |db|
  {
    AskedEnough(Pages(db, i, cursor, lt, limit), |Beyond(rows, cursor, lt)|,
                Asked(db, i, cursor, lt, limit) - i, |db| - i, limit)
  }

  lemma {:induction false} LastAsked(db: seq<set<ArchiveFile>>, i: nat, rows: set<ArchiveFile>,
      cursor: Option<PageKey>, lt: Order, limit: nat)
    requires StrictTotal(lt) && KeysUnique(rows) && SnapshotsOk(db) && limit > 0 && i < |db| && db[i] == rows
    requires |Page(rows, cursor, lt, limit)| < limit
    ensures EnoughFrom(db, i, rows, cursor, lt, limit)
  {
    ShortCount(rows, cursor, lt, limit);
    OneAsked(Pages(db, i, cursor, lt, limit), |Beyond(rows, cursor, lt)|, |db| - i, limit);
  }

  lemma {:induction false} NextAsked(db: seq<set<ArchiveFile>>, i: nat, rows: set<ArchiveFile>,
      cursor: Option<PageKey>, lt: Order, limit: nat)
    requires StrictTotal(lt) && KeysUnique(rows) && SnapshotsOk(db) && limit > 0 && i < |db| && db[i] == rows
    requires |Page(rows, cursor, lt, limit)| >= limit
    requires EnoughFrom(db, i + 1, rows, LastKey(Page(rows, cursor, lt, limit)), lt, limit)
    ensures EnoughFrom(db, i, rows, cursor, lt, limit)
  {
    var page := Page(rows, cursor, lt, limit);
    var next := LastKey(page);
    FewerBeyond(rows, cursor, lt, limit);
    OneMoreAsked(page, Pages(db, i + 1, next, lt, limit), |Beyond(rows, next, lt)|,
                 Asked(db, i + 1, next, lt, limit) - i - 1, |db| - i - 1, limit);
  }

  /** Too few snapshots end the run in an error; otherwise every query but the last got a full
      page, and the last did not. */
  lemma {:induction false} AskedFixed(db: seq<set<ArchiveFile>>, i: nat, rows: set<ArchiveFile>,
      cursor: Option<PageKey>, lt: Order, limit: nat)
    requires StrictTotal(lt) && KeysUnique(rows) && SnapshotsOk(db) && limit > 0 && i <= |db|
    requires forall j :: i <= j < |db| ==> db[j] == rows
    ensures EnoughFrom(db, i, rows, cursor, lt, limit)
    decreases |db| - i
  {
    if i < |db| {
      if |Page(rows, cursor, lt, limit)| < limit {
        LastAsked(db, i, rows, cursor, lt, limit);
      } else {
        AskedFixed(db, i + 1, rows, LastKey(Page(rows, cursor, lt, limit)), lt, limit);
        NextAsked(db, i, rows, cursor, lt, limit);
      }
    }
  }

  lemma {:induction false} RoomGrows(m: nat, n: nat, limit: nat)
    requires m <= n
    ensures Room(m, limit) <= Room(n, limit)
  {
    if m < n {
      RoomGrows(m, n - 1, limit);
    }
  }

  /** On one unchanging snapshot pages of 5000 rows are asked for until one is not full: the run
      returns the sorted listing after one query per full page and one more, and an error exactly
      when fewer queries than that are answered. */
  lemma {:induction false} QueriesExact(db: seq<set<ArchiveFile>>, rows: set<ArchiveFile>, lt: Order)
    requires StrictTotal(lt) && KeysUnique(rows) && SnapshotsOk(db)
    requires forall j :: 0 <= j < |db| ==> db[j] == rows
    ensures Pages(db, 0, None, lt, FILES_PAGE_SIZE) ==
            if |rows| < |db| * 5000 then Some(Listing(rows, lt)) else None
    ensures |rows| < |db| * 5000 ==> Asked(db, 0, None, lt, FILES_PAGE_SIZE) == |rows| / 5000 + 1
  {
    assert Beyond(rows, None, lt) == rows;
    RoomEnough(|db|, FILES_PAGE_SIZE);
    AskedFixed(db, 0, rows, None, lt, FILES_PAGE_SIZE);
    if |rows| < |db| * FILES_PAGE_SIZE {
      PagingFixed(db, 0, rows, None, lt, FILES_PAGE_SIZE);
      AskedCount(|rows|, Asked(db, 0, None, lt, FILES_PAGE_SIZE));
    }
  }

  lemma {:induction false} AskedCount(count: nat, n: nat)
    requires 0 < n && Room(n - 1, FILES_PAGE_SIZE) <= count < Room(n, FILES_PAGE_SIZE)
    ensures n == count / 5000 + 1
  {
    RoomEnough(n, FILES_PAGE_SIZE);
    RoomEnough(n - 1, FILES_PAGE_SIZE);
  }
}
