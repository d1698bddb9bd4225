/** Both halves together: what a download serves is the folder tree. */
module ServedTree {
  import opened Model
  import opened Protocol
  import opened JobLifecycle
  import opened Downloads
  import opened Provenance
  import Naming
  import K = Keyset
  import G = Generator
  import M = Manifest
  import E = EndToEnd
  import T = FolderTree
  import P = Pipeline

  /** How a container format lays out its entries and what it appends to them. */
  datatype Layout = Layout(block: G.Entry -> Bytes, trailer: seq<G.Entry> -> Bytes)

  function Blocks(layout: Layout, entries: seq<G.Entry>): (blocks: seq<Bytes>)
    ensures |blocks| == |entries| && forall i :: 0 <= i < |entries| ==> blocks[i] == layout.block(entries[i])
  {
    seq(|entries|, i requires 0 <= i < |entries| => layout.block(entries[i]))
  }

  /** The bytes of an archive with these entries. */
  function ArchiveBytes(layout: Layout, entries: seq<G.Entry>): Bytes {
    Joined(Blocks(layout, entries)) + layout.trailer(entries)
  }

  /** A job: the database snapshot and the outside world it meets, and what the client asked for. */
  datatype Request = Request(
    db: M.Database,
    root: T.FolderId,
    raw: string,
    lt: K.Order,
    world: G.World,
    format: ExportType)

  ghost predicate RequestOk(req: Request) {
    && M.DatabaseOk(req.db, req.root) && K.StrictTotal(req.lt)
    && Naming.ValidateArchiveName(req.raw).Some?
  }

  function Top(req: Request): string
    requires Naming.ValidateArchiveName(req.raw).Some?
  {
    Naming.RootDir(Naming.ValidateArchiveName(req.raw).value)
  }

  /** `plan` is what `Generate` writes for the request when it succeeds with these entries: a block
      per manifest file, then the blocks of the folders and the trailer. */
  ghost predicate PlanFor(layout: Layout, m: M.ArchiveManifest, entries: seq<G.Entry>, plan: Plan) {
    var n := |m.files|;
    && n <= |entries|
    && plan.files == Blocks(layout, entries[..n])
    && plan.trailer == Joined(Blocks(layout, entries[n..])) + layout.trailer(entries)
    && (m.totalBytes >= 0 ==> plan.declared == m.totalBytes)
  }

  /** The plan comes from the request: from the manifest of its snapshot and a run that succeeds. */
  ghost predicate Writes(layout: Layout, req: Request, max: nat, plan: Plan)
    requires RequestOk(req)
  {
    exists rows, entries :: T.DistinctRows(rows) &&
      M.ListsTree(req.db.folders, req.root, rows) &&
      P.Expected(req.db, rows, req.lt, Top(req), req.world, max, req.format) == Some(entries) &&
      PlanFor(layout, M.ManifestOf(req.db, rows, req.lt, Top(req)), entries, plan)
  }

  // ----- the bytes -----

  lemma {:induction false} JoinedLast(a: seq<Bytes>, end: Bytes)
    ensures Joined(a + [end]) == Joined(a) + end
  {
    assert (a + [end])[..|a|] == a;
  }

  lemma {:induction false} JoinedSnoc(a: seq<Bytes>, front: seq<Bytes>, end: Bytes)
    requires Joined(a + front) == Joined(a) + Joined(front)
    ensures Joined(a + (front + [end])) == Joined(a) + Joined(front + [end])
  {
    JoinedLast(a + front, end);
    JoinedLast(front, end);
    assert a + (front + [end]) == (a + front) + [end];
    Regroup(Joined(a), Joined(front), end);
  }

  lemma {:induction false} Regroup(x: Bytes, y: Bytes, z: Bytes)
    ensures (x + y) + z == x + (y + z)
  {
  }

  lemma {:induction false} JoinedAppend(a: seq<Bytes>, b: seq<Bytes>)
    ensures Joined(a + b) == Joined(a) + Joined(b)
  {
    if b == [] {
      assert a + b == a;
    } else {
      var front, end := b[..|b| - 1], b[|b| - 1];
      JoinedAppend(a, front);
      JoinedSnoc(a, front, end);
      assert front + [end] == b;
    }
  }

  lemma {:induction false} OutputIsArchive(layout: Layout, m: M.ArchiveManifest, entries: seq<G.Entry>, plan: Plan)
    requires PlanFor(layout, m, entries, plan)
    ensures Output(plan) == ArchiveBytes(layout, entries)
  {
    var n := |m.files|;
    var a, b := Blocks(layout, entries[..n]), Blocks(layout, entries[n..]);
    assert Blocks(layout, entries) == a + b;
    JoinedAppend(a, b);
  }

  /** The bytes are those of an archive that is the folder tree of the request. */
  ghost predicate IsTreeArchive(layout: Layout, req: Request, max: nat, body: Bytes)
    requires Naming.ValidateArchiveName(req.raw).Some?
  {
    exists entries :: body == ArchiveBytes(layout, entries) &&
      P.IsTheTree(req.db, req.root, Top(req), req.world, entries) && G.Content(entries) <= max
  }

  lemma {:induction false} WrittenIsTree(layout: Layout, req: Request, max: nat, plan: Plan)
    requires RequestOk(req) && E.NamesOk(req.db, req.root) && max < G.MAX_INT64 && Writes(layout, req, max, plan)
    ensures IsTreeArchive(layout, req, max, Output(plan))
  {
    var rows, entries :| T.DistinctRows(rows) &&
      M.ListsTree(req.db.folders, req.root, rows) &&
      P.Expected(req.db, rows, req.lt, Top(req), req.world, max, req.format) == Some(entries) &&
      PlanFor(layout, M.ManifestOf(req.db, rows, req.lt, Top(req)), entries, plan);
    OutputIsArchive(layout, M.ManifestOf(req.db, rows, req.lt, Top(req)), entries, plan);
    ExpectedIsTree(req, rows, max, entries);
  }

  lemma {:induction false} ExpectedIsTree(req: Request, rows: seq<T.Row>, max: nat, entries: seq<G.Entry>)
    requires RequestOk(req) && E.NamesOk(req.db, req.root) && max < G.MAX_INT64
    requires M.ListsTree(req.db.folders, req.root, rows)
    requires P.Expected(req.db, rows, req.lt, Top(req), req.world, max, req.format) == Some(entries)
    ensures P.IsTheTree(req.db, req.root, Top(req), req.world, entries) && G.Content(entries) <= max
  {
    Naming.RootIsSafe(req.raw);
    P.SuccessIsTree(req.db, req.root, req.lt, Top(req), rows, req.world, max, req.format);
  }

  // ----- what is published -----

  /** The step of `Generate` at which worker `w` succeeds is one of the archive pipeline: what it has
      written is what the pipeline makes of the request of its job. */
  ghost predicate IsGenuine(run: seq<State>, i: nat, w: nat, layout: Layout, requests: JobId -> Request) {
    && i < |run| && w < |run[i].workers| && run[i].workers[w].Writing?
    && var id, plan := run[i].workers[w].job.id, run[i].workers[w].plan;
       RequestOk(requests(id)) && Writes(layout, requests(id), run[i].cfg.maxSizeBytes, plan)
  }

  /** A run whose workers generate archives as the pipeline does. */
  ghost predicate Genuine(run: seq<State>, layout: Layout, requests: JobId -> Request) {
    forall i, w :: Generates(run, i, w) ==> IsGenuine(run, i, w, layout, requests)
  }

  /** In every state of every such run, whatever sits at a job's final path is an archive that is
      the folder tree of the job's request. */
  lemma {:induction false} PublishedIsTheTree(run: seq<State>, k: nat, id: JobId, layout: Layout,
      requests: JobId -> Request)
    requires Run(run) && k < |run| && Genuine(run, layout, requests)
    requires id in run[k].born && id in run[k].disk.final
    requires E.NamesOk(requests(id).db, requests(id).root) && run[0].cfg.maxSizeBytes < G.MAX_INT64
    ensures id in run[k].plans && RequestOk(requests(id))
    ensures IsTreeArchive(layout, requests(id), run[0].cfg.maxSizeBytes, Output(run[k].plans[id]))
    ensures var ino := run[k].disk.final[id];
            ino in run[k].disk.inodes && run[k].disk.inodes[ino] == Inode(Output(run[k].plans[id]), true)
  {
    FinalIsComplete(run, k, k, id);
    var i, w := FinalWasGenerated(run, k, id);
    assert IsGenuine(run, i, w, layout, requests);
    RunConstants(run, i);
    WrittenIsTree(layout, requests(id), run[0].cfg.maxSizeBytes, run[k].plans[id]);
  }

  // ----- what is served -----

  /** A body that is served is the whole output of the job's one plan. */
  lemma {:induction false} ServedIsOutput(run: seq<State>, a: nat, b: nat, c: nat, id: JobId, tok: Token, body: Bytes)
    requires Run(run) && a <= b <= c < |run| && Download(run[a], run[b], run[c], id, tok) == Served(body)
    ensures id in run[c].born && id in run[c].disk.final && id in run[c].plans && body == Output(run[c].plans[id])
  {
    StoredIsBorn(run, a, id);
    RecordsAdvance(run, a, c, id);
    FinalIsComplete(run, c, c, id);
  }

  /** In every run whose workers generate archives as the pipeline does, whatever a download serves,
      however its calls are interleaved, is an archive that is the folder tree of the job's
      request. */
  lemma {:induction false} ServedIsTheTree(run: seq<State>, a: nat, b: nat, c: nat, id: JobId, tok: Token, body: Bytes,
      layout: Layout, requests: JobId -> Request)
    requires Run(run) && a <= b <= c < |run| && Download(run[a], run[b], run[c], id, tok) == Served(body)
    requires Genuine(run, layout, requests)
    requires E.NamesOk(requests(id).db, requests(id).root) && run[0].cfg.maxSizeBytes < G.MAX_INT64
    ensures RequestOk(requests(id)) && IsTreeArchive(layout, requests(id), run[0].cfg.maxSizeBytes, body)
  {
    ServedIsOutput(run, a, b, c, id, tok, body);
    PublishedIsTheTree(run, c, id, layout, requests);
  }

  /** And a job seen completed goes on serving it up to its expiry, if every sweep that overlapped
      its published file saw it unexpired. */
  lemma {:induction false} TreeStaysDownloadable(run: seq<State>, i: nat, a: nat, b: nat, c: nat, id: JobId,
      job: JobRecord, layout: Layout, requests: JobId -> Request)
      returns (body: Bytes)
    requires Run(run) && i <= a <= b <= c < |run| && SparedThrough(run, c, id)
    requires Live(run[i], id, job) && run[c].now <= job.expiresAt.value
    requires Genuine(run, layout, requests)
    requires E.NamesOk(requests(id).db, requests(id).root) && run[0].cfg.maxSizeBytes < G.MAX_INT64
    ensures Download(run[a], run[b], run[c], id, job.token.value) == Served(body)
    ensures RequestOk(requests(id)) && IsTreeArchive(layout, requests(id), run[0].cfg.maxSizeBytes, body)
  {
    StaysDownloadable(run, i, a, b, c, id, job);
    body := Output(run[c].plans[id]);
    ServedIsTheTree(run, a, b, c, id, job.token.value, body, layout, requests);
  }
}
